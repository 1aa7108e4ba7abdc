/**
 * Bracket matching over a token list, as the interpreters of
 * pkg/gen/interp/interp.go and pkg/dbg/debug.go do it at run time: a depth
 * counter that starts at 1 on the bracket and moves by one on every bracket
 * passed.  Span is the net nesting of a stretch of tokens; the match
 * predicates say where a depth-counting scan stops.
 */
module Brackets {
  import opened Lexer

  /** The change of nesting depth a token causes when passed left to right. */
  function Delta(t: Token): int
  {
    if t.kind == LoopOpen then 1 else if t.kind == LoopClose then -1 else 0
  }

  /** Opening minus closing brackets among ts[lo..hi]. */
  function Span(ts: seq<Token>, lo: int, hi: int): int
    requires 0 <= lo <= hi <= |ts|
    decreases hi - lo
  {
    if lo == hi then 0 else Span(ts, lo, hi - 1) + Delta(ts[hi - 1])
  }

  /** The nesting depth after passing ts[k], counting ts[lo..k] inclusive. */
  function Depth(ts: seq<Token>, lo: int, k: int): int
    requires 0 <= lo <= k < |ts|
  {
    Span(ts, lo, k + 1)
  }

  /**
   * ts[j] is the bracket that closes the '[' at i: the brackets of ts[i..j]
   * balance, and those of every shorter stretch ts[i..k] leave some open.
   */
  predicate IsForwardMatch(ts: seq<Token>, i: int, j: int)
  {
    && 0 <= i < j < |ts|
    && ts[i].kind == LoopOpen
    && Depth(ts, i, j) == 0
    && forall k | i <= k < j :: Depth(ts, i, k) > 0
  }

  /** The '[' at i is closed by no later token. */
  predicate NoForwardMatch(ts: seq<Token>, i: int)
  {
    && 0 <= i < |ts|
    && forall k | i <= k < |ts| :: Depth(ts, i, k) > 0
  }

  /**
   * ts[i] is the bracket that opens the ']' at j: the brackets of ts[i..j]
   * balance, and every shorter stretch ts[k..j] has more closing ones.
   */
  predicate IsBackwardMatch(ts: seq<Token>, i: int, j: int)
  {
    && 0 <= i < j < |ts|
    && ts[j].kind == LoopClose
    && Depth(ts, i, j) == 0
    && forall k | i < k <= j :: Depth(ts, k, j) < 0
  }

  /** The ']' at j is opened by no earlier token. */
  predicate NoBackwardMatch(ts: seq<Token>, j: int)
  {
    && 0 <= j < |ts|
    && forall k | 0 <= k <= j :: Depth(ts, k, j) < 0
  }

  /** Every prefix has at least as many '[' as ']', and the whole list has as many. */
  predicate Balanced(ts: seq<Token>)
  {
    && Span(ts, 0, |ts|) == 0
    && forall k | 0 <= k <= |ts| :: Span(ts, 0, k) >= 0
  }

  // ---------------------------------------------------------------------------
  // Lemmas about Span

  lemma {:induction false} SpanSplit(ts: seq<Token>, lo: int, mid: int, hi: int)
    requires 0 <= lo <= mid <= hi <= |ts|
    ensures Span(ts, lo, hi) == Span(ts, lo, mid) + Span(ts, mid, hi)
    decreases hi - mid
  {
    if mid < hi {
      SpanSplit(ts, lo, mid, hi - 1);
    }
  }

  lemma SpanCons(ts: seq<Token>, lo: int, hi: int)
    requires 0 <= lo < hi <= |ts|
    ensures Span(ts, lo, hi) == Delta(ts[lo]) + Span(ts, lo + 1, hi)
  {
    SpanSplit(ts, lo, lo + 1, hi);
  }

  // ---------------------------------------------------------------------------
  // The landing positions of the two scans

  /** The first k at or after `from` where ts[i..k] balances, or |ts|. */
  function ForwardFrom(ts: seq<Token>, i: int, from: int): (j: int)
    requires 0 <= i < from <= |ts| && ts[i].kind == LoopOpen
    requires forall k | i <= k < from :: Depth(ts, i, k) > 0
    ensures from <= j <= |ts|
    ensures forall k | i <= k < j :: Depth(ts, i, k) > 0
    ensures j < |ts| ==> Depth(ts, i, j) == 0
    decreases |ts| - from
  {
    if from == |ts| then from
    else if Depth(ts, i, from) == 0 then from
    else
      assert Depth(ts, i, from - 1) > 0;
      ForwardFrom(ts, i, from + 1)
  }

  /**
   * Where the forward scan from the '[' at i stops: the index of its
   * matching ']', or |ts| when there is none.
   */
  function MatchForward(ts: seq<Token>, i: int): (j: int)
    requires 0 <= i < |ts| && ts[i].kind == LoopOpen
    ensures i < j <= |ts|
    ensures j < |ts| <==> IsForwardMatch(ts, i, j)
    ensures j == |ts| <==> NoForwardMatch(ts, i)
  {
    assert Span(ts, i, i) == 0;
    assert Depth(ts, i, i) == 1;
    ForwardFrom(ts, i, i + 1)
  }

  /** The last k at or before `from` where ts[k..j] balances, or -1. */
  function BackwardFrom(ts: seq<Token>, j: int, from: int): (i: int)
    requires -1 <= from < j < |ts| && ts[j].kind == LoopClose
    requires forall k | from < k <= j :: Depth(ts, k, j) < 0
    ensures -1 <= i <= from
    ensures forall k | i < k <= j :: Depth(ts, k, j) < 0
    ensures i >= 0 ==> Depth(ts, i, j) == 0
    decreases from + 1
  {
    if from == -1 then -1
    else if Depth(ts, from, j) == 0 then from
    else
      SpanCons(ts, from, j + 1);
      assert Depth(ts, from + 1, j) < 0;
      BackwardFrom(ts, j, from - 1)
  }

  /**
   * Where the backward scan from the ']' at j stops: the index of its
   * matching '[', or -1 when there is none.
   */
  function MatchBackward(ts: seq<Token>, j: int): (i: int)
    requires 0 <= j < |ts| && ts[j].kind == LoopClose
    ensures -1 <= i < j
    ensures i >= 0 <==> IsBackwardMatch(ts, i, j)
    ensures i == -1 <==> NoBackwardMatch(ts, j)
  {
    assert Span(ts, j, j) == 0;
    assert Depth(ts, j, j) == -1;
    BackwardFrom(ts, j, j - 1)
  }

  // ---------------------------------------------------------------------------
  // Properties of matching

  /** The forward skip from i lands on j exactly when the back-scan from j lands on i. */
  lemma {:induction false} MatchSymmetric(ts: seq<Token>, i: int, j: int)
    requires 0 <= i < j < |ts|
    ensures IsForwardMatch(ts, i, j) <==> IsBackwardMatch(ts, i, j)
  {
    if IsForwardMatch(ts, i, j) {
      assert Depth(ts, i, j - 1) > 0;
      assert ts[j].kind == LoopClose;
      forall k | i < k <= j
        ensures Depth(ts, k, j) < 0
      {
        SpanSplit(ts, i, k, j + 1);
        assert Depth(ts, i, k - 1) > 0;
      }
    }
    if IsBackwardMatch(ts, i, j) {
      SpanCons(ts, i, j + 1);
      assert Depth(ts, i + 1, j) < 0;
      assert ts[i].kind == LoopOpen;
      forall k | i <= k < j
        ensures Depth(ts, i, k) > 0
      {
        SpanSplit(ts, i, k + 1, j + 1);
        assert Depth(ts, k + 1, j) < 0;
      }
    }
  }

  /** The back-scan from a loop's ']' returns to the '[' the forward skip started from, and conversely. */
  lemma ScansAreInverse(ts: seq<Token>, i: int, j: int)
    requires 0 <= i < j < |ts|
    ensures ts[i].kind == LoopOpen && MatchForward(ts, i) == j
        <==> ts[j].kind == LoopClose && MatchBackward(ts, j) == i
  {
    MatchSymmetric(ts, i, j);
    if ts[i].kind == LoopOpen && MatchForward(ts, i) == j {
      var i' := MatchBackward(ts, j);
      assert Depth(ts, i, j) == 0;
    }
    if ts[j].kind == LoopClose && MatchBackward(ts, j) == i {
      var j' := MatchForward(ts, i);
      assert Depth(ts, i, j) == 0;
    }
  }

  /** In a balanced list every '[' has a matching ']'. */
  lemma BalancedForward(ts: seq<Token>, i: int)
    requires Balanced(ts) && 0 <= i < |ts| && ts[i].kind == LoopOpen
    ensures MatchForward(ts, i) < |ts|
  {
    SpanSplit(ts, 0, i, |ts|);
    assert Span(ts, 0, i) >= 0;
    assert Depth(ts, i, |ts| - 1) <= 0;
  }

  /** In a balanced list every ']' has a matching '['. */
  lemma BalancedBackward(ts: seq<Token>, j: int)
    requires Balanced(ts) && 0 <= j < |ts| && ts[j].kind == LoopClose
    ensures MatchBackward(ts, j) >= 0
  {
    assert Span(ts, 0, j + 1) >= 0;
    assert Depth(ts, 0, j) >= 0;
  }
}
