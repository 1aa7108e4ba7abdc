/**
 * The debugger machine of pkg/dbg/debug.go: the interpreter's machine with
 * a `step` hook, called before every dispatched token and after every token
 * a bracket scan passes, and a `curToken` field naming the token last
 * dispatched.
 *
 * The hook's answer is discarded by the Go code, and what the hook does
 * besides answering (sleeping, waiting on a channel) is left out: it is
 * modelled by a function from the call number to the error it would report,
 * and a counter of the calls made.  Every method here is proved against the
 * interpreter's own Step and Run, which is the statement that the debugger
 * computes exactly what the interpreter computes.
 */
module Dbg {
  import opened Lexer
  import opened Brackets
  import opened Interp

  datatype Option<T> = None | Some(value: T)

  /** A step hook: whether its n-th call reports an error (the answer is ignored). */
  type StepFn = nat -> bool

  /** The hook a fresh debugger has, which never reports an error. */
  function NoStep(n: nat): bool
  {
    false
  }

  /** The token dispatched at `s` makes a bracket scan. */
  predicate Scans(s: State)
    requires 0 <= s.offset < |s.tokens|
  {
    && OnTape(s)
    && ((s.tokens[s.offset].kind == LoopOpen && s.memory[s.ptr] == 0)
        || (s.tokens[s.offset].kind == LoopClose && s.memory[s.ptr] != 0))
  }

  /**
   * The hook calls one dispatch makes inside a bracket scan: one for every
   * token the scan reads, which is all the tokens between the bracket and
   * where it stops, except the index that lies off the list when it panics.
   */
  function ScanSteps(s: State): nat
    requires 0 <= s.offset < |s.tokens|
  {
    if !Scans(s) then 0
    else if s.tokens[s.offset].kind == LoopOpen then
      var j := MatchForward(s.tokens, s.offset);
      if j < |s.tokens| then j - s.offset else j - s.offset - 1
    else
      var i := MatchBackward(s.tokens, s.offset);
      if i >= 0 then s.offset - i else s.offset
  }

  /**
   * A dispatch that makes no scan calls the hook no extra time; a scan that
   * succeeds calls it once per token it moves over, and one that panics once
   * per token between the bracket and the end it ran off.
   */
  lemma ScanStepsCount(s: State)
    requires 0 <= s.offset < |s.tokens|
    ensures var n := ScanSteps(s);
      && (!Scans(s) ==> n == 0)
      && (Scans(s) && Step(s).outcome == Ok ==>
            n == if Step(s).state.offset > s.offset then Step(s).state.offset - s.offset
                 else s.offset - Step(s).state.offset)
      && (Scans(s) && Step(s).outcome == Err(Panic(ScanPastEnd)) ==> n == |s.tokens| - 1 - s.offset)
      && (Scans(s) && Step(s).outcome == Err(Panic(ScanBeforeStart)) ==> n == s.offset)
  {
  }

  /** The tokens Run dispatches before it stops. */
  function Dispatched(s: State, fuel: nat): (n: nat)
    requires 0 <= s.offset
    ensures n <= fuel
    ensures n == 0 <==> s.offset >= |s.tokens| || fuel == 0
    ensures Run(s, fuel).outcome == OutOfFuel ==> n == fuel
    decreases fuel
  {
    if s.offset >= |s.tokens| || fuel == 0 then 0
    else
      var r := Step(s);
      if r.outcome.Err? then 1 else 1 + Dispatched(r.state, fuel - 1)
  }

  /** The hook calls Eval makes: one per dispatched token, plus those of its scans. */
  function HookCalls(s: State, fuel: nat): (n: nat)
    requires 0 <= s.offset
    decreases fuel
  {
    if s.offset >= |s.tokens| || fuel == 0 then 0
    else
      var r := Step(s);
      1 + ScanSteps(s) + (if r.outcome.Err? then 0 else HookCalls(r.state, fuel - 1))
  }

  /** curToken after Eval: the last token dispatched, or `cur` when there was none. */
  function LastToken(s: State, fuel: nat, cur: Option<Token>): (t: Option<Token>)
    requires 0 <= s.offset
    decreases fuel
  {
    if s.offset >= |s.tokens| || fuel == 0 then cur
    else
      var r := Step(s);
      var t := Some(s.tokens[s.offset]);
      if r.outcome.Err? then t else LastToken(r.state, fuel - 1, t)
  }

  /** What Execute leaves behind: the interpreter's result, the hook count and curToken. */
  datatype DebugResult = DebugResult(result: Result, steps: nat, cur: Option<Token>)

  /**
   * Eval's loop as the debugger runs it, from `steps` hook calls so far and
   * curToken `cur`: the hook, then curToken, then the dispatch, per token.
   */
  function DebugRun(s: State, fuel: nat, steps: nat, cur: Option<Token>): (d: DebugResult)
    requires 0 <= s.offset
    decreases fuel
  {
    if s.offset >= |s.tokens| then DebugResult(Result(Ok, s), steps, cur)
    else if fuel == 0 then DebugResult(Result(OutOfFuel, s), steps, cur)
    else
      var r := Step(s);
      var steps' := steps + 1 + ScanSteps(s);
      var t := Some(s.tokens[s.offset]);
      if r.outcome.Err? then DebugResult(r, steps', t) else DebugRun(r.state, fuel - 1, steps', t)
  }

  /**
   * The debugger computes what the interpreter computes, calls the hook
   * HookCalls times more, and leaves curToken at LastToken.
   */
  lemma {:induction false} DebugRunAgrees(s: State, fuel: nat, steps: nat, cur: Option<Token>)
    requires 0 <= s.offset
    ensures var d := DebugRun(s, fuel, steps, cur);
      && d.result == Run(s, fuel)
      && d.steps == steps + HookCalls(s, fuel)
      && d.cur == LastToken(s, fuel, cur)
    decreases fuel
  {
    if s.offset < |s.tokens| && fuel > 0 {
      var r := Step(s);
      if !r.outcome.Err? {
        DebugRunAgrees(r.state, fuel - 1, steps + 1 + ScanSteps(s), Some(s.tokens[s.offset]));
      }
    }
  }

  class Debug {
    var Tokens: seq<Token>
    const Memory: array<int>
    var Input: seq<Byte>
    var Output: seq<int>
    var offset: int
    var ptr: int
    var repl: Lexer?
    var step: StepFn
    /** How many times the step hook has been called. */
    var Steps: nat
    var curToken: Option<Token>

    /** The machine's fields as a State. */
    function Snapshot(): State
      reads this`Tokens, Memory, this`offset, this`ptr, this`Input, this`Output
    {
      State(Tokens, Memory[..], offset, ptr, Input, Output)
    }

    /** New: a zero tape of `stacksize` cells, a REPL lexer and a hook that does nothing. */
    constructor New(stacksize: nat, hascolor: bool)
      ensures fresh(Memory) && Memory[..] == seq(stacksize, _ => 0)
      ensures Tokens == [] && offset == 0 && ptr == 0
      ensures Input == [] && Output == []
      ensures fresh(repl) && repl.input == [] && repl.position == 0
      ensures step == NoStep && Steps == 0 && curToken == None
    {
      Tokens := [];
      Memory := new int[stacksize](_ => 0);
      Input := [];
      Output := [];
      offset := 0;
      ptr := 0;
      repl := new Lexer.Repl();
      step := NoStep;
      Steps := 0;
      curToken := None;
    }

    /** SetStep: replaces the hook and nothing else. */
    method SetStep(fn: StepFn)
      modifies this`step
      ensures step == fn
    {
      step := fn;
    }

    /** Ptr: the current tape pointer. */
    method Ptr() returns (p: int)
      ensures p == ptr
    {
      return ptr;
    }

    /** One call of the hook, whose answer is dropped. */
    method CallStep()
      modifies this`Steps
      ensures Steps == old(Steps) + 1
    {
      var failed := step(Steps);
      Steps := Steps + 1;
    }

    /** The skip from a '[' to its matching ']', calling the hook after each token read. */
    method SkipForward() returns (out: Outcome)
      requires 0 <= offset < |Tokens| && Tokens[offset].kind == LoopOpen
      modifies this`offset, this`Steps
      ensures offset == MatchForward(Tokens, old(offset))
      ensures out == if offset == |Tokens| then Err(Panic(ScanPastEnd)) else Ok
      ensures Steps == old(Steps) + if out == Ok then offset - old(offset) else offset - old(offset) - 1
    {
      ghost var i := offset;
      var depth := 1;
      assert Span(Tokens, i, i) == 0;
      while depth != 0
        invariant i <= offset < |Tokens|
        invariant depth == Depth(Tokens, i, offset)
        invariant forall k | i <= k < offset :: Depth(Tokens, i, k) > 0
        invariant depth >= 0
        invariant Steps == old(Steps) + (offset - i)
        decreases |Tokens| - offset
      {
        assert Depth(Tokens, i, offset) > 0;
        offset := offset + 1;
        if offset == |Tokens| {
          return Err(Panic(ScanPastEnd));
        }
        match Tokens[offset].kind {
          case LoopOpen => depth := depth + 1;
          case LoopClose => depth := depth - 1;
          case _ =>
        }
        CallStep();
      }
      return Ok;
    }

    /** The scan back from a ']' to its matching '[', calling the hook after each token read. */
    method ScanBackward() returns (out: Outcome)
      requires 0 <= offset < |Tokens| && Tokens[offset].kind == LoopClose
      modifies this`offset, this`Steps
      ensures offset == MatchBackward(Tokens, old(offset))
      ensures out == if offset == -1 then Err(Panic(ScanBeforeStart)) else Ok
      ensures Steps == old(Steps) + if out == Ok then old(offset) - offset else old(offset)
    {
      ghost var j := offset;
      var depth := 1;
      assert Span(Tokens, j, j) == 0;
      while depth != 0
        invariant 0 <= offset <= j
        invariant depth == -Depth(Tokens, offset, j)
        invariant forall k | offset < k <= j :: Depth(Tokens, k, j) < 0
        invariant depth >= 0
        invariant Steps == old(Steps) + (j - offset)
        decreases offset
      {
        assert Depth(Tokens, offset, j) < 0;
        offset := offset - 1;
        if offset == -1 {
          return Err(Panic(ScanBeforeStart));
        }
        SpanCons(Tokens, offset, j + 1);
        match Tokens[offset].kind {
          case LoopOpen => depth := depth - 1;
          case LoopClose => depth := depth + 1;
          case _ =>
        }
        CallStep();
      }
      return Ok;
    }

    /** evaluate: the interpreter's transition, plus the hook calls of its scans. */
    method Evaluate() returns (out: Outcome)
      requires 0 <= offset < |Tokens|
      modifies Memory, this`offset, this`ptr, this`Input, this`Output, this`Steps
      ensures Result(out, Snapshot()) == Step(old(Snapshot()))
      ensures Steps == old(Steps) + ScanSteps(old(Snapshot()))
    {
      var tok := Tokens[offset];
      match tok.kind {
        case IncPtr =>
          ptr := ptr + tok.repeat;
        case DecPtr =>
          ptr := ptr - tok.repeat;
        case IncCell =>
          if !(0 <= ptr < Memory.Length) { return Err(Panic(TapeIndex)); }
          Memory[ptr] := Memory[ptr] + tok.repeat;
        case DecCell =>
          if !(0 <= ptr < Memory.Length) { return Err(Panic(TapeIndex)); }
          Memory[ptr] := Memory[ptr] - tok.repeat;
        case Output =>
          if !(0 <= ptr < Memory.Length) { return Err(Panic(TapeIndex)); }
          Output := Output + [Memory[ptr]];
        case Input =>
          if Input == [] { return Err(NoInput); }
          var b := Input[0];
          Input := Input[1..];
          if !(0 <= ptr < Memory.Length) { return Err(Panic(TapeIndex)); }
          Memory[ptr] := b;
        case LoopOpen =>
          if !(0 <= ptr < Memory.Length) { return Err(Panic(TapeIndex)); }
          if Memory[ptr] != 0 {
            offset := offset + 1;
            return Ok;
          }
          out := SkipForward();
          return;
        case LoopClose =>
          if !(0 <= ptr < Memory.Length) { return Err(Panic(TapeIndex)); }
          if Memory[ptr] == 0 {
            offset := offset + 1;
            return Ok;
          }
          out := ScanBackward();
          return;
        case EOF =>
      }
      offset := offset + 1;
      return Ok;
    }

    /** The hook, then curToken, then the dispatch: one token of Eval's loop. */
    method Cycle() returns (out: Outcome)
      requires 0 <= offset < |Tokens|
      modifies Memory, this`offset, this`ptr, this`Input, this`Output, this`Steps, this`curToken
      ensures Result(out, Snapshot()) == Step(old(Snapshot()))
      ensures Steps == old(Steps) + 1 + ScanSteps(old(Snapshot()))
      ensures curToken == Some(old(Tokens[offset]))
    {
      CallStep();
      curToken := Some(Tokens[offset]);
      out := Evaluate();
    }

    /** One round of Eval's loop, stated as what DebugRun has left to do. */
    method Round(ghost n: nat) returns (out: Outcome)
      requires 0 <= offset < |Tokens| && n > 0
      modifies Memory, this`offset, this`ptr, this`Input, this`Output, this`Steps, this`curToken
      ensures out.Err? ==>
        DebugResult(Result(out, Snapshot()), Steps, curToken) == DebugRun(old(Snapshot()), n, old(Steps), old(curToken))
      ensures !out.Err? ==>
        && 0 <= offset
        && DebugRun(Snapshot(), n - 1, Steps, curToken) == DebugRun(old(Snapshot()), n, old(Steps), old(curToken))
    {
      out := Cycle();
    }

    /** The loop of Eval: the hook, then curToken, then the dispatch, until the end or an error. */
    method Execute(fuel: nat) returns (out: Outcome)
      requires 0 <= offset
      modifies Memory, this`offset, this`ptr, this`Input, this`Output, this`Steps, this`curToken
      ensures DebugResult(Result(out, Snapshot()), Steps, curToken) == DebugRun(old(Snapshot()), fuel, old(Steps), old(curToken))
      ensures Result(out, Snapshot()) == Run(old(Snapshot()), fuel)
      ensures Steps == old(Steps) + HookCalls(old(Snapshot()), fuel)
      ensures curToken == LastToken(old(Snapshot()), fuel, old(curToken))
    {
      DebugRunAgrees(Snapshot(), fuel, Steps, curToken);
      var n := fuel;
      while offset < |Tokens|
        invariant 0 <= offset
        invariant DebugRun(Snapshot(), n, Steps, curToken) == DebugRun(old(Snapshot()), fuel, old(Steps), old(curToken))
        decreases n
      {
        if n == 0 {
          return OutOfFuel;
        }
        out := Round(n);
        if out.Err? {
          return out;
        }
        n := n - 1;
      }
      return Ok;
    }

    /**
     * Eval: as the interpreter's Eval, with the hook called and curToken
     * set before every dispatch.
     */
    method Eval(instruction: string, fuel: nat) returns (out: Outcome)
      modifies this, Memory, repl
      ensures step == old(step)
      ensures old(repl) == null ==>
        && out == Err(ReplNotInitialized) && Snapshot() == old(Snapshot()) && repl == null
        && Steps == old(Steps) && curToken == old(curToken)
      ensures old(repl) != null ==>
        var s := State(TokensFrom(instruction, old(repl.position)), old(Memory[..]), 0,
                       old(ptr), old(Input), old(Output));
        && repl == old(repl)
        && repl.input == instruction && repl.position == 0
        && Result(out, Snapshot()) == Run(s, fuel)
        && Steps == old(Steps) + HookCalls(s, fuel)
        && curToken == LastToken(s, fuel, old(curToken))
    {
      if repl == null {
        return Err(ReplNotInitialized);
      }
      var tokens := repl.Read(instruction);
      Tokens := tokens;
      offset := 0;
      repl.Zero();
      out := Execute(fuel);
    }
  }

  // ---------------------------------------------------------------------------
  // Hook calls and curToken

  predicate NoBrackets(ts: seq<Token>)
  {
    forall k | 0 <= k < |ts| :: ts[k].kind != LoopOpen && ts[k].kind != LoopClose
  }

  /** The hook is called at least once per dispatched token. */
  lemma {:induction false} HookCallsCoverDispatch(s: State, fuel: nat)
    requires 0 <= s.offset
    ensures HookCalls(s, fuel) >= Dispatched(s, fuel)
    decreases fuel
  {
    if s.offset < |s.tokens| && fuel > 0 {
      var r := Step(s);
      if !r.outcome.Err? {
        HookCallsCoverDispatch(r.state, fuel - 1);
      }
    }
  }

  /** curToken is left alone by a run that dispatches nothing, and is otherwise a token of the program. */
  lemma {:induction false} LastTokenInProgram(s: State, fuel: nat, cur: Option<Token>)
    requires 0 <= s.offset
    ensures var t := LastToken(s, fuel, cur);
      && (t == cur || (t.Some? && t.value in s.tokens))
      && (Dispatched(s, fuel) > 0 ==> t.Some? && t.value in s.tokens)
      && (Dispatched(s, fuel) == 0 ==> t == cur)
    decreases fuel
  {
    if s.offset < |s.tokens| && fuel > 0 {
      var r := Step(s);
      var t := Some(s.tokens[s.offset]);
      if !r.outcome.Err? {
        LastTokenInProgram(r.state, fuel - 1, t);
      }
    }
  }

  /** Without brackets the hook is called exactly once per dispatched token. */
  lemma {:induction false} NoBracketsOneHookPerToken(s: State, fuel: nat)
    requires 0 <= s.offset && NoBrackets(s.tokens)
    ensures HookCalls(s, fuel) == Dispatched(s, fuel)
    decreases fuel
  {
    if s.offset < |s.tokens| && fuel > 0 {
      assert ScanSteps(s) == 0;
      var r := Step(s);
      if !r.outcome.Err? {
        NoBracketsOneHookPerToken(r.state, fuel - 1);
      }
    }
  }

  /**
   * When Eval stops on a token error other than a scan running off the
   * list, curToken is the token the cursor is left on: the one that failed.
   */
  lemma {:induction false} LastTokenIsFailing(s: State, fuel: nat, cur: Option<Token>)
    requires 0 <= s.offset
    requires Run(s, fuel).outcome.Err?
    requires Run(s, fuel).outcome.error !in {Panic(ScanPastEnd), Panic(ScanBeforeStart)}
    ensures 0 <= Run(s, fuel).state.offset < |s.tokens|
    ensures LastToken(s, fuel, cur) == Some(s.tokens[Run(s, fuel).state.offset])
    decreases fuel
  {
    var r := Step(s);
    if !r.outcome.Err? {
      LastTokenIsFailing(r.state, fuel - 1, Some(s.tokens[s.offset]));
    }
  }

  /** "[+]" over a zero cell: one hook call for '[', two for the skip, one for ']'. */
  lemma HookCallsExample()
    ensures var ts := [Token(LoopOpen, 1), Token(IncCell, 1), Token(LoopClose, 1)];
      HookCalls(State(ts, [0], 0, 0, [], []), 2) == 4
  {
    var ts := [Token(LoopOpen, 1), Token(IncCell, 1), Token(LoopClose, 1)];
    var s := State(ts, [0], 0, 0, [], []);
    assert Span(ts, 0, 0) == 0;
    assert Depth(ts, 0, 0) == 1 && Depth(ts, 0, 1) == 1 && Depth(ts, 0, 2) == 0;
    assert IsForwardMatch(ts, 0, 2);
    assert MatchForward(ts, 0) == 2;
    assert ScanSteps(s) == 2;
    assert Step(s) == Result(Ok, s.(offset := 2));
    assert ScanSteps(s.(offset := 2)) == 0;
    assert Step(s.(offset := 2)) == Result(Ok, s.(offset := 3));
    assert HookCalls(s.(offset := 2), 1) == 1;
  }

  /**
   * The debugger and the interpreter, started from the same tape, pointer,
   * input and output and given the same instruction, end with the same
   * outcome and the same machine, whatever the debugger's hook answers.
   */
  method SameAsInterpreter(vm: Interpreter, d: Debug, instruction: string, fuel: nat)
    returns (o1: Outcome, o2: Outcome)
    requires vm.repl != null && d.repl != null
    requires vm.Memory != d.Memory && vm.repl != d.repl
    requires vm.Memory[..] == d.Memory[..] && vm.ptr == d.ptr
    requires vm.Input == d.Input && vm.Output == d.Output
    requires vm.repl.position == d.repl.position
    modifies vm, vm.Memory, vm.repl, d, d.Memory, d.repl
    ensures o1 == o2
    ensures vm.Snapshot() == d.Snapshot()
  {
    o1 := vm.Eval(instruction, fuel);
    o2 := d.Eval(instruction, fuel);
  }
}
