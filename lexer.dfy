/**
 * The run-length tokenizer of lexer/lexer.go.
 *
 * A string is a sequence of characters, one per byte of the Go string (the
 * lexer indexes bytes; a byte outside ASCII is never an instruction, so this
 * loses nothing).  The pure functions Scan and TokensFrom are the
 * specification of the class's Next and Tokens/Read loops.
 */
module Lexer {

  /** The nine token types: the eight instructions and the end-of-input marker. */
  datatype Kind = IncPtr | DecPtr | IncCell | DecCell | Output | Input | LoopOpen | LoopClose | EOF

  /** A token: its type and how many consecutive source characters it stands for. */
  datatype Token = Token(kind: Kind, repeat: int)

  /** The string constant the source uses as the token's Type. */
  function TypeName(k: Kind): string
  {
    match k
    case IncPtr => ">"
    case DecPtr => "<"
    case IncCell => "+"
    case DecCell => "-"
    case Output => "."
    case Input => ","
    case LoopOpen => "["
    case LoopClose => "]"
    case EOF => "EOF"
  }

  /** A character registered in the lexer's table of known tokens. */
  predicate IsInstruction(c: char)
  {
    c == '+' || c == '-' || c == '<' || c == '>' || c == ',' || c == '.' || c == '[' || c == ']'
  }

  /** A character whose consecutive occurrences are collapsed into one token. */
  predicate IsCollapsible(c: char)
  {
    c == '+' || c == '-' || c == '<' || c == '>'
  }

  /** The token types that carry a run length. */
  predicate IsRunKind(k: Kind)
  {
    k == IncPtr || k == DecPtr || k == IncCell || k == DecCell
  }

  /** The token type of an instruction character: the one whose Type is that character. */
  function KindOf(c: char): (k: Kind)
    requires IsInstruction(c)
    ensures k != EOF && TypeName(k) == [c]
    ensures IsRunKind(k) <==> IsCollapsible(c)
  {
    if c == '>' then IncPtr
    else if c == '<' then DecPtr
    else if c == '+' then IncCell
    else if c == '-' then DecCell
    else if c == '.' then Output
    else if c == ',' then Input
    else if c == '[' then LoopOpen
    else LoopClose
  }

  // ---------------------------------------------------------------------------
  // Input clean-up done by New

  /** strings.ReplaceAll(s, [c], ""): s with every occurrence of c deleted. */
  function RemoveAll(s: string, c: char): (r: string)
    ensures c !in r
    ensures |r| <= |s|
    ensures c !in s ==> r == s
  {
    if s == [] then []
    else (if s[0] == c then [] else [s[0]]) + RemoveAll(s[1..], c)
  }

  /** The layout characters New strips before scanning. */
  predicate IsLayout(c: char)
  {
    c == '\n' || c == '\r' || c == ' '
  }

  /** Removing one character never brings in another. */
  lemma {:induction false} RemoveAllKeepsAbsent(s: string, c: char, d: char)
    requires d !in s
    ensures d !in RemoveAll(s, c)
    decreases |s|
  {
    if s != [] {
      RemoveAllKeepsAbsent(s[1..], c, d);
    }
  }

  /** Deleting c works piecewise: the pieces of a concatenation are cleaned separately. */
  lemma {:induction false} RemoveAllConcat(a: string, b: string, c: char)
    ensures RemoveAll(a + b, c) == RemoveAll(a, c) + RemoveAll(b, c)
    decreases |a|
  {
    if a == [] {
      assert a + b == b;
    } else {
      assert (a + b)[0] == a[0];
      assert (a + b)[1..] == a[1..] + b;
      RemoveAllConcat(a[1..], b, c);
    }
  }

  /**
   * On one character RemoveAll deletes it exactly when it is c; with
   * RemoveAllConcat, every other character is kept, in order.
   */
  lemma RemoveAllChar(d: char, c: char)
    ensures RemoveAll([d], c) == if d == c then [] else [d]
  {
    assert [d][1..] == [];
  }

  /** New's clean-up: newlines, then carriage returns, then spaces are removed. */
  function StripLayout(s: string): (r: string)
    ensures '\n' !in r && '\r' !in r && ' ' !in r
  {
    var a := RemoveAll(s, '\n');
    var b := RemoveAll(a, '\r');
    RemoveAllKeepsAbsent(a, '\r', '\n');
    RemoveAllKeepsAbsent(b, ' ', '\n');
    RemoveAllKeepsAbsent(b, ' ', '\r');
    RemoveAll(b, ' ')
  }

  /** New's clean-up works piecewise over a concatenation. */
  lemma StripLayoutConcat(a: string, b: string)
    ensures StripLayout(a + b) == StripLayout(a) + StripLayout(b)
  {
    RemoveAllConcat(a, b, '\n');
    var a1, b1 := RemoveAll(a, '\n'), RemoveAll(b, '\n');
    RemoveAllConcat(a1, b1, '\r');
    RemoveAllConcat(RemoveAll(a1, '\r'), RemoveAll(b1, '\r'), ' ');
  }

  /** On one character the clean-up deletes it exactly when it is layout. */
  lemma StripLayoutChar(d: char)
    ensures StripLayout([d]) == if IsLayout(d) then [] else [d]
  {
    RemoveAllChar(d, '\n');
    if d != '\n' {
      RemoveAllChar(d, '\r');
      if d != '\r' {
        RemoveAllChar(d, ' ');
      }
    }
  }

  /** Text with no layout character is left exactly as it is. */
  lemma StripLayoutNoLayout(s: string)
    requires forall k | 0 <= k < |s| :: !IsLayout(s[k])
    ensures StripLayout(s) == s
  {
    assert '\n' !in s && '\r' !in s && ' ' !in s;
  }

  // ---------------------------------------------------------------------------
  // The specification of Next

  /** The first position at or after pos that holds an instruction, or |s|. */
  function FirstInstruction(s: string, pos: nat): (p: nat)
    requires pos <= |s|
    ensures pos <= p <= |s|
    ensures forall k | pos <= k < p :: !IsInstruction(s[k])
    ensures p < |s| ==> IsInstruction(s[p])
    decreases |s| - pos
  {
    if pos == |s| || IsInstruction(s[pos]) then pos else FirstInstruction(s, pos + 1)
  }

  /** The end of the run of c that starts at p: the first position at or after p not holding c. */
  function RunEnd(s: string, p: nat, c: char): (e: nat)
    requires p <= |s|
    ensures p <= e <= |s|
    ensures forall k | p <= k < e :: s[k] == c
    ensures e == |s| || s[e] != c
    decreases |s| - p
  {
    if p == |s| || s[p] != c then p else RunEnd(s, p + 1, c)
  }

  /**
   * One call of Next on input s at position pos: the token returned and the
   * position afterwards.  Unknown characters are skipped; a collapsible
   * instruction takes its whole run; at the end EOF is returned.
   */
  function Scan(s: string, pos: nat): (r: (Token, nat))
    ensures r.0.kind == EOF <==> forall k | pos <= k < |s| :: !IsInstruction(s[k])
    ensures r.0.kind == EOF ==> r.0.repeat == 1 && r.1 == (if pos < |s| then |s| else pos)
    ensures r.0.kind != EOF ==> pos < r.1 <= |s| && r.0.repeat >= 1
  {
    if pos >= |s| then (Token(EOF, 1), pos)
    else
      var p := FirstInstruction(s, pos);
      if p == |s| then (Token(EOF, 1), p)
      else if IsCollapsible(s[p]) then
        var e := RunEnd(s, p, s[p]);
        (Token(KindOf(s[p]), e - p), e)
      else (Token(KindOf(s[p]), 1), p + 1)
  }

  /** The tokens returned by calling Next from position pos until it returns EOF. */
  function TokensFrom(s: string, pos: nat): (ts: seq<Token>)
    decreases |s| - pos
  {
    var (tok, next) := Scan(s, pos);
    if tok.kind == EOF then [] else [tok] + TokensFrom(s, next)
  }

  // ---------------------------------------------------------------------------
  // The reference definition: the instruction text of a token list

  /** One call of Next and the rest of the list. */
  lemma TokensFromUnfold(s: string, pos: nat)
    ensures Scan(s, pos).0.kind == EOF ==> TokensFrom(s, pos) == []
    ensures Scan(s, pos).0.kind != EOF ==> TokensFrom(s, pos) == [Scan(s, pos).0] + TokensFrom(s, Scan(s, pos).1)
  {
  }

  /** The instruction characters of s, in order. */
  function Filter(s: string): (r: string)
    ensures |r| <= |s|
    ensures forall k | 0 <= k < |r| :: IsInstruction(r[k])
  {
    if s == [] then []
    else (if IsInstruction(s[0]) then [s[0]] else []) + Filter(s[1..])
  }

  /** n copies of w. */
  function Rep(w: string, n: int): (r: string)
    decreases n
  {
    if n <= 0 then [] else w + Rep(w, n - 1)
  }

  /** Repeat copies of the token's Type. */
  function Text(t: Token): string
  {
    Rep(TypeName(t.kind), t.repeat)
  }

  /** The concatenation of the texts of the tokens. */
  function Expand(ts: seq<Token>): string
  {
    if ts == [] then [] else Text(ts[0]) + Expand(ts[1..])
  }

  /** The shape every token Next returns before EOF has. */
  predicate WellFormed(t: Token)
  {
    t.kind != EOF && t.repeat >= 1 && (!IsRunKind(t.kind) ==> t.repeat == 1)
  }

  // ---------------------------------------------------------------------------
  // Lemmas

  lemma {:induction false} FilterConcat(a: string, b: string)
    ensures Filter(a + b) == Filter(a) + Filter(b)
    decreases |a|
  {
    if a == [] {
      assert a + b == b;
    } else {
      assert (a + b)[1..] == a[1..] + b;
      FilterConcat(a[1..], b);
    }
  }

  lemma {:induction false} FilterNone(s: string)
    requires forall k | 0 <= k < |s| :: !IsInstruction(s[k])
    ensures Filter(s) == []
    decreases |s|
  {
    if s != [] {
      FilterNone(s[1..]);
    }
  }

  lemma {:induction false} FilterRun(s: string, c: char)
    requires IsInstruction(c)
    requires forall k | 0 <= k < |s| :: s[k] == c
    ensures Filter(s) == Rep([c], |s|)
    decreases |s|
  {
    if s != [] {
      FilterRun(s[1..], c);
    }
  }

  /**
   * What one call of Next consumes: the characters skipped carry no
   * instruction, and the token's text is exactly the instruction characters
   * consumed.
   */
  lemma ScanConsumes(s: string, pos: nat)
    requires pos <= |s|
    ensures pos <= Scan(s, pos).1 <= |s|
    ensures Filter(s[pos..Scan(s, pos).1]) == (if Scan(s, pos).0.kind == EOF then [] else Text(Scan(s, pos).0))
  {
    if pos < |s| {
      var p := FirstInstruction(s, pos);
      FilterNone(s[pos..p]);
      if p < |s| {
        var c := s[p];
        var e := Scan(s, pos).1;
        var tok := Scan(s, pos).0;
        assert tok.kind == KindOf(c) && TypeName(tok.kind) == [c];
        assert s[pos..e] == s[pos..p] + s[p..e];
        FilterConcat(s[pos..p], s[p..e]);
        if IsCollapsible(c) {
          assert e == RunEnd(s, p, c);
          FilterRun(s[p..e], c);
        } else {
          assert s[p..e] == [c];
          assert Rep([c], 1) == [c] + Rep([c], 0);
        }
      }
    }
  }

  /**
   * The token one call of Next returns: well formed, with the consumed
   * character as its Type, standing for a run of that character which, for a
   * collapsible character, cannot be extended.
   */
  lemma ScanToken(s: string, pos: nat)
    requires Scan(s, pos).0.kind != EOF
    ensures var (tok, next) := Scan(s, pos);
      && WellFormed(tok)
      && TypeName(tok.kind) == [s[next - 1]]
      && (forall k | next - tok.repeat <= k < next :: s[k] == s[next - 1])
      && (IsRunKind(tok.kind) ==> next == |s| || s[next] != s[next - 1])
  {
    var p := FirstInstruction(s, pos);
    if IsCollapsible(s[p]) {
      var e := RunEnd(s, p, s[p]);
      assert s[e - 1] == s[p];
    }
  }

  /**
   * Round trip: the texts of the tokens, concatenated, give back the scanned
   * input with every non-instruction character removed.
   */
  lemma {:induction false} TokensFromRoundTrip(s: string, pos: nat)
    requires pos <= |s|
    ensures Expand(TokensFrom(s, pos)) == Filter(s[pos..])
    decreases |s| - pos
  {
    var tok, next := Scan(s, pos).0, Scan(s, pos).1;
    ScanConsumes(s, pos);
    TokensFromUnfold(s, pos);
    if tok.kind == EOF {
      assert s[pos..next] == s[pos..];
    } else {
      var rest := TokensFrom(s, next);
      TokensFromRoundTrip(s, next);
      assert s[pos..] == s[pos..next] + s[next..];
      FilterConcat(s[pos..next], s[next..]);
      ExpandCons(tok, rest);
    }
  }

  lemma ExpandCons(t: Token, ts: seq<Token>)
    ensures Expand([t] + ts) == Text(t) + Expand(ts)
  {
    assert ([t] + ts)[1..] == ts;
  }

  /**
   * Every token in the list is well formed (so none is EOF), and there are at
   * most as many tokens as scanned characters.
   */
  lemma {:induction false} TokensFromWellFormed(s: string, pos: nat)
    requires pos <= |s|
    ensures forall k | 0 <= k < |TokensFrom(s, pos)| :: WellFormed(TokensFrom(s, pos)[k])
    ensures |TokensFrom(s, pos)| <= |s| - pos
    decreases |s| - pos
  {
    var tok, next := Scan(s, pos).0, Scan(s, pos).1;
    if tok.kind != EOF {
      ScanToken(s, pos);
      TokensFromWellFormed(s, next);
      assert TokensFrom(s, pos) == [tok] + TokensFrom(s, next);
    }
  }

  /** A character that is not an instruction can be deleted without changing the instruction text. */
  lemma {:induction false} FilterRemoveAll(s: string, c: char)
    requires !IsInstruction(c)
    ensures Filter(RemoveAll(s, c)) == Filter(s)
    decreases |s|
  {
    if s != [] {
      FilterRemoveAll(s[1..], c);
      FilterConcat(if s[0] == c then [] else [s[0]], RemoveAll(s[1..], c));
    }
  }

  /** New's clean-up does not change the instruction text of a program. */
  lemma StripLayoutKeepsInstructions(s: string)
    ensures Filter(StripLayout(s)) == Filter(s)
  {
    FilterRemoveAll(s, '\n');
    FilterRemoveAll(RemoveAll(s, '\n'), '\r');
    FilterRemoveAll(RemoveAll(RemoveAll(s, '\n'), '\r'), ' ');
  }

  /** At or past the end Next keeps returning EOF and does not move. */
  lemma ScanAtEnd(s: string, pos: nat)
    requires pos >= |s|
    ensures Scan(s, pos) == (Token(EOF, 1), pos) && TokensFrom(s, pos) == []
  {
  }

  /** The example of lexer/lexer_test.go. */
  lemma TokenizeExample()
    ensures TokensFrom("+++++[-]", 0)
         == [Token(IncCell, 5), Token(LoopOpen, 1), Token(DecCell, 1), Token(LoopClose, 1)]
  {
    var s := "+++++[-]";
    assert RunEnd(s, 5, '+') == 5;
    assert RunEnd(s, 0, '+') == 5;
    assert Scan(s, 0) == (Token(IncCell, 5), 5);
    assert Scan(s, 5) == (Token(LoopOpen, 1), 6);
    assert RunEnd(s, 7, '-') == 7;
    assert Scan(s, 6) == (Token(DecCell, 1), 7);
    assert Scan(s, 7) == (Token(LoopClose, 1), 8);
    assert TokensFrom(s, 8) == [];
  }

  lemma RemoveSpaceExample()
    ensures RemoveAll("+ +", ' ') == "++"
  {
    var s := "+ +";
    assert s[1..] == " +" && s[2..] == "+";
    assert RemoveAll(s[2..], ' ') == "+";
    assert RemoveAll(s[1..], ' ') == "+";
  }

  lemma StripSpaceExample()
    ensures StripLayout("+ +") == "++"
  {
    var s := "+ +";
    assert s[0] == '+' && s[1] == ' ' && s[2] == '+';
    assert '\n' !in s && '\r' !in s;
    RemoveSpaceExample();
  }

  /** New strips the space, so the two '+' collapse into one token. */
  lemma NewLayoutExample()
    ensures TokensFrom(StripLayout("+ +"), 0) == [Token(IncCell, 2)]
  {
    StripSpaceExample();
    TwoPlusTokens();
  }

  lemma TwoPlusTokens()
    ensures TokensFrom("++", 0) == [Token(IncCell, 2)]
  {
    var t := "++";
    assert t[0] == '+' && t[1] == '+';
    assert FirstInstruction(t, 0) == 0;
    assert RunEnd(t, 2, '+') == 2;
    assert RunEnd(t, 1, '+') == 2;
    assert RunEnd(t, 0, '+') == 2;
    assert Scan(t, 0) == (Token(IncCell, 2), 2);
    assert TokensFrom(t, 2) == [];
  }

  /** Read keeps the space, so the two '+' stay apart. */
  lemma ReadLayoutExample()
    ensures TokensFrom("+ +", 0) == [Token(IncCell, 1), Token(IncCell, 1)]
  {
    var s := "+ +";
    assert s[0] == '+' && s[1] == ' ' && s[2] == '+';
    assert RunEnd(s, 1, '+') == 1;
    assert Scan(s, 0) == (Token(IncCell, 1), 1);
    assert FirstInstruction(s, 1) == 2;
    assert RunEnd(s, 3, '+') == 3;
    assert Scan(s, 1) == (Token(IncCell, 1), 3);
    assert TokensFrom(s, 3) == [];
  }

  // ---------------------------------------------------------------------------
  // The lexer object

  class Lexer {
    /** The program being scanned. */
    var input: string
    /** The index of the next character to look at. */
    var position: nat

    /** New: a batch lexer over the program with layout characters stripped. */
    constructor New(input: string)
      ensures this.input == StripLayout(input) && position == 0
    {
      this.input := StripLayout(input);
      position := 0;
    }

    /** Repl: a lexer with no input yet, fed through Read. */
    constructor Repl()
      ensures input == [] && position == 0
    {
      input := [];
      position := 0;
    }

    /** Next: the next token, collapsing a run of + - > < into one token. */
    method Next() returns (tok: Token)
      modifies this`position
      ensures (tok, position) == Scan(input, old(position))
    {
      while position < |input|
        invariant old(position) >= |input| ==> position == old(position)
        invariant old(position) < |input| ==>
          && old(position) <= position <= |input|
          && FirstInstruction(input, position) == FirstInstruction(input, old(position))
        decreases |input| - position
      {
        var c := input[position];
        if IsInstruction(c) {
          if !IsCollapsible(c) {
            position := position + 1;
            return Token(KindOf(c), 1);
          }
          var begin := position;
          while position < |input|
            invariant begin <= position <= |input|
            invariant RunEnd(input, position, c) == RunEnd(input, begin, c)
            decreases |input| - position
          {
            if input[position] != c {
              break;
            }
            position := position + 1;
          }
          return Token(KindOf(c), position - begin);
        }
        position := position + 1;
      }
      return Token(EOF, 1);
    }

    /** Tokens: every token from the current position up to (not including) EOF. */
    method Tokens() returns (res: seq<Token>)
      modifies this`position
      ensures res == TokensFrom(input, old(position))
      ensures position == if old(position) < |input| then |input| else old(position)
    {
      res := [];
      ghost var before := position;
      var tok := Next();
      while tok.kind != EOF
        invariant (tok, position) == Scan(input, before)
        invariant TokensFrom(input, old(position)) == res + TokensFrom(input, before)
        invariant before == old(position) || old(position) < before <= |input|
        decreases |input| - before
      {
        TokensFromUnfold(input, before);
        ghost var rest := TokensFrom(input, position);
        assert (res + [tok]) + rest == res + ([tok] + rest);
        res := res + [tok];
        before := position;
        tok := Next();
      }
      TokensFromUnfold(input, before);
    }

    /** Read: replaces the input and tokenizes it from the current position, which it does not reset. */
    method Read(inst: string) returns (res: seq<Token>)
      modifies this`input, this`position
      ensures input == inst
      ensures res == TokensFrom(inst, old(position))
      ensures position == if old(position) < |inst| then |inst| else old(position)
    {
      input := inst;
      res := Tokens();
    }

    /** Zero: resets the position and nothing else. */
    method Zero()
      modifies this`position
      ensures position == 0
    {
      position := 0;
    }
  }
}
