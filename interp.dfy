/**
 * The tape interpreter of pkg/gen/interp/interp.go.
 *
 * State is a snapshot of the machine's fields and Step is the transition one
 * call of `evaluate` makes; Run is the loop of Eval and Generate, bounded by
 * a fuel argument because a Brainfuck program need not halt.  The class
 * Interpreter keeps the fields in place (the tape is an array updated cell by
 * cell) and its methods are proved to make exactly the transitions of Step
 * and Run.
 *
 * Where the Go code would panic (a tape index out of range, a bracket scan
 * running off either end of the token list) the model returns
 * Err(Panic(..)): the source reports nothing in these cases, it crashes.
 */
module Interp {
  import opened Lexer
  import opened Brackets

  /** A byte read from the input stream. */
  type Byte = b: int | 0 <= b < 256

  /** The three ways the Go code panics while evaluating a token. */
  datatype Fault =
    | TapeIndex        // Memory[ptr] with ptr outside the tape
    | ScanPastEnd      // a skipped '[' with no matching ']'
    | ScanBeforeStart  // a back-scanned ']' with no matching '['

  datatype Error =
    | NoInput             // ',' and the input stream is exhausted
    | ReplNotInitialized  // Eval on a machine made by New
    | Panic(fault: Fault)

  datatype Outcome = Ok | Err(error: Error) | OutOfFuel

  /** The fields of the machine. `output` holds the cell values written by '.'. */
  datatype State = State(
    tokens: seq<Token>,
    memory: seq<int>,
    offset: int,
    ptr: int,
    input: seq<Byte>,
    output: seq<int>)

  datatype Result = Result(outcome: Outcome, state: State)

  predicate OnTape(s: State)
  {
    0 <= s.ptr < |s.memory|
  }

  /** One call of `evaluate` on the token at offset. */
  function Step(s: State): (r: Result)
    requires 0 <= s.offset < |s.tokens|
    ensures r.outcome != OutOfFuel
    ensures r.state.tokens == s.tokens && |r.state.memory| == |s.memory|
    ensures r.outcome == Ok ==> 0 <= r.state.offset <= |s.tokens|
    ensures s.output <= r.state.output
  {
    var t := s.tokens[s.offset];
    var next := s.offset + 1;
    match t.kind
    case IncPtr => Result(Ok, s.(ptr := s.ptr + t.repeat, offset := next))
    case DecPtr => Result(Ok, s.(ptr := s.ptr - t.repeat, offset := next))
    case IncCell =>
      if !OnTape(s) then Result(Err(Panic(TapeIndex)), s)
      else Result(Ok, s.(memory := s.memory[s.ptr := s.memory[s.ptr] + t.repeat], offset := next))
    case DecCell =>
      if !OnTape(s) then Result(Err(Panic(TapeIndex)), s)
      else Result(Ok, s.(memory := s.memory[s.ptr := s.memory[s.ptr] - t.repeat], offset := next))
    case Output =>
      if !OnTape(s) then Result(Err(Panic(TapeIndex)), s)
      else Result(Ok, s.(output := s.output + [s.memory[s.ptr]], offset := next))
    case Input =>
      if s.input == [] then Result(Err(NoInput), s)
      else if !OnTape(s) then Result(Err(Panic(TapeIndex)), s.(input := s.input[1..]))
      else Result(Ok, s.(memory := s.memory[s.ptr := s.input[0]], input := s.input[1..], offset := next))
    case LoopOpen =>
      if !OnTape(s) then Result(Err(Panic(TapeIndex)), s)
      else if s.memory[s.ptr] != 0 then Result(Ok, s.(offset := next))
      else
        var j := MatchForward(s.tokens, s.offset);
        if j == |s.tokens| then Result(Err(Panic(ScanPastEnd)), s.(offset := j))
        else Result(Ok, s.(offset := j))
    case LoopClose =>
      if !OnTape(s) then Result(Err(Panic(TapeIndex)), s)
      else if s.memory[s.ptr] == 0 then Result(Ok, s.(offset := next))
      else
        var i := MatchBackward(s.tokens, s.offset);
        if i == -1 then Result(Err(Panic(ScanBeforeStart)), s.(offset := i))
        else Result(Ok, s.(offset := i))
    case EOF => Result(Ok, s.(offset := next))
  }

  /** Which inputs make evaluate fail, and how. */
  lemma StepErrors(s: State)
    requires 0 <= s.offset < |s.tokens|
    ensures var r := Step(s); var k := s.tokens[s.offset].kind;
      && (r.outcome == Err(NoInput) <==> k == Input && s.input == [])
      && (r.outcome == Err(Panic(TapeIndex)) <==>
            k in {IncCell, DecCell, Output, Input, LoopOpen, LoopClose}
            && !(k == Input && s.input == []) && !OnTape(s))
      && (r.outcome == Err(Panic(ScanPastEnd)) <==>
            k == LoopOpen && OnTape(s) && s.memory[s.ptr] == 0 && NoForwardMatch(s.tokens, s.offset))
      && (r.outcome == Err(Panic(ScanBeforeStart)) <==>
            k == LoopClose && OnTape(s) && s.memory[s.ptr] != 0 && NoBackwardMatch(s.tokens, s.offset))
      && (r.outcome.Err? ==> r.outcome.error.Panic? || r.outcome == Err(NoInput))
  {
  }

  /** evaluate writes at most the current cell and reads at most the first input byte. */
  lemma StepStreams(s: State)
    requires 0 <= s.offset < |s.tokens|
    ensures var r := Step(s);
      && (r.state.output == s.output
          || (s.tokens[s.offset].kind == Output && OnTape(s) && r.state.output == s.output + [s.memory[s.ptr]]))
      && (r.state.input == s.input || (s.input != [] && r.state.input == s.input[1..]))
  {
  }

  /**
   * The loop `for v.offset < len(v.Tokens) { evaluate }` of Eval and
   * Generate, stopping at the first error, or after `fuel` tokens.
   */
  function Run(s: State, fuel: nat): (r: Result)
    requires 0 <= s.offset
    ensures r.state.tokens == s.tokens
    ensures r.outcome == OutOfFuel ==> 0 <= r.state.offset < |s.tokens|
    decreases fuel
  {
    if s.offset >= |s.tokens| then Result(Ok, s)
    else if fuel == 0 then Result(OutOfFuel, s)
    else
      var r := Step(s);
      if r.outcome.Err? then r else Run(r.state, fuel - 1)
  }

  /** One step of Run. */
  lemma RunUnfold(s: State, fuel: nat)
    requires 0 <= s.offset < |s.tokens| && fuel > 0
    ensures Run(s, fuel) == if Step(s).outcome.Err? then Step(s) else Run(Step(s).state, fuel - 1)
  {
  }

  /**
   * A run keeps the tape's length, only appends to the output, and ends
   * normally only with the cursor past the last token (exactly there when it
   * started inside the program).
   */
  lemma {:induction false} RunShape(s: State, fuel: nat)
    requires 0 <= s.offset
    ensures var r := Run(s, fuel);
      && |r.state.memory| == |s.memory|
      && (r.outcome == Ok ==> r.state.offset >= |s.tokens|)
      && (r.outcome == Ok && s.offset <= |s.tokens| ==> r.state.offset == |s.tokens|)
      && s.output <= r.state.output
    decreases fuel
  {
    if s.offset < |s.tokens| && fuel > 0 {
      var r := Step(s);
      if !r.outcome.Err? {
        assert Run(s, fuel) == Run(r.state, fuel - 1);
        RunShape(r.state, fuel - 1);
      }
    }
  }

  /** The interpreter of interp.go; Memory is the tape, updated in place. */
  class Interpreter {
    var Tokens: seq<Token>
    const Memory: array<int>
    var Input: seq<Byte>
    var Output: seq<int>
    var offset: int
    var ptr: int
    var repl: Lexer?

    /** The machine's fields as a State. */
    function Snapshot(): State
      reads this`Tokens, Memory, this`offset, this`ptr, this`Input, this`Output
    {
      State(Tokens, Memory[..], offset, ptr, Input, Output)
    }

    /** New: a zero tape of `stacksize` cells, no lexer attached. */
    constructor New(stacksize: nat)
      ensures fresh(Memory) && Memory[..] == seq(stacksize, _ => 0)
      ensures Tokens == [] && offset == 0 && ptr == 0 && repl == null
      ensures Input == [] && Output == []
    {
      Tokens := [];
      Memory := new int[stacksize](_ => 0);
      Input := [];
      Output := [];
      offset := 0;
      ptr := 0;
      repl := null;
    }

    /** NewRepl: as New, with a fresh REPL lexer attached. */
    constructor NewRepl(stacksize: nat)
      ensures fresh(Memory) && Memory[..] == seq(stacksize, _ => 0)
      ensures Tokens == [] && offset == 0 && ptr == 0
      ensures Input == [] && Output == []
      ensures fresh(repl) && repl.input == [] && repl.position == 0
    {
      Tokens := [];
      Memory := new int[stacksize](_ => 0);
      Input := [];
      Output := [];
      offset := 0;
      ptr := 0;
      repl := new Lexer.Repl();
    }

    /** Ptr: the current tape pointer. */
    method Ptr() returns (p: int)
      ensures p == ptr
    {
      return ptr;
    }

    /** The depth-counting skip from a '[' to its matching ']'. */
    method SkipForward() returns (out: Outcome)
      requires 0 <= offset < |Tokens| && Tokens[offset].kind == LoopOpen
      modifies this`offset
      ensures offset == MatchForward(Tokens, old(offset))
      ensures out == if offset == |Tokens| then Err(Panic(ScanPastEnd)) else Ok
    {
      ghost var i := offset;
      var depth := 1;
      assert Span(Tokens, i, i) == 0;
      while depth != 0
        invariant i <= offset < |Tokens|
        invariant depth == Depth(Tokens, i, offset)
        invariant forall k | i <= k < offset :: Depth(Tokens, i, k) > 0
        invariant depth >= 0
        decreases |Tokens| - offset
      {
        assert Depth(Tokens, i, offset) > 0;
        offset := offset + 1;
        if offset == |Tokens| {
          return Err(Panic(ScanPastEnd));
        }
        match Tokens[offset].kind {
          case LoopOpen => depth := depth + 1;
          case LoopClose => depth := depth - 1;
          case _ =>
        }
      }
      return Ok;
    }

    /** The depth-counting scan back from a ']' to its matching '['. */
    method ScanBackward() returns (out: Outcome)
      requires 0 <= offset < |Tokens| && Tokens[offset].kind == LoopClose
      modifies this`offset
      ensures offset == MatchBackward(Tokens, old(offset))
      ensures out == if offset == -1 then Err(Panic(ScanBeforeStart)) else Ok
    {
      ghost var j := offset;
      var depth := 1;
      assert Span(Tokens, j, j) == 0;
      while depth != 0
        invariant 0 <= offset <= j
        invariant depth == -Depth(Tokens, offset, j)
        invariant forall k | offset < k <= j :: Depth(Tokens, k, j) < 0
        invariant depth >= 0
        decreases offset
      {
        assert Depth(Tokens, offset, j) < 0;
        offset := offset - 1;
        if offset == -1 {
          return Err(Panic(ScanBeforeStart));
        }
        SpanCons(Tokens, offset, j + 1);
        match Tokens[offset].kind {
          case LoopOpen => depth := depth - 1;
          case LoopClose => depth := depth + 1;
          case _ =>
        }
      }
      return Ok;
    }

    /** evaluate: the transition of the token at offset, made in place. */
    method Evaluate() returns (out: Outcome)
      requires 0 <= offset < |Tokens|
      modifies Memory, this`offset, this`ptr, this`Input, this`Output
      ensures Result(out, Snapshot()) == Step(old(Snapshot()))
    {
      var tok := Tokens[offset];
      match tok.kind {
        case IncPtr =>
          ptr := ptr + tok.repeat;
        case DecPtr =>
          ptr := ptr - tok.repeat;
        case IncCell =>
          if !(0 <= ptr < Memory.Length) { return Err(Panic(TapeIndex)); }
          Memory[ptr] := Memory[ptr] + tok.repeat;
        case DecCell =>
          if !(0 <= ptr < Memory.Length) { return Err(Panic(TapeIndex)); }
          Memory[ptr] := Memory[ptr] - tok.repeat;
        case Output =>
          if !(0 <= ptr < Memory.Length) { return Err(Panic(TapeIndex)); }
          Output := Output + [Memory[ptr]];
        case Input =>
          if Input == [] { return Err(NoInput); }
          var b := Input[0];
          Input := Input[1..];
          if !(0 <= ptr < Memory.Length) { return Err(Panic(TapeIndex)); }
          Memory[ptr] := b;
        case LoopOpen =>
          if !(0 <= ptr < Memory.Length) { return Err(Panic(TapeIndex)); }
          if Memory[ptr] != 0 {
            offset := offset + 1;
            return Ok;
          }
          out := SkipForward();
          return;
        case LoopClose =>
          if !(0 <= ptr < Memory.Length) { return Err(Panic(TapeIndex)); }
          if Memory[ptr] == 0 {
            offset := offset + 1;
            return Ok;
          }
          out := ScanBackward();
          return;
        case EOF =>
      }
      offset := offset + 1;
      return Ok;
    }

    /** One token of the loop shared by Eval and Generate, stated as what Run has left to do. */
    method Round(ghost n: nat) returns (out: Outcome)
      requires 0 <= offset < |Tokens| && n > 0
      modifies Memory, this`offset, this`ptr, this`Input, this`Output
      ensures out.Err? ==> Result(out, Snapshot()) == Run(old(Snapshot()), n)
      ensures !out.Err? ==> 0 <= offset && Run(Snapshot(), n - 1) == Run(old(Snapshot()), n)
    {
      RunUnfold(Snapshot(), n);
      out := Evaluate();
    }

    /** The loop shared by Eval and Generate, stopping at the first error. */
    method Execute(fuel: nat) returns (out: Outcome)
      requires 0 <= offset
      modifies Memory, this`offset, this`ptr, this`Input, this`Output
      ensures Result(out, Snapshot()) == Run(old(Snapshot()), fuel)
    {
      var n := fuel;
      while offset < |Tokens|
        invariant 0 <= offset
        invariant Run(Snapshot(), n) == Run(old(Snapshot()), fuel)
        decreases n
      {
        if n == 0 {
          return OutOfFuel;
        }
        out := Round(n);
        if out.Err? {
          return out;
        }
        n := n - 1;
      }
      return Ok;
    }

    /**
     * Eval: tokenizes `instruction` with the attached REPL lexer, replaces
     * the program with it and runs it from its first token on the current
     * tape and pointer.
     */
    method Eval(instruction: string, fuel: nat) returns (out: Outcome)
      modifies this, Memory, repl
      ensures old(repl) == null ==>
        out == Err(ReplNotInitialized) && Snapshot() == old(Snapshot()) && repl == null
      ensures old(repl) != null ==>
        && repl == old(repl)
        && repl.input == instruction && repl.position == 0
        && Result(out, Snapshot()) == Run(
             State(TokensFrom(instruction, old(repl.position)), old(Memory[..]), 0,
                   old(ptr), old(Input), old(Output)),
             fuel)
    {
      if repl == null {
        return Err(ReplNotInitialized);
      }
      var tokens := repl.Read(instruction);
      Tokens := tokens;
      offset := 0;
      repl.Zero();
      out := Execute(fuel);
    }

    /**
     * Generate: tokenizes `input` with a fresh batch lexer, appends the
     * tokens to the program, resets ptr and offset (not the tape) and runs
     * the whole program.  `output` is not used.  The token loop of Generate
     * is the loop of Lexer.Tokens, appending to the program as it goes.
     */
    method Generate(input: string, output: string, fuel: nat) returns (out: Outcome)
      modifies Memory, this`Tokens, this`offset, this`ptr, this`Input, this`Output
      ensures Result(out, Snapshot()) == Run(
        State(old(Tokens) + TokensFrom(StripLayout(input), 0), old(Memory[..]), 0,
              0, old(Input), old(Output)),
        fuel)
    {
      var l: Lexer := new Lexer.New(input);
      var added := l.Tokens();
      Tokens := Tokens + added;
      ptr := 0;
      offset := 0;
      out := Execute(fuel);
    }
  }
}
