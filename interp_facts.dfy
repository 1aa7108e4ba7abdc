/**
 * Properties of the interpreter's transition Step and of its loop Run:
 * where the bracket scans leave the cursor, which faults a balanced program
 * cannot meet, how fuel composes, and a few programs worked through.
 */
module InterpFacts {
  import opened Lexer
  import opened Brackets
  import opened Interp

  // ---------------------------------------------------------------------------
  // Single tokens

  /** '>' and '<' move the pointer by the repeat count and change nothing else. */
  lemma PointerStep(s: State)
    requires 0 <= s.offset < |s.tokens| && s.tokens[s.offset].kind in {IncPtr, DecPtr}
    ensures var t := s.tokens[s.offset];
      var d := if t.kind == IncPtr then t.repeat else -t.repeat;
      Step(s) == Result(Ok, s.(ptr := s.ptr + d, offset := s.offset + 1))
  {
  }

  /**
   * '+' and '-' on the tape add or subtract the repeat count from the current
   * cell, with no wrap-around, and change nothing else.
   */
  lemma CellStep(s: State)
    requires 0 <= s.offset < |s.tokens| && s.tokens[s.offset].kind in {IncCell, DecCell}
    requires OnTape(s)
    ensures var t := s.tokens[s.offset];
      var d := if t.kind == IncCell then t.repeat else -t.repeat;
      && Step(s).outcome == Ok
      && Step(s).state.memory[s.ptr] == s.memory[s.ptr] + d
      && (forall k | 0 <= k < |s.memory| && k != s.ptr :: Step(s).state.memory[k] == s.memory[k])
      && Step(s).state == s.(memory := Step(s).state.memory, offset := s.offset + 1)
  {
  }

  /** ',' stores the next input byte in the current cell and consumes it. */
  lemma InputStep(s: State)
    requires 0 <= s.offset < |s.tokens| && s.tokens[s.offset].kind == Input
    requires OnTape(s) && s.input != []
    ensures Step(s).outcome == Ok
    ensures Step(s).state == s.(memory := s.memory[s.ptr := s.input[0]], input := s.input[1..],
                                offset := s.offset + 1)
    ensures 0 <= Step(s).state.memory[s.ptr] < 256
  {
  }

  /** ',' with nothing left to read reports an error and changes nothing. */
  lemma NoInputStep(s: State)
    requires 0 <= s.offset < |s.tokens| && s.tokens[s.offset].kind == Input && s.input == []
    ensures Step(s) == Result(Err(NoInput), s)
  {
  }

  /**
   * A '[' over a zero cell moves the cursor onto its matching ']' and no
   * further; the next step sees the same zero cell and passes the ']'.
   */
  lemma SkipLandsOnClose(s: State)
    requires 0 <= s.offset < |s.tokens| && s.tokens[s.offset].kind == LoopOpen
    requires OnTape(s) && s.memory[s.ptr] == 0
    requires MatchForward(s.tokens, s.offset) < |s.tokens|
    ensures var j := MatchForward(s.tokens, s.offset);
      && Step(s) == Result(Ok, s.(offset := j))
      && s.tokens[j].kind == LoopClose
      && Step(s.(offset := j)) == Result(Ok, s.(offset := j + 1))
  {
    var j := MatchForward(s.tokens, s.offset);
    assert Depth(s.tokens, s.offset, j - 1) > 0;
    assert Depth(s.tokens, s.offset, j) == Depth(s.tokens, s.offset, j - 1) + Delta(s.tokens[j]);
  }

  /**
   * A ']' over a nonzero cell moves the cursor back onto its matching '[';
   * the next step sees the same nonzero cell and enters the body.
   */
  lemma BackScanLandsOnOpen(s: State)
    requires 0 <= s.offset < |s.tokens| && s.tokens[s.offset].kind == LoopClose
    requires OnTape(s) && s.memory[s.ptr] != 0
    requires MatchBackward(s.tokens, s.offset) >= 0
    ensures var i := MatchBackward(s.tokens, s.offset);
      && Step(s) == Result(Ok, s.(offset := i))
      && s.tokens[i].kind == LoopOpen
      && Step(s.(offset := i)) == Result(Ok, s.(offset := i + 1))
  {
    var i := MatchBackward(s.tokens, s.offset);
    SpanCons(s.tokens, i, s.offset + 1);
    assert Depth(s.tokens, i + 1, s.offset) < 0;
  }

  /** A ']' reached over a zero cell is passed whether or not it has a match. */
  lemma ZeroCloseIsHarmless(s: State)
    requires 0 <= s.offset < |s.tokens| && s.tokens[s.offset].kind == LoopClose
    requires OnTape(s) && s.memory[s.ptr] == 0
    ensures Step(s) == Result(Ok, s.(offset := s.offset + 1))
  {
  }

  /** In a balanced program a bracket scan never runs off either end. */
  lemma BalancedStepNoScanFault(s: State)
    requires 0 <= s.offset < |s.tokens| && Balanced(s.tokens)
    ensures Step(s).outcome != Err(Panic(ScanPastEnd))
    ensures Step(s).outcome != Err(Panic(ScanBeforeStart))
  {
    var t := s.tokens[s.offset];
    if t.kind == LoopOpen {
      BalancedForward(s.tokens, s.offset);
    } else if t.kind == LoopClose {
      BalancedBackward(s.tokens, s.offset);
    }
  }

  // ---------------------------------------------------------------------------
  // Runs

  /** Running a balanced program never ends in a scan fault. */
  lemma {:induction false} BalancedRunNoScanFault(s: State, fuel: nat)
    requires 0 <= s.offset && Balanced(s.tokens)
    ensures Run(s, fuel).outcome != Err(Panic(ScanPastEnd))
    ensures Run(s, fuel).outcome != Err(Panic(ScanBeforeStart))
    decreases fuel
  {
    if s.offset < |s.tokens| && fuel > 0 {
      BalancedStepNoScanFault(s);
      var r := Step(s);
      if !r.outcome.Err? {
        BalancedRunNoScanFault(r.state, fuel - 1);
      }
    }
  }

  /** Fuel composes: running f + g steps is running f, then g more from where it stopped. */
  lemma RunSplit(s: State, f: nat, g: nat)
    requires 0 <= s.offset
    ensures Run(s, f).outcome == OutOfFuel ==> Run(s, f + g) == Run(Run(s, f).state, g)
    ensures Run(s, f).outcome != OutOfFuel ==> Run(s, f + g) == Run(s, f)
  {
    if Run(s, f).outcome == OutOfFuel {
      RunSplitOutOfFuel(s, f, g, Run(s, f).state);
    } else {
      RunSplitDone(s, f, g);
    }
  }

  lemma {:induction false} RunSplitOutOfFuel(s: State, f: nat, g: nat, m: State)
    requires 0 <= s.offset && Run(s, f) == Result(OutOfFuel, m)
    ensures 0 <= m.offset && Run(s, f + g) == Run(m, g)
    decreases f
  {
    if f > 0 {
      OutOfFuelUnfold(s, f);
      RunUnfold(s, f + g);
      RunSplitOutOfFuel(Step(s).state, f - 1, g, m);
    }
  }

  /** A run that used up its fuel made a step that went on normally. */
  lemma OutOfFuelUnfold(s: State, f: nat)
    requires 0 <= s.offset && f > 0 && Run(s, f).outcome == OutOfFuel
    ensures s.offset < |s.tokens| && Step(s).outcome == Ok
    ensures Run(s, f) == Run(Step(s).state, f - 1)
  {
  }

  lemma {:induction false} RunSplitDone(s: State, f: nat, g: nat)
    requires 0 <= s.offset && Run(s, f).outcome != OutOfFuel
    ensures Run(s, f + g) == Run(s, f)
    decreases f
  {
    if s.offset < |s.tokens| {
      RunUnfold(s, f);
      RunUnfold(s, f + g);
      if !Step(s).outcome.Err? {
        RunSplitDone(Step(s).state, f - 1, g);
      }
    }
  }

  /** A run that ends with fuel to spare ends the same way given more. */
  lemma RunFuelMonotone(s: State, f: nat, g: nat)
    requires 0 <= s.offset && f <= g
    requires Run(s, f).outcome != OutOfFuel
    ensures Run(s, g) == Run(s, f)
  {
    RunSplit(s, f, g - f);
  }

  /** A run only reads its input from the front: what is left is a suffix. */
  lemma {:induction false} RunConsumesInput(s: State, fuel: nat)
    requires 0 <= s.offset
    ensures var rest := Run(s, fuel).state.input;
      |rest| <= |s.input| && s.input[|s.input| - |rest|..] == rest
    decreases fuel
  {
    if s.offset < |s.tokens| && fuel > 0 {
      StepStreams(s);
      var r := Step(s);
      if !r.outcome.Err? {
        assert Run(s, fuel) == Run(r.state, fuel - 1);
        RunConsumesInput(r.state, fuel - 1);
        var rest := Run(r.state, fuel - 1).state.input;
        if r.state.input != s.input {
          assert s.input[|s.input| - |rest|..] == r.state.input[|r.state.input| - |rest|..];
        }
      }
    }
  }

  // ---------------------------------------------------------------------------
  // Programs worked through

  /** ",." copies any first input byte to the output, through the current cell, and leaves the rest of the input. */
  lemma EchoAnyByte(m: seq<int>, p: int, b: Byte, rest: seq<Byte>, out: seq<int>)
    requires 0 <= p < |m|
    ensures var ts := [Token(Input, 1), Token(Output, 1)];
      Run(State(ts, m, 0, p, [b] + rest, out), 2)
      == Result(Ok, State(ts, m[p := b], 2, p, rest, out + [b]))
  {
    var ts := [Token(Input, 1), Token(Output, 1)];
    var s0 := State(ts, m, 0, p, [b] + rest, out);
    var s1 := State(ts, m[p := b], 1, p, rest, out);
    assert ([b] + rest)[0] == b && ([b] + rest)[1..] == rest;
    assert Step(s0) == Result(Ok, s1);
    assert Step(s1) == Result(Ok, State(ts, m[p := b], 2, p, rest, out + [b]));
    RunUnfold(s0, 2);
    RunUnfold(s1, 1);
  }

  /** ">>><<<" moves the pointer out and back, wherever it starts, touching nothing else. */
  lemma ShiftRoundTrip(m: seq<int>, p: int, input: seq<Byte>, out: seq<int>)
    ensures Run(State(TokensFrom(">>><<<", 0), m, 0, p, input, out), 2)
         == Result(Ok, State(TokensFrom(">>><<<", 0), m, 2, p, input, out))
  {
    ShiftTokens();
    var ts := [Token(IncPtr, 3), Token(DecPtr, 3)];
    var s0 := State(ts, m, 0, p, input, out);
    var s1 := State(ts, m, 1, p + 3, input, out);
    assert Step(s0) == Result(Ok, s1);
    assert Step(s1) == Result(Ok, State(ts, m, 2, p, input, out));
    RunUnfold(s0, 2);
    RunUnfold(s1, 1);
  }

  lemma ShiftTokens()
    ensures TokensFrom(">>><<<", 0) == [Token(IncPtr, 3), Token(DecPtr, 3)]
  {
    var s := ">>><<<";
    assert RunEnd(s, 3, '>') == 3;
    assert RunEnd(s, 0, '>') == 3;
    assert Scan(s, 0) == (Token(IncPtr, 3), 3);
    assert RunEnd(s, 6, '<') == 6;
    assert RunEnd(s, 3, '<') == 6;
    assert Scan(s, 3) == (Token(DecPtr, 3), 6);
    assert Scan(s, 6) == (Token(EOF, 1), 6);
  }

  /** The tokens of "+++++[-]", the program of lexer/lexer_test.go. */
  const ClearProgram := [Token(IncCell, 5), Token(LoopOpen, 1), Token(DecCell, 1), Token(LoopClose, 1)]

  /** The back-scan from the ']' of "+++++[-]" lands on its '['. */
  lemma ClearBackScan()
    ensures MatchBackward(ClearProgram, 3) == 1
  {
    var ts := ClearProgram;
    assert Span(ts, 3, 3) == 0 && Depth(ts, 3, 3) == -1;
    assert Span(ts, 2, 2) == 0 && Span(ts, 2, 3) == 0 && Depth(ts, 2, 3) == -1;
    assert Span(ts, 1, 1) == 0 && Span(ts, 1, 2) == 1 && Span(ts, 1, 3) == 1;
    assert Depth(ts, 1, 3) == 0;
    assert IsBackwardMatch(ts, 1, 3);
  }

  /**
   * The loop "[-]" entered with the cell at n >= 1 goes round n times, three
   * tokens a time, each back-scan landing on the '[', and leaves the cell at 0
   * with the cursor past the ']'.
   */
  lemma {:induction false} Countdown(n: nat)
    requires n >= 1
    ensures Run(State(ClearProgram, [n], 1, 0, [], []), 3 * n)
         == Result(Ok, State(ClearProgram, [0], 4, 0, [], []))
    decreases n
  {
    var ts := ClearProgram;
    var s1 := State(ts, [n], 1, 0, [], []);
    var s2 := State(ts, [n], 2, 0, [], []);
    var s3 := State(ts, [n - 1], 3, 0, [], []);
    assert Step(s1) == Result(Ok, s2);
    assert Step(s2) == Result(Ok, s3);
    RunUnfold(s1, 3 * n);
    RunUnfold(s2, 3 * n - 1);
    RunUnfold(s3, 3 * n - 2);
    if n == 1 {
      assert Step(s3) == Result(Ok, State(ts, [0], 4, 0, [], []));
    } else {
      ClearBackScan();
      assert Step(s3) == Result(Ok, State(ts, [n - 1], 1, 0, [], []));
      Countdown(n - 1);
      assert 3 * n - 3 == 3 * (n - 1);
    }
  }

  /**
   * The program of lexer/lexer_test.go, "+++++[-]", run on a zero cell with
   * fuel to spare: it ends normally with the cell back at 0, the pointer at 0
   * and the cursor at the end.
   */
  lemma ClearExample(fuel: nat)
    requires fuel >= 16
    ensures Run(State(TokensFrom("+++++[-]", 0), [0], 0, 0, [], []), fuel)
         == Result(Ok, State(ClearProgram, [0], 4, 0, [], []))
  {
    TokenizeExample();
    var s0 := State(ClearProgram, [0], 0, 0, [], []);
    assert Step(s0) == Result(Ok, State(ClearProgram, [5], 1, 0, [], []));
    RunUnfold(s0, 16);
    Countdown(5);
    RunFuelMonotone(s0, 16, fuel);
  }

  /** "[+" over a zero cell: the skip finds no ']' and runs off the end. */
  lemma UnmatchedSkipExample()
    ensures Run(State([Token(LoopOpen, 1), Token(IncCell, 1)], [0], 0, 0, [], []), 1).outcome
         == Err(Panic(ScanPastEnd))
  {
    var ts := [Token(LoopOpen, 1), Token(IncCell, 1)];
    assert Depth(ts, 0, 1) == 1 by {
      assert Span(ts, 0, 0) == 0;
      assert Span(ts, 0, 1) == 1;
    }
    assert NoForwardMatch(ts, 0);
  }

  /** "+++" then "." at the REPL writes the value 3: the tape survives between programs. */
  lemma ReplExample()
    ensures var first := Run(State(TokensFrom("+++", 0), [0], 0, 0, [], []), 1);
      && first.outcome == Ok
      && Run(State(TokensFrom(".", 0), first.state.memory, 0, first.state.ptr, [], []), 1)
         == Result(Ok, State([Token(Output, 1)], [3], 1, 0, [], [3]))
  {
    PlusRunTokens();
    DotTokens();
    var s0 := State([Token(IncCell, 3)], [0], 0, 0, [], []);
    assert Step(s0) == Result(Ok, State([Token(IncCell, 3)], [3], 1, 0, [], []));
    var s1 := State([Token(Output, 1)], [3], 0, 0, [], []);
    assert Step(s1) == Result(Ok, State([Token(Output, 1)], [3], 1, 0, [], [3]));
  }

  lemma PlusRunTokens()
    ensures TokensFrom("+++", 0) == [Token(IncCell, 3)]
  {
    var s := "+++";
    assert s[0] == '+' && s[1] == '+' && s[2] == '+';
    assert FirstInstruction(s, 0) == 0;
    assert RunEnd(s, 3, '+') == 3;
    assert RunEnd(s, 0, '+') == 3;
    assert Scan(s, 0) == (Token(IncCell, 3), 3);
    assert Scan(s, 3) == (Token(EOF, 1), 3);
  }

  lemma DotTokens()
    ensures TokensFrom(".", 0) == [Token(Output, 1)]
  {
    var s := ".";
    assert s[0] == '.';
    assert FirstInstruction(s, 0) == 0;
    assert Scan(s, 0) == (Token(Output, 1), 1);
    assert Scan(s, 1) == (Token(EOF, 1), 1);
  }

  /** The same session driven through the class: NewRepl, Eval("+++"), Eval("."). */
  method ReplSession() returns (written: seq<int>, final: Outcome)
    ensures written == [3] && final == Ok
  {
    var vm := new Interpreter.NewRepl(1);
    assert vm.Memory[..] == [0];
    var first := vm.Eval("+++", 1);
    PlusRunTokens();
    assert Step(State([Token(IncCell, 3)], [0], 0, 0, [], [])).state.memory == [3];
    assert vm.Memory[..] == [3] && vm.ptr == 0 && first == Ok;
    final := vm.Eval(".", 1);
    DotTokens();
    assert Step(State([Token(Output, 1)], [3], 0, 0, [], [])).state.output == [3];
    written := vm.Output;
  }
}
