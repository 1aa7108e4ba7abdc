/**
 * The helpers of cmd/bftui/mem.go: the memory-format toggle of the TUI
 * model, the speed and pause state of the Stepper, and HighlightBF, the
 * ANSI colouring of a program text.
 */
module Tui {

  // ---------------------------------------------------------------------------
  // Memory format

  datatype Memfmt = Hex | Decimal | Char

  /** How the memory dump prints cells: the kind and the fmt verb it uses. */
  datatype MemoryFormat = MemoryFormat(kind: Memfmt, literal: string)

  /** The fmt verb that prints a cell the way `kind` names. */
  function Verb(kind: Memfmt): string
  {
    match kind
    case Hex => "%x"
    case Decimal => "%d"
    case Char => "%c"
  }

  /** The literal prints cells in the format the kind names. */
  predicate Agrees(m: MemoryFormat)
  {
    m.literal == Verb(m.kind)
  }

  /** The format the TUI starts with. */
  const Initial := MemoryFormat(Decimal, "%d")

  /** CycleMemFormat as written: Decimal and Hex swap, Char stays. */
  function Cycled(m: MemoryFormat): MemoryFormat
  {
    match m.kind
    case Decimal => MemoryFormat(Hex, "%d")
    case Hex => MemoryFormat(Decimal, "%x")
    case Char => m
  }

  /** Decimal and Hex swap and Char stays; cycling twice restores the kind but not the literal. */
  lemma CycledTwice(m: MemoryFormat)
    ensures m.kind == Char ==> Cycled(m) == m
    ensures m.kind == Decimal ==> Cycled(m).kind == Hex
    ensures m.kind == Hex ==> Cycled(m).kind == Decimal
    ensures Cycled(Cycled(m)).kind == m.kind
    ensures m.kind != Char ==> Cycled(Cycled(m)).literal == (if m.kind == Decimal then "%x" else "%d")
  {
  }

  /** As written, every cycle of an agreeing Decimal or Hex format stops it agreeing. */
  lemma CycledBreaksAgreement(m: MemoryFormat)
    requires Agrees(m) && m.kind != Char
    ensures !Agrees(Cycled(m))
  {
  }

  /** As written, each cycle of Decimal or Hex leaves the verb of the kind it had before. */
  lemma CycledLiteralLags(m: MemoryFormat)
    requires m.kind != Char
    ensures Cycled(m).literal == Verb(m.kind)
    ensures Cycled(m).kind != m.kind
  {
  }

  /** From the start, one ctrl+a changes the kind to Hex but leaves the decimal verb the dump uses. */
  lemma CycledInitialExample()
    ensures Agrees(Initial)
    ensures Cycled(Initial).kind == Hex && Cycled(Initial).literal == Verb(Decimal)
  {
  }

  /** The toggle with each kind given its own verb. */
  function CycledIntended(m: MemoryFormat): MemoryFormat
  {
    match m.kind
    case Decimal => MemoryFormat(Hex, "%x")
    case Hex => MemoryFormat(Decimal, "%d")
    case Char => m
  }

  /** The intended toggle keeps the literal in step with the kind and undoes itself. */
  lemma CycledIntendedAgrees(m: MemoryFormat)
    requires Agrees(m)
    ensures Agrees(CycledIntended(m))
    ensures CycledIntended(CycledIntended(m)) == m
  {
  }

  /** The part of the TUI model the toggle works on. */
  class Model {
    var memfmt: MemoryFormat

    constructor ()
      ensures memfmt == Initial
    {
      memfmt := Initial;
    }

    /** CycleMemFormat: the switch of mem.go, as written. */
    method CycleMemFormat()
      modifies this
      ensures memfmt == Cycled(old(memfmt))
    {
      match memfmt.kind {
        case Decimal =>
          memfmt := memfmt.(kind := Hex);
          memfmt := memfmt.(literal := "%d");
        case Hex =>
          memfmt := memfmt.(kind := Decimal);
          memfmt := memfmt.(literal := "%x");
        case Char =>
      }
    }
  }

  // ---------------------------------------------------------------------------
  // Stepper

  /** The speed after ChangeSpeed(i): the sum, or 0 when it would go negative. */
  function SpeedAfter(speed: int, i: int): (r: int)
    ensures r >= 0
    ensures speed + i >= 0 ==> r == speed + i
    ensures speed + i < 0 ==> r == 0
  {
    if speed + i < 0 then 0 else speed + i
  }

  /** Speeding up and then slowing by the same amount restores a non-negative speed. */
  lemma SpeedUpThenDown(speed: int, i: int)
    requires speed >= 0 && i >= 0
    ensures SpeedAfter(SpeedAfter(speed, i), -i) == speed
  {
  }

  /** Slowing and then speeding up by the same amount restores the speed exactly when it was at least that amount. */
  lemma SpeedDownThenUp(speed: int, i: int)
    requires speed >= 0 && i >= 0
    ensures SpeedAfter(SpeedAfter(speed, -i), i) == speed <==> speed >= i
  {
  }

  /** A faster speed stays at least as fast after the same change. */
  lemma SpeedAfterMonotone(a: int, b: int, i: int)
    requires a <= b
    ensures SpeedAfter(a, i) <= SpeedAfter(b, i)
  {
  }

  class Stepper {
    var Speed: int
    /** The buffered values of the step channel. */
    var Step: seq<bool>
    var Running: bool

    /** The stepper main.go builds: a speed, an empty step channel, running or not. */
    constructor (speed: int, running: bool)
      ensures Speed == speed && Running == running && Step == []
    {
      Speed := speed;
      Step := [];
      Running := running;
    }

    /** Pause: stops running and sets the speed to 0. */
    method Pause()
      modifies this`Running, this`Speed
      ensures !Running && Speed == 0
    {
      Running := false;
      Speed := 0;
    }

    /** Run: runs again at the default speed 10. */
    method Run()
      modifies this`Running, this`Speed
      ensures Running && Speed == 10
    {
      Running := true;
      Speed := 10;
    }

    /** ChangeSpeed: adds i to the speed, never going below 0. */
    method ChangeSpeed(i: int)
      modifies this`Speed
      ensures Speed == SpeedAfter(old(Speed), i)
    {
      if Speed + i < 0 {
        Speed := 0;
      } else {
        Speed := Speed + i;
      }
    }
  }

  // ---------------------------------------------------------------------------
  // HighlightBF

  /**
   * The characters HighlightBF colours. The switch in mem.go lists them
   * itself; they are the eight the lexer knows.
   */
  predicate IsHighlighted(c: char)
  {
    c == '>' || c == '<' || c == '+' || c == '-' || c == '[' || c == ']' || c == ',' || c == '.'
  }

  /** The ANSI colour escape HighlightBF writes before an instruction character. */
  function Prefix(c: char): string
  {
    if c == '>' then "\U{1B}[32m"
    else if c == '<' then "\U{1B}[33m"
    else if c == '+' then "\U{1B}[34m"
    else if c == '-' then "\U{1B}[35m"
    else if c == '[' || c == ']' then "\U{1B}[36m"
    else if c == ',' then "\U{1B}[37m"
    else if c == '.' then "\U{1B}[38m"
    else ""
  }

  const Reset := "\U{1B}[0m"

  /** What one character of the input becomes: `text` in its colour, or itself. */
  function Piece(c: char, text: string): string
  {
    if IsHighlighted(c) then Prefix(c) + text + Reset else [c]
  }

  /** The pieces of the characters of t, each instruction coloured around `text`. */
  function Render(t: string, text: string): (r: string)
    ensures t == [] ==> r == []
    decreases |t|
  {
    if t == [] then [] else Render(t[..|t| - 1], text) + Piece(t[|t| - 1], text)
  }

  /** HighlightBF as written: every instruction character is replaced by the whole input, coloured. */
  method HighlightBF(s: string) returns (r: string)
    ensures r == Render(s, s)
  {
    r := [];
    var i := 0;
    while i < |s|
      invariant 0 <= i <= |s|
      invariant r == Render(s[..i], s)
    {
      var ch := s[i];
      assert s[..i + 1][..i] == s[..i];
      r := r + Piece(ch, s);
      i := i + 1;
    }
    assert s[..|s|] == s;
  }

  /** Render distributes over concatenation of the characters rendered. */
  lemma {:induction false} RenderConcat(a: string, b: string, text: string)
    ensures Render(a + b, text) == Render(a, text) + Render(b, text)
    decreases |b|
  {
    if b != [] {
      var b' := b[..|b| - 1];
      assert (a + b)[..|a + b| - 1] == a + b';
      RenderConcat(a, b', text);
    } else {
      assert a + b == a;
    }
  }

  /** Characters that are not instructions are copied unchanged. */
  lemma {:induction false} RenderPlain(t: string, text: string)
    requires forall k | 0 <= k < |t| :: !IsHighlighted(t[k])
    ensures Render(t, text) == t
    decreases |t|
  {
    if t != [] {
      RenderPlain(t[..|t| - 1], text);
    }
  }

  /** HighlightBF with each instruction character coloured on its own. */
  function Colourize(t: string): (r: string)
    decreases |t|
  {
    if t == [] then [] else Colourize(t[..|t| - 1]) + Piece(t[|t| - 1], [t[|t| - 1]])
  }

  /** The intended colouring is compositional: colouring a + b colours a, then b. */
  lemma {:induction false} ColourizeConcat(a: string, b: string)
    ensures Colourize(a + b) == Colourize(a) + Colourize(b)
    decreases |b|
  {
    if b != [] {
      var b' := b[..|b| - 1];
      assert (a + b)[..|a + b| - 1] == a + b';
      assert (a + b)[|a + b| - 1] == b[|b| - 1];
      ColourizeConcat(a, b');
    } else {
      assert a + b == a;
    }
  }

  /** The intended colouring also copies text with no instructions unchanged. */
  lemma {:induction false} ColourizePlain(t: string)
    requires forall k | 0 <= k < |t| :: !IsHighlighted(t[k])
    ensures Colourize(t) == t
    decreases |t|
  {
    if t != [] {
      ColourizePlain(t[..|t| - 1]);
    }
  }

  /** On a single character the two agree; on "+-" the code as written repeats the whole input. */
  lemma HighlightAsWrittenExample()
    ensures Render("+", "+") == Colourize("+")
    ensures Render("+-", "+-") != Colourize("+-")
    ensures Render("+-", "+-") != Render("+", "+") + Render("-", "-")
  {
    var s := "+-";
    assert s[..1] == "+";
    assert Render("+", "+") == "\U{1B}[34m" + "+" + Reset;
    assert Colourize("+") == "\U{1B}[34m" + "+" + Reset;
    assert Render("-", "-") == "\U{1B}[35m" + "-" + Reset;
    assert Render(s, s) == Render("+", s) + Piece('-', s);
    assert Render("+", s) == "\U{1B}[34m" + s + Reset;
    assert |Render(s, s)| == 22;
    assert |Colourize(s)| == 20 by {
      assert Colourize(s) == Colourize("+") + Piece('-', "-");
    }
  }
}
