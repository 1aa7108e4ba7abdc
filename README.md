# bfcc core in Dafny

A model of the core of bfcc, a Brainfuck toolchain written in Go, with proofs
about that model. The model covers four pieces:

- **The run-length tokenizer** (`lexer/lexer.go`).
  - The class `Lexer.Lexer` holds the `input` and `position` fields.
  - `Next` drops unknown characters and collapses runs of `+ - > <` into one token with a `repeat` count.
  - `. , [ ]` come out one at a time.
  - `EOF` comes at the end.
  - `Next`, `Tokens` and `Read` are loops proved against the pure functions `Scan` and `TokensFrom`.
  - The main property, a round trip, is proved about those functions: the concatenated texts of the tokens are the input with every non-instruction character removed.
- **The tape interpreter** (`pkg/gen/interp/interp.go`).
  - `Interp.State` is a snapshot of the machine's fields, and `Interp.Step` is one call of `evaluate`.
  - `Interp.Run` is the `for offset < len(Tokens)` loop of `Eval` and `Generate`.
  - The class `Interp.Interpreter` keeps the tape in an array and updates it in place. Its methods are proved to make exactly the transitions of `Step` and `Run`.
  - Loops are resolved at run time by the depth-counting scans. The module `Brackets` states where those scans stop by means of the net nesting `Span` of a stretch of tokens.
- **The debugger VM** (`pkg/dbg/debug.go`). It is the same machine with a `step` hook and a `curToken` field.
  - Every method of `Dbg.Debug` that runs the machine is proved against the interpreter's own `Step` and `Run`. The loop of `Eval` is proved against `Dbg.DebugRun`, which `Dbg.DebugRunAgrees` ties to `Run`. So the debugger computes exactly what the interpreter computes, whatever the hook answers.
  - Two extra fields say what the debugger adds: the number of hook calls (`Steps`) and the token last dispatched (`curToken`).
- **The TUI helpers** (`cmd/bftui/mem.go`):
  - the memory-format toggle;
  - the `Stepper` speed and pause state;
  - `HighlightBF`.

The Go code panics in four cases. The model returns `Err(Panic(..))` for each, but the program itself reports nothing: it crashes. The four cases are:

- a tape access with `ptr` outside `Memory`;
- a skipped `[` with no matching `]`;
- a back-scanned `]` with no matching `[`;
- `,` storing a byte while `ptr` is outside the tape.

`Eval` and `Generate` take a `fuel` argument, because a Brainfuck program need not halt. They return `OutOfFuel` when the Go loop would go on.

Files:

- `lexer.dfy` (module `Lexer`)
- `brackets.dfy` (module `Brackets`)
- `interp.dfy` (module `Interp`)
- `interp_facts.dfy` (module `InterpFacts`)
- `dbg.dfy` (module `Dbg`)
- `tui.dfy` (module `Tui`)

## Model

| member | source | states |
|---|---|---|
| `Lexer.KindOf` | lexer/lexer.go:50-66 | an instruction character's token type is never EOF, has that character as its Type, and is a run kind exactly for `+ - > <` |
| `Lexer.RemoveAll` | lexer/lexer.go:45-47 | `strings.ReplaceAll(s, c, "")` leaves no `c`, never lengthens, and is the identity when `c` is absent |
| `Lexer.RemoveAllConcat` | lexer/lexer.go:45-47 | deleting a character from a concatenation deletes it from each piece |
| `Lexer.RemoveAllChar` | lexer/lexer.go:45-47 | on one character, RemoveAll deletes it exactly when it is the one removed; with `RemoveAllConcat` every other character is kept in order |
| `Lexer.StripLayout` | lexer/lexer.go:44-47 | New's clean-up leaves no newline, carriage return or space |
| `Lexer.StripLayoutConcat` | lexer/lexer.go:44-47 | New's clean-up of a concatenation is the clean-up of each piece |
| `Lexer.StripLayoutChar` | lexer/lexer.go:44-47 | on one character, the clean-up deletes it exactly when it is a newline, carriage return or space, so every other character stays, in order |
| `Lexer.StripLayoutNoLayout` | lexer/lexer.go:44-47 | text with no newline, carriage return or space is left unchanged |
| `Lexer.StripLayoutKeepsInstructions` | lexer/lexer.go:44-47 | that clean-up does not change the instruction text of a program |
| `Lexer.FirstInstruction` | lexer/lexer.go:133-166 | the scan skips exactly the characters that are not known tokens, stopping on the first one that is |
| `Lexer.RunEnd` | lexer/lexer.go:147-162 | the counting loop stops at the end of the maximal run of the character it started on |
| `Lexer.Scan` | lexer/lexer.go:131-170 | Next yields EOF exactly when no instruction is left, then with repeat 1 and the position at the end (unchanged when already past it); otherwise it advances and repeat is at least 1 |
| `Lexer.ScanConsumes` | lexer/lexer.go:131-170 | the characters one Next consumes hold exactly the token's text among their instructions |
| `Lexer.ScanToken` | lexer/lexer.go:141-162 | a token has repeat >= 1, and repeat 1 unless it is `+ - > <`; its Type is the consumed character; it stands for a run of it, and a collapsed run is maximal |
| `Lexer.ScanAtEnd` | lexer/lexer.go:133-169 | at or past the end, Next returns EOF with repeat 1 and leaves the position alone, so it keeps doing so |
| `Lexer.TokensFromRoundTrip` | lexer/lexer.go:117-127 | concatenating `repeat` copies of each token's Type gives the scanned input with the non-instruction characters removed |
| `Lexer.TokensFromWellFormed` | lexer/lexer.go:117-127 | every listed token is well formed (so none is EOF), and there are at most as many tokens as characters scanned |
| `Lexer.TokenizeExample` | lexer/lexer_test.go:9-12 | `"+++++[-]"` tokenizes to `(+,5) ([,1) (-,1) (],1)` |
| `Lexer.NewLayoutExample` | lexer/lexer.go:41-47 | through New, `"+ +"` gives the single token `(+,2)` |
| `Lexer.ReadLayoutExample` | lexer/lexer.go:98-109 | through Read, `"+ +"` gives two `(+,1)` tokens |
| `Lexer.Lexer.New` | lexer/lexer.go:41-69 | a batch lexer holds the stripped input at position 0 |
| `Lexer.Lexer.Repl` | lexer/lexer.go:71-94 | a REPL lexer has no input and position 0 |
| `Lexer.Lexer.Next` | lexer/lexer.go:131-170 | the token returned and the new position are those of `Scan` from the old position; only `position` changes |
| `Lexer.Lexer.Tokens` | lexer/lexer.go:117-127 | the list is `TokensFrom` the old position, ending with the position at the end of the input |
| `Lexer.Lexer.Read` | lexer/lexer.go:98-109 | Read replaces the input and tokenizes it from the current position, which it does not reset |
| `Lexer.Lexer.Zero` | lexer/lexer.go:112-114 | Zero sets the position to 0 and changes nothing else |
| `Brackets.MatchForward` | pkg/gen/interp/interp.go:141-151 | the forward skip from `[` stops on the first later token where the nesting returns to 0, or at `len(Tokens)` exactly when there is none |
| `Brackets.MatchBackward` | pkg/gen/interp/interp.go:164-173 | the back-scan from `]` stops on the nearest earlier token where the nesting balances, or at -1 exactly when there is none |
| `Brackets.MatchSymmetric` | pkg/gen/interp/interp.go:134-175 | j matches i going forward exactly when i matches j going backward |
| `Brackets.ScansAreInverse` | pkg/gen/interp/interp.go:134-175 | the skip from the `[` at i lands on j exactly when the back-scan from the `]` at j lands on i |
| `Brackets.BalancedForward` | pkg/gen/interp/interp.go:141-151 | in a balanced program the forward skip always finds its `]` |
| `Brackets.BalancedBackward` | pkg/gen/interp/interp.go:164-173 | in a balanced program the back-scan always finds its `[` |
| `Interp.Step` | pkg/gen/interp/interp.go:102-181 | evaluate keeps the tokens and the tape length, leaves the cursor in range when it succeeds, and only appends output |
| `Interp.StepErrors` | pkg/gen/interp/interp.go:102-181 | `,` fails for want of input exactly when none is left; evaluate faults on the tape exactly for a cell access off the tape, and on a scan exactly when the bracket has no match; every error is one of these |
| `Interp.StepStreams` | pkg/gen/interp/interp.go:118-132 | only `.` on the tape writes, and it writes the current cell; input is left alone or loses exactly its first byte |
| `Interp.Run` | pkg/gen/interp/interp.go:91-96 | the evaluate loop keeps the tokens, and when it runs out of fuel the cursor is still on a token |
| `Interp.RunShape` | pkg/gen/interp/interp.go:91-96 | the loop keeps the tape length, ends Ok only with the cursor past the last token (exactly at the end when it started inside), and only appends output |
| `Interp.Interpreter.New` | pkg/gen/interp/interp.go:28-35 | a zero tape of `stacksize` cells, `ptr` 0, no program and no lexer |
| `Interp.Interpreter.NewRepl` | pkg/gen/interp/interp.go:61-71 | the same machine with a fresh REPL lexer at position 0 |
| `Interp.Interpreter.Ptr` | pkg/gen/interp/interp.go:74-76 | returns the pointer |
| `Interp.Interpreter.SkipForward` | pkg/gen/interp/interp.go:141-153 | the depth-counting loop leaves `offset` on `MatchForward`, and reports running off the end exactly when that is `len(Tokens)` |
| `Interp.Interpreter.ScanBackward` | pkg/gen/interp/interp.go:162-175 | the reverse loop leaves `offset` on `MatchBackward`, and reports running off the start exactly when that is -1 |
| `Interp.Interpreter.Evaluate` | pkg/gen/interp/interp.go:102-181 | the in-place update of tape, pointer, cursor, input and output is the transition `Step` |
| `Interp.Interpreter.Round` | pkg/gen/interp/interp.go:91-96 | one pass of the loop body: on an error the result is that of `Run`; otherwise `Run` with one fewer step from the new machine gives the same result |
| `Interp.Interpreter.Execute` | pkg/gen/interp/interp.go:91-96 | the loop `for offset < len(Tokens)` with its early error return is `Run` |
| `Interp.Interpreter.Eval` | pkg/gen/interp/interp.go:81-99 | without a lexer: an error and nothing changed; otherwise the new program is Read from the lexer's position, `offset` restarts at 0 on the old tape and pointer, the lexer is left at position 0, and the result is `Run` of that machine |
| `Interp.Interpreter.Generate` | pkg/gen/interp/interp.go:38-58 | the stripped program's tokens are appended to the old ones; `ptr` and `offset` reset to 0 but the tape and lexer are kept; the result is `Run` of that machine; `output` is unused |
| `InterpFacts.PointerStep` | pkg/gen/interp/interp.go:106-110 | `>` and `<` add or subtract `Repeat` from `ptr`, advance, and change nothing else |
| `InterpFacts.CellStep` | pkg/gen/interp/interp.go:112-116 | `+` and `-` add or subtract `Repeat` from the current cell without wrap-around, leave every other cell alone and advance |
| `InterpFacts.InputStep` | pkg/gen/interp/interp.go:121-132 | `,` stores the next input byte (0..255) in the current cell, consumes it and advances |
| `InterpFacts.NoInputStep` | pkg/gen/interp/interp.go:121-126 | `,` with no byte left returns an error and changes nothing |
| `InterpFacts.SkipLandsOnClose` | pkg/gen/interp/interp.go:134-153 | a zero-cell `[` moves the cursor onto its matching `]` and no further; the next step passes that `]` |
| `InterpFacts.BackScanLandsOnOpen` | pkg/gen/interp/interp.go:155-175 | a nonzero-cell `]` moves the cursor back onto its matching `[`; the next step enters the body |
| `InterpFacts.ZeroCloseIsHarmless` | pkg/gen/interp/interp.go:155-160 | a `]` over a zero cell is passed whether or not it has a match |
| `InterpFacts.BalancedStepNoScanFault` | pkg/gen/interp/interp.go:141-173 | in a balanced program no step runs a scan off either end |
| `InterpFacts.BalancedRunNoScanFault` | pkg/gen/interp/interp.go:91-96 | a run of a balanced program never ends in a scan fault |
| `InterpFacts.RunSplit` | pkg/gen/interp/interp.go:91-96 | running f + g steps is running f and then g more from where it stopped |
| `InterpFacts.RunFuelMonotone` | pkg/gen/interp/interp.go:91-96 | a run that stops before its fuel is spent ends the same way given more |
| `InterpFacts.RunConsumesInput` | pkg/gen/interp/interp.go:121-132 | the input is only read from the front: what is left is a suffix of it |
| `InterpFacts.EchoAnyByte` | pkg/gen/interp/interp.go:118-132 | `,.` on the tape stores any first input byte in the current cell, writes it to the output and leaves the rest of the input |
| `InterpFacts.ShiftRoundTrip` | pkg/gen/interp/interp.go:106-110 | `>>><<<` (two tokens of repeat 3) ends Ok with the pointer where it started, from any pointer, and nothing else changed |
| `InterpFacts.ClearBackScan` | pkg/gen/interp/interp.go:155-175 | in the tokens of `+++++[-]`, the back-scan from the `]` lands on the `[` |
| `InterpFacts.Countdown` | pkg/gen/interp/interp.go:112-175 | the loop `[-]` entered with cell n >= 1 goes round n times in 3n steps and leaves the cell at 0 with the cursor past the `]` |
| `InterpFacts.ClearExample` | pkg/gen/interp/interp.go:91-181 | `+++++[-]` on a zero cell, with at least 16 steps of fuel, ends Ok with the cell at 0, the pointer at 0 and the cursor at the end |
| `InterpFacts.UnmatchedSkipExample` | pkg/gen/interp/interp.go:141-151 | `[+` over a zero cell runs the skip off the end |
| `InterpFacts.ReplExample` | pkg/gen/interp/interp.go:86-96 | `"+++"` then `"."` writes 3, because the tape survives between programs |
| `InterpFacts.ReplSession` | pkg/gen/interp/interp.go:61-99 | the same session through `NewRepl` and two `Eval` calls writes `[3]` and ends Ok |
| `Dbg.ScanStepsCount` | pkg/dbg/debug.go:186-219 | a scan from i that lands on j makes as many hook calls as the distance from i to j; a panicking forward or backward scan makes one fewer than the distance to the end it ran off |
| `Dbg.Dispatched` | pkg/dbg/debug.go:127-140 | Eval dispatches at most `fuel` tokens, none exactly when the cursor starts past the end or there is no fuel, and all `fuel` when the run is cut off |
| `Dbg.HookCallsCoverDispatch` | pkg/dbg/debug.go:127-140 | the hook is called at least once per dispatched token |
| `Dbg.LastTokenInProgram` | pkg/dbg/debug.go:130-131 | curToken after Eval is a token of the program once anything was dispatched, and unchanged otherwise |
| `Dbg.DebugRunAgrees` | pkg/dbg/debug.go:127-142 | the debugger's loop `DebugRun` has the interpreter's `Run` as its result, adds `HookCalls` to the hook count and leaves curToken at `LastToken` |
| `Dbg.NoBracketsOneHookPerToken` | pkg/dbg/debug.go:127-140 | without brackets the hook is called exactly once per dispatched token |
| `Dbg.LastTokenIsFailing` | pkg/dbg/debug.go:129-139 | when Eval stops on a tape or input error, curToken is the token that failed |
| `Dbg.HookCallsExample` | pkg/dbg/debug.go:186-196 | `[+]` over a zero cell makes one call for `[`, two for the skip and one for `]` |
| `Dbg.Debug.New` | pkg/dbg/debug.go:45-60 | a zero tape of `stacksize` cells, `ptr` 0, a REPL lexer and a hook that does nothing |
| `Dbg.Debug.SetStep` | pkg/dbg/debug.go:63-65 | SetStep replaces the hook and nothing else |
| `Dbg.Debug.Ptr` | pkg/dbg/debug.go:68-70 | returns the pointer |
| `Dbg.Debug.CallStep` | pkg/dbg/debug.go:129 | one hook call, its answer dropped, counted and changing nothing else |
| `Dbg.Debug.SkipForward` | pkg/dbg/debug.go:186-196 | the skip lands as the interpreter's and calls the hook once per token read |
| `Dbg.Debug.ScanBackward` | pkg/dbg/debug.go:209-219 | the back-scan lands as the interpreter's and calls the hook once per token read |
| `Dbg.Debug.Evaluate` | pkg/dbg/debug.go:146-227 | the transition is the interpreter's `Step`, plus the hook calls of its scan |
| `Dbg.Debug.Cycle` | pkg/dbg/debug.go:128-140 | the hook is called once, curToken becomes the token at the cursor, and the dispatch is the interpreter's `Step` with the hook calls of its scan |
| `Dbg.Debug.Round` | pkg/dbg/debug.go:127-142 | one pass of the loop body: on an error the machine, hook count and curToken are those `DebugRun` ends with; otherwise `DebugRun` with one fewer step from the new machine ends the same way |
| `Dbg.Debug.Execute` | pkg/dbg/debug.go:127-142 | the loop is `DebugRun`, and so the interpreter's `Run`, with `HookCalls` hook calls and curToken set to `LastToken` |
| `Dbg.Debug.Eval` | pkg/dbg/debug.go:117-143 | without a lexer: an error and nothing changed; otherwise the interpreter's Eval transition, with the hook counted and curToken set; the hook itself is kept |
| `Dbg.SameAsInterpreter` | pkg/dbg/debug.go:146-227 | the debugger and the interpreter, from equal machines and the same instruction, end with the same outcome and equal machines |
| `Tui.CycledTwice` | cmd/bftui/mem.go:21-34 | CycleMemFormat swaps Decimal and Hex, leaves Char alone, and restores the kind after two calls |
| `Tui.CycledBreaksAgreement` | cmd/bftui/mem.go:23-29 | as written, cycling a Decimal or Hex format whose literal matches its kind leaves a literal that does not |
| `Tui.CycledLiteralLags` | cmd/bftui/mem.go:23-29 | as written, a cycle from Decimal or Hex changes the kind but gives the literal the verb of the old kind, which is all the memory view prints with |
| `Tui.CycledInitialExample` | cmd/bftui/main.go:77-79 | from the initial `(Decimal, "%d")`, one ctrl+a gives kind Hex but keeps the decimal verb |
| `Tui.CycledIntendedAgrees` | cmd/bftui/mem.go:21-34 | the corrected toggle keeps the literal in step with the kind and undoes itself |
| `Tui.Model.constructor` | cmd/bftui/main.go:77-79 | the TUI starts with format `(Decimal, "%d")` |
| `Tui.Model.CycleMemFormat` | cmd/bftui/mem.go:21-34 | the switch, as written, makes the `Cycled` change to `memfmt` |
| `Tui.SpeedAfter` | cmd/bftui/mem.go:55-61 | the new speed is the sum when that is not negative, and 0 otherwise, so it is never negative |
| `Tui.SpeedUpThenDown` | cmd/bftui/mem.go:55-61 | ChangeSpeed(i) then ChangeSpeed(-i) restores a non-negative speed |
| `Tui.SpeedDownThenUp` | cmd/bftui/mem.go:55-61 | ChangeSpeed(-i) then ChangeSpeed(i) restores the speed exactly when it was at least i |
| `Tui.SpeedAfterMonotone` | cmd/bftui/mem.go:55-61 | ChangeSpeed preserves the order of two speeds |
| `Tui.Stepper.constructor` | cmd/bftui/main.go:114-118 | a stepper with the given speed and running flag and an empty step channel |
| `Tui.Stepper.Pause` | cmd/bftui/mem.go:43-46 | Pause stops running and sets the speed to 0, leaving the step channel alone |
| `Tui.Stepper.Run` | cmd/bftui/mem.go:49-52 | Run sets running at speed 10, leaving the step channel alone |
| `Tui.Stepper.ChangeSpeed` | cmd/bftui/mem.go:55-61 | the speed becomes `max(0, Speed + i)` and nothing else changes |
| `Tui.HighlightBF` | cmd/bftui/mem.go:63-88 | the rune loop builds `Render(s, s)`: every instruction is replaced by the coloured whole input, and any other rune is copied |
| `Tui.RenderConcat` | cmd/bftui/mem.go:65-86 | the rendering of a + b is that of a followed by that of b |
| `Tui.RenderPlain` | cmd/bftui/mem.go:83-84 | a string with no instruction characters is copied unchanged |
| `Tui.ColourizeConcat` | cmd/bftui/mem.go:66-82 | the corrected colouring is compositional over concatenation |
| `Tui.ColourizePlain` | cmd/bftui/mem.go:83-84 | the corrected colouring also copies text with no instructions unchanged |
| `Tui.HighlightAsWrittenExample` | cmd/bftui/mem.go:67-74 | on `"+"` the code as written and the corrected colouring agree; on `"+-"` they differ, and the code as written is not compositional |

## Left out

- Output encoding. `fmt.Fprintf("%c", rune(cell))` writes the UTF-8 encoding of the cell, or U+FFFD. The model records the cell values written.
- `io.Reader` corner cases. Input is a byte sequence consumed from the front, and the only read error modelled is its exhaustion. The "read %d bytes of input, not 1" error and a read that returns data together with an error are not modelled.
- `Input` and `Output` left nil. A nil reader or writer makes the Go code panic; the model always has both.
- Go panics are modelled as the outcome `Err(Panic(..))`, not as a crash of the program.
- Unbounded loops. `Interp.Run`, and the `Execute`, `Eval` and `Generate` methods, take a `fuel` bound. They return `OutOfFuel` where the Go loop would go on.
- Integer width. Cells, `ptr`, `Repeat` and `Speed` are unbounded integers; Go's 64-bit `int` wrap-around is not modelled.
- `Interp.Interpreter.New`, `Interp.Interpreter.NewRepl`, `Dbg.Debug.New`: these take a `nat` size. A negative `stacksize` makes `make` panic in Go, and this is not modelled.
- `Interp.Interpreter.Generate`: its token loop is written as a call of `Lexer.Tokens`. The Go loop at pkg/gen/interp/interp.go:41-45 is that same loop, appending each token to `Tokens` as it goes, and gives the same list.
- The step hook. The concrete hooks in cmd/bftui/main.go (sleeping, or blocking on the step channel) are not modelled. A hook is a function giving the error its n-th call would report, which the Go code drops, plus a count of the calls made.
- The `Stepper.Step` channel is a field holding its buffered values. Sending to it and receiving from it happen in cmd/bftui/main.go, which is not part of this model.
- `DumpMemory`, `PrintState`, the `Color` type and the `hascolor` argument of `debug.New` (presentation; `Color` is not among the source files).
- The `sync.RWMutex`. Its only uses are read locks in `DumpMemory`, and concurrency is not modelled.
- The `known` and `repeat` maps of the lexer are the predicates `IsInstruction` and `IsCollapsible`.
- Characters. The lexer indexes bytes; the model's characters stand for those bytes, and a byte above 0x7F is never an instruction either way. `HighlightBF` ranges over runes; the model's characters are Unicode scalar values, and the decoding of invalid UTF-8 to U+FFFD is not modelled.
- Error texts. `Err(ReplNotInitialized)` and `Err(NoInput)` stand for the Go error values, whose messages are not modelled.
- cmd/bfcc/main.go, pkg/repl/repl.go, pkg/repl/readline.go and the Bubble Tea UI of cmd/bftui/main.go are not part of this model.

## Findings

| source | as written | input that shows it | evidently intended | confidence | as-written member | corrected member |
|---|---|---|---|---|---|---|
| cmd/bftui/mem.go:67-82 | each instruction rune is replaced by `fmt.Sprintf(colour + "%s" + reset, s)`, i.e. by the whole input string | `"+-"` renders as `ESC[34m+-ESC[0mESC[35m+-ESC[0m` (22 characters), not as the two coloured characters | `string(ch)`, the instruction itself, in its colour | not executed | `Tui.HighlightAsWrittenExample` | `Tui.ColourizeConcat` |
| cmd/bftui/mem.go:23-29 | Decimal becomes Hex with literal `"%d"`, and Hex becomes Decimal with `"%x"` | the initial format `(Decimal, "%d")` becomes `(Hex, "%d")`. The memory view prints with the literal only, so the first ctrl+a changes nothing visible, and each later press shows the verb of the kind before it | each kind gets its own verb: Hex with `"%x"`, Decimal with `"%d"` | not executed | `Tui.CycledBreaksAgreement` | `Tui.CycledIntendedAgrees` |
