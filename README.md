# RustLox core in Dafny

A model of the core of RustLox, a clox-style Lox toolchain written in Rust, and proofs about
that model. The model covers five parts of the system:

- the value pool (`ValueArray`);
- the bytecode chunk (code bytes, constant pool, one line per byte);
- the stack virtual machine that runs a chunk;
- the disassembler that walks a chunk instruction by instruction;
- the hand-written scanner that turns source text into tokens.

Modules, one per source file:

| module | file | source |
|---|---|---|
| `Base` | base.dfy | Rust's `Option`, `u8` and `i32` |
| `Values` | values.dfy | src/value.rs |
| `Chunks` | chunk.dfy | src/chunk.rs |
| `VirtualMachine` | vm.dfy | src/vm.rs |
| `Debug` | debug.dfy | src/debug.rs |
| `Scanning` | scanner.dfy | src/scanner.rs |

Objects whose fields the source updates in place are classes: `ValueArray`, `Chunk`, `VM` and
`Scanner`. Each of their loops and state changes is a method, and each method is proved
against a pure function of the old state:

- the VM's loop body against `Step`, its loop against `Exec`;
- `disassemble_chunk` against `Listing`;
- the scanner's methods against `SkipWhitespaceSpec`, `ScanIdentifierSpec`, `ScanNumberSpec`,
  `ScanStringSpec`, `OperatorSpec` and `ScanTokenSpec`.

The lemmas then state what the source promises, or does as written, in terms of those
functions.

A Rust panic is treated in two ways:

- in the pure functions it is an explicit outcome: `Fault`, `Panicked` or `None`. Examples are
  an index past the end of a vector or array, `unwrap()` on `None`, and `stack_top` going below
  zero;
- the methods require that it does not happen.

## Model

| member | source | states |
|---|---|---|
| Values.ValueArray.constructor | src/value.rs:8-12 | a new pool is empty |
| Values.ValueArray.WriteValueArray | src/value.rs:14-16 | the value is appended at the end and every earlier value keeps its index |
| Values.ValueArray.Len | src/value.rs:18-20 | the length is the number of values in the pool |
| Chunks.Encode | src/chunk.rs:5-10 | OpConstant is byte 0 and OpReturn byte 1, in declaration order, and every opcode's byte is below 7 |
| Chunks.Decode | src/chunk.rs:5-10 | `from_u8`: a byte decodes exactly when it is one of the seven opcode bytes, and then it is that opcode's encoding; 0 is OpConstant and 1 is OpReturn |
| Chunks.DecodeEncode | src/chunk.rs:5-10 | decoding an opcode's byte gives that opcode back, so every opcode has exactly one byte |
| Chunks.InstructionLength | src/debug.rs:21-35 | an instruction takes two bytes exactly when it is OpConstant, and one byte otherwise, an unknown byte included |
| Chunks.Chunk.constructor | src/chunk.rs:19-25 | code, lines and constant pool all start empty |
| Chunks.Chunk.WriteChunk | src/chunk.rs:27-30 | the byte and its line are appended together, so code and lines keep the same length; the pool is unchanged |
| Chunks.Chunk.AddConstant | src/chunk.rs:32-35 | the value is appended to the pool; the returned index is the new index modulo 256, and is the true index while the pool held fewer than 256 values |
| Chunks.Chunk.ChunkLen | src/chunk.rs:37-39 | the number of code bytes |
| VirtualMachine.Pushed | src/vm.rs:44-47 | `push` on the state: the slot at stack_top receives the value and stack_top goes up by one; ip, the stack's size and every other slot stay as they were |
| VirtualMachine.Popped | src/vm.rs:49-52 | `pop` on the state: stack_top goes down by one, ip and the stack stay, and the value returned is the slot stack_top now points at |
| VirtualMachine.BinaryOpSpec | src/vm.rs:8-14 | `binary_op!` on the state: ip and the stack's size stay and stack_top ends one lower |
| VirtualMachine.PopAfterPush | src/vm.rs:44-52 | a pop right after a push returns the pushed value and restores stack_top |
| VirtualMachine.BinaryOpEffect | src/vm.rs:8-14 | `binary_op!` writes `a op b` into the slot two below the top, where `a` is the lower and `b` the upper operand; stack_top drops by one and no other slot changes |
| VirtualMachine.Step | src/vm.rs:67-98 | one iteration panics exactly when ip is past the code or the instruction lacks its operand byte, constant, stack room or stack values; when the loop goes on, ip advances by the instruction's length and stays within the code; when it stops, ip is one past the opcode and the result is never a runtime error |
| VirtualMachine.Exec | src/vm.rs:54-100 | a run that finishes never returns InterpretRuntimeError and ends with ip after where it started and within the code |
| VirtualMachine.Iterations | src/vm.rs:55-99 | a run that finishes takes at least one iteration and at most as many as there are code bytes left |
| VirtualMachine.UnknownOpcodeStops | src/vm.rs:97 | an undecodable byte ends the run at once with InterpretCompileError, after one iteration |
| VirtualMachine.ReturnStops | src/vm.rs:92-96 | OpReturn pops one value and ends the run with InterpretOk |
| VirtualMachine.ConstantPushes | src/vm.rs:70-75 | OpConstant pushes the constant indexed by its operand byte and moves ip two bytes on |
| VirtualMachine.NegateReplacesTop | src/vm.rs:88-91 | OpNegate replaces the top slot by its negation and keeps stack_top |
| VirtualMachine.ArithmeticCombinesTopTwo | src/vm.rs:76-87 | each arithmetic opcode combines the two topmost values with its operator, lower operand first, and leaves one value |
| VirtualMachine.AddProgram | src/vm.rs:54-100 | `OpConstant 0; OpConstant 1; OpAdd; OpReturn` runs four iterations and returns InterpretOk with `a + b` just above the values already on the stack |
| VirtualMachine.LeftoverValuesAccumulate | src/vm.rs:39-42 | since interpret never resets the stack, a chunk that pushes two values and returns leaves one more value behind per run, and panics once the stack is full |
| VirtualMachine.VM.constructor | src/vm.rs:30-37 | ip and stack_top start at 0 and every slot holds the float zero |
| VirtualMachine.VM.Interpret | src/vm.rs:39-42 | sets ip to 0 and then ends with the result and state `Exec` gives from there |
| VirtualMachine.VM.Push | src/vm.rs:44-47 | writes the slot at stack_top, bumps stack_top and leaves every other slot unchanged |
| VirtualMachine.VM.Pop | src/vm.rs:49-52 | lowers stack_top and returns the slot it now points at |
| VirtualMachine.VM.BinaryOp | src/vm.rs:8-14 | the new state is `BinaryOpSpec` of the old one: `a op b` in the slot two below the old top, stack_top one lower |
| VirtualMachine.VM.ReadByte | src/vm.rs:102-106 | returns the byte at ip and moves ip on by one |
| VirtualMachine.VM.ReadConstant | src/vm.rs:108-110 | returns the constant indexed by the byte at ip and moves ip on by one |
| VirtualMachine.VM.ResetStack | src/vm.rs:112-114 | sets stack_top to 0, leaves ip unchanged and keeps the stack well sized |
| VirtualMachine.VM.RunStep | src/vm.rs:67-98 | one loop iteration changes the state exactly as `Step` says, and returns a result exactly when `Step` halts |
| VirtualMachine.VM.Run | src/vm.rs:54-100 | the loop ends with the result and the state `Exec` gives |
| Debug.LineColumnAt | src/debug.rs:15-19 | the line column shows the placeholder exactly when the offset is not 0 and the byte before carries the same line; otherwise it shows that offset's line |
| Debug.ConstantInstruction | src/debug.rs:38-46 | needs the operand byte and the constant it indexes; the next instruction is two bytes on |
| Debug.SimpleInstruction | src/debug.rs:48-51 | the next instruction is one byte on |
| Debug.DisassembleInstruction | src/debug.rs:13-36 | the next offset is the instruction's length on, the same length the VM's decoder uses, and stays within the code |
| Debug.WalkIncreases | src/debug.rs:7-10 | the offsets the loop visits strictly increase, each at or past the end of the instruction before |
| Debug.WalkPartitions | src/debug.rs:7-10 | the instructions visited cover every code byte exactly once, with no gap and no overlap |
| Debug.WalkNotLonger | src/debug.rs:7-10 | two complete walks over the same code have the same length |
| Debug.WalkUnique | src/debug.rs:7-10 | the walk over a code is unique, so the listing is determined by the chunk |
| Debug.Listing | src/debug.rs:4-11 | the listing from an offset is empty exactly when the offset is at or past the end of the code |
| Debug.ListingWalks | src/debug.rs:7-10 | when every instruction can be disassembled, the row offsets from an offset are a walk from that offset |
| Debug.ListingLineColumns | src/debug.rs:13-19 | every row lies within the code and shows the line column chosen for its offset |
| Debug.ListingIsWalk | src/debug.rs:4-11 | the listing of a chunk whose instructions can all be disassembled is a walk from offset 0, with each instruction's line column |
| Debug.DisassembleChunk | src/debug.rs:4-11 | the loop returns exactly `Listing` from offset 0 |
| Debug.ListingShowsLines | src/debug.rs:15-19 | when each OpConstant's operand byte carries its opcode's line, reading the placeholder as "same as the row above" recovers every instruction's line |
| Debug.ListingMisreadsOperandLine | src/debug.rs:15-19 | without that condition the listing misleads: an OpReturn after an OpConstant whose operand is on the next line shows the placeholder and reads as the wrong line |
| Scanning.IsAtEnd | src/scanner.rs:312-314 | at the end there is no char to peek, and before the end there is one |
| Scanning.Peek | src/scanner.rs:321-323 | a char exactly when the cursor is before the end, and then the char under the cursor |
| Scanning.IsAlpha | src/scanner.rs:163-165 | a letter or '_' is no digit, whitespace, punctuation or quote, so the branches of `scan_token` do not overlap |
| Scanning.Slice | src/scanner.rs:83-89 | `skip(n).take(m)` has the length the source leaves and the chars from offset n on |
| Scanning.GetTokenValue | src/scanner.rs:83-89 | the text is never longer than the token, has exactly its length when the token lies within the source, and holds the source's chars from the token's start |
| Scanning.PeekNext | src/scanner.rs:325-331 | as written it answers with index 1 of the source, whatever the cursor, unless the cursor is at the end or the source is shorter than two chars |
| Scanning.ScanWhile | src/scanner.rs:279-281 | the loop `while keep(peek().unwrap())` stops at the first char from the cursor that is not kept, with every char before it kept; it panics exactly when every remaining char is kept |
| Scanning.ScanWhileStopsAt | src/scanner.rs:279-281 | such a loop stops at the first char that is not kept |
| Scanning.MakeToken | src/scanner.rs:167-175 | the token has the given type, starts at `start`, ends at `current` and carries the current line |
| Scanning.ErrorToken | src/scanner.rs:177-185 | an Error token at offset 0 whose length is the message's length |
| Scanning.MadeTokenValue | src/scanner.rs:83-89 | the text of a token `make_token` builds is the lexeme between `start` and `current` |
| Scanning.CheckKeyword | src/scanner.rs:213-231 | the result is the keyword asked for or Identifier, and the keyword only when the lexeme has exactly `start + length` chars |
| Scanning.IdentifierType | src/scanner.rs:233-268 | the result is Identifier or a keyword type, and a keyword only for a lexeme of two chars or more |
| Scanning.CheckKeywordCompares | src/scanner.rs:213-231 | the keyword is returned exactly when the lexeme has `start + length` chars and its tail from `start` equals `rest`; otherwise Identifier |
| Scanning.IdentifierTypeIsKeywordLookup | src/scanner.rs:233-268 | the type is the reserved-word lookup of the lexeme for every keyword except `while`, and Identifier for anything else |
| Scanning.IdentifierTypeACEI | src/scanner.rs:235-248 | the `a`, `c`, `e` and `i` branches agree with the reserved-word lookup |
| Scanning.IdentifierTypeNOPR | src/scanner.rs:249-252 | the `n`, `o`, `p` and `r` branches agree with the reserved-word lookup |
| Scanning.IdentifierTypeSVW | src/scanner.rs:253-264 | the `s`, `v` and `w` branches agree with the lookup, except that `while` gives Identifier |
| Scanning.IdentifierTypeF | src/scanner.rs:238-247 | the `f` branch's second-char dispatch agrees with the lookup for false, for and fun |
| Scanning.IdentifierTypeT | src/scanner.rs:254-262 | the `t` branch's second-char dispatch agrees with the lookup for this and true |
| Scanning.WhileNeverRecognised | src/scanner.rs:264 | no lexeme is ever classified as While |
| Scanning.SkipWhitespaceSpec | src/scanner.rs:187-211 | the skip never moves the cursor back or past the end, never lowers `line`, keeps source and start, and stops where a token can start |
| Scanning.SkipWhitespaceCountsLines | src/scanner.rs:195-198 | the skip adds to `line` exactly the number of newlines it steps over |
| Scanning.WhitespaceCountsLines | src/scanner.rs:192-198 | the same, when the cursor starts on a whitespace char |
| Scanning.WhitespaceStep | src/scanner.rs:192-198 | one whitespace char is stepped over, a '\n' adding a line, without changing where the skip ends |
| Scanning.CommentCountsLines | src/scanner.rs:199-203 | the same, when the cursor starts on a comment |
| Scanning.CommentEnd | src/scanner.rs:200-203 | a skipped comment ends at the first newline after it, which the whitespace branch then counts |
| Scanning.SkipWhitespaceSkipsOnlyWhitespace | src/scanner.rs:199-206 | when the source's second char is not '/', only whitespace is skipped |
| Scanning.SlashStartsCommentIffSecondCharIsSlash | src/scanner.rs:199-206 | a '/' is left for `scan_token` exactly when the source's second char is not '/', whatever follows the '/' itself |
| Scanning.UnterminatedCommentPanics | src/scanner.rs:200-203 | a comment that no newline ends makes the skip panic |
| Scanning.ScanIdentifierSpec | src/scanner.rs:270-276 | `identifier` only moves `current` forward, stays on a char of the source, and builds its token with `make_token` |
| Scanning.ScanNumberSpec | src/scanner.rs:278-292 | `number` only moves `current` forward, stays on a char of the source, and builds a Number token with `make_token` |
| Scanning.ScanFractionSpec | src/scanner.rs:283-289 | the fraction part keeps everything but `current`, which stays within the source, and builds a Number token |
| Scanning.ScanStringSpec | src/scanner.rs:294-310 | `string` gives a String token, keeps source and start, moves past at least the closing quote and never lowers `line` |
| Scanning.OperatorSpec | src/scanner.rs:120-155 | the operator branch consumes the '=' and gives the two-char type exactly when '=' is under the cursor, and otherwise gives the one-char type |
| Scanning.ScanTokenSpec | src/scanner.rs:91-161 | a scanned token keeps the source and never lowers `line` |
| Scanning.ScanLexemeSpec | src/scanner.rs:93-106 | keeps the source and `start` and never lowers `line`; at the end of the source it gives Eof and changes nothing |
| Scanning.ScanCharSpec | src/scanner.rs:99-160 | the dispatch keeps the source and `start`, and never moves `current` back or lowers `line` |
| Scanning.DispatchAtTokenStart | src/scanner.rs:92-100 | where a token can start, `scan_token` consumes the char there and dispatches on it, with `start` on that char |
| Scanning.ScanTokenProgress | src/scanner.rs:91-161 | every call keeps `start <= current <= length` and the source, never lowers `line`, and moves `current` forward unless it returns Eof |
| Scanning.ScanAtEnd | src/scanner.rs:95-97 | at the end of the source the token is Eof of length 0 at `current`, and only `start` changes |
| Scanning.EofRepeats | src/scanner.rs:92-97 | after an Eof every further call returns the same token and state |
| Scanning.CursorPastEndPanics | src/scanner.rs:312-314 | a cursor past the end of the source makes `scan_token` panic, since `is_at_end` tests only equality |
| Scanning.ErrorTokensAreUnexpectedCharacter | src/scanner.rs:108-160 | every Error token returned is the "Unexpected character." one: offset 0, length 21 |
| Scanning.NonErrorTokensSpanLexeme | src/scanner.rs:167-175 | every other token spans `start` to `current` of the new state, and its text is that lexeme |
| Scanning.CharTokensSpanLexeme | src/scanner.rs:108-160 | the same for the dispatch on the consumed char, which also keeps the cursor within the source |
| Scanning.OnlyProducibleTokenTypes | src/scanner.rs:91-161 | no punctuation, Bang, BangEqual, String or While token is ever returned |
| Scanning.AtTokenStartIsNotSkipped | src/scanner.rs:187-211 | a state where a token can start is left unchanged by the skip; with `SkipWhitespaceSpec`'s ensures this makes the skip idempotent |
| Scanning.OneOrTwoCharOperators | src/scanner.rs:120-155 | `=`, `<`, `>` and `!` give a two-char token exactly when '=' follows and a one-char token otherwise; `!` gives GreaterEqual or Greater |
| Scanning.OperatorDispatch | src/scanner.rs:120-155 | `!` and `>` take the GreaterEqual/Greater branch, `=` the EqualEqual/Equal one and `<` the LessEqual/Less one |
| Scanning.PunctuationIsUnexpected | src/scanner.rs:108-160 | punctuation, and any char no branch recognises, gives the "Unexpected character." token with the cursor one char on |
| Scanning.StringLiteralIsUnexpected | src/scanner.rs:156-160 | a terminated string literal also gives that token, with the cursor past the closing quote and the newlines inside counted |
| Scanning.StringCharIsUnexpected | src/scanner.rs:156-160 | after a '"' with a closing quote, the cursor moves past that quote, the newlines before it are counted, and the token is "Unexpected character." |
| Scanning.UnterminatedStringPanics | src/scanner.rs:294-304 | a string with no closing quote panics in the loop's `unwrap()` instead of reaching "Unterminated string." |
| Scanning.IdentifierNeedsTerminator | src/scanner.rs:270-273 | an identifier is scanned exactly when some char that is not a letter, digit or '_' follows it; otherwise it panics |
| Scanning.IdentifierTokens | src/scanner.rs:270-276 | an identifier token is a maximal run of identifier chars, and its type is the reserved-word lookup of its lexeme, `while` excepted |
| Scanning.NumberTokens | src/scanner.rs:278-292 | a number token is a maximal run of digits, followed by '.' and a second maximal run only when a '.' follows and the source's second char is a digit |
| Scanning.NumberNeedsTerminator | src/scanner.rs:278-292 | a number panics exactly when its integer digits reach the end of the source, or when a fraction is taken and its digits reach the end |
| Scanning.NumberPanics | src/scanner.rs:279-289 | the same for `number` from the char after the first digit |
| Scanning.CommentAfterFirstCharsIsNotSkipped | src/scanner.rs:199-206 | in `a //b` the `//` is no comment: its first '/' comes back as an error token |
| Scanning.SlashAfterLeadingCommentSwallowsLine | src/scanner.rs:199-206 | when the source's second char is '/', any '/' under the cursor starts a comment whatever follows it, and the skip goes on from the next newline with `line` unchanged |
| Scanning.LeadingCommentSwallowsDivision | src/scanner.rs:325-331 | for example, in `//`, newline, `1/2`, newline, the `/2` after the `1` is skipped as a comment and the next token is Eof |
| Scanning.Scanner.constructor | src/scanner.rs:70-77 | an empty source, the cursor at 0, line 1 |
| Scanning.Scanner.SetSource | src/scanner.rs:79-81 | replaces the source and keeps `start`, `current` and `line` |
| Scanning.Scanner.Advance | src/scanner.rs:316-319 | moves `current` on by one and returns the char it was on, if there is one |
| Scanning.Scanner.MatchChar | src/scanner.rs:333-345 | consumes the char and answers true exactly when the expected char is under the cursor |
| Scanning.Scanner.SkipWhitespace | src/scanner.rs:187-211 | ends in the state `SkipWhitespaceSpec` gives |
| Scanning.Scanner.AdvanceToNewline | src/scanner.rs:200-202 | the comment loop moves `current` to the newline that ends the comment and changes nothing else |
| Scanning.Scanner.AdvanceWhile | src/scanner.rs:279-281 | moves `current` to where `ScanWhile` stops and changes nothing else |
| Scanning.Scanner.ScanIdentifier | src/scanner.rs:270-276 | returns the token and ends in the state `ScanIdentifierSpec` gives |
| Scanning.Scanner.ScanNumber | src/scanner.rs:278-292 | returns the token and ends in the state `ScanNumberSpec` gives |
| Scanning.Scanner.AdvanceToQuote | src/scanner.rs:295-300 | the loop of `string` moves `current` to the closing quote and adds to `line` the newlines it steps over |
| Scanning.Scanner.ScanString | src/scanner.rs:294-310 | returns the token and ends in the state `ScanStringSpec` gives, with a line counted per newline crossed |
| Scanning.Scanner.ScanToken | src/scanner.rs:91-161 | returns the token and ends in the state `ScanTokenSpec` gives |
| Scanning.Scanner.ScanChar | src/scanner.rs:99-160 | the dispatch on the consumed char returns the token and ends in the state `ScanCharSpec` gives |
| Scanning.Scanner.ScanOperator | src/scanner.rs:120-155 | an operator branch returns the token and ends in the state `OperatorSpec` gives |

## Behaviour as written

The model follows the code as it stands, including where it departs from what a Lox scanner
or VM would evidently do:

- `peek_next` reads index 1 of the source, not the char after the cursor. So whether a '/'
  starts a comment, and whether a number has a fraction, depends on the source's second char.
- `!` and `!=` produce Greater and GreaterEqual; Bang and BangEqual are never produced.
- Single-char punctuation and terminated string literals build a token that is then thrown
  away, so they produce "Unexpected character.". The cursor moves past them.
- `check_keyword(1, 5, "hile", While)` can never match, so `while` scans as an Identifier.
- An unterminated string panics in `peek().unwrap()` before `is_at_end` is checked. The
  "Unterminated string." branch is unreachable.
- An identifier or number at the very end of the source panics in the same way.
- The disassembler's placeholder (`   | `) compares with the byte just before the instruction,
  which after OpConstant is its operand byte.
- `interpret` resets ip but not stack_top, and `reset_stack` is never called. Values left
  behind by one run stay on the stack for the next.
- The chunk keeps one line per code byte, with no run-length table. `push` and `pop` do not
  check the stack, so an overflow or underflow is a panic rather than an error result.
- An unknown opcode returns InterpretCompileError, so InterpretRuntimeError is never
  produced.

## Left out

- src/main.rs and src/compiler.rs are not part of this model. They hold the REPL, file reading,
  exit codes and a compiler that only prints the token stream. main.rs also calls a VM
  interface (`VM::new` with a compiler, `interpret` with a source) that vm.rs does not have.
- Printing is not modelled. This covers `print_value`, the disassembler's text, the chunk name
  header, the value `run` prints for OpConstant and OpReturn, and the
  `debug_trace_execution` trace. Only the values those functions compute are modelled.
- f64 arithmetic is not modelled: `Value` is abstract, and the float zero and the five
  operators are parameters (`FloatOps`). IEEE semantics (NaN, infinities, rounding) are
  outside the model.
- The `error_message` field of `Token` is left out. It holds the low byte of a memory address, which
  has no meaning in the model.
- The source is taken to be ASCII, so `chars().nth(i)` and `len()` agree. For non-ASCII text
  the source mixes char and byte indices, and that is not modelled.
- Scanning.MakeToken: the scanner's `line` is a u32 and tokens carry `line as i32`. The model
  uses unbounded naturals, so the wrap past 2^31 is not modelled.
- VirtualMachine.Step: usize indices are unbounded naturals. This loses nothing for
  `stack_top -= 1` on an empty stack: a debug build panics on the subtraction, and a release
  build wraps it to usize::MAX and then panics when indexing the stack (src/vm.rs:51). So the
  model's `Fault` is exact for both builds.
- Chunks.Encode: chunk.rs declares only OpConstant (0) and OpReturn (1). The bytes 2 to 6 for
  OpAdd, OpSubstract, OpMultiply, OpDivide and OpNegate are an assumption of the model, in the
  order vm.rs matches them.
