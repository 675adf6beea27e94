# rlox core, modelled in Dafny

rlox is a Rust port of the front half of clox, the bytecode interpreter from
*Crafting Interpreters*. This project models its four pieces of real logic
and proves properties about them:

- the constant pool `ValueArray` (`value.dfy`, module `Values`);
- the bytecode `Chunk` and the `OpCode` set (`chunk.dfy`, module `Chunks`);
- the stack `VM` and its fetch/decode/execute loop `run` (`vm.dfy`, module `Vm`);
- the lexical `Scanner` and its `scan_token` (`scanner.dfy`, module `Scanning`).

`common.dfy` (module `Common`) holds `Option` and the byte type `u8`.

Each source type whose fields change in place is a Dafny `class` with
`modifies` frames:

- `ValueArray` has a `values: Option<seq<Value>>` field.
- `Chunk` has `code` and `lines` as sequences and the pool as a `ValueArray`.
  A ghost history `emitted` records every `write_chunk` and `add_constant`
  call. `Valid()` ties the three vectors to that history.
- `VM` has the fixed 256-slot stack as an `array`, with `offset` and
  `stackTop`.
- `Scanner` has `start`, `current` and `line` over a `source` string.

The pure parts are module-level functions:

- The VM has `Step`, one loop iteration, and `Execute`, the whole loop.
- The scanner has `NextToken`, one `scan_token` call, and `ScanAll`, calls
  until end-of-input.

The methods that hold a loop or a dispatch (`Run`, `ExecuteInstruction`
and its per-opcode arms; `ScanToken`, `SkipWhitespace`, `ScanString`,
`Identifier`, `Number` and the others) are proved to compute one of these
functions on the old state and to leave the object in the new state the
function gives. The leaf methods (`Push`, `Pop`, `BinaryOperator`,
`ReadByte`, `ReadConstant`, `Advance`, `MatchCurrent`, `ValueArray.Write`,
`WriteChunk`, `AddConstant`) state their new state field by field instead.
The lemmas are stated about the functions.

A source panic is modelled in one of two ways:

- On a leaf operation (`push`, `pop`, `get`, `advance`, …) it becomes a
  precondition.
- Where a loop in the source can reach it, it becomes an explicit outcome:
  - `Fault`, then `Panicked`, in the VM;
  - `Panicked` in the scanner, from `peek_next`.

The predicates `IsAtEnd`, `IsDigit`, `IsAlpha` and `Matches` and the
function `Peek` are the scanner's `is_at_end`, `is_digit`, `is_alpha`, the
test in `match_current`, and `peek`.

## Behaviour as written

The model follows the code where it departs from the intended design:

- **Whitespace.** `skip_whitespace` leaves its `loop` after one blank, one
  newline or one `//` comment. So `"  x"` gives an "Unexpected character."
  token for the second blank (`SkippedWhitespace`, `TwoLeadingBlanks`).
- **Keywords.** `check_keyword` takes its characters after `current` rather
  than after `start`. It also demands a length of `start + length`. Both
  conditions can never hold together, so every keyword scans as an
  identifier (`IdentifierType`, `WordIsOneIdentifier`).
- **`peek_next` panics.** It panics when `current` is the last character:
  - on a trailing `/` (`TrailingSlashPanics`);
  - on a number ending in `.` (`TrailingPointPanics`).
- **Faults panic.** Stack underflow, stack overflow and unknown opcodes
  panic. They never produce `InterpretRuntimeError`, so `run` only ever
  returns `InterpretOk` (`RunOnlyReturnsOk`).
- **Constant operand.** The operand of `OP_CONSTANT` is decoded through
  `Chunk::get` as an opcode, so it must be below 7.
- **No chunk is ever loaded.** `VM::new` leaves `chunk` empty, and
  `interpret` never calls `run`. `Run` therefore requires a loaded chunk.

## Model

| member | source | states |
|---|---|---|
| Values.ValueArray.Init | src/value.rs:24-28 | the vector is present and the count is 0 |
| Values.ValueArray.Count | src/value.rs:9-14 | 0 for an absent vector, else the vector's length |
| Values.ValueArray.Get | src/value.rs:16-21 | defined only below the count, which rules out the absent-vector and out-of-bounds panics; gives the element at that index |
| Values.ValueArray.Write | src/value.rs:30-33 | appends: the count grows by one, `get(old count)` is the new value, earlier elements are unchanged |
| Values.PoolRoundTrip | src/value.rs:24-33 | an array built by `init_value_array` and `write_value_array` never loses its vector, and reading back gives exactly the values written, in order |
| Chunks.AsByte | src/chunk.rs:6-14 | the discriminant of each opcode is below 7 |
| Chunks.FromByte | src/chunk.rs:16-29 | decodes exactly the bytes below 7 (the others are the "Unkown opcode!" panic), each to the opcode whose discriminant it is |
| Chunks.DecodeEncode | src/chunk.rs:16-29 | `from(op as u8) == op` for every opcode |
| Chunks.WritesPrefix | src/chunk.rs:65-68 | later calls leave earlier writes at their indices and only add at the end |
| Chunks.ConstantsPrefix | src/chunk.rs:70-73 | later calls leave earlier constants at their pool indices and only add at the end |
| Chunks.Chunk.Init | src/chunk.rs:57-63 | empty code, empty lines, a present and empty pool |
| Chunks.Chunk.Pool | src/chunk.rs:31-36 | the pool holds the `add_constant` values in call order |
| Chunks.Chunk.Count | src/chunk.rs:40-42 | the number of `write_chunk` calls, which is also the length of the line table |
| Chunks.Chunk.Get | src/chunk.rs:44-46 | requires an offset below `count()` holding an opcode byte; decodes the byte written there |
| Chunks.Chunk.GetLine | src/chunk.rs:48-50 | requires an offset below `count()`; gives the line of the write that produced that byte |
| Chunks.Chunk.GetConstantValue | src/chunk.rs:52-54 | requires an index below the pool size; gives the value added by that `add_constant` call |
| Chunks.Chunk.WriteChunk | src/chunk.rs:65-68 | appends the byte and the line (so the lengths stay equal) and leaves earlier entries and the pool unchanged |
| Chunks.Chunk.AddConstant | src/chunk.rs:70-73 | returns the old pool size, `get_constant_value` of that index is the value, and code and lines are unchanged |
| Chunks.Assemble | src/chunk.rs:57-73 | for any sequence of construction calls, `get_line(k)` is the line of the k-th write and `get_constant_value(i)` the i-th added value |
| Vm.Step | src/vm.rs:70-101 | an iteration that does not panic moves the offset forward, stays within the code and keeps the stack within 256 |
| Vm.StepEffect | src/vm.rs:76-101 | the offset advances 2 for `OP_CONSTANT` and 1 otherwise; each instruction pops its operands, pushes its result and leaves the slots below untouched; only `OP_RETURN` stops, printing the popped value; underflow happens exactly when there are too few operands |
| Vm.Binary | src/vm.rs:81-92 | the closure each arithmetic opcode hands to `binary_operator`: add, subtract, multiply, divide |
| Vm.Execute | src/vm.rs:54-103 | the loop of `run`: steps until `OP_RETURN` or a panic; when it returns, the offset is past where it started and within the code, and the stack within capacity |
| Vm.Iterations | src/vm.rs:52-104 | from offset 0 the loop runs at most `count() + 1` iterations |
| Vm.RunOnlyReturnsOk | src/vm.rs:97-101 | whenever `run` returns, the result is `InterpretOk` |
| Vm.EmptyStackUnderflow | src/vm.rs:81-101 | an arithmetic or return opcode first in the code, on the empty stack, ends in the underflow panic |
| Vm.ConstantStep | src/vm.rs:77-80 | `OP_CONSTANT i` advances 2 and pushes `constants[i]` |
| Vm.BinaryStep | src/vm.rs:81-92 | an arithmetic opcode replaces the two top values `a, b` by `f(a, b)` |
| Vm.NegateStep | src/vm.rs:93-96 | `OP_NEGATE` replaces only the top value, by its negation |
| Vm.ReturnStep | src/vm.rs:97-101 | `OP_RETURN` pops one value, prints it and returns `InterpretOk` |
| Vm.ArithmeticOperands | src/vm.rs:77-80 | the first two instructions of `-((a + b) / c)` push `a` and `b` |
| Vm.ArithmeticSum | src/vm.rs:77-83 | then add replaces them by `a + b`, and `c` is pushed |
| Vm.ArithmeticResult | src/vm.rs:90-101 | then divide, negate and return print `-((a + b) / c)` and leave the stack empty |
| Vm.ArithmeticExample | src/vm.rs:52-104 | the whole program returns `InterpretOk` after printing `-((a + b) / c)` |
| Vm.VM.New | src/vm.rs:38-45 | no chunk, offset 0, `stack_top` 0, every slot zero |
| Vm.VM.State | src/vm.rs:20-35 | the live stack is the slots below `stack_top`, at most 256 |
| Vm.VM.Push | src/vm.rs:136-139 | requires `stack_top < 256`; stores at the old top, increments it, and changes no other slot |
| Vm.VM.Pop | src/vm.rs:141-146 | requires `stack_top > 0`; decrements it, returns the slot it now indexes, and leaves the array unchanged |
| Vm.VM.BinaryOperator | src/vm.rs:129-134 | pops `b`, then `a`, pushes `f(a, b)`; the top drops by one and no other slot changes |
| Vm.VM.ReadByte | src/vm.rs:106-117 | decodes the opcode at the offset and advances the offset by 1 |
| Vm.VM.ReadConstant | src/vm.rs:119-127 | decodes the operand as an opcode byte, advances by 1 and gives that pool entry |
| Vm.VM.ExecuteConstant | src/vm.rs:77-80 | the `OP_CONSTANT` arm computes `Step` |
| Vm.VM.ExecuteBinary | src/vm.rs:81-92 | the arithmetic arms compute `Step` |
| Vm.VM.ExecuteNegate | src/vm.rs:93-96 | the `OP_NEGATE` arm computes `Step` |
| Vm.VM.ExecuteReturn | src/vm.rs:97-101 | the `OP_RETURN` arm computes `Step` |
| Vm.VM.ExecuteInstruction | src/vm.rs:70-102 | one iteration computes `Step` on the old state and, unless it panics, leaves the machine in the new state |
| Vm.VM.Run | src/vm.rs:52-104 | `run` computes `Execute` on the old state and, when it returns, leaves the machine in the final state |
| Scanning.MakeToken | src/scanner.rs:23-31 | the token spans from `start` to `current` on the current line, without a message |
| Scanning.ErrorToken | src/scanner.rs:33-41 | an error token with the message, spanning from `start` to `current` |
| Scanning.IsAtEnd | src/scanner.rs:183-185 | no character at the position |
| Scanning.IsDigit | src/scanner.rs:276-278 | the ASCII digits |
| Scanning.IsAlpha | src/scanner.rs:280-282 | ASCII letters and underscore |
| Scanning.Matches | src/scanner.rs:195-210 | the next character exists and is the expected one |
| Scanning.Peek | src/scanner.rs:240-246 | the character at `current`, or NUL past the end |
| Scanning.PeekNext | src/scanner.rs:248-257 | NUL at the end, the next character otherwise, and a panic exactly when `current` is the last character |
| Scanning.RunEnd | src/scanner.rs:284-292 | a loop that advances over a character class stops at the end or at the first character outside it |
| Scanning.RunEndCovers | src/scanner.rs:284-292 | every character such a loop passed over is in the class, so the run is maximal |
| Scanning.NewlineCount | src/scanner.rs:260-265 | the newlines in a range number at most its length |
| Scanning.SkippedWhitespace | src/scanner.rs:212-238 | panics exactly on a trailing `/`; a blank or newline moves exactly one character (a newline adds a line); a `//` moves to the next newline or the end; anything else, including a lone `/`, moves nothing; `start` is kept |
| Scanning.CommentSkipped | src/scanner.rs:225-229 | a `//` comment is skipped up to its newline and no further: no character passed is a newline, and the line is unchanged |
| Scanning.OperatorToken | src/scanner.rs:138-177 | takes the two-character kind exactly when `=` follows |
| Scanning.StringToken | src/scanner.rs:259-274 | an error to end of input with "Unterminated string.", or a string token ending at a `"` |
| Scanning.StringTokenContents | src/scanner.rs:259-274 | the error happens exactly when no `"` follows; the string stops at the first `"`; the line grows by the newlines passed |
| Scanning.CheckKeyword | src/scanner.rs:347-366 | gives the keyword kind or an identifier, and an identifier whenever `start > 0` |
| Scanning.IdentifierType | src/scanner.rs:296-345 | always an identifier, never a keyword kind |
| Scanning.IdentifierToken | src/scanner.rs:284-294 | an identifier token followed by neither letter nor digit |
| Scanning.IdentifierIsWord | src/scanner.rs:284-294 | an identifier spans only letters, digits and underscores |
| Scanning.NumberToken | src/scanner.rs:368-393 | panics exactly when the digits are followed by a final `.`; otherwise a number token on the same line |
| Scanning.NumberIsMaximalLiteral | src/scanner.rs:368-393 | a number token is a digit run with an optional `.` and digit run, and no digit follows it; a digits-only token is not followed by `.` and a digit |
| Scanning.LexemeToken | src/scanner.rs:109-180 | end-of-input is empty and at the end; every other token consumes a character |
| Scanning.PunctuationToken | src/scanner.rs:126-180 | the `match` gives a token that is not end-of-input and spans the lexeme |
| Scanning.NextToken | src/scanner.rs:107-181 | a token spans from the new `start` to the new `current` within the text; a token that is not end-of-input moves forward |
| Scanning.ScanAll | src/scanner.rs:107-181 | scanning until end-of-input takes at most `|source| + 1` calls and ends with end-of-input |
| Scanning.ScanAllTokens | src/scanner.rs:107-181 | only the last token is end-of-input, and every span lies within the text |
| Scanning.EofIsTerminal | src/scanner.rs:107-114 | at the end, `scan_token` gives an empty end-of-input token; after one, every call repeats it |
| Scanning.OperatorTokens | src/scanner.rs:138-177 | `!`, `=`, `<`, `>` give the two-character kind and consume both exactly when `=` follows |
| Scanning.UnexpectedCharacter | src/scanner.rs:179 | any other character gives a one-character "Unexpected character." error |
| Scanning.ScanAllAtEnd | src/scanner.rs:107-114 | scanning a text already read to its end gives only end-of-input |
| Scanning.FinalWordToken | src/scanner.rs:284-294 | a word running to the end is one identifier token |
| Scanning.FinalWord | src/scanner.rs:284-294 | … and then end-of-input |
| Scanning.WordIsOneIdentifier | src/scanner.rs:296-366 | a text that is one word, keyword or not, scans as one identifier and end-of-input |
| Scanning.TwoLeadingBlanks | src/scanner.rs:212-238 | two leading blanks before a word scan as an "Unexpected character." error, the word, and end-of-input |
| Scanning.SecondBlankToken | src/scanner.rs:214-218 | the second blank becomes the error token |
| Scanning.TrailingSlashPanics | src/scanner.rs:225-227 | a trailing `/` makes `scan_token` panic |
| Scanning.TrailingPointPanics | src/scanner.rs:379 | digits followed by a trailing `.` make `scan_token` panic |
| Scanning.Scanner.New | src/scanner.rs:98-105 | the scanner starts at position 0 on line 1 |
| Scanning.Scanner.Advance | src/scanner.rs:187-193 | requires a character at `current`; returns it and steps past it |
| Scanning.Scanner.MatchCurrent | src/scanner.rs:195-210 | consumes the next character exactly when it is the expected one |
| Scanning.Scanner.SkipWhitespace | src/scanner.rs:212-238 | computes `SkippedWhitespace` |
| Scanning.Scanner.SkipStringBody | src/scanner.rs:260-265 | stops at the first `"` or the end, and counts the newlines passed |
| Scanning.Scanner.AdvanceWhile | src/scanner.rs:284-292 | stops at the end of the maximal run |
| Scanning.Scanner.ScanString | src/scanner.rs:259-274 | computes `StringToken` |
| Scanning.Scanner.Identifier | src/scanner.rs:284-294 | computes `IdentifierToken` |
| Scanning.Scanner.Number | src/scanner.rs:368-393 | computes `NumberToken` |
| Scanning.Scanner.ScanToken | src/scanner.rs:107-181 | computes `NextToken` on the old state and moves to its new state |
| Scanning.Scanner.ScanLexeme | src/scanner.rs:109-181 | computes `LexemeToken` |
| Scanning.Scanner.Punctuation | src/scanner.rs:126-180 | computes `PunctuationToken` |

## Left out

- `src/main.rs` (command line, reading files and standard input, exit codes) is not part of this model: it is all I/O.
- `src/compiler.rs` is not part of this model. It prints each token, and its only logic is the scan-until-end-of-input loop, which `ScanAll` models.
- `src/debug.rs` is not part of this model: disassembly and value printing are diagnostic output only.
- `VM::interpret` is not modelled: it only calls the printing compiler and returns `InterpretOk`, and it never loads a chunk or calls `run`.
- The printing in `OP_RETURN` and the `debug-trace-execution` block are left out. The printed value is kept as `Halt`'s and `Finished`'s `printed` field.
- Floating-point arithmetic is not interpreted. `Value` keeps only the 64-bit pattern of an `f64`, and the operations are passed in as the `Arith` record, so every property holds for any arithmetic.
- Panic messages are not modelled, except `peek_next`'s, which is the message of `Scan.Panicked`.
- Text is a sequence of characters. The difference between `String::len` in bytes and `chars().nth` in characters does not arise, because `check_keyword` compares only a literal that equals an ASCII `rest`.
- The scanner's `line` is an unbounded integer, so the overflow of the source's `i32` counter is not modelled.
- The outer `loop` of `skip_whitespace` is left out, because every arm leaves it on its first pass.
- One method, `AdvanceWhile`, models the loops of `identifier`, of `number` (both of them) and of a `//` comment, which differ only in the character class they test.
- The arithmetic closures of `run` are the fields of `Arith`, chosen by opcode in `Binary`, rather than four Rust lambdas.
