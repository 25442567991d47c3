# UVM assembler and interpreter, modelled in Dafny

UVM is a small stack machine. It has four opcodes:

- `LOAD_CONSTANT` (1)
- `STORE_TO_MEMORY` (2)
- `MULTIPLY` (3)
- `LOAD_FROM_MEMORY` (7)

It has an operand stack and a memory of 10 000 integer cells.

**The assembler.** It reads a text listing of lines such as `A=1, B=803`:

- each non-blank line is parsed into a key-to-integer map;
- `A` is masked to 3 bits and `B` to 24 bits;
- the two are packed into the word `(A << 29) | B`;
- the word is emitted as a 5-byte little-endian record whose fifth byte is zero.

It also keeps a log of the masked fields and bytes of every record.

**The interpreter.** It resets memory and the stack, then walks the byte stream in strides of five bytes:

- it unpacks bytes 0..3 as a little-endian 32-bit word;
- the opcode is bits 29..31 and the argument is bits 0..23;
- it executes the command;
- after each command that succeeds, it logs `{opcode, arg, stack}`.

A trailing piece shorter than five bytes ends the run. The caller finally reads back a memory range `start:end`.

The project is organised as follows:

| file | module | models |
|---|---|---|
| `wrappers.dfy` | `Wrappers` | `Option`, `Result` |
| `text.dfy` | `Text` | the pieces of Python's `str` and `int` the assembler uses: `strip`, `split`, `join`, `int(...)`, `str(...)` |
| `format.dfy` | `Format` | masking, packing into five bytes, unpacking, and decoding a byte stream into instructions |
| `assembler.dfy` | `Assembler` | `parse_instruction`, `assemble_instruction`, and the `assemble` loop; the `Assembler` class owns the two output buffers |
| `interpreter.dfy` | `Interpreter` | `execute_command`, the `interpret` loop and the memory slice; the `Machine` class owns the memory array, stack, product vector and step log |
| `scenario.dfy` | `Scenario` | the repository's end-to-end test: its twenty-line listing assembles and runs to `[925, 1850, 2775, 3700, 4625]` |

**Imperative code and its specifications.** Each imperative procedure of `filr.py` is a method over the state it mutates. Each method is proved equal to a function on values:

- `Assembler.Assemble` equals `AssembleLines`;
- `Machine.Interpret` equals `Interpretation`;
- `ParseInstruction` equals `ParseLine`.

The properties are lemmas about those functions.

**Python arithmetic.** Integers are unbounded, as in Python. Python's bitwise operators are written as arithmetic:

- `& 0x7` becomes `% 8`, and `& 0xFFFFFF` becomes `% 0x100_0000`. Python's `&` on a negative integer agrees with Dafny's Euclidean `%`.
- `>>` becomes division and `<<` becomes multiplication by a power of two.
- The packing `|` of the two fields becomes `+`. `OrIsAdd` proves this on 32-bit vectors for the masked ranges.

**Python list indexing.** `Slot` models Python list indexing exactly:

- an index in `-10000 .. -1` reaches cell `10000 + i`;
- any other out-of-range index raises `IndexError`, the fault `AddressOutOfRange`.

**`memory[start:end]`.** `PySlice` models `memory[start:end]` with Python's clamping of negative and too-large bounds.

**Where the model follows the code over the specification.** Where the system's specification differs from `filr.py`, the model follows the code:

- The specification says every address outside `[0, 10000)` is out of range. The code's list indexing accepts `-10000 .. -1` for `LOAD_FROM_MEMORY`. `RunNonNegative` shows that a run from a reset machine never holds a negative value, so it never addresses memory that way.
- The specification lists a `RangeError` for bad reporting bounds. The code has no such check: the slice clamps.
- `interpret` does not reset `result_vector` (`filr.py:57`, `filr.py:114-117`), so `Machine.Interpret` keeps the products of earlier runs in front of its own (`InterpretAgain`).
- The specification fixes the fields of a line as `A` then `B` and calls a wrong field count malformed. `parse_instruction` (`filr.py:34-38`) accepts any number of `key=value` parts, in any order and with any keys: `A=1`, `B=2, A=1` and `A=1, B=2, C=3` all parse. `assemble_instruction` (`filr.py:44-45`) then reads only `A` and `B`, so other keys are ignored and a repeated key keeps its last value. `ParseFields` and `RecordOf` do the same: `FieldOrderFree`, `FieldMissing`, `FieldExtra` and `RecordOfOtherKeys` state it.

## Model

| member | source | states |
|---|---|---|
| Text.TrimStartSpec | filr.py:96 | what `lstrip` keeps is a suffix of the input that does not start with white space, and it removed only white space |
| Text.TrimEndSpec | filr.py:96 | what `rstrip` keeps is a prefix of the input that does not end with white space, and it removed only white space |
| Text.Strip | filr.py:96 | `s.strip()`, leading and then trailing white space removed; what it keeps and cuts is given by `StripSpec`, `StripIdempotent` and `StripTrailing` |
| Text.StripSpec | filr.py:96 | `line.strip()` is a contiguous piece of the line with no white space at either end; everything cut on either side is white space |
| Text.StripNoSpace | filr.py:96 | a string with no white space at either end is its own strip |
| Text.StripIdempotent | filr.py:96 | stripping twice is stripping once |
| Text.StripTrailing | filr.py:95-96 | a line read with its trailing newline, or any white-space tail, strips back to its text |
| Text.Split | filr.py:34 | `s.split(sep)` always returns at least one piece; `SplitNoSep`, `JoinSplit` and `SplitJoin` say what the pieces are |
| Text.SplitNoSep | filr.py:34 | no piece of `s.split(sep)` contains `sep` |
| Text.JoinSplit | filr.py:34 | joining the pieces of `s.split(sep)` with `sep` gives `s` back |
| Text.SplitJoin | filr.py:34 | splitting a join of separator-free pieces gives exactly those pieces |
| Text.ParseInt | filr.py:38 | `int(...)` on a stripped value, `None` where Python raises `ValueError`; the strings it accepts are given by `ParseIntAccepts` and its inverse by `ParseShowInt` |
| Text.ParseIntAccepts | filr.py:38 | `int(...)` on a stripped string succeeds exactly for an optional `+` or `-` followed by one or more digits |
| Text.ParseShowInt | filr.py:38 | `int(str(i)) == i` for every integer |
| Text.ShowIntPlain | filr.py:38 | `str(i)` contains no white space, comma or `=`, so it survives the line's `split` and `strip` unchanged |
| Format.MaskOpcode | filr.py:44 | `A & 0x7` is below 8 and congruent to `A` modulo 8 |
| Format.MaskArg | filr.py:45 | `B & 0xFFFFFF` is below 2^24 and congruent to `B` modulo 2^24 |
| Format.OrIsAdd | filr.py:46 | for a 3-bit `A` and 24-bit `B`, `(A << 29) \| B` equals `A * 2^29 + B` |
| Format.CommandFields | filr.py:46 | the command word holds the masked `A` above bit 29 and the masked `B` below it |
| Format.CommandUnusedBits | filr.py:46 | bits 24..28 of every command word are zero |
| Format.Command | filr.py:44-46 | the command word `(A << 29) \| B` of the masked fields fits in 32 bits; its layout is given by `CommandFields` and `CommandUnusedBits` |
| Format.Encode | filr.py:49 | every record is exactly five bytes |
| Format.EncodeBytes | filr.py:49 | the five bytes are the low, middle and high byte of masked `B`, then `32 * A`, then zero |
| Format.PaddingIsZero | filr.py:49 | byte 4 of every record is zero |
| Format.Word | filr.py:128 | the little-endian word of bytes 0..3 is below 2^32 |
| Format.Opcode | filr.py:129 | the decoded opcode is below 8 |
| Format.Arg | filr.py:130 | the decoded argument is below 2^24 |
| Format.DecodeChunk | filr.py:128-130 | the opcode and argument unpacked from a record lie below 8 and below 2^24; `DecodeEncode` and `RoundTrip` tie it to the encoder |
| Format.DecodeEncode | filr.py:128-130 | unpacking a packed record gives back the masked fields |
| Format.EncodeMasked | filr.py:44-49 | a record depends only on the masked fields |
| Format.RoundTrip | filr.py:128-130 | for in-range fields, decode after encode is the identity |
| Format.EncodeEqualIff | filr.py:44-49 | two instructions give the same record if and only if their masked fields agree |
| Format.EncodeDecode | filr.py:128-130 | a record whose padding byte is zero and whose bits 24..28 are zero is the encoding of what decodes from it |
| Format.DecodeProgram | filr.py:124-127 | a stream of `n` bytes holds `n / 5` instructions; a trailing piece shorter than five bytes is not one |
| Format.DecodeProgramAt | filr.py:124-128 | instruction `k` is decoded from bytes `5k .. 5k + 4` |
| Format.DecodeProgramAppend | filr.py:124-127 | whole records followed by more bytes decode to the records' instructions followed by those of the rest |
| Format.DecodeIgnoresPadding | filr.py:125-128 | two streams that agree on bytes 0..3 of every record decode alike, whatever their padding and trailing bytes |
| Assembler.ParseField | filr.py:37-38 | one part: `key=value` with both sides stripped, `BadField` when the part does not split into exactly two pieces at `=`, `BadInteger` when the value is not an integer; `ParseRenderedField` gives its inverse |
| Assembler.ParseFields | filr.py:35-39 | the parts folded left to right into one map, later keys overwriting earlier ones; `ParseFieldsOkIff`, `ParseFieldsFirstError` and `ParseFieldsStopsAtError` give its success and error cases |
| Assembler.ParseLine | filr.py:32-39 | `parse_instruction(line)`: the comma-separated parts of the line through `ParseFields`; `ParseRendered` gives what a rendered line parses to |
| Assembler.ParseInstruction | filr.py:32-39 | the part-by-part loop computes `ParseLine`: the map of stripped keys to values, or the error of the first bad part |
| Assembler.ParseFieldsStopsAtError | filr.py:36-38 | once one part fails, the rest of the line is not looked at |
| Assembler.ParseFieldsOkIff | filr.py:36-38 | a line parses if and only if every one of its comma-separated parts parses |
| Assembler.ParseFieldsFirstError | filr.py:36-38 | a failing line fails with the error of its first bad part, and every part before it parses |
| Assembler.ParseRenderedField | filr.py:37-38 | a part `key=value` with a plain key parses to that key and value |
| Assembler.ParseRendered | filr.py:32-39 | a line `k1=v1, k2=v2, ...` with plain keys parses to the map of those pairs, a later key overwriting an earlier one |
| Assembler.FieldOr | filr.py:44-45 | `instruction.get(key, 0)`: the value stored under the key, 0 for a missing key; `FieldMissing` uses the default |
| Assembler.RecordOf | filr.py:44-55 | the logged fields are the 3-bit and 24-bit masked values and the record is five bytes; `RecordOfWellFormed` ties the bytes to the fields |
| Assembler.RecordOfOtherKeys | filr.py:44-45 | keys other than `A` and `B` do not change the record |
| Assembler.FieldOrderFree | filr.py:34-38 | a line with two distinct plain keys parses to the same map in either order, so `B=<b>, A=<a>` parses like `A=<a>, B=<b>` |
| Assembler.FieldMissing | filr.py:34-45 | a line holding only `A=<a>` parses, and its record is that of `B = 0` |
| Assembler.FieldExtra | filr.py:34-45 | a line `A=<a>, B=<b>, k=<c>` with a third plain key parses to the map of all three, and assembles to the record of `A` and `B` alone |
| Assembler.AssembleLine | filr.py:96-100 | one loop iteration: a blank stripped line changes nothing, a malformed one sets the error, a good one appends its record; `AssembleLineShape` states this as a contract |
| Assembler.AssembleLines | filr.py:90-100 | what `assemble` computes from a listing; `AssembleOkIff`, `AssembleErrorNames`, `AssembleShape` and `AssembleThenDecode` state its properties |
| Assembler.Assembler.constructor | filr.py:7-8 | both output buffers start empty |
| Assembler.Assembler.AssembleInstruction | filr.py:41-55 | appends the five bytes of the masked and packed fields, missing keys counting as 0, and logs the masked fields with those bytes |
| Assembler.Assembler.Assemble | filr.py:87-100 | clears both buffers; then, for each non-blank stripped line, parses and assembles it; stops at the first malformed line, which it names by index; ends in the state `AssembleLines` describes |
| Assembler.AssembleStopsAtError | filr.py:95-100 | lines after a malformed one change nothing |
| Assembler.RecordOfWellFormed | filr.py:44-55 | the logged bytes are the encoding of the logged masked fields |
| Assembler.AssembleLineShape | filr.py:95-100 | one line keeps the output well formed and adds a record exactly when it is non-blank and parses |
| Assembler.AssembleShape | filr.py:95-100 | the output is five bytes per logged record, record `k` at bytes `5k .. 5k + 4`; without error there is one record per non-blank line |
| Assembler.AssembledPadding | filr.py:49-50 | byte `5k + 4` of the assembled stream is zero for every record `k` |
| Assembler.AssembleThenDecode | filr.py:46-50 | decoding the assembled stream gives back the logged masked fields, record by record |
| Assembler.AllLinesParseSnoc | filr.py:95-99 | every non-blank line of a listing parses if and only if that holds for all but its last line, and the last line is blank or parses |
| Assembler.AssembleOkIff | filr.py:95-100 | assembling succeeds if and only if every non-blank stripped line parses |
| Assembler.AssembleErrorNames | filr.py:95-100 | the reported line is non-blank, fails with the reported reason, and every non-blank line before it parses |
| Interpreter.Execute | filr.py:59-83 | `execute_command` on values; its behaviour is stated by `ExecuteUnderflow`, `ExecuteUnknown`, `ExecuteBadAddress`, `ExecuteStack`, `ExecuteMemory` and `ExecuteLength` |
| Interpreter.RunProgram | filr.py:124-132 | the decoded instructions run in order, stopping at the first fault; `RunShape`, `RunAlong`, `RunFaults`, `RunSucceeds` and `RunStopsAtError` state its properties |
| Interpreter.Reset | filr.py:114-117 | the state `interpret` starts from; `ResetNonNegative` and `InterpretAgain` state its properties |
| Interpreter.Interpretation | filr.py:114-132 | all that `interpret` computes from a byte stream; `StepCount`, `TrailingBytesIgnored` and `PaddingIgnored` state its properties |
| Interpreter.PySlice | filr.py:140 | `memory[start:end]` is never longer than memory; `PySliceRange` gives its contents |
| Interpreter.Slot | filr.py:68 | a list index the list accepts names a cell inside memory |
| Interpreter.ClampIndex | filr.py:140 | a slice bound is clamped into `0 .. len(memory)` |
| Interpreter.Machine.constructor | filr.py:11-12 | a fresh machine has 10 000 zero cells, an empty stack, no products and no log |
| Interpreter.Machine.ExecuteCommand | filr.py:59-83 | mutates memory, stack and products exactly as `Execute` says, and returns the fault `Execute` raises |
| Interpreter.Machine.ExecuteRecord | filr.py:125-132 | unpacks bytes 0..3 of a record, executes it, and logs `{opcode, arg, stack}` only if it succeeded |
| Interpreter.Machine.Interpret | filr.py:112-132 | replaces memory by 10 000 zero cells, empties stack and log, and runs the records in strides of five; it ends in the state `Interpretation` describes, with the products of earlier runs kept |
| Interpreter.Machine.MemorySlice | filr.py:139-140 | returns `memory[start:end]` with Python's clamping |
| Interpreter.RunStopsAtError | filr.py:124-131 | instructions after a faulting one are never executed |
| Interpreter.RunFaults | filr.py:131-132 | a fault at step `k` ends the run with that step, instruction and fault, and with the log of the steps before it |
| Interpreter.RunSucceeds | filr.py:131-132 | a step that succeeds adds exactly one log entry, holding the stack after it |
| Interpreter.ExecuteUnderflow | filr.py:65-76 | a command underflows if and only if the stack is empty and the opcode is 7, 2 or 3; the state is then unchanged |
| Interpreter.ExecuteUnknown | filr.py:82-83 | exactly the opcodes outside {1, 7, 2, 3} raise an unknown-opcode fault, leaving the state unchanged |
| Interpreter.ExecuteBadAddress | filr.py:67-80 | a command faults on its address if and only if it pops an operand and its address (the popped value for 7, the argument for 2 and 3) is not a valid list index; the operand is then already popped |
| Interpreter.ExecuteStack | filr.py:62-79 | the effect on the stack: opcode 1 pushes the argument; otherwise the operand is popped, and opcodes 7 and 3 push one value back; for opcode 7 the popped address names a cell and the value pushed is that cell |
| Interpreter.ExecuteMemory | filr.py:62-81 | the effect on memory and products: only opcodes 2 and 3 write, and only the addressed cell; 2 stores the operand, 3 stores the product, pushes it and appends it to the products |
| Interpreter.StoreThenLoad | filr.py:62-73 | storing a value and loading it back from the same cell restores the stack and leaves the value in memory |
| Interpreter.RunAlong | filr.py:124-132 | a program whose every step succeeds from one given state to the next runs without error to the last state, one log entry per step |
| Interpreter.RunShape | filr.py:124-132 | memory keeps its size; a clean run logs every step; a failing run names its step and instruction and keeps the log of the steps before it |
| Interpreter.ExecuteLength | filr.py:62-81 | no command changes the size of memory |
| Interpreter.RunTracePrefix | filr.py:131-132 | the log of a program prefix is a prefix of the program's log |
| Interpreter.RunUnknownOpcode | filr.py:82-83 | an unknown opcode after a clean prefix ends the run with that fault, the prefix's state and the prefix's log intact |
| Interpreter.ExecuteNonNegative | filr.py:62-81 | if memory and stack hold no negative value, no command creates one, and an out-of-range address is then at least 10 000 |
| Interpreter.RunNonNegative | filr.py:124-132 | the same holds for every run from such a state |
| Interpreter.ResetNonNegative | filr.py:115-116 | the reset state holds no negative value |
| Interpreter.ExecuteResults | filr.py:81 | earlier products do not affect a command; they stay in front of the new ones |
| Interpreter.RunResults | filr.py:124-132 | earlier products do not affect a run; they stay in front of the new ones |
| Interpreter.InterpretAgain | filr.py:112-117 | interpreting after an earlier run gives the same memory, stack, log and error as on a fresh machine, with the old products kept in front |
| Interpreter.StepCount | filr.py:124-127 | at most `len / 5` steps are logged, and exactly that many when no step faults |
| Interpreter.TrailingBytesIgnored | filr.py:124-127 | extra bytes after the last whole record change nothing |
| Interpreter.PaddingIgnored | filr.py:125-130 | the fifth byte of each record, and trailing bytes, never affect a run |
| Interpreter.PySliceRange | filr.py:140 | an in-range slice is the plain subsequence; any slice is the subsequence of its clamped length from the clamped start |
| Scenario.LineOfText | tesst.py:18-37 | a test line is `A=<a>, B=<b>` |
| Scenario.StripLineOf | tesst.py:18-38 | stripping a test line with its newline gives the line |
| Scenario.ParseLineOf | tesst.py:18-37 | a test line parses to `{A: a, B: b}` |
| Scenario.AssembleLineOf | tesst.py:18-37 | an in-range test line appends its record and bytes |
| Scenario.AssembleListing | tesst.py:18-38 | a listing of in-range `A=<a>, B=<b>` lines assembles without error, one record per line holding that line's fields |
| Scenario.TestProgramPairs | tesst.py:18-37 | the test program's instructions are the test listing's pairs |
| Scenario.AssembleTestListing | tesst.py:62-64 | the test listing assembles without error into 20 records, the first with `A = 1`, `B = 5`, and decodes to the twenty instructions written in it |
| Scenario.RunTestProgram | tesst.py:79 | the twenty instructions, run from a reset machine, end cleanly after twenty logged steps with `[925, 1850, 2775, 3700, 4625]` in cells 0..4 and among the products |
| Scenario.TestInterpret | tesst.py:79 | interpreting the assembled test listing leaves `[925, 1850, 2775, 3700, 4625]` in memory range `0:5` |
| Scenario.AssembleAndInterpret | tesst.py:66-79 | the assemble command followed by the interpret command with range `0:5`, on fresh buffers and a fresh machine, reports `[925, 1850, 2775, 3700, 4625]` |

## Left out

- Command-line parsing (`parse_args`, `main`), reading and writing files, YAML output and `print`: these are I/O. The listing is a sequence of lines, each given with the newline that iteration over a file leaves on it. The byte stream is a sequence of bytes.
- The memory range string: `memory_range.split(":")` and its `int` conversions are not modelled. `MemorySlice` takes `start` and `end` as integers.
- Hexadecimal rendering of the logged bytes (`hex(b)`) is display only. The log keeps the byte values.
- `int(...)`: underscores between digits, non-ASCII digits and surrounding white space inside the value are not modelled. The value is stripped before `int` is applied, and `ParseInt` accepts an optional sign followed by ASCII digits.
- Universal-newline translation when reading the listing (`\r\n`, `\r`) is not modelled. `strip` removes the same white space either way.
- The Python global `log_file_data` is shared by both commands. Here each class owns its own log: `Assembler.log` and `Machine.trace`. `interpret` clears the list before use, so nothing observable changes.
- Exceptions are modelled as error results: a `ParseError` wrapped in `MalformedInstruction`, and a `Fault` wrapped in `RunError`. The line index in `MalformedInstruction`, and the step index and instruction in `RunError`, are context the model adds. The source's exception carries only a message.
- Files written after a failure: when `assemble` meets a malformed line, or `interpret` meets a faulting step, Python raises before any output file is written. The model returns the error together with the state at that moment: the buffers of the lines before the malformed one, or the machine and log of the steps before the fault.
- `struct.unpack` of fewer than four bytes cannot occur, because every chunk reaching it has five bytes.
