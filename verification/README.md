# Mojikun tape state and opcode decoder

This project models two pure pieces of Mojikun, an interpreter for a Brainfuck-family language written in emoji:

- **`Runtime`** (module `Runtime`, file `runtime.dfy`). This is the program state: an instruction pointer, a data pointer and a vector of 30000 signed 8-bit cells, all zero at creation. Its manipulators each change one thing. They are modelled as pure update functions on an immutable datatype. The places where the Rust code panics are preconditions:
  - `decrement_data_pointer` underflows the `usize` at 0.
  - The increments of the two pointers overflow at `usize::MAX`.
  - Every cell access indexes the vector without a check of its own.
  - `increment_data` and `decrement_data` use plain `+=`/`-=` on `i8`. In a debug build this overflows at 127 and at -128.

  A `Manipulator` datatype names one manipulator call. `Run` applies a sequence of calls. With these, the frame conditions ("nothing else changes", "the tape never changes length") can be stated for any sequence of calls, not only for one.
- **`parse`** (module `Parser`, file `parser.dfy`). This is the decoder from characters to the nine-variant `Node`. Eight emoji map to the eight instructions: 👈 U+1F448, 👉 U+1F449, 👍 U+1F44D, 👎 U+1F44E, 💾 U+1F4BE, 💻 U+1F4BB, 🔃 U+1F503 and 🔙 U+1F519. Every other character maps to `None`. The decoder preserves length, works position by position and distributes over concatenation.

The code has no execution engine. `Interpreter::evaluate` only prints a message (src/interpreter.rs:12-14), and there is no bracket matching. The cell arithmetic is Rust's checked `i8` arithmetic, and the pointer moves are plain `usize` arithmetic with no bounds check. An out-of-range data pointer only shows up as a failed vector index. This model follows the code.

Integer widths are written out. `Usize` is `0..2^64-1`, which assumes a 64-bit target. `Cell` is `-128..127`.

## Model

| member | source | states |
|---|---|---|
| `Runtime.New` | src/runtime.rs:15-20 | a fresh runtime has instruction pointer 0, data pointer 0 and exactly 30000 cells, every one 0 |
| `Runtime.InstructionPointerManipulators` | src/runtime.rs:24-30 | `set_instruction_pointer(v)` makes the instruction pointer `v`; `increment_instruction_pointer` is the same as setting it to its value plus one, and panics at `usize::MAX`; neither changes the data pointer or any cell |
| `Runtime.DataPointerRoundTrip` | src/runtime.rs:32-38 | moving the data pointer right then left, or left (only from a pointer above 0, since 0 underflows) then right, gives back the identical runtime; each move shifts the pointer by exactly one |
| `Runtime.SetData` | src/runtime.rs:40-42 | `set_data(v)` needs the data pointer inside the vector; it puts `v` in that one cell, leaves every other cell and both pointers as they were, and keeps the vector's length |
| `Runtime.SetDataThenData` | src/runtime.rs:40-63 | reading the cell after `set_data(v)` gives `v`; storing the value just read is a no-op; a second store overrides the first |
| `Runtime.IncrementDecrementData` | src/runtime.rs:44-50 | `increment_data` (cell below 127) is storing the cell's value plus one, and `decrement_data` (cell above -128) is storing it minus one; each undoes the other |
| `Runtime.Apply` | src/runtime.rs:22-50 | every manipulator keeps the vector's length; only the instruction-pointer manipulators change the instruction pointer; only the data-pointer moves change the data pointer, and they always do; only the cell manipulators change cells, and never a cell other than the one under the data pointer |
| `Runtime.Run` | src/runtime.rs:22-50 | after any panic-free sequence of manipulator calls, the vector has its original length, every cell not written by a call keeps its value, and a pointer that no call moves keeps its value |
| `Runtime.RunAppend` | src/runtime.rs:22-50 | a call sequence `a + b` runs without a panic exactly when `a` does and then `b` does from where `a` ended; in that case it ends in the same runtime as running `a` and then `b` |
| `Runtime.ReachableTape` | src/runtime.rs:15-50 | every runtime reached from `new()` by manipulator calls has exactly 30000 cells; so `set_data` panics exactly when the data pointer is 30000 or more, and `increment_data`/`decrement_data` panic exactly then or when the cell is at 127/-128; the first left move from `new()` underflows |
| `Runtime.RuntimeUnitTests` | src/runtime.rs:80-149 | the unit tests of the runtime (initial pointers and cells, pointer moves, increment, decrement, set and read of the cell, instruction-pointer set and increment) hold of the model |
| `Parser.Decode` | src/parser.rs:34-44 | a character decodes to an instruction exactly when it is one of the eight emoji, and then to the instruction that emoji spells; every other character decodes to `None` |
| `Parser.DecodeGlyph` | src/parser.rs:35-42 | each of the eight emoji decodes to its own instruction, so no two instructions share an emoji |
| `Parser.Parse` | src/parser.rs:33-45 | `parse` yields one node per character, and the node at position `i` is the decoding of the character at position `i` alone |
| `Parser.ParseAt` | src/parser.rs:34-43 | a position of the output holds a given instruction exactly when the input holds that instruction's emoji there, and `None` exactly when the input character is not an instruction; so `Loop` and `EndLoop` come only from 🔃 and 🔙 |
| `Parser.ParseAppend` | src/parser.rs:33-45 | parsing the concatenation of two texts is the concatenation of their parses |
| `Parser.ParseCounts` | src/parser.rs:33-45 | each instruction occurs in the output as often as its emoji occurs in the input, for example `Loop` as often as 🔃; `None` occurs as often as there are characters that are not instructions |
| `Parser.ParserUnitTests` | src/parser.rs:55-101 | the parser's unit tests hold: each of the eight emoji alone parses to its instruction |

## Left out

- The interpreter (src/interpreter.rs): `new` and `evaluate` only print a message, and `evaluate` ignores the nodes it is given. The code has no execution semantics and no bracket matching, so none is modelled.
- Program wiring (src/main.rs): it embeds a literal program and passes it through the lexer, the parser and the interpreter. This is I/O and glue code.
- The lexer (src/lexer.rs): it collects the characters of a `&str` through the standard library's UTF-8 decoding. A Dafny `string` already is a `seq<char>`, and `Parse` takes that sequence directly.
- The `fmt::Debug` implementation of `Runtime` (src/runtime.rs:67-74): it only formats text.
- The doc comments on `PointLeft` and `PointRight` (src/parser.rs:4-8) describe the pointer directions the opposite way from the variant names. The code gives `Node` no movement meaning, so only the decoding is modelled.
- Release-build arithmetic. In a release build, `+= 1` and `-= 1` on `i8` and `usize` wrap instead of panicking. The model follows debug-build semantics and makes overflow a precondition.
- `Runtime.Usize`: `usize` is fixed at 64 bits. A 32-bit target would lower the overflow bound of the two pointer increments.
- `Runtime.IncrementInstructionPointer`, `Runtime.SetInstructionPointer`, `Runtime.IncrementDataPointer`, `Runtime.DecrementDataPointer`, `Runtime.IncrementData` and `Runtime.DecrementData` model the manipulators at src/runtime.rs:24-50 one for one. They carry only their panic conditions as preconditions, because an `ensures` on them could only repeat their one-line bodies. What they promise is stated in `InstructionPointerManipulators` (src/runtime.rs:24-30), `DataPointerRoundTrip` (src/runtime.rs:32-38), `IncrementDecrementData` (src/runtime.rs:44-50) and `Apply`, which dispatches to each of them.
- `Runtime.Data`, `Runtime.InstructionPointer` and `Runtime.DataPointer` (the accessors at src/runtime.rs:53-63) have no contracts of their own. Their behaviour is stated through `SetDataThenData`, `IncrementDecrementData`, `DataPointerRoundTrip` and `InstructionPointerManipulators`.
- A `Vec`'s capacity limit (`isize::MAX` bytes) is not modelled. The vector never grows.
