# rlox core, modelled in Dafny

rlox is a partly written bytecode interpreter for a Lox-like language. This
project models the five pieces of it whose behaviour is sequential and
self-contained, and proves properties of them:

- **The hand-written scanner** (`src/scanner.rs`), in `scanner.dfy`. A class
  `Scanner.Scanner` keeps the three cursors `start`, `current` and `line`.
  Its methods move them over a source string exactly as the Rust code does.
  Three pure functions describe where every loop stops and which token
  `scan_token` yields:
  - `SpanWhile` says where a loop that advances while a char class holds stops;
  - `SkipEnd` says where `skip_whitespace` stops;
  - `LexAt` says which token `scan_token` yields, with the parts `LexSymbol`,
    `LexOperator` and `LexString`.

  Each method is proved equal to these functions. The lemmas then state what
  the functions imply.
- **The chunk container** (`src/chunk.rs`), in `chunk.dfy`. It holds the byte
  encoding of `OpCode`, and a class `Chunk.Chunk` with an append-only
  constant pool and the two parallel vectors `codes` and `lines`.
- **The per-function compiler record** (`src/compiler.rs`), in
  `compiler.dfy`: the scope depth that `enter_block` and `exit_block` move.
- **The fixed-token prefix matcher** (`src/tokeniser.rs`), in
  `tokeniser.dfy`. All of it is pure functions: the prefix test, the prefix
  enumeration, and `Token::next` over its table of seven entries.
- **The VM** (`src/vm.rs`), in `vm.dfy`. This has two parts.
  - The compile part is the class `Vm.VM`'s `CompileExpression`,
    `ContainedExpressionList` and `Compile`. They write to a
    `Vm.CompileContext`, which is the compiler at the top of the compile
    stack. They are proved against the pure emitter `Emit`/`EmitSeq`/`EmitList`.
    The lemmas about the emitter state the pool-index and stack-effect facts,
    and pin the exact code of the three tests in `src/vm.rs`.
  - The runtime part is the frame loop `Vm.VM.Run`, with `Step` and
    `PushFrame`. `Run` is proved against the pure `Execute`, which repeats
    `RunCycle` (one pass of the `while let` loop).

`wrappers.dfy` holds `Option`. `values.dfy` holds the `Value` shape of
`src/value.rs`, and `ast.dfy` holds the `Expression` shape of `src/ast.rs`.

### The code as written

The model follows the code, not what it evidently means to do.

- `number` (`src/scanner.rs:141-150`) breaks AT a digit and advances over
  everything else. So a number lexeme runs from its first digit up to the
  next digit, and the fraction branch (`src/scanner.rs:151-167`) can never
  run. In `Scanner.Scanner.ScanNumber` that branch holds `assert false`.
- `string` (`src/scanner.rs:240`) advances only while the next char IS a
  quote. It then takes one more char as the closing quote. Its
  line-counting branch can never run.
- `check_keyword` (`src/scanner.rs:229-231`) compares the inclusive slice of
  `length + 1` chars with a `length`-char text. Every call site passes a text
  of exactly `length` chars, so no keyword is ever recognised: identifiers
  are always `IDENTIFIER`.
- `run` (`src/vm.rs:36-54`) calls `step` after `Return` has popped the last
  frame. `step` then finds no frame and returns `None`. So a program that
  ends in `Return` makes `run` fail (`Vm.RunReturnFromLastFrame`).
- `run` has no arm for `Pop`, so the code compiled from every test reaches
  `unimplemented!()` at its first `Pop` (`Vm.RunLiteralProgram`).

Two source texts disagree with each other, and the model follows the code
that is used:

- `src/vm.rs` uses an opcode set (`Constant(usize)`, `Pop`, `Return`,
  `GetLocal(usize)`) and a `constants` pool that `src/chunk.rs` does not
  define. `vm.dfy` therefore has its own `Op` and `VmChunk`.
- `src/vm.rs` calls `add_constant` and `pop` on the top `Compiler`. As the
  tests there require, these mean "append to the pool and emit
  `Constant(index)`" and "emit `Pop`". They are `Vm.CompileContext.AddConstant`
  and `Vm.CompileContext.Pop`.

## Model

| member | source | states |
|---|---|---|
| Scanner.IsAlpha | src/scanner.rs:8-10 | A letter or `_`; never also a digit. |
| Scanner.SkipEnd | src/scanner.rs:21-50 | Where whitespace skipping stops: at the end, or at a char that is neither blank nor the start of a `//` comment. |
| Scanner.SkipEndFirst | src/scanner.rs:21-50 | Every char whitespace skipping passes over is blank or lies in a `//` comment begun since the start, and the char it stops at is neither: it stops at the first such index. |
| Scanner.SpanWhile | src/scanner.rs:172-180 | A loop that advances while a char class holds (identifier, number, string and comment bodies) stops at or after its start, every char it passes holds the class, and the char it stops at, if any, does not. |
| Scanner.SingleCharToken | src/scanner.rs:75-85 | Exactly the eleven punctuation chars have a one-char token, never an error, EOF or keyword. |
| Scanner.OperatorTokens | src/scanner.rs:86-117 | Exactly `!`, `=`, `<`, `>` have an operator pair, an `*_EQUAL` type and a plain type, and none of them is also a one-char token. |
| Scanner.LexOperator | src/scanner.rs:125-138 | An operator token starts at `p` and takes two chars exactly when the next char is `=`, one otherwise. |
| Scanner.LexString | src/scanner.rs:239-252 | The token is `STRING` or "Unterminated string."; the error happens exactly when every char after the opening quote is a quote; a string token spans a run of quotes and the one non-quote after it. |
| Scanner.SkipEndIdempotent | src/scanner.rs:21-50 | Skipping whitespace twice moves no further than once. |
| Scanner.LexAt | src/scanner.rs:61-123 | The token `scan_token` yields at `p`: EOF exactly at the end; otherwise at least one char is consumed; the token carries the line; non-error tokens span `p` up to the new `current`; error tokens have start and length 0. |
| Scanner.LexSymbol | src/scanner.rs:74-121 | The punctuation, operator, string and unexpected-char arms: at least one char consumed, never EOF, span or error shape as for `LexAt`. |
| Scanner.LexAtOperator | src/scanner.rs:86-117 | `!`, `=`, `<`, `>` consume two chars and yield the `*_EQUAL` type exactly when the next char is `=`, and one char with the plain type otherwise. |
| Scanner.LexAtNeverKeyword | src/scanner.rs:184-237 | No token is ever a keyword; a lexeme starting with a letter is always `IDENTIFIER`. |
| Scanner.LexAtNumberAsWritten | src/scanner.rs:140-169 | A number lexeme stops at the end or at a digit, holds no digit after its first char, and is one char long when two digits follow each other. |
| Scanner.LexAtStringAsWritten | src/scanner.rs:239-252 | After an opening quote only a run of quotes is consumed; a run reaching the end is "Unterminated string.", otherwise the token ends one char past the run. |
| Scanner.Scanner.constructor | src/scanner.rs:13-19 | Starts at `start = current = 0`, line 1. |
| Scanner.Scanner.Peek | src/scanner.rs:52-59 | `None` exactly when `current + distance` is past the end; otherwise the char there. A function, so it changes nothing. |
| Scanner.Scanner.IsAtEnd | src/scanner.rs:289-291 | True exactly when `Peek(0)` is `None`. |
| Scanner.Scanner.MakeToken | src/scanner.rs:271-278 | The token has the given type, starts at `start`, ends at `current`, on the current line. |
| Scanner.Scanner.ErrorToken | src/scanner.rs:280-287 | An error token with the message, start 0, length 0, on the current line. |
| Scanner.Scanner.CheckKeyword | src/scanner.rs:221-237 | The keyword type exactly when the inclusive slice exists and equals `s` (which needs `s` to have `length + 1` chars), `IDENTIFIER` otherwise; a `length`-char `s` always gives `IDENTIFIER`. |
| Scanner.Scanner.IdentifierType | src/scanner.rs:184-219 | Every arm of the first/second-letter dispatch yields `IDENTIFIER`. |
| Scanner.Scanner.Advance | src/scanner.rs:254-257 | `current` goes up by exactly one and the char at the old `current` is returned; `start` and `line` are not modified. |
| Scanner.Scanner.Matches | src/scanner.rs:259-269 | Matches exactly when the char at `current` exists and equals `expected`, and then consumes exactly that char; otherwise `current` is unchanged. |
| Scanner.Scanner.MakeTokenIfMatches | src/scanner.rs:125-138 | Consumes the next char and yields `whenTrue` exactly when it is `expected`, otherwise yields `whenFalse` without consuming; the token spans `start .. current`. |
| Scanner.Scanner.SkipComment | src/scanner.rs:34-39 | Stops at the first line break after `current`, not past it, or at the end. |
| Scanner.Scanner.SkipWhitespace | src/scanner.rs:21-50 | Leaves `current` at `SkipEnd`, and adds to `line` the number of line breaks it passed over. |
| Scanner.Scanner.ScanNumber | src/scanner.rs:140-169 | Advances over non-digits up to the next digit or the end, and yields a `NUMBER` token over `start .. current`. |
| Scanner.Scanner.ScanIdentifier | src/scanner.rs:171-182 | Advances over letters and digits and yields the `identifier_type` token (always `IDENTIFIER`) over `start .. current`. |
| Scanner.Scanner.ScanString | src/scanner.rs:239-252 | Token and final `current` are `LexString` of `start`, with `line` unchanged. |
| Scanner.Scanner.ScanToken | src/scanner.rs:61-123 | `start` is where whitespace skipping stops; `line` counts the line breaks skipped; the token and the new `current` are `LexAt` there; the old `current` is at most `start`, which is at most the new `current`, which is at most the source length, and `line` never decreases. |
| Scanner.Scanner.ScanLexeme | src/scanner.rs:63-122 | After `start = current`: the token and the new `current` are `LexAt(start)`, and `line` is unchanged. |
| Scanner.Scanner.ScanWord | src/scanner.rs:67-73 | The digit and letter arms: token and final `current` are `LexAt(start)`. |
| Scanner.Scanner.ScanSymbol | src/scanner.rs:74-121 | The `match` arms: token and final `current` are `LexSymbol(start)`, with `line` unchanged. |
| Chunk.Encode | src/chunk.rs:6-11 | `OP_RETURN` is byte 0 and `OP_CONSTANT` byte 1. |
| Chunk.Decode | src/chunk.rs:6-11 | Decoding fails exactly on bytes of 2 or more. |
| Chunk.DecodeEncode | src/chunk.rs:6-11 | Decoding an encoded opcode gives it back. |
| Chunk.EncodeDecode | src/chunk.rs:6-11 | Every byte that decodes is the encoding of its opcode. |
| Chunk.Chunk.constructor | src/chunk.rs:13-18 | The default chunk is empty and its vectors are parallel. |
| Chunk.Chunk.AddConstant | src/chunk.rs:21-25 | Returns the old pool length; the pool is the old one with the value appended; `codes` and `lines` are not modified. |
| Chunk.Chunk.WriteChunk | src/chunk.rs:27-30 | Appends the byte to `codes` and the line to `lines`, so they stay parallel; the pool is not modified. |
| Compiler.Compiler.constructor | src/compiler.rs:22-30 | Depth 0, no locals, count 0, a fresh empty chunk. |
| Compiler.Compiler.EnterBlock | src/compiler.rs:31-33 | `depth` goes up by exactly one; nothing else is modified. |
| Compiler.Compiler.ExitBlock | src/compiler.rs:35-37 | `depth` goes down by exactly one; nothing else is modified. |
| Compiler.EnterThenExit | src/compiler.rs:31-37 | Entering and then leaving a block restores the compiler exactly. |
| Tokeniser.ScanStr | src/tokeniser.rs:9-11 | As many prefixes as `s` has chars, the `i`-th of length `i + 1`, and every non-empty prefix appears. |
| Tokeniser.MatchStr | src/tokeniser.rs:13-19 | True exactly when `m` is a prefix of `input`; false whenever `input` is shorter than `m`. |
| Tokeniser.FirstMatch | src/tokeniser.rs:49-59 | The first table index at or after `i` whose text prefixes the input, or none. |
| Tokeniser.Next | src/tokeniser.rs:39-60 | `None` exactly when no table text prefixes the input; otherwise the type and text length of the first entry, in table order, that does. |
| Tokeniser.NextCoversPrefix | src/tokeniser.rs:50-55 | The token's length is that of a non-empty prefix of the input, and that prefix is the table text of the token's type. |
| Tokeniser.NextTypes | src/tokeniser.rs:40-48 | Only the seven table types are produced. |
| Tokeniser.NextEmpty | src/tokeniser.rs:39-60 | The empty input has no token. |
| Tokeniser.NextIgnoresWordBoundary | src/tokeniser.rs:39-60 | No word boundary is needed: `falseee` gives `False` of length 5, `nilly` gives `Nil` of length 3. |
| Vm.CreateValueFromLiteral | src/vm.rs:93-100 | A literal's value is never a heap object. |
| Vm.LiteralOf | src/vm.rs:93-100 | Only object values have no literal. |
| Vm.LiteralValueRoundTrip | src/vm.rs:93-100 | Literal-to-value is injective, and onto every non-object value. |
| Vm.EmitSeqSnoc | src/vm.rs:163-165 | Compiling one more expression appends its code and pool entries after the list's, with pool indices continuing from them. |
| Vm.EmitListNil | src/vm.rs:159-169 | The `empty_expression` test (`EmptyExpression`) decides it: exactly one extra `Nil` pool entry and its `Constant` are added, iff the list is empty or ends in an ignored expression; otherwise the list's code is unchanged. |
| Vm.EmitIndices | src/vm.rs:107-135 | The `k`-th `Constant` of an expression's code names pool index `base + k`: literals take consecutive pool indices. |
| Vm.EmitSeqIndices | src/vm.rs:163-165 | The same for a list compiled in order. |
| Vm.EmitListIndices | src/vm.rs:154-170 | The same for `contained_expression_list`, including its `Nil`. |
| Vm.EmitNetEffect | src/vm.rs:107-135 | A well-formed expression compiles, and its code pushes one value, or none when ignored. |
| Vm.EmitSeqNetEffect | src/vm.rs:163-165 | A well-formed list pushes one value, or none when it is empty or ends in an ignored expression. |
| Vm.EmitDefined | src/vm.rs:107-135 | `compile_expression` (modelled by `Emit`) avoids `unimplemented!()` exactly on the expressions made of literals, `;`, parentheses, braces and assignments (`Compilable`). |
| Vm.EmitSeqDefined | src/vm.rs:163-165 | A list compiled in order (`EmitSeq`) succeeds exactly when each of its expressions does. |
| Vm.EmitListDefined | src/vm.rs:154-170 | `contained_expression_list` (`EmitList`) succeeds exactly when each expression of the list does. |
| Vm.AssignmentLeavesNoValue | src/vm.rs:124-126 | An assignment at the end of a list adds no code and no `Nil`, so such a list compiles to the code before it and, when that code leaves no value, the whole list leaves none. |
| Vm.EmitNoUnderflow | src/vm.rs:107-135 | The code of a well-formed expression never leaves fewer than zero values on the stack at any point. |
| Vm.EmitSeqNoUnderflow | src/vm.rs:163-165 | The same for a well-formed list compiled in order. |
| Vm.EmitListNoUnderflow | src/vm.rs:154-170 | The same for `contained_expression_list`, including its `Nil`. |
| Vm.PopFindsValue | src/vm.rs:111-114 | In such code every `Pop` has at least one value to discard. |
| Vm.EmitListNetEffect | src/vm.rs:154-170 | A well-formed parenthesised or braced list always pushes exactly one value. |
| Vm.BlockAsParenthesised | src/vm.rs:116-123 | A block compiles to the same code and pool as the parenthesised list of the same items. |
| Vm.EmitIgnoredNumber | src/vm.rs:108-115 | `n;` compiles to `Constant(base), Pop` with the number as its one pool entry. |
| Vm.LiteralProgramCodes | src/vm.rs:180-196 | `-1;2;3;4` compiles to `Constant(0),Pop,Constant(1),Pop,Constant(2),Pop,Constant(3)`. |
| Vm.InnerParensCodes | src/vm.rs:199-218 | `(-1;2;);` compiles to the first six opcodes of the parens test; the `Nil` takes pool index 2. |
| Vm.OuterParensCodes | src/vm.rs:199-218 | `((-1;2;);3);` compiles to the first eight opcodes of the parens test. |
| Vm.ParensProgramCodes | src/vm.rs:199-218 | The parens test program compiles to exactly the expected ten opcodes. |
| Vm.BracesProgramCodes | src/vm.rs:220-240 | The braces test program compiles to the same ten opcodes. |
| Vm.FindLocal | src/vm.rs:137-152 | The last local with the name, or none when no local has it. |
| Vm.StepFrames | src/vm.rs:56-64 | `None` exactly on an empty stack; otherwise the top frame is popped when it has no next opcode, else only its `ip` goes up by one. |
| Vm.RunCycle | src/vm.rs:37-52 | One pass of the loop: `slots` only grows, by at most one; the loop either stops without `Some(())` and with `slots` unchanged, or makes progress (fewer frames, or fewer opcodes left in the top frame). |
| Vm.RunCycleConstant | src/vm.rs:39-42 | `Constant(pos)` pushes exactly `constants[pos]`, then steps; a `pos` past the pool stops with `None` and nothing changed. |
| Vm.RunCycleReturn | src/vm.rs:43-45 | `Return` removes exactly the top frame before `step` acts on the frame below, with `slots` unchanged; from the last frame the loop fails. |
| Vm.Execute | src/vm.rs:36-54 | `run` ends in `Some(())` only when the frame stack is empty (it can also end in `None` with no frames left, see `Vm.RunReturnFromLastFrame`); `slots` only grows; frames are never added. |
| Vm.RunConstant | src/vm.rs:36-54 | A single `Constant` runs to `Some(())` with the constant on the stack. |
| Vm.RunReturnFromLastFrame | src/vm.rs:43-51 | `Return` in the only frame makes the following `step` fail, so `run` returns `None`. |
| Vm.RunPastEnd | src/vm.rs:38 | For any machine whose top frame's `ip` has no opcode, `run` returns `None` at once with the state unchanged. |
| Vm.RunLiteralProgram | src/vm.rs:36-54 | The literal test's code pushes `-1` and then stops at its first `Pop`, which `run` does not implement. |
| Vm.CompileContext.constructor | src/compiler.rs:22-30 | The top compiler starts at depth 0 with no locals, codes or constants. |
| Vm.CompileContext.AddConstant | src/vm.rs:110 | Appends the value to the pool and a `Constant` naming its index to the code. |
| Vm.CompileContext.Pop | src/vm.rs:114 | Appends one `Pop`. |
| Vm.CompileContext.EnterBlock | src/vm.rs:120 | `depth` goes up by one. |
| Vm.CompileContext.ExitBlock | src/vm.rs:122 | `depth` goes down by one. |
| Vm.VM.constructor | src/vm.rs:27-32 | No frames, slots or objects. |
| Vm.VM.Step | src/vm.rs:56-64 | The new frame stack is `StepFrames` of the old one; on failure nothing changes. |
| Vm.VM.Run | src/vm.rs:36-54 | The outcome and the final frames and slots are `Execute` of the starting state. |
| Vm.VM.PushFrame | src/vm.rs:74-81 | Appends a frame at `ip` 0 whose slots start at the current stack height; the earlier frames and `slots` are not modified. |
| Vm.VM.CompileExpression | src/vm.rs:102-135 | Completes exactly when `Emit` is defined, and then appends exactly `Emit`'s code and pool entries; depth and locals are as before, so a block restores the depth. |
| Vm.VM.Assign | src/vm.rs:137-152 | The lookup finds the last local with the target name. |
| Vm.VM.ContainedExpressionList | src/vm.rs:154-170 | Completes exactly when `EmitList` is defined, and then appends exactly its code and pool entries. |
| Vm.VM.CompileSequence | src/vm.rs:163-165 | Compiles the expressions in order: completes exactly when `EmitSeq` is defined, and then appends exactly its code and pool entries. |
| Vm.VM.Compile | src/vm.rs:83-90 | A fresh compiler holds exactly the code and pool of the whole program, at depth 0 with no locals. |
| Vm.EmitSeqPrefixFails | src/vm.rs:163-165 | Once a prefix of a list fails to compile, so does the whole list. |

## Left out

- `src/parser.rs` is not part of this model. The test programs are given as
  the expression trees that the expected codes in the tests of `src/vm.rs`
  imply: `;` becomes `Ignored`, parentheses become `Parenthesised`, braces
  become `Block`. The parser in the repository does not build these trees.
  `Ignored` is not an arm of `src/ast.rs`. `pexpression` returns the inner
  expression without a `Parenthesised` wrapper. There is no `parse` function
  for `src/vm.rs` to import.
- `src/compile.rs`, `src/debug.rs`, `src/lib.rs` and `src/main.rs` are not
  part of this model. They are a stub, disassembly printing, the REPL, and
  file and stdin I/O.
- Floating point: `f64` numbers are carried as their 64-bit IEEE-754 bit
  patterns, with no arithmetic on them.
- `intern_string`: it is not in the repository shown. Strings are carried by
  content, so the pointer comparison (`Rc::ptr_eq`) in `assign` becomes name
  equality.
- `Rc` sharing becomes plain values. The `objects` heap of the VM is a field
  that nothing writes.
- `Literal::Symbol` of `src/ast.rs` is left out. `create_value_from_literal`
  has no arm for it.
- `Vm.VM.GetLocal`: `get_local` and `tail` return `self` unchanged, so
  `GetLocal` is a method that does nothing and has no contract.
- `Vm.VM.Assign`: it models only the lookup. `assign` throws the result away,
  and the assigned value is never compiled (`Emit` of an assignment appends
  nothing).
- `Vm.VM.CompileExpression`: `unimplemented!()` is a panic. It is modelled as
  `completed == false`, after which nothing more is compiled. The empty
  compile stack behind each `last_mut()?` cannot arise, since `compile` always
  pushes one compiler. So that `None` path is not modelled.
- `Vm.VM.CompileExpression`: the parameter is named `compiler` in
  `src/vm.rs` but the body uses `compile_stack`. The model passes the top
  compiler (`Vm.CompileContext`) explicitly.
- `Vm.VM.Run`: the `unimplemented!()` panic is the outcome `Unimplemented`,
  and a `None` is `Fault`.
- `Compiler.Compiler.ExitBlock` and `Vm.CompileContext.ExitBlock` require
  `depth > 0`. The `usize` subtraction would panic in a debug build, or wrap
  in release; the model does not cover the wrap.
- Integer widths: `usize` cursors, indices and depths are unbounded `nat`s.
  Overflow is not modelled.
- The scanner works on a string of chars. The byte slicing of a Rust `&str`
  (`get(i..=i)`, `unwrap()` on a non-boundary) is modelled only for ASCII
  sources, where a byte is a char.
- Tokeniser.ScanStr: the Rust code counts lengths in bytes and slices with
  byte offsets. On a prefix that is not at a char boundary it panics. The
  model counts chars, so it agrees only on ASCII input, and it never panics.
- Tokeniser.MatchStr: the same byte-versus-char difference as `ScanStr`.
- Tokeniser.Next: the same byte-versus-char difference. For example,
  `Token::next("é")` panics: the one-byte slice taken for the `{` entry ends
  inside the two-byte `é`. The model finds no match there.
- `Scanner.Scanner.ScanToken` requires `current <= |source|`. Every scanner
  method keeps that, starting from the constructor's 0.
- `Scanner.Scanner.ScanSymbol` reads the one-char arms and the four operator
  arms from two small tables (`SingleCharToken`, `OperatorTokens`), not from
  fifteen separate match arms (nineteen token types). The token types and the chars consumed are
  the same.
- `Scanner.Scanner.ScanString`: the line-counting branch inside the loop is
  unreachable as written, and is an `assert false` there.
