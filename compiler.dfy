/**
 * The per-function compiling context of src/compiler.rs: a lexical scope
 * depth, the locals declared so far and the chunk being written.
 */
module Compiler {
  import Chunk

  /** A local variable and the scope depth it was declared at. */
  datatype Local = Local(name: string, depth: nat)

  class Compiler {
    var depth: nat
    var locals: seq<Local>
    var localsCount: nat
    var chunk: Chunk.Chunk

    /** `Compiler::new`: outermost scope, no locals, an empty chunk. */
    constructor ()
      ensures depth == 0 && locals == [] && localsCount == 0
      ensures fresh(chunk) && chunk.Valid()
      ensures chunk.codes == [] && chunk.values == [] && chunk.lines == []
    {
      depth, locals, localsCount := 0, [], 0;
      chunk := new Chunk.Chunk();
    }

    /** Opens a block: one level deeper, nothing else changes. */
    method EnterBlock()
      modifies this`depth
      ensures depth == old(depth) + 1
    {
      depth := depth + 1;
    }

    /** Closes a block: one level shallower, nothing else changes. The
        subtraction is on `usize`, so the outermost scope cannot be closed. */
    method ExitBlock()
      requires depth > 0
      modifies this`depth
      ensures depth == old(depth) - 1
    {
      depth := depth - 1;
    }
  }

  /** Opening a block and closing it again leaves the compiler as it was. */
  method EnterThenExit(c: Compiler)
    modifies c
    ensures unchanged(c)
  {
    c.EnterBlock();
    c.ExitBlock();
  }
}
