/**
 * The bytecode container of src/chunk.rs: a byte-encoded opcode set, and a
 * chunk that holds an append-only constant pool next to two parallel
 * vectors, the code bytes and the source line of each byte.
 */
module Chunk {
  import opened Wrappers
  import opened Values

  /** Rust's `u8`. */
  newtype byte = x: int | 0 <= x < 256

  /** `#[repr(u8)]`: the variants take the bytes 0, 1, … in declaration order. */
  datatype OpCode = OpReturn | OpConstant

  /** `IntoPrimitive`: the byte an opcode is stored as. */
  function Encode(op: OpCode): (b: byte)
    ensures b < 2
    ensures op.OpReturn? <==> b == 0
  {
    match op
    case OpReturn => 0
    case OpConstant => 1
  }

  /** `TryFromPrimitive`: the opcode a byte stands for, if any. */
  function Decode(b: byte): (r: Option<OpCode>)
    ensures r.None? <==> b >= 2
  {
    if b == 0 then Some(OpReturn)
    else if b == 1 then Some(OpConstant)
    else None
  }

  /** Decoding an encoded opcode gives it back. */
  lemma DecodeEncode(op: OpCode)
    ensures Decode(Encode(op)) == Some(op)
  {
  }

  /** Every byte that decodes is the encoding of what it decodes to, so the
      encoding is a bijection between the opcodes and the bytes 0 and 1. */
  lemma EncodeDecode(b: byte)
    requires Decode(b).Some?
    ensures Encode(Decode(b).value) == b
  {
  }

  class Chunk {
    var codes: seq<byte>
    var values: seq<Value>
    var lines: seq<nat>

    /** `codes` and `lines` are parallel: one source line per code byte. */
    predicate Valid()
      reads this
    {
      |codes| == |lines|
    }

    /** `Chunk::default()`. */
    constructor ()
      ensures Valid()
      ensures codes == [] && values == [] && lines == []
    {
      codes, values, lines := [], [], [];
    }

    /** Appends `value` to the pool and returns its index. */
    method AddConstant(value: Value) returns (index: nat)
      modifies this`values
      ensures values == old(values) + [value]
      ensures index == |old(values)| && values[index] == value
    {
      index := |values|;
      values := values + [value];
    }

    /** Appends one code byte and the line it came from. */
    method WriteChunk(b: byte, line: nat)
      requires Valid()
      modifies this`codes, this`lines
      ensures Valid()
      ensures codes == old(codes) + [b] && lines == old(lines) + [line]
    {
      codes := codes + [b];
      lines := lines + [line];
    }
  }
}
