/** Opcodes and the bytecode chunk (chunk.rs). */
module Chunks {
  import opened Base
  import opened Values

  /**
   * The instruction set. chunk.rs declares only OpConstant and OpReturn; vm.rs and debug.rs
   * also use the five arithmetic opcodes, so all seven are modelled (spelled as in the source).
   */
  datatype OpCode =
    | OpConstant
    | OpReturn
    | OpAdd
    | OpSubstract
    | OpMultiply
    | OpDivide
    | OpNegate

  /**
   * The byte of each opcode. 0 and 1 are fixed by the declaration order in chunk.rs; the
   * bytes of the other five are an assumption of this model (2 to 6, in the order vm.rs
   * matches them).
   */
  function Encode(op: OpCode): (b: u8)
    ensures b < 7
    ensures op == OpConstant <==> b == 0
    ensures op == OpReturn <==> b == 1
  {
    match op
    case OpConstant => 0
    case OpReturn => 1
    case OpAdd => 2
    case OpSubstract => 3
    case OpMultiply => 4
    case OpDivide => 5
    case OpNegate => 6
  }

  /** `OpCode::from_u8`: a byte names an opcode exactly when it is one of the seven encodings. */
  function Decode(byte: u8): (r: Option<OpCode>)
    ensures r.Some? <==> byte < 7
    ensures r.Some? ==> Encode(r.value) == byte
    ensures byte == 0 ==> r == Some(OpConstant)
    ensures byte == 1 ==> r == Some(OpReturn)
  {
    match byte
    case 0 => Some(OpConstant)
    case 1 => Some(OpReturn)
    case 2 => Some(OpAdd)
    case 3 => Some(OpSubstract)
    case 4 => Some(OpMultiply)
    case 5 => Some(OpDivide)
    case 6 => Some(OpNegate)
    case _ => None
  }

  /** Decoding undoes encoding, so every opcode has exactly one byte. */
  lemma DecodeEncode(op: OpCode)
    ensures Decode(Encode(op)) == Some(op)
  {
  }

  /** The number of operand bytes after an opcode: OpConstant takes a one-byte constant index. */
  function OperandCount(op: OpCode): nat
  {
    if op == OpConstant then 1 else 0
  }

  /**
   * The number of bytes an instruction starting with `byte` occupies: the opcode plus its
   * operands; an undecodable byte counts as one byte.
   */
  function InstructionLength(byte: u8): (n: nat)
    ensures n == 2 <==> Decode(byte) == Some(OpConstant)
    ensures 1 <= n <= 2
  {
    match Decode(byte)
    case Some(op) => 1 + OperandCount(op)
    case None => 1
  }

  /** A chunk: the bytecode, its constant pool, and one source line per code byte. */
  class Chunk {
    var code: seq<u8>
    const constants: ValueArray
    var lines: seq<i32>

    /** Every code byte has its line: `lines` is not run-length encoded. */
    ghost predicate Valid()
      reads this
    {
      |code| == |lines|
    }

    /** `Chunk::new`: all three vectors start empty. */
    constructor ()
      ensures Valid() && fresh(constants)
      ensures code == [] && lines == [] && constants.values == []
    {
      code := [];
      constants := new ValueArray();
      lines := [];
    }

    /** `write_chunk`: appends the byte and its line; the constant pool is untouched. */
    method WriteChunk(byte: u8, line: i32)
      requires Valid()
      modifies this
      ensures Valid()
      ensures code == old(code) + [byte] && lines == old(lines) + [line]
      ensures constants.values == old(constants.values)
    {
      code := code + [byte];
      lines := lines + [line];
    }

    /**
     * `add_constant`: appends the value to the pool and returns its index truncated to a
     * byte (`as u8`), which is the true index only while the pool holds at most 256 values.
     */
    method AddConstant(value: Value) returns (index: u8)
      modifies constants
      ensures constants.values == old(constants.values) + [value]
      ensures index as int == (|constants.values| - 1) % 256
      ensures |old(constants.values)| < 256 ==> constants.values[index] == value
      ensures code == old(code) && lines == old(lines)
    {
      constants.WriteValueArray(value);
      index := ((constants.Len() - 1) % 256) as u8;
    }

    /** `chunk_len`: the number of code bytes. */
    function ChunkLen(): (n: nat)
      reads this
      ensures n == |code|
    {
      |code|
    }
  }
}
