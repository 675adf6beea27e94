/** Bytecode: the opcode set and the chunk that stores code, lines and
    constants (src/chunk.rs). */
module Chunks {
  import opened Common
  import opened Values

  /** The closed instruction set, in declaration order. */
  datatype OpCode =
    | OpConstant
    | OpAdd
    | OpSubstract
    | OpMultiply
    | OpDivide
    | OpNegate
    | OpReturn

  /** `op as u8`: the enum discriminant, which follows declaration order. */
  function AsByte(op: OpCode): (b: u8)
    ensures b < 7
  {
    match op
    case OpConstant => 0
    case OpAdd => 1
    case OpSubstract => 2
    case OpMultiply => 3
    case OpDivide => 4
    case OpNegate => 5
    case OpReturn => 6
  }

  /** `From<u8> for OpCode`. The source panics with "Unkown opcode!" on any
      byte that is not a discriminant; here that panic is `None`. */
  function FromByte(b: u8): (r: Option<OpCode>)
    ensures r.Some? <==> b < 7
    ensures r.Some? ==> AsByte(r.value) == b
  {
    if b == AsByte(OpConstant) then Some(OpConstant)
    else if b == AsByte(OpAdd) then Some(OpAdd)
    else if b == AsByte(OpSubstract) then Some(OpSubstract)
    else if b == AsByte(OpMultiply) then Some(OpMultiply)
    else if b == AsByte(OpDivide) then Some(OpDivide)
    else if b == AsByte(OpNegate) then Some(OpNegate)
    else if b == AsByte(OpReturn) then Some(OpReturn)
    else None
  }

  /** Decoding the encoding of an opcode gives that opcode back. */
  lemma DecodeEncode(op: OpCode)
    ensures FromByte(AsByte(op)) == Some(op)
  {
  }

  /** One call that builds a chunk: `write_chunk(byte, line)` or
      `add_constant(value)`. */
  datatype Emission = Write(byte: u8, line: nat) | Constant(value: Value)

  /** The `write_chunk` calls of a history, in call order. */
  function WritesOf(h: seq<Emission>): (ws: seq<Emission>)
    ensures |ws| <= |h|
    ensures forall k :: 0 <= k < |ws| ==> ws[k].Write?
  {
    if h == [] then []
    else WritesOf(h[..|h| - 1]) + (if h[|h| - 1].Write? then [h[|h| - 1]] else [])
  }

  /** The values passed to the `add_constant` calls of a history, in call order. */
  function ConstantsOf(h: seq<Emission>): (cs: seq<Value>)
    ensures |cs| <= |h|
  {
    if h == [] then []
    else ConstantsOf(h[..|h| - 1]) + (if h[|h| - 1].Constant? then [h[|h| - 1].value] else [])
  }

  /** Emitting more never disturbs the writes made before: the writes of
      `h` stay at their indices in `h + more`, and only later calls add to
      the end. */
  lemma {:induction false} WritesPrefix(h: seq<Emission>, more: seq<Emission>)
    ensures WritesOf(h + more) == WritesOf(h) + WritesOf(more)
    decreases |more|
  {
    if more == [] {
      assert h + more == h;
    } else {
      var init := more[..|more| - 1];
      WritesPrefix(h, init);
      assert (h + more)[..|h + more| - 1] == h + init;
    }
  }

  /** Nor the constants added before: they keep their pool indices. */
  lemma {:induction false} ConstantsPrefix(h: seq<Emission>, more: seq<Emission>)
    ensures ConstantsOf(h + more) == ConstantsOf(h) + ConstantsOf(more)
    decreases |more|
  {
    if more == [] {
      assert h + more == h;
    } else {
      var init := more[..|more| - 1];
      ConstantsPrefix(h, init);
      assert (h + more)[..|h + more| - 1] == h + init;
    }
  }

  /** `Chunk`: the instruction bytes, a parallel table of source lines, and
      the constant pool. `emitted` records the construction calls so far. */
  class Chunk {
    var code: seq<u8>
    var lines: seq<nat>
    const constants: ValueArray
    ghost var emitted: seq<Emission>

    /** The bytes and lines are those of the `write_chunk` calls, one entry
        per call, and the pool holds the `add_constant` values. */
    ghost predicate Valid()
      reads this, constants
    {
      && |code| == |lines| == |WritesOf(emitted)|
      && (forall k :: 0 <= k < |code| ==>
            code[k] == WritesOf(emitted)[k].byte && lines[k] == WritesOf(emitted)[k].line)
      && constants.values == Some(ConstantsOf(emitted))
    }

    /** `init_chunk`: empty code, empty lines and an empty, present pool. */
    constructor Init()
      ensures Valid() && fresh(constants)
      ensures code == [] && lines == [] && constants.values == Some([])
      ensures emitted == []
    {
      code := [];
      lines := [];
      constants := new ValueArray.Init();
      emitted := [];
    }

    /** The constant pool as a sequence. */
    function Pool(): (pool: seq<Value>)
      reads this, constants
      requires Valid()
      ensures pool == ConstantsOf(emitted)
    {
      constants.values.value
    }

    /** `count`: the number of `write_chunk` calls since `init_chunk`, which
        is also the length of the line table. */
    function Count(): (n: nat)
      reads this, constants
      requires Valid()
      ensures n == |WritesOf(emitted)| && n == |lines|
    {
      |code|
    }

    /** `get`: decode the byte at `offset` as an opcode. The source panics
        on an index past the end and on a byte that is not an opcode. */
    function Get(offset: nat): (op: OpCode)
      reads this, constants
      requires Valid()
      requires offset < Count() && FromByte(code[offset]).Some?
      ensures AsByte(op) == WritesOf(emitted)[offset].byte
    {
      FromByte(code[offset]).value
    }

    /** `get_line`: the line given to the `write_chunk` call that produced
        the byte at `offset`. The source panics past the end. */
    function GetLine(offset: nat): (line: nat)
      reads this, constants
      requires Valid()
      requires offset < Count()
      ensures line == WritesOf(emitted)[offset].line
    {
      lines[offset]
    }

    /** `get_constant_value`: the value given to the `index`-th
        `add_constant` call. The source panics past the end. */
    function GetConstantValue(index: nat): (v: Value)
      reads this, constants
      requires Valid()
      requires index < constants.Count()
      ensures v == ConstantsOf(emitted)[index]
    {
      constants.Get(index)
    }

    /** `write_chunk`: append the byte and its line; the pool is untouched. */
    method WriteChunk(byte: u8, line: nat)
      requires Valid()
      modifies this
      ensures Valid()
      ensures emitted == old(emitted) + [Write(byte, line)]
      ensures code == old(code) + [byte] && lines == old(lines) + [line]
      ensures Count() == old(Count()) + 1 && GetLine(old(Count())) == line
      ensures constants.values == old(constants.values)
    {
      code := code + [byte];
      lines := lines + [line];
      emitted := emitted + [Write(byte, line)];
      assert emitted[..|emitted| - 1] == old(emitted);
      assert ConstantsOf(emitted) == ConstantsOf(old(emitted));
    }

    /** `add_constant`: append to the pool and return the new constant's
        index, the old pool size; code and lines are untouched. */
    method AddConstant(value: Value) returns (index: nat)
      requires Valid()
      modifies this, constants
      ensures Valid()
      ensures emitted == old(emitted) + [Constant(value)]
      ensures index == old(constants.Count())
      ensures index < constants.Count() && GetConstantValue(index) == value
      ensures code == old(code) && lines == old(lines)
    {
      constants.Write(value);
      emitted := emitted + [Constant(value)];
      assert emitted[..|emitted| - 1] == old(emitted);
      index := constants.Count() - 1;
    }
  }

  /** A chunk built by any sequence of construction calls answers every
      lookup with what was emitted: `get_line(k)` is the line of the k-th
      write, `get_constant_value(i)` the i-th added value. */
  method Assemble(h: seq<Emission>) returns (chunk: Chunk)
    ensures chunk.Valid() && chunk.emitted == h
    ensures chunk.Count() == |WritesOf(h)| && chunk.constants.Count() == |ConstantsOf(h)|
    ensures forall k :: 0 <= k < chunk.Count() ==> chunk.GetLine(k) == WritesOf(h)[k].line
    ensures forall i :: 0 <= i < chunk.constants.Count() ==> chunk.GetConstantValue(i) == ConstantsOf(h)[i]
  {
    chunk := new Chunk.Init();
    var i := 0;
    while i < |h|
      invariant 0 <= i <= |h|
      invariant chunk.Valid() && chunk.emitted == h[..i]
      modifies chunk, chunk.constants
    {
      assert h[..i + 1] == h[..i] + [h[i]];
      match h[i] {
        case Write(byte, line) =>
          chunk.WriteChunk(byte, line);
        case Constant(value) =>
          var _ := chunk.AddConstant(value);
      }
      i := i + 1;
    }
    assert h[..i] == h;
  }
}
