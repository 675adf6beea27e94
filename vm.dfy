/** The stack virtual machine (src/vm.rs). */
module Vm {
  import opened Common
  import opened Values
  import opened Chunks

  /** Capacity of the value stack. */
  const STACK_MAX: nat := 256

  /** The outcome the VM reports to its caller. */
  datatype InterpretResult = InterpretOk | InterpretCompileError | InterpretRuntimeError

  /** The floating-point operations the instructions apply. IEEE-754
      arithmetic is not modelled: every property below holds for any choice
      of these functions. */
  datatype Arith = Arith(
    add: (Value, Value) -> Value,
    sub: (Value, Value) -> Value,
    mul: (Value, Value) -> Value,
    div: (Value, Value) -> Value,
    neg: Value -> Value)

  /** The panics that can end `run`: an index past the code, a byte that is
      not an opcode, a constant index past the pool, a pop from the empty
      stack, a push onto the full stack. */
  datatype Fault =
    | CodeIndexOutOfRange
    | UnknownOpcode(byte: u8)
    | ConstantIndexOutOfRange
    | StackUnderflow
    | StackOverflow

  /** What `run` reads from its chunk: the code bytes and the constant pool. */
  datatype Program = Program(code: seq<u8>, pool: seq<Value>)

  /** The VM's mutable state: the instruction offset and the live part of
      the stack (slots below `stack_top`, bottom first). */
  datatype Machine = Machine(offset: nat, stack: seq<Value>)

  /** One pass through the loop of `run`: go on, stop at `OP_RETURN` with
      the value it pops (and prints), or panic. */
  datatype StepResult = Next(machine: Machine) | Halt(printed: Value, machine: Machine) | Fault(fault: Fault)

  /** The end of `run`: it returns, reporting the value `OP_RETURN`
      printed, or the process panics. */
  datatype RunOutcome = Finished(result: InterpretResult, printed: Value, final: Machine) | Panicked(fault: Fault)

  /** The opcode stored at `offset`, if the offset is inside the code and
      its byte decodes. */
  function OpAt(p: Program, offset: nat): Option<OpCode>
  {
    if offset < |p.code| then FromByte(p.code[offset]) else None
  }

  /** Bytes an instruction occupies: the opcode and, for `OP_CONSTANT`, its
      operand. */
  function Width(op: OpCode): nat
  {
    if op == OpConstant then 2 else 1
  }

  /** Values an instruction pops. */
  function Pops(op: OpCode): nat
  {
    match op
    case OpConstant => 0
    case OpNegate => 1
    case OpReturn => 1
    case _ => 2
  }

  /** Values an instruction pushes. */
  function Pushes(op: OpCode): nat
  {
    if op == OpReturn then 0 else 1
  }

  /** The closure `binary_operator` receives for each arithmetic opcode. */
  function Binary(f: Arith, op: OpCode): (Value, Value) -> Value
    requires op in {OpAdd, OpSubstract, OpMultiply, OpDivide}
  {
    match op
    case OpAdd => f.add
    case OpSubstract => f.sub
    case OpMultiply => f.mul
    case OpDivide => f.div
  }

  /** One iteration of the loop in `run`: fetch and decode at the offset
      (`read_byte`), then execute. An instruction that completes moves the
      offset forward, within the code, and keeps the stack within capacity. */
  function Step(p: Program, f: Arith, m: Machine): (r: StepResult)
    requires |m.stack| <= STACK_MAX
    ensures !r.Fault? ==> m.offset < r.machine.offset <= |p.code| && |r.machine.stack| <= STACK_MAX
  {
    if m.offset >= |p.code| then Fault(CodeIndexOutOfRange)
    else
      match FromByte(p.code[m.offset])
      case None => Fault(UnknownOpcode(p.code[m.offset]))
      case Some(op) =>
        var at := m.offset + 1;
        var n := |m.stack|;
        match op
        case OpConstant =>
          if at >= |p.code| then Fault(CodeIndexOutOfRange)
          else if FromByte(p.code[at]).None? then Fault(UnknownOpcode(p.code[at]))
          else
            var index := AsByte(FromByte(p.code[at]).value) as nat;
            if index >= |p.pool| then Fault(ConstantIndexOutOfRange)
            else if n >= STACK_MAX then Fault(StackOverflow)
            else Next(Machine(at + 1, m.stack + [p.pool[index]]))
        case OpNegate =>
          if n < 1 then Fault(StackUnderflow)
          else Next(Machine(at, m.stack[..n - 1] + [f.neg(m.stack[n - 1])]))
        case OpReturn =>
          if n < 1 then Fault(StackUnderflow)
          else Halt(m.stack[n - 1], Machine(at, m.stack[..n - 1]))
        case _ =>
          if n < 2 then Fault(StackUnderflow)
          else Next(Machine(at, m.stack[..n - 2] + [Binary(f, op)(m.stack[n - 2], m.stack[n - 1])]))
  }

  /** The stack protocol of one instruction: one that completes advances
      the offset past itself (two bytes for `OP_CONSTANT`, one otherwise),
      replaces its operands on top of the stack by its results and leaves
      everything below them untouched; `OP_RETURN` is the only instruction
      that stops, printing the value it pops; a pop from too small a stack
      is the stack-underflow panic. */
  lemma StepEffect(p: Program, f: Arith, m: Machine)
    requires |m.stack| <= STACK_MAX
    ensures var r := Step(p, f, m);
      !r.Fault? ==>
        && OpAt(p, m.offset).Some?
        && var op := OpAt(p, m.offset).value;
        && r.machine.offset == m.offset + Width(op)
        && Pops(op) <= |m.stack|
        && |r.machine.stack| == |m.stack| - Pops(op) + Pushes(op)
        && r.machine.stack[..|m.stack| - Pops(op)] == m.stack[..|m.stack| - Pops(op)]
    ensures var r := Step(p, f, m);
      r.Halt? <==> OpAt(p, m.offset) == Some(OpReturn) && |m.stack| >= 1
    ensures var r := Step(p, f, m);
      r.Halt? ==> r.printed == m.stack[|m.stack| - 1]
    ensures var r := Step(p, f, m);
      r.Fault? && r.fault == StackUnderflow <==>
        && OpAt(p, m.offset).Some? && OpAt(p, m.offset).value != OpConstant
        && |m.stack| < Pops(OpAt(p, m.offset).value)
  {
  }

  /** `run`: repeat `Step` until `OP_RETURN` or a panic. Every completed
      instruction moves the offset forward, so `|code| - offset` decreases;
      when `run` returns, the offset is past where it started and within
      the code, and the stack within capacity. */
  function Execute(p: Program, f: Arith, m: Machine): (r: RunOutcome)
    requires |m.stack| <= STACK_MAX
    ensures r.Finished? ==> m.offset < r.final.offset <= |p.code| && |r.final.stack| <= STACK_MAX
    decreases |p.code| - m.offset
  {
    match Step(p, f, m)
    case Next(m') => Execute(p, f, m')
    case Halt(v, m') => Finished(InterpretOk, v, m')
    case Fault(e) => Panicked(e)
  }

  /** The number of loop iterations `run` begins: every one but the last
      completes an instruction, so from offset 0 there are at most
      `count() + 1` of them, the last being `OP_RETURN` or a panicking fetch. */
  function Iterations(p: Program, f: Arith, m: Machine): (n: nat)
    requires |m.stack| <= STACK_MAX && m.offset <= |p.code|
    ensures 1 <= n <= |p.code| - m.offset + 1
    decreases |p.code| - m.offset
  {
    match Step(p, f, m)
    case Next(m') => 1 + Iterations(p, f, m')
    case _ => 1
  }

  /** `run` has no return but the one after `OP_RETURN`: whenever it
      returns, it reports `InterpretOk`, never `InterpretRuntimeError`. */
  lemma {:induction false} RunOnlyReturnsOk(p: Program, f: Arith, m: Machine)
    requires |m.stack| <= STACK_MAX
    ensures Execute(p, f, m).Finished? ==> Execute(p, f, m).result == InterpretOk
    decreases |p.code| - m.offset
  {
    match Step(p, f, m)
    case Next(m') => RunOnlyReturnsOk(p, f, m');
    case Halt(_, _) =>
    case Fault(_) =>
  }

  /** An arithmetic or return instruction first in the code, run on the
      empty stack, ends in a stack-underflow panic, never in a result. */
  lemma EmptyStackUnderflow(p: Program, f: Arith)
    requires |p.code| > 0 && OpAt(p, 0).Some? && OpAt(p, 0).value !in {OpConstant, OpNegate}
    ensures Execute(p, f, Machine(0, [])) == Panicked(StackUnderflow)
  {
  }

  /** A completed instruction hands its new state to the next iteration. */
  lemma ExecuteNext(p: Program, f: Arith, m: Machine, m': Machine)
    requires |m.stack| <= STACK_MAX && Step(p, f, m) == Next(m')
    ensures Execute(p, f, m) == Execute(p, f, m')
  {
  }

  /** `OP_CONSTANT` with operand `i` pushes `pool[i]`. */
  lemma ConstantStep(p: Program, f: Arith, m: Machine)
    requires |m.stack| < STACK_MAX && m.offset + 1 < |p.code|
    requires p.code[m.offset] == AsByte(OpConstant)
    requires p.code[m.offset + 1] < 7 && p.code[m.offset + 1] as nat < |p.pool|
    ensures Step(p, f, m) == Next(Machine(m.offset + 2, m.stack + [p.pool[p.code[m.offset + 1] as nat]]))
  {
    DecodeEncode(OpConstant);
  }

  /** An arithmetic opcode replaces the two top values by its result. */
  lemma BinaryStep(p: Program, f: Arith, m: Machine, op: OpCode)
    requires op in {OpAdd, OpSubstract, OpMultiply, OpDivide}
    requires 2 <= |m.stack| <= STACK_MAX && m.offset < |p.code| && p.code[m.offset] == AsByte(op)
    ensures var n := |m.stack|;
      Step(p, f, m) == Next(Machine(m.offset + 1, m.stack[..n - 2] + [Binary(f, op)(m.stack[n - 2], m.stack[n - 1])]))
  {
    DecodeEncode(op);
  }

  /** `OP_NEGATE` replaces the top value by its negation. */
  lemma NegateStep(p: Program, f: Arith, m: Machine)
    requires 1 <= |m.stack| <= STACK_MAX && m.offset < |p.code| && p.code[m.offset] == AsByte(OpNegate)
    ensures var n := |m.stack|;
      Step(p, f, m) == Next(Machine(m.offset + 1, m.stack[..n - 1] + [f.neg(m.stack[n - 1])]))
  {
    DecodeEncode(OpNegate);
  }

  /** `OP_RETURN` pops the top value, prints it and ends `run`. */
  lemma ReturnStep(p: Program, f: Arith, m: Machine)
    requires 1 <= |m.stack| <= STACK_MAX && m.offset < |p.code| && p.code[m.offset] == AsByte(OpReturn)
    ensures var n := |m.stack|;
      Execute(p, f, m) == Finished(InterpretOk, m.stack[n - 1], Machine(m.offset + 1, m.stack[..n - 1]))
  {
    DecodeEncode(OpReturn);
  }

  /** The chunk for `-((a + b) / c)`: push constant 0, push constant 1, add,
      push constant 2, divide, negate, return. */
  function ArithmeticProgram(a: Value, b: Value, c: Value): Program {
    Program([0, 0, 0, 1, 1, 0, 2, 4, 5, 6], [a, b, c])
  }

  /** The two first instructions of `ArithmeticProgram` push `a` and `b`. */
  lemma ArithmeticOperands(a: Value, b: Value, c: Value, f: Arith)
    ensures Execute(ArithmeticProgram(a, b, c), f, Machine(0, []))
            == Execute(ArithmeticProgram(a, b, c), f, Machine(4, [a, b]))
  {
    var p := ArithmeticProgram(a, b, c);
    ConstantStep(p, f, Machine(0, []));
    ExecuteNext(p, f, Machine(0, []), Machine(2, [a]));
    ConstantStep(p, f, Machine(2, [a]));
    ExecuteNext(p, f, Machine(2, [a]), Machine(4, [a, b]));
  }

  /** Then `OP_ADD` replaces them by `add(a, b)` and `c` is pushed. */
  lemma ArithmeticSum(a: Value, b: Value, c: Value, f: Arith)
    ensures Execute(ArithmeticProgram(a, b, c), f, Machine(4, [a, b]))
            == Execute(ArithmeticProgram(a, b, c), f, Machine(7, [f.add(a, b), c]))
  {
    var p := ArithmeticProgram(a, b, c);
    BinaryStep(p, f, Machine(4, [a, b]), OpAdd);
    ExecuteNext(p, f, Machine(4, [a, b]), Machine(5, [f.add(a, b)]));
    ConstantStep(p, f, Machine(5, [f.add(a, b)]));
    ExecuteNext(p, f, Machine(5, [f.add(a, b)]), Machine(7, [f.add(a, b), c]));
  }

  /** Then `OP_DIVIDE`, `OP_NEGATE` and `OP_RETURN`. */
  lemma ArithmeticResult(a: Value, b: Value, c: Value, f: Arith)
    ensures Execute(ArithmeticProgram(a, b, c), f, Machine(7, [f.add(a, b), c]))
            == Finished(InterpretOk, f.neg(f.div(f.add(a, b), c)), Machine(10, []))
  {
    var p := ArithmeticProgram(a, b, c);
    var ab := f.add(a, b);
    var abc := f.div(ab, c);
    BinaryStep(p, f, Machine(7, [ab, c]), OpDivide);
    ExecuteNext(p, f, Machine(7, [ab, c]), Machine(8, [abc]));
    NegateStep(p, f, Machine(8, [abc]));
    ExecuteNext(p, f, Machine(8, [abc]), Machine(9, [f.neg(abc)]));
    ReturnStep(p, f, Machine(9, [f.neg(abc)]));
  }

  /** Running `ArithmeticProgram` returns `InterpretOk` after printing
      `neg(div(add(a, b), c))`, with the offset past the last byte and the
      stack empty again. */
  lemma ArithmeticExample(a: Value, b: Value, c: Value, f: Arith)
    ensures Execute(ArithmeticProgram(a, b, c), f, Machine(0, []))
            == Finished(InterpretOk, f.neg(f.div(f.add(a, b), c)), Machine(10, []))
  {
    ArithmeticOperands(a, b, c, f);
    ArithmeticSum(a, b, c, f);
    ArithmeticResult(a, b, c, f);
  }

  /** `VM`: the chunk being run, the offset of the next byte to fetch, a
      fixed-size value stack and the index of its first free slot. */
  class VM {
    var chunk: Option<Chunk>
    var offset: nat
    const stack: array<Value>
    var stackTop: nat

    /** The objects of the loaded chunk. */
    ghost function ChunkObjects(): set<object>
      reads this
    {
      if chunk.Some? then {chunk.value, chunk.value.constants} else {}
    }

    ghost predicate Valid()
      reads this, ChunkObjects()
    {
      && stack.Length == STACK_MAX
      && stackTop <= STACK_MAX
      && (chunk.Some? ==> chunk.value.Valid())
    }

    /** The state `run` works on. */
    function State(): (m: Machine)
      reads this, stack, ChunkObjects()
      requires Valid()
      ensures |m.stack| == stackTop <= STACK_MAX
    {
      Machine(offset, stack[..stackTop])
    }

    /** The loaded chunk as `run` sees it. */
    function Image(): Program
      reads this, ChunkObjects()
      requires Valid() && chunk.Some?
    {
      Program(chunk.value.code, chunk.value.Pool())
    }

    /** `VM::new`: no chunk, offset 0, an empty stack of zeros. */
    constructor New()
      ensures Valid() && fresh(stack)
      ensures chunk.None? && offset == 0 && stackTop == 0
      ensures forall i :: 0 <= i < stack.Length ==> stack[i] == Zero
    {
      chunk := None;
      offset := 0;
      stack := new Value[STACK_MAX](_ => Zero);
      stackTop := 0;
    }

    /** `push`: store at `stack_top` and move it up; no other slot changes.
        The source panics on a full stack. */
    method Push(value: Value)
      requires Valid() && stackTop < STACK_MAX
      modifies this`stackTop, stack
      ensures Valid()
      ensures stackTop == old(stackTop) + 1 && stack[old(stackTop)] == value
      ensures forall i :: 0 <= i < stack.Length && i != old(stackTop) ==> stack[i] == old(stack[i])
      ensures State().stack == old(State().stack) + [value]
    {
      stack[stackTop] := value;
      stackTop := stackTop + 1;
    }

    /** `pop`: move `stack_top` down and return the slot it now indexes; the
        array is unchanged. The source panics on an empty stack. */
    method Pop() returns (value: Value)
      requires Valid() && stackTop > 0
      modifies this`stackTop
      ensures Valid()
      ensures stackTop == old(stackTop) - 1 && value == stack[stackTop]
      ensures stack[..] == old(stack[..])
      ensures old(State().stack) == State().stack + [value]
    {
      stackTop := stackTop - 1;
      value := stack[stackTop];
    }

    /** `binary_operator`: pop the right operand, then the left, push
        `f(left, right)`. The stack shrinks by one and only the slot of the
        left operand changes. */
    method BinaryOperator(f: (Value, Value) -> Value)
      requires Valid() && stackTop >= 2
      modifies this`stackTop, stack
      ensures Valid()
      ensures stackTop == old(stackTop) - 1
      ensures stack[stackTop - 1] == f(old(stack[stackTop - 2]), old(stack[stackTop - 1]))
      ensures forall i :: 0 <= i < stack.Length && i != stackTop - 1 ==> stack[i] == old(stack[i])
      ensures State().stack == old(State().stack[..stackTop - 2]) + [f(old(stack[stackTop - 2]), old(stack[stackTop - 1]))]
    {
      var b := Pop();
      var a := Pop();
      var r := f(a, b);
      Push(r);
    }

    /** `read_byte`: decode the opcode at the offset and step past it. The
        source panics without a chunk, past the code and on a byte that is
        not an opcode. */
    method ReadByte() returns (op: OpCode)
      requires Valid() && chunk.Some?
      requires offset < chunk.value.Count() && FromByte(chunk.value.code[offset]).Some?
      modifies this`offset
      ensures Valid()
      ensures offset == old(offset) + 1
      ensures AsByte(op) == chunk.value.code[old(offset)]
    {
      op := chunk.value.Get(offset);
      offset := offset + 1;
    }

    /** `read_constant`: decode the operand byte through `Chunk::get` (so
        it must be an opcode byte, below 7), step past it and return that
        pool entry. */
    method ReadConstant() returns (value: Value)
      requires Valid() && chunk.Some?
      requires offset < chunk.value.Count() && FromByte(chunk.value.code[offset]).Some?
      requires chunk.value.code[offset] as nat < |chunk.value.Pool()|
      modifies this`offset
      ensures Valid()
      ensures offset == old(offset) + 1
      ensures value == chunk.value.Pool()[chunk.value.code[old(offset)]]
    {
      var index := chunk.value.Get(offset);
      offset := offset + 1;
      value := chunk.value.GetConstantValue(AsByte(index) as nat);
    }

    /** The `OP_CONSTANT` arm of `run`, entered once `read_byte` has
        stepped past the opcode at `start`. */
    method ExecuteConstant(ghost start: nat, f: Arith) returns (r: StepResult)
      requires Valid() && chunk.Some? && offset == start + 1
      requires start < chunk.value.Count() && chunk.value.code[start] == AsByte(OpConstant)
      modifies this`offset, this`stackTop, stack
      ensures Valid()
      ensures r == Step(old(Image()), f, Machine(start, old(State().stack)))
      ensures !r.Fault? ==> State() == r.machine
    {
      DecodeEncode(OpConstant);
      var c := chunk.value;
      if offset >= c.Count() {
        return Fault(CodeIndexOutOfRange);
      }
      var operand := c.code[offset];
      if FromByte(operand).None? {
        return Fault(UnknownOpcode(operand));
      }
      DecodeEncode(FromByte(operand).value);
      if operand as nat >= |c.Pool()| {
        return Fault(ConstantIndexOutOfRange);
      }
      var constant := ReadConstant();
      if stackTop >= STACK_MAX {
        return Fault(StackOverflow);
      }
      Push(constant);
      r := Next(State());
    }

    /** The arms of `run` for the four arithmetic opcodes, each handing its
        closure to `binary_operator`. */
    method ExecuteBinary(ghost start: nat, op: OpCode, f: Arith) returns (r: StepResult)
      requires op in {OpAdd, OpSubstract, OpMultiply, OpDivide}
      requires Valid() && chunk.Some? && offset == start + 1
      requires start < chunk.value.Count() && chunk.value.code[start] == AsByte(op)
      modifies this`stackTop, stack
      ensures Valid()
      ensures r == Step(old(Image()), f, Machine(start, old(State().stack)))
      ensures !r.Fault? ==> State() == r.machine
    {
      DecodeEncode(op);
      if stackTop < 2 {
        return Fault(StackUnderflow);
      }
      BinaryOperator(Binary(f, op));
      r := Next(State());
    }

    /** The `OP_NEGATE` arm of `run`. */
    method ExecuteNegate(ghost start: nat, f: Arith) returns (r: StepResult)
      requires Valid() && chunk.Some? && offset == start + 1
      requires start < chunk.value.Count() && chunk.value.code[start] == AsByte(OpNegate)
      modifies this`stackTop, stack
      ensures Valid()
      ensures r == Step(old(Image()), f, Machine(start, old(State().stack)))
      ensures !r.Fault? ==> State() == r.machine
    {
      DecodeEncode(OpNegate);
      if stackTop < 1 {
        return Fault(StackUnderflow);
      }
      var value := Pop();
      Push(f.neg(value));
      r := Next(State());
    }

    /** The `OP_RETURN` arm of `run`: pop, print, and leave the loop. */
    method ExecuteReturn(ghost start: nat, f: Arith) returns (r: StepResult)
      requires Valid() && chunk.Some? && offset == start + 1
      requires start < chunk.value.Count() && chunk.value.code[start] == AsByte(OpReturn)
      modifies this`stackTop
      ensures Valid()
      ensures r == Step(old(Image()), f, Machine(start, old(State().stack)))
      ensures !r.Fault? ==> State() == r.machine
    {
      DecodeEncode(OpReturn);
      if stackTop < 1 {
        return Fault(StackUnderflow);
      }
      var value := Pop();
      r := Halt(value, State());
    }

    /** One pass through the loop of `run`: fetch with `read_byte`, then
        dispatch on the opcode. It computes `Step` on the old state and,
        unless it panics, leaves the machine in the next state. */
    method ExecuteInstruction(f: Arith) returns (r: StepResult)
      requires Valid() && chunk.Some?
      modifies this`offset, this`stackTop, stack
      ensures Valid()
      ensures r == Step(old(Image()), f, old(State()))
      ensures !r.Fault? ==> State() == r.machine
    {
      var c := chunk.value;
      if offset >= c.Count() {
        return Fault(CodeIndexOutOfRange);
      }
      var byte := c.code[offset];
      if FromByte(byte).None? {
        return Fault(UnknownOpcode(byte));
      }
      var start := offset;
      var op := ReadByte();
      match op {
        case OpConstant => r := ExecuteConstant(start, f);
        case OpNegate => r := ExecuteNegate(start, f);
        case OpReturn => r := ExecuteReturn(start, f);
        case _ => r := ExecuteBinary(start, op, f);
      }
    }

    /** `run`: the fetch, decode and execute loop, over the chunk that must
        already be loaded. It computes `Execute` on the old state; when it
        returns, the machine is left in the final state. */
    method Run(f: Arith) returns (r: RunOutcome)
      requires Valid() && chunk.Some?
      modifies this`offset, this`stackTop, stack
      ensures Valid()
      ensures r == Execute(old(Image()), f, old(State()))
      ensures r.Finished? ==> State() == r.final
    {
      var c := chunk.value;
      var p := Image();
      ghost var target := Execute(p, f, State());
      while true
        invariant Valid() && chunk == Some(c) && Image() == p
        invariant Execute(p, f, State()) == target
        decreases |c.code| - offset
      {
        var step := ExecuteInstruction(f);
        match step {
          case Next(_) =>
          case Halt(value, _) =>
            return Finished(InterpretOk, value, State());
          case Fault(e) =>
            return Panicked(e);
        }
      }
    }
  }
}
