/**
 * The virtual machine (vm.rs): a fixed 256-slot operand stack and the instruction index `ip`,
 * driven by a fetch-decode-execute loop over one chunk.
 *
 * The loop is specified by `Step` and `Exec`, pure functions over a `Machine` value (the
 * VM's ip, stack contents and stack_top). Everything the source leaves to a Rust panic (an
 * index past the end of `code`, of the constant pool or of the stack, and stack_top going
 * below zero) is the `Fault` outcome of `Step`; the VM's methods require that it does not
 * happen.
 */
module VirtualMachine {
  import opened Base
  import opened Values
  import opened Chunks

  /** `STACK_MAX`: the capacity of the operand stack. */
  const STACK_MAX: nat := 256

  /** `InterpretResult`. */
  datatype InterpretResult = InterpretOk | InterpretCompileError | InterpretRuntimeError

  /** The operator a `binary_op!` expansion applies. */
  datatype BinaryOperator = Add | Subtract | Multiply | Divide

  function Apply(ops: FloatOps, op: BinaryOperator, a: Value, b: Value): Value
  {
    match op
    case Add => ops.add(a, b)
    case Subtract => ops.sub(a, b)
    case Multiply => ops.mul(a, b)
    case Divide => ops.div(a, b)
  }

  /** The VM's mutable state as a value: `ip`, the whole stack array, and `stack_top`. */
  datatype Machine = Machine(ip: nat, stack: seq<Value>, top: nat)

  /** The stack array has its fixed size and stack_top never passes it. */
  ghost predicate WellSized(m: Machine)
  {
    |m.stack| == STACK_MAX && m.top <= STACK_MAX
  }

  /** `push`: writes the slot at stack_top and bumps stack_top. */
  function Pushed(m: Machine, v: Value): (r: Machine)
    requires m.top < |m.stack|
    ensures r.ip == m.ip && r.top == m.top + 1 && |r.stack| == |m.stack| && r.stack[m.top] == v
    ensures forall k :: 0 <= k < |m.stack| && k != m.top ==> r.stack[k] == m.stack[k]
  {
    m.(stack := m.stack[m.top := v], top := m.top + 1)
  }

  /** `pop`: lowers stack_top and reads the slot it now points at. */
  function Popped(m: Machine): (r: (Value, Machine))
    requires 0 < m.top <= |m.stack|
    ensures r.1.ip == m.ip && r.1.stack == m.stack && r.1.top == m.top - 1
    ensures r.0 == r.1.stack[r.1.top]
  {
    (m.stack[m.top - 1], m.(top := m.top - 1))
  }

  /** Popping right after pushing `v` gives back `v` and the old stack_top. */
  lemma PopAfterPush(m: Machine, v: Value)
    requires m.top < |m.stack|
    ensures Popped(Pushed(m, v)).0 == v
    ensures Popped(Pushed(m, v)).1 == m.(stack := m.stack[m.top := v])
  {
  }

  /** `binary_op!`: pop `b`, then pop `a`, then push `a op b`. */
  function BinaryOpSpec(ops: FloatOps, op: BinaryOperator, m: Machine): (r: Machine)
    requires 2 <= m.top <= |m.stack|
    ensures r.ip == m.ip && r.top == m.top - 1 && |r.stack| == |m.stack|
  {
    var (b, m1) := Popped(m);
    var (a, m2) := Popped(m1);
    Pushed(m2, Apply(ops, op, a, b))
  }

  /**
   * The net effect of a binary operation: the slot two below the old top receives
   * `a op b` for `a` the lower and `b` the upper operand, stack_top drops by exactly one,
   * and every other slot is unchanged.
   */
  lemma BinaryOpEffect(ops: FloatOps, op: BinaryOperator, m: Machine)
    requires 2 <= m.top <= |m.stack|
    ensures var r := BinaryOpSpec(ops, op, m);
      r.ip == m.ip && r.top == m.top - 1 &&
      r.stack == m.stack[m.top - 2 := Apply(ops, op, m.stack[m.top - 2], m.stack[m.top - 1])]
  {
  }

  /** The operator of each arithmetic opcode. */
  function BinaryOperatorOf(op: OpCode): Option<BinaryOperator>
  {
    match op
    case OpAdd => Some(Add)
    case OpSubstract => Some(Subtract)
    case OpMultiply => Some(Multiply)
    case OpDivide => Some(Divide)
    case _ => None
  }

  /** One iteration of `run`'s loop. */
  datatype StepResult =
    | Continue(next: Machine)
    | Halt(result: InterpretResult, final: Machine)
    | Fault

  /**
   * One iteration of the loop in `run`: fetch the byte at ip (`read_byte`), decode it and
   * execute it. `Fault` is a panic of the source.
   */
  function Step(code: seq<u8>, constants: seq<Value>, ops: FloatOps, m: Machine): (r: StepResult)
    requires WellSized(m)
    ensures r.Continue? ==> WellSized(r.next) && m.ip < r.next.ip <= |code|
    ensures r.Continue? ==> r.next.ip == m.ip + InstructionLength(code[m.ip])
    ensures r.Halt? ==> WellSized(r.final) && r.final.ip == m.ip + 1 && r.result != InterpretRuntimeError
    ensures r.Fault? <==> m.ip >= |code| || StepFaults(code, constants, m)
  {
    if m.ip >= |code| then Fault
    else
      var m1 := m.(ip := m.ip + 1);
      match Decode(code[m.ip])
      case None => Halt(InterpretCompileError, m1)
      case Some(OpConstant) =>
        if m1.ip >= |code| || code[m1.ip] as nat >= |constants| || m1.top >= STACK_MAX then Fault
        else Continue(Pushed(m1.(ip := m1.ip + 1), constants[code[m1.ip]]))
      case Some(OpReturn) =>
        if m1.top == 0 then Fault else Halt(InterpretOk, Popped(m1).1)
      case Some(OpNegate) =>
        if m1.top == 0 then Fault
        else
          var (v, m2) := Popped(m1);
          Continue(Pushed(m2, ops.neg(v)))
      case Some(op) =>
        if m1.top < 2 then Fault else Continue(BinaryOpSpec(ops, BinaryOperatorOf(op).value, m1))
  }

  /**
   * When the instruction at a valid ip panics: a constant instruction whose operand byte is
   * missing, whose index is past the pool, or that would push onto a full stack; or a pop
   * from a stack holding fewer values than the instruction takes.
   */
  ghost predicate StepFaults(code: seq<u8>, constants: seq<Value>, m: Machine)
    requires m.ip < |code|
  {
    match Decode(code[m.ip])
    case None => false
    case Some(OpConstant) =>
      m.ip + 1 >= |code| || code[m.ip + 1] as nat >= |constants| || m.top >= STACK_MAX
    case Some(OpReturn) => m.top == 0
    case Some(OpNegate) => m.top == 0
    case Some(_) => m.top < 2
  }

  /** The whole of `run`. */
  datatype Outcome = Finished(result: InterpretResult, final: Machine) | Panicked

  /**
   * `run`: iterate `Step` until it halts or panics. The loop terminates because every
   * iteration that goes on strictly increases ip, which never passes the end of the code.
   * `InterpretRuntimeError` is never the result.
   */
  function Exec(code: seq<u8>, constants: seq<Value>, ops: FloatOps, m: Machine): (r: Outcome)
    requires WellSized(m)
    ensures r.Finished? ==> r.result != InterpretRuntimeError && WellSized(r.final)
    ensures r.Finished? ==> m.ip < r.final.ip <= |code|
    decreases |code| - m.ip
  {
    match Step(code, constants, ops, m)
    case Fault => Panicked
    case Halt(result, final) => Finished(result, final)
    case Continue(next) => Exec(code, constants, ops, next)
  }

  /** The number of iterations `run` performs from `m`, the last one included. */
  function Iterations(code: seq<u8>, constants: seq<Value>, ops: FloatOps, m: Machine): (n: nat)
    requires WellSized(m)
    ensures Exec(code, constants, ops, m).Finished? ==> 1 <= n <= |code| - m.ip
    decreases |code| - m.ip
  {
    match Step(code, constants, ops, m)
    case Continue(next) => 1 + Iterations(code, constants, ops, next)
    case _ => 1
  }

  /** An undecodable byte at ip ends `run` at once with a compile error, ip one past it. */
  lemma UnknownOpcodeStops(code: seq<u8>, constants: seq<Value>, ops: FloatOps, m: Machine)
    requires WellSized(m) && m.ip < |code| && Decode(code[m.ip]).None?
    ensures Exec(code, constants, ops, m) == Finished(InterpretCompileError, m.(ip := m.ip + 1))
    ensures Iterations(code, constants, ops, m) == 1
  {
  }

  /** `OpReturn` pops one value and ends `run` with `InterpretOk`. */
  lemma ReturnStops(code: seq<u8>, constants: seq<Value>, ops: FloatOps, m: Machine)
    requires WellSized(m) && m.ip < |code| && Decode(code[m.ip]) == Some(OpReturn) && 0 < m.top
    ensures Exec(code, constants, ops, m) == Finished(InterpretOk, m.(ip := m.ip + 1, top := m.top - 1))
  {
  }

  /**
   * `OpConstant` reads its operand byte at ip+1, pushes the constant it indexes and moves ip
   * past the operand.
   */
  lemma ConstantPushes(code: seq<u8>, constants: seq<Value>, ops: FloatOps, m: Machine)
    requires WellSized(m) && m.ip + 1 < |code| && Decode(code[m.ip]) == Some(OpConstant)
    requires code[m.ip + 1] as nat < |constants| && m.top < STACK_MAX
    ensures Step(code, constants, ops, m) ==
      Continue(Machine(m.ip + 2, m.stack[m.top := constants[code[m.ip + 1]]], m.top + 1))
  {
  }

  /** `OpNegate` keeps stack_top and replaces the top slot by its negation. */
  lemma NegateReplacesTop(code: seq<u8>, constants: seq<Value>, ops: FloatOps, m: Machine)
    requires WellSized(m) && m.ip < |code| && Decode(code[m.ip]) == Some(OpNegate) && 0 < m.top
    ensures Step(code, constants, ops, m) ==
      Continue(Machine(m.ip + 1, m.stack[m.top - 1 := ops.neg(m.stack[m.top - 1])], m.top))
  {
  }

  /** An arithmetic opcode applies its operator to the two topmost values, lower one first. */
  lemma ArithmeticCombinesTopTwo(code: seq<u8>, constants: seq<Value>, ops: FloatOps, m: Machine)
    requires WellSized(m) && m.ip < |code| && 2 <= m.top
    requires Decode(code[m.ip]).Some? && BinaryOperatorOf(Decode(code[m.ip]).value).Some?
    ensures var op := BinaryOperatorOf(Decode(code[m.ip]).value).value;
      Step(code, constants, ops, m) ==
        Continue(Machine(m.ip + 1,
                         m.stack[m.top - 2 := Apply(ops, op, m.stack[m.top - 2], m.stack[m.top - 1])],
                         m.top - 1))
  {
    BinaryOpEffect(ops, BinaryOperatorOf(Decode(code[m.ip]).value).value, m.(ip := m.ip + 1));
  }

  /**
   * The chunk `OpConstant 0; OpConstant 1; OpAdd; OpReturn` leaves `a + b` in the slot just
   * above the values that were already on the stack, and returns with the old stack_top.
   */
  lemma AddProgram(ops: FloatOps, a: Value, b: Value, m: Machine)
    requires WellSized(m) && m.ip == 0 && m.top + 2 <= STACK_MAX
    ensures var code := [Encode(OpConstant), 0, Encode(OpConstant), 1, Encode(OpAdd), Encode(OpReturn)];
      var r := Exec(code, [a, b], ops, m);
      r.Finished? && r.result == InterpretOk && r.final.ip == 6 &&
      r.final.top == m.top && r.final.stack[m.top] == ops.add(a, b) &&
      Iterations(code, [a, b], ops, m) == 4
  {
    var code: seq<u8> := [Encode(OpConstant), 0, Encode(OpConstant), 1, Encode(OpAdd), Encode(OpReturn)];
    var m1 := Pushed(m.(ip := 2), a);
    var m2 := Pushed(m1.(ip := 4), b);
    var m3 := Machine(5, m2.stack[m.top := ops.add(a, b)], m.top + 1);
    assert Step(code, [a, b], ops, m) == Continue(m1);
    assert Step(code, [a, b], ops, m1) == Continue(m2);
    ArithmeticCombinesTopTwo(code, [a, b], ops, m2);
    assert Step(code, [a, b], ops, m2) == Continue(m3);
    assert Step(code, [a, b], ops, m3) == Halt(InterpretOk, m3.(ip := 6, top := m.top));
    assert Exec(code, [a, b], ops, m2) == Exec(code, [a, b], ops, m3);
    assert Exec(code, [a, b], ops, m1) == Exec(code, [a, b], ops, m2);
    assert Iterations(code, [a, b], ops, m2) == 2;
  }

  /**
   * Because `interpret` never resets the stack, a chunk `OpConstant 0; OpConstant 0;
   * OpReturn` leaves one more value behind on every run: started with stack_top t it ends
   * with t + 1, and started with a stack one slot short of full it panics.
   */
  lemma LeftoverValuesAccumulate(ops: FloatOps, c: Value, m: Machine)
    requires WellSized(m) && m.ip == 0
    ensures var code := [Encode(OpConstant), 0, Encode(OpConstant), 0, Encode(OpReturn)];
      var r := Exec(code, [c], ops, m);
      (m.top + 2 <= STACK_MAX ==> r.Finished? && r.result == InterpretOk && r.final.top == m.top + 1) &&
      (m.top + 2 > STACK_MAX ==> r.Panicked?)
  {
    var code: seq<u8> := [Encode(OpConstant), 0, Encode(OpConstant), 0, Encode(OpReturn)];
    if m.top + 2 <= STACK_MAX {
      var m1 := Pushed(m.(ip := 2), c);
      var m2 := Pushed(m1.(ip := 4), c);
      assert Step(code, [c], ops, m) == Continue(m1);
      assert Step(code, [c], ops, m1) == Continue(m2);
      assert Step(code, [c], ops, m2) == Halt(InterpretOk, m2.(ip := 5, top := m.top + 1));
      assert Exec(code, [c], ops, m1) == Exec(code, [c], ops, m2);
    } else if m.top < STACK_MAX {
      var m1 := Pushed(m.(ip := 2), c);
      assert Step(code, [c], ops, m) == Continue(m1);
      assert Step(code, [c], ops, m1) == Fault;
    } else {
      assert Step(code, [c], ops, m) == Fault;
    }
  }

  /** The VM. */
  class VM {
    const chunk: Chunk
    var ip: nat
    const stack: array<Value>
    var stackTop: nat
    /** The f64 arithmetic the source gets from the hardware. */
    const ops: FloatOps

    ghost predicate Valid()
      reads this
    {
      stack.Length == STACK_MAX && stackTop <= STACK_MAX
    }

    /** The state `run` works on, as a value. */
    ghost function State(): (m: Machine)
      reads this, stack
      requires Valid()
      ensures WellSized(m)
    {
      Machine(ip, stack[..], stackTop)
    }

    /** `VM::new`: ip and stack_top are 0 and every slot holds 0.0. */
    constructor (chunk: Chunk, ops: FloatOps)
      ensures Valid() && fresh(stack)
      ensures this.chunk == chunk && this.ops == ops
      ensures ip == 0 && stackTop == 0
      ensures forall i :: 0 <= i < stack.Length ==> stack[i] == ops.zero
    {
      this.chunk := chunk;
      this.ops := ops;
      ip := 0;
      stack := new Value[STACK_MAX](_ => ops.zero);
      stackTop := 0;
    }

    /**
     * `interpret`: sets ip to 0 and runs. stack_top keeps whatever an earlier run left,
     * since `reset_stack` is never called.
     */
    method Interpret() returns (r: InterpretResult)
      requires Valid()
      requires Exec(chunk.code, chunk.constants.values, ops, State().(ip := 0)).Finished?
      modifies this, stack
      ensures Valid()
      ensures var o := Exec(chunk.code, chunk.constants.values, ops, old(State()).(ip := 0));
        r == o.result && State() == o.final
    {
      ip := 0;
      r := Run();
    }

    /** `push`: unchecked, so the caller must leave room. */
    method Push(value: Value)
      requires Valid() && stackTop < STACK_MAX
      modifies this, stack
      ensures Valid() && State() == Pushed(old(State()), value)
      ensures stack[old(stackTop)] == value && stackTop == old(stackTop) + 1
      ensures forall i :: 0 <= i < STACK_MAX && i != old(stackTop) ==> stack[i] == old(stack[i])
    {
      stack[stackTop] := value;
      stackTop := stackTop + 1;
    }

    /** `pop`: unchecked, so the stack must not be empty. Returns the slot now at stack_top. */
    method Pop() returns (value: Value)
      requires Valid() && 0 < stackTop
      modifies this
      ensures Valid() && (value, State()) == Popped(old(State()))
      ensures stackTop == old(stackTop) - 1 && value == stack[stackTop] && ip == old(ip)
    {
      stackTop := stackTop - 1;
      value := stack[stackTop];
    }

    /** `binary_op!`: pops `b`, then `a`, and pushes `a op b`. */
    method BinaryOp(op: BinaryOperator)
      requires Valid() && 2 <= stackTop
      modifies this, stack
      ensures Valid() && State() == BinaryOpSpec(ops, op, old(State()))
      ensures stackTop == old(stackTop) - 1
      ensures stack[..] == old(stack[..])[old(stackTop) - 2 := Apply(ops, op, old(stack[stackTop - 2]), old(stack[stackTop - 1]))]
    {
      BinaryOpEffect(ops, op, State());
      var b := Pop();
      var a := Pop();
      Push(Apply(ops, op, a, b));
    }

    /** `read_byte`: the byte at ip, then ip moves on; `code[ip]` must exist. */
    method ReadByte() returns (byte: u8)
      requires ip < |chunk.code|
      modifies this
      ensures byte == chunk.code[old(ip)] && ip == old(ip) + 1 && stackTop == old(stackTop)
    {
      var currentIp := ip;
      ip := ip + 1;
      byte := chunk.code[currentIp];
    }

    /** `read_constant`: the constant indexed by the byte at ip, then ip moves on. */
    method ReadConstant() returns (value: Value)
      requires ip < |chunk.code| && chunk.code[ip] as nat < |chunk.constants.values|
      modifies this
      ensures value == chunk.constants.values[chunk.code[old(ip)]]
      ensures ip == old(ip) + 1 && stackTop == old(stackTop)
    {
      var index := ReadByte();
      value := chunk.constants.values[index];
    }

    /** `reset_stack`: empties the stack. No operation of the source calls it. */
    method ResetStack()
      requires Valid()
      modifies this
      ensures Valid() && stackTop == 0 && ip == old(ip)
    {
      stackTop := 0;
    }

    /**
     * One iteration of `run`'s loop: fetch, decode and execute the instruction at ip. It
     * returns the result when the instruction ends the run, and nothing when the loop goes on.
     */
    method RunStep() returns (halted: Option<InterpretResult>)
      requires Valid() && !Step(chunk.code, chunk.constants.values, ops, State()).Fault?
      modifies this, stack
      ensures Valid()
      ensures var s := Step(chunk.code, chunk.constants.values, ops, old(State()));
        match halted
        case None => s == Continue(State())
        case Some(result) => s == Halt(result, State())
    {
      var byte := ReadByte();
      var instruction := Decode(byte);
      match instruction {
        case Some(OpConstant) =>
          var constant := ReadConstant();
          Push(constant);
          halted := None;
        case Some(OpAdd) =>
          BinaryOp(Add);
          halted := None;
        case Some(OpSubstract) =>
          BinaryOp(Subtract);
          halted := None;
        case Some(OpMultiply) =>
          BinaryOp(Multiply);
          halted := None;
        case Some(OpDivide) =>
          BinaryOp(Divide);
          halted := None;
        case Some(OpNegate) =>
          var value := Pop();
          Push(ops.neg(value));
          halted := None;
        case Some(OpReturn) =>
          var value := Pop();
          halted := Some(InterpretOk);
        case None =>
          halted := Some(InterpretCompileError);
      }
    }

    /**
     * `run`: the fetch-decode-execute loop. It requires that no iteration panics, and
     * ends in the state and with the result `Exec` gives.
     */
    method Run() returns (r: InterpretResult)
      requires Valid() && Exec(chunk.code, chunk.constants.values, ops, State()).Finished?
      modifies this, stack
      ensures Valid()
      ensures var o := Exec(chunk.code, chunk.constants.values, ops, old(State()));
        r == o.result && State() == o.final
    {
      ghost var code, constants := chunk.code, chunk.constants.values;
      while true
        invariant Valid() && chunk.code == code && chunk.constants.values == constants
        invariant Exec(code, constants, ops, State()) == Exec(code, constants, ops, old(State()))
        decreases |code| - ip
      {
        var halted := RunStep();
        if halted.Some? {
          return halted.value;
        }
      }
    }
  }
}
