/** The stack machine: values, operations and what each operation does to the state.

    Only programs without functions, `try` and closures are covered, so the frame
    stack holds lexical frames alone, and the pads of the frames are one chain. */
module ToraMachine {
  import opened Basics

  // ----- values -----

  datatype Value = UndefValue | BoolValue(b: bool) | IntValue(i: int)

  const INT_MIN := -0x8000_0000
  const INT_MAX := 0x7fff_ffff

  /** Value::to_bool: everything is true but `undef` and false. */
  function ToBool(v: Value): bool {
    match v
    case UndefValue => false
    case BoolValue(b) => b
    case IntValue(_) => true
  }

  datatype BinOp = Add | Sub | Lt | Gt | Le | Ge | Eq | Ne

  function CompareInts(op: BinOp, a: int, b: int): bool
    requires !op.Add? && !op.Sub?
  {
    match op
    case Lt => a < b
    case Gt => a > b
    case Le => a <= b
    case Ge => a >= b
    case Eq => a == b
    case Ne => a != b
  }

  /** cmpop; an integer against something else is an exception.  The operation is ignored unless the first operand is
      an integer. */
  function CmpOp(op: BinOp, lhs: Value, rhs: Value): Option<bool>
    requires !op.Add? && !op.Sub?
  {
    match lhs
    case IntValue(a) => if rhs.IntValue? then Some(CompareInts(op, a, rhs.i)) else None
    case BoolValue(b) => Some(b == ToBool(rhs))
    case UndefValue => Some(rhs.UndefValue?)
  }

  /** op_add and op_sub on integers; an exception on anything else, and no promise beyond the range of `int`. */
  function Arith(op: BinOp, lhs: Value, rhs: Value): Option<Value>
    requires op.Add? || op.Sub?
  {
    if !lhs.IntValue? || !rhs.IntValue? then None
    else
      var r := if op.Add? then lhs.i + rhs.i else lhs.i - rhs.i;
      if INT_MIN <= r <= INT_MAX then Some(IntValue(r)) else None
  }

  /** What an operation makes of the value below the top and the one on top: comparisons take the top as their first
      operand. */
  function BinResult(op: BinOp, below: Value, top: Value): Option<Value> {
    if op.Add? || op.Sub? then Arith(op, below, top)
    else match CmpOp(op, top, below)
      case Some(b) => Some(BoolValue(b))
      case None => None
  }

  // ----- operations -----

  /** One 32-bit operand holds a level and a slot, 16 bits each: `(high & 0xffff) << 16 | (low & 0xffff)`, as a signed
      number. */
  function Pack(high: nat, low: nat): int {
    var word := (high % 0x1_0000) * 0x1_0000 + low % 0x1_0000;
    if word > INT_MAX then word - 0x1_0000_0000 else word
  }

  /** `(w >> 16) & 0xffff`, where the shift keeps the sign. */
  function High(w: int): nat { (w / 0x1_0000) % 0x1_0000 }

  /** `w & 0xffff` */
  function Low(w: int): nat { w % 0x1_0000 }

  lemma PackParts(high: nat, low: nat)
    ensures High(Pack(high, low)) == high % 0x1_0000 && Low(Pack(high, low)) == low % 0x1_0000
  {
    var (h, l) := (high % 0x1_0000, low % 0x1_0000);
    var word := h * 0x1_0000 + l;
    assert word / 0x1_0000 == h && word % 0x1_0000 == l;
    assert (word - 0x1_0000_0000) / 0x1_0000 == h - 0x1_0000 && (word - 0x1_0000_0000) % 0x1_0000 == l;
    assert (h - 0x1_0000) % 0x1_0000 == h;
  }

  /** Level and slot come back from the operand if and only if both fit into 16 bits. */
  lemma PackFits(high: nat, low: nat)
    ensures High(Pack(high, low)) == high && Low(Pack(high, low)) == low <==> high < 0x1_0000 && low < 0x1_0000
  {
    PackParts(high, low);
  }

  datatype Op =
    | PushInt(n: int) | PushTrue | PushFalse | PushUndef | PopTop
    | Bin(op: BinOp) | Not
    | GetLocal(no: int) | SetLocal(no: int)
    | GetDynamic(word: int) | SetDynamic(word: int)
    | Jump(target: int) | JumpIfFalse(target: int) | JumpIfTrue(target: int)
    | Enter(count: int) | EnterWhile(count: int) | EnterFor(count: int) | Leave
    | LastOp(target: int)
    | NextState
    | PackageEnter | PackageLeave | End

  // ----- pads -----

  /** PadList::get: a slot that was never set reads as `undef`. */
  function PadGet(pad: seq<Value>, i: nat): Value {
    if i < |pad| then pad[i] else UndefValue
  }

  /** PadList::set: the pad grows as far as it has to. */
  function PadSet(pad: seq<Value>, i: nat, v: Value): seq<Value> {
    if i < |pad| then pad[i := v] else pad + seq(i - |pad|, _ => UndefValue) + [v]
  }

  lemma PadGetSet(pad: seq<Value>, i: nat, v: Value, j: nat)
    ensures PadGet(PadSet(pad, i, v), j) == if i == j then v else PadGet(pad, j)
  {
  }

  // ----- the state -----

  datatype Kind = Lexical | WhileFrame | ForFrame | PackageFrame

  /** A frame with the contents of its pad; `top` is the stack size at its entry. */
  datatype Frame = Frame(top: nat, kind: Kind, pad: seq<Value>)

  datatype Vm = Vm(pc: int, stack: seq<Value>, frames: seq<Frame>)

  function Back<T>(s: seq<T>): T
    requires s != []
  {
    s[|s| - 1]
  }

  function Front<T>(s: seq<T>): seq<T>
    requires s != []
  {
    s[..|s| - 1]
  }

  /** `std::vector::resize` to a smaller or equal size. */
  predicate CanResize(vm: Vm) {
    vm.frames != [] && Back(vm.frames).top <= |vm.stack|
  }

  function IsLoop(k: Kind): bool { k.WhileFrame? || k.ForFrame? }

  /** The loop of OP_LAST: frames go until a loop frame has gone. */
  function UnwindLoop(stack: seq<Value>, frames: seq<Frame>): Option<(seq<Value>, seq<Frame>)>
    decreases |frames|
  {
    if frames == [] || Back(frames).top > |stack| then None
    else
      var s := stack[..Back(frames).top];
      if IsLoop(Back(frames).kind) then Some((s, Front(frames))) else UnwindLoop(s, Front(frames))
  }

  /** The pad `level` frames up. */
  function PadAt(vm: Vm, level: nat): Option<seq<Value>> {
    if level < |vm.frames| then Some(vm.frames[|vm.frames| - 1 - level].pad) else None
  }

  function WithPad(frames: seq<Frame>, level: nat, pad: seq<Value>): seq<Frame>
    requires level < |frames|
  {
    var k := |frames| - 1 - level;
    frames[k := frames[k].(pad := pad)]
  }

  function SetAt(vm: Vm, level: nat, no: nat): Option<Vm> {
    if vm.stack == [] || level >= |vm.frames| then None
    else Some(vm.(frames := WithPad(vm.frames, level, PadSet(PadAt(vm, level).value, no, Back(vm.stack)))))
  }

  /** What one operation does before `pc` is incremented; `None` for an exception or something undefined. */
  function Execute(op: Op, vm: Vm): Option<Vm> {
    match op
    case PushInt(n) => Some(vm.(stack := vm.stack + [IntValue(n)]))
    case PushTrue => Some(vm.(stack := vm.stack + [BoolValue(true)]))
    case PushFalse => Some(vm.(stack := vm.stack + [BoolValue(false)]))
    case PushUndef => Some(vm.(stack := vm.stack + [UndefValue]))
    case PopTop => if vm.stack == [] then None else Some(vm.(stack := Front(vm.stack)))
    case Bin(o) =>
      if |vm.stack| < 2 then None
      else (match BinResult(o, vm.stack[|vm.stack| - 2], Back(vm.stack))
        case Some(v) => Some(vm.(stack := vm.stack[..|vm.stack| - 2] + [v]))
        case None => None)
    case Not =>
      if vm.stack == [] then None else Some(vm.(stack := Front(vm.stack) + [BoolValue(!ToBool(Back(vm.stack)))]))
    case GetLocal(no) =>
      if vm.frames == [] || no < 0 then None else Some(vm.(stack := vm.stack + [PadGet(Back(vm.frames).pad, no)]))
    case SetLocal(no) => if no < 0 then None else SetAt(vm, 0, no)
    case GetDynamic(w) =>
      (match PadAt(vm, High(w))
       case Some(pad) => if High(w) == 0 then None else Some(vm.(stack := vm.stack + [PadGet(pad, Low(w))]))
       case None => None)
    case SetDynamic(w) => if High(w) == 0 then None else SetAt(vm, High(w), Low(w))
    case Jump(t) => Some(vm.(pc := t - 1))
    case JumpIfFalse(t) =>
      if vm.stack == [] then None else Some(if ToBool(Back(vm.stack)) then vm else vm.(pc := t - 1))
    case JumpIfTrue(t) =>
      if vm.stack == [] then None else Some(if ToBool(Back(vm.stack)) then vm.(pc := t - 1) else vm)
    case Enter(_) => Some(vm.(frames := vm.frames + [Frame(|vm.stack|, Lexical, [])]))
    case EnterWhile(_) => Some(vm.(frames := vm.frames + [Frame(|vm.stack|, WhileFrame, [])]))
    case EnterFor(_) => Some(vm.(frames := vm.frames + [Frame(|vm.stack|, ForFrame, [])]))
    case Leave =>
      if CanResize(vm) then Some(vm.(stack := vm.stack[..Back(vm.frames).top], frames := Front(vm.frames))) else None
    case LastOp(t) =>
      (match UnwindLoop(vm.stack, vm.frames)
       case Some((stack, frames)) => Some(Vm(t, stack, frames))
       case None => None)
    case NextState => if CanResize(vm) then Some(vm.(stack := vm.stack[..Back(vm.frames).top])) else None
    case PackageEnter => Some(vm.(frames := vm.frames + [Frame(|vm.stack|, PackageFrame, [])]))
    case PackageLeave =>
      if vm.frames != [] && Back(vm.frames).kind.PackageFrame? then Some(vm.(frames := Front(vm.frames))) else None
    case End => None
  }

  /** One turn of the dispatch loop. */
  function Step(code: seq<Op>, vm: Vm): Option<Vm> {
    if vm.pc < 0 || vm.pc >= |code| then None
    else match Execute(code[vm.pc], vm)
      case Some(next) => Some(next.(pc := next.pc + 1))
      case None => None
  }

  ghost predicate RunsIn(code: seq<Op>, vm: Vm, n: nat, vm': Vm)
    decreases n
  {
    if n == 0 then vm == vm'
    else Step(code, vm).Some? && RunsIn(code, Step(code, vm).value, n - 1, vm')
  }

  /** The machine gets from one state to the other. */
  ghost predicate Runs(code: seq<Op>, vm: Vm, vm': Vm) {
    exists n: nat :: RunsIn(code, vm, n, vm')
  }

  lemma RunsNone(code: seq<Op>, vm: Vm)
    ensures Runs(code, vm, vm)
  {
    assert RunsIn(code, vm, 0, vm);
  }

  lemma {:induction false} RunsInOn(code: seq<Op>, a: Vm, n: nat, b: Vm, k: nat, c: Vm)
    requires RunsIn(code, a, n, b) && RunsIn(code, b, k, c)
    ensures RunsIn(code, a, n + k, c)
    decreases n
  {
    hide Step;
    if n > 0 { RunsInOn(code, Step(code, a).value, n - 1, b, k, c); }
  }

  lemma RunsOn(code: seq<Op>, a: Vm, b: Vm, c: Vm)
    requires Runs(code, a, b) && Runs(code, b, c)
    ensures Runs(code, a, c)
  {
    var n: nat :| RunsIn(code, a, n, b);
    var k: nat :| RunsIn(code, b, k, c);
    RunsInOn(code, a, n, b, k, c);
  }

  lemma RunsStep(code: seq<Op>, a: Vm, b: Vm, c: Vm)
    requires Step(code, a) == Some(b) && Runs(code, b, c)
    ensures Runs(code, a, c)
  {
    hide Step;
    var n: nat :| RunsIn(code, b, n, c);
    assert RunsIn(code, a, n + 1, c);
  }

  lemma RunsStepLast(code: seq<Op>, a: Vm, b: Vm, c: Vm)
    requires Runs(code, a, b) && Step(code, b) == Some(c)
    ensures Runs(code, a, c)
  {
    hide Step;
    RunsNone(code, c);
    RunsStep(code, b, c, c);
    RunsOn(code, a, b, c);
  }
}
