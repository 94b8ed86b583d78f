/** PadList and the VM object: the operations, done in place. */
module ToraVm {
  import opened Basics
  import opened ToraMachine

  class PadList {
    var pad: seq<Value>
    const next: PadList?

    constructor (next: PadList?)
      ensures pad == [] && this.next == next
    {
      this.next := next;
      pad := [];
    }

    /** PadList::upper. */
    method Upper(level: nat) returns (n: PadList)
      requires level > 0 && Above(this, level) != null
      ensures n == Above(this, level)
    {
      AboveStep(this, 1);
      AboveNotNull(this, 1, level);
      n := next;
      for i := 1 to level
        invariant n == Above(this, i)
      {
        AboveStep(this, i + 1);
        AboveNotNull(this, i + 1, level);
        n := n.next;
      }
    }

    /** PadList::set: slots in between are filled with `undef`. */
    method Set(i: nat, v: Value)
      modifies this
      ensures pad == PadSet(old(pad), i, v)
    {
      if |pad| - 1 < i {
        var j := |pad| - 1;
        while j < i - 1
          invariant |old(pad)| - 1 <= j <= i - 1 && pad == old(pad) + seq(j + 1 - |old(pad)|, _ => UndefValue)
        {
          pad := pad + [UndefValue];
          j := j + 1;
        }
        pad := pad[..i] + [v] + pad[i..];
      } else {
        pad := pad[..i] + pad[i + 1..];
        pad := pad[..i] + [v] + pad[i..];
      }
    }
  }

  /** Following `next` some times. */
  function Above(p: PadList?, level: nat): PadList? {
    if level == 0 || p == null then p else Above(p.next, level - 1)
  }

  lemma {:induction false} AboveStep(p: PadList?, level: nat)
    requires level > 0
    ensures Above(p, level) == (if Above(p, level - 1) == null then null else Above(p, level - 1).next)
    decreases level
  {
    if level > 1 && p != null { AboveStep(p.next, level - 1); }
  }

  lemma {:induction false} AboveNotNull(p: PadList?, k: nat, level: nat)
    requires k <= level && Above(p, level) != null
    ensures Above(p, k) != null
    decreases level - k
  {
    if k < level {
      AboveNotNull(p, k + 1, level);
      AboveStep(p, k + 1);
    }
  }

  /** LexicalVarsFrame: its pad is a link of the chain. */
  datatype FrameRec = FrameRec(top: nat, kind: Kind, padList: PadList)

  /** Every frame's pad is linked to the pad of the frame below. */
  ghost predicate Chained(fs: seq<FrameRec>) {
    && (fs != [] ==> fs[0].padList.next == null)
    && (forall k :: 0 < k < |fs| ==> fs[k].padList.next == fs[k - 1].padList)
    && (forall k, l :: 0 <= k < l < |fs| ==> fs[k].padList != fs[l].padList)
  }

  ghost function PadsOf(fs: seq<FrameRec>): set<PadList> {
    set k | 0 <= k < |fs| :: fs[k].padList
  }

  ghost function FramesOf(fs: seq<FrameRec>): (r: seq<Frame>)
    reads PadsOf(fs)
    ensures |r| == |fs|
    ensures forall k :: 0 <= k < |fs| ==> r[k] == Frame(fs[k].top, fs[k].kind, fs[k].padList.pad)
  {
    if fs == [] then []
    else
      var f := fs[|fs| - 1];
      FramesOf(fs[..|fs| - 1]) + [Frame(f.top, f.kind, f.padList.pad)]
  }

  class VM {
    const ops: seq<Op>
    var pc: int
    var stack: seq<Value>
    var frameStack: seq<FrameRec>

    ghost function Pads(): set<PadList>
      reads this`frameStack
    {
      PadsOf(frameStack)
    }

    ghost predicate Valid()
      reads this`frameStack
    {
      Chained(frameStack)
    }

    /** The state as a value. */
    ghost function Abs(): Vm
      reads this, Pads()
    {
      Vm(pc, stack, Frames())
    }

    ghost function Frames(): (r: seq<Frame>)
      reads this`frameStack, Pads()
      ensures |r| == |frameStack|
    {
      FramesOf(frameStack)
    }

    constructor (ops: seq<Op>)
      ensures Valid() && this.ops == ops && Abs() == Vm(0, [], [])
    {
      this.ops := ops;
      pc, stack, frameStack := 0, [], [];
    }

    /** The pad that the chain has `level` links up belongs to the frame `level` below the top. */
    lemma ChainReaches(level: nat)
      requires Valid() && level < |frameStack|
      ensures Above(frameStack[|frameStack| - 1].padList, level) == frameStack[|frameStack| - 1 - level].padList
    {
      if level > 0 {
        ChainReaches(level - 1);
        AboveStep(frameStack[|frameStack| - 1].padList, level);
      }
    }

    /** LexicalVarsFrame: a new pad on the current frame's pad. */
    method PushFrame(kind: Kind)
      requires Valid()
      modifies this`frameStack
      ensures Valid() && Frames() == old(Frames()) + [Frame(|stack|, kind, [])]
    {
      ghost var before := frameStack;
      var pads := new PadList(if |frameStack| > 0 then frameStack[|frameStack| - 1].padList else null);
      frameStack := frameStack + [FrameRec(|stack|, kind, pads)];
      assert forall k :: 0 <= k < |before| ==> frameStack[k] == before[k];
    }

    method PopFrame()
      requires Valid() && frameStack != []
      modifies this`frameStack
      ensures Valid() && Frames() == Front(old(Frames())) && frameStack == Front(old(frameStack))
    {
      frameStack := frameStack[..|frameStack| - 1];
    }

    /** set_variable and set_variable_dynamic. */
    method SetVariable(level: nat, no: nat, v: Value)
      requires Valid() && level < |frameStack|
      modifies Pads()
      ensures Valid()
      ensures Frames() == WithPad(old(Frames()), level, PadSet(old(Frames()[|frameStack| - 1 - level].pad), no, v))
    {
      var pads := frameStack[|frameStack| - 1].padList;
      if level > 0 {
        ChainReaches(level);
        pads := pads.Upper(level);
      }
      assert pads == frameStack[|frameStack| - 1 - level].padList;
      pads.Set(no, v);
    }

    /** get_variable and get_variable_dynamic. */
    method GetVariable(level: nat, no: nat) returns (v: Value)
      requires Valid() && level < |frameStack|
      ensures v == PadGet(Frames()[|frameStack| - 1 - level].pad, no)
    {
      var pads := frameStack[|frameStack| - 1].padList;
      if level > 0 {
        ChainReaches(level);
        pads := pads.Upper(level);
      }
      v := if no < |pads.pad| then pads.pad[no] else UndefValue;
    }

    /** OP_LAST. */
    method Last(target: int)
      requires Valid() && UnwindLoop(stack, Frames()).Some?
      modifies this`pc, this`stack, this`frameStack
      ensures Valid() && Some((stack, Frames())) == UnwindLoop(old(stack), old(Frames())) && pc == target
    {
      hide FramesOf, Chained;
      while true
        invariant Valid()
        invariant UnwindLoop(stack, Frames()) == UnwindLoop(old(stack), old(Frames()))
        invariant UnwindLoop(stack, Frames()).Some?
        decreases |frameStack|
      {
        var frame := frameStack[|frameStack| - 1];
        ghost var (s, fs) := (stack, Frames());
        assert Back(fs).top == frame.top && Back(fs).kind == frame.kind;
        stack := stack[..frame.top];
        PopFrame();
        assert stack == s[..Back(fs).top] && Frames() == Front(fs);
        if frame.kind == WhileFrame || frame.kind == ForFrame {
          ghost var left := Frames();
          assert UnwindLoop(s, fs) == Some((stack, left));
          pc := target;
          assert Frames() == left;
          return;
        }
      }
    }

    /** Operations on values and on the program counter. */
    method ExecuteValue(op: Op)
      requires Valid() && Execute(op, Abs()).Some?
      requires !(op.GetLocal? || op.GetDynamic? || op.SetLocal? || op.SetDynamic?)
      requires !(op.Enter? || op.EnterWhile? || op.EnterFor?)
      requires !(op.Leave? || op.LastOp? || op.NextState? || op.PackageEnter? || op.PackageLeave?)
      modifies this`pc, this`stack
      ensures Valid() && frameStack == old(frameStack) && Abs() == Execute(op, old(Abs())).value
    {
      hide FramesOf, Chained, PadsOf, BinResult, UnwindLoop, PadAt, SetAt;
      match op
      case PushInt(n) => stack := stack + [IntValue(n)];
      case PushTrue => stack := stack + [BoolValue(true)];
      case PushFalse => stack := stack + [BoolValue(false)];
      case PushUndef => stack := stack + [UndefValue];
      case PopTop => stack := stack[..|stack| - 1];
      case Bin(o) =>
        var top := stack[|stack| - 1];
        stack := stack[..|stack| - 1];
        var below := stack[|stack| - 1];
        stack := stack[|stack| - 1 := BinResult(o, below, top).value];
      case Not =>
        var v := stack[|stack| - 1];
        stack := stack[..|stack| - 1];
        stack := stack + [BoolValue(!ToBool(v))];
      case Jump(t) => pc := t - 1;
      case JumpIfFalse(t) => if !ToBool(stack[|stack| - 1]) { pc := t - 1; }
      case JumpIfTrue(t) => if ToBool(stack[|stack| - 1]) { pc := t - 1; }
    }

    /** Operations on variables. */
    method ExecuteVariable(op: Op)
      requires Valid() && Execute(op, Abs()).Some?
      requires op.GetLocal? || op.GetDynamic? || op.SetLocal? || op.SetDynamic?
      modifies this`stack, Pads()
      ensures Valid() && frameStack == old(frameStack) && Abs() == Execute(op, old(Abs())).value
    {
      hide FramesOf, Chained, PadsOf, BinResult;
      assert |Frames()| == |frameStack|;
      match op
      case GetLocal(no) =>
        var v := GetVariable(0, no);
        stack := stack + [v];
      case SetLocal(no) => SetVariable(0, no, stack[|stack| - 1]);
      case GetDynamic(w) =>
        var v := GetVariable(High(w), Low(w));
        stack := stack + [v];
      case SetDynamic(w) => SetVariable(High(w), Low(w), stack[|stack| - 1]);
    }

    /** Operations on frames. */
    method ExecuteFrame(op: Op)
      requires Valid() && Execute(op, Abs()).Some?
      requires || op.Enter? || op.EnterWhile? || op.EnterFor? || op.Leave? || op.LastOp? || op.NextState?
               || op.PackageEnter? || op.PackageLeave?
      modifies this`pc, this`stack, this`frameStack
      ensures Valid() && Abs() == Execute(op, old(Abs())).value
    {
      hide FramesOf, Chained, PadsOf, BinResult, UnwindLoop, PadAt, SetAt;
      assert |Frames()| == |frameStack| && (frameStack != [] ==>
          Back(Frames()).top == frameStack[|frameStack| - 1].top);
      match op
      case Enter(_) => PushFrame(Lexical);
      case EnterWhile(_) => PushFrame(WhileFrame);
      case EnterFor(_) => PushFrame(ForFrame);
      case Leave =>
        var frame := frameStack[|frameStack| - 1];
        stack := stack[..frame.top];
        PopFrame();
      case LastOp(t) => Last(t);
      case NextState => stack := stack[..frameStack[|frameStack| - 1].top];
      case PackageEnter => PushFrame(PackageFrame);
      case PackageLeave => PopFrame();
    }

    /** One turn of VM::execute. */
    method Turn()
      requires Valid() && Step(ops, Abs()).Some?
      modifies this`pc, this`stack, this`frameStack, Pads()
      ensures Valid() && Abs() == Step(ops, old(Abs())).value
    {
      hide FramesOf, Chained, PadsOf, Execute;
      var op := ops[pc];
      ghost var next := Execute(op, Abs()).value;
      match op {
        case GetLocal(_) | SetLocal(_) | GetDynamic(_) | SetDynamic(_) => ExecuteVariable(op);
        case Enter(_) | EnterWhile(_) | EnterFor(_) | Leave | LastOp(_) | NextState | PackageEnter | PackageLeave =>
          ExecuteFrame(op);
        case _ => ExecuteValue(op);
      }
      assert Abs() == next;
      pc := pc + 1;
    }
  }
}
