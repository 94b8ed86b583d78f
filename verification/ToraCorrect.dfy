/** Compiled programs do what their source means. */
module ToraCorrect {
  import opened Basics
  import opened ToraMachine
  import opened ToraSyntax
  import opened ToraCompiler

  // ----- scopes of the source against blocks and frames -----

  /** A scope at run time: whether it has a block and a frame of its own, and all names it will ever have. */
  datatype Slot = Slot(own: bool, full: seq<string>)

  /** The pad has the value of every name of the scope in the slot of that name. */
  ghost predicate Holds(full: seq<string>, store: Store, pad: seq<Value>) {
    forall i :: 0 <= i < |full| ==> StoreGet(store, full[i]) == PadGet(pad, i)
  }

  /** Blocks and frames are aligned, although scopes without declarations have neither. */
  ghost predicate Rel(lay: List<Slot>, names: List<seq<string>>, stores: List<Store>, blocks: Blocks,
      frames: seq<Frame>) {
    match lay
    case Nil => names.Nil? && stores.Nil? && blocks == [] && frames == []
    case Cons(slot, rest) =>
      && names.Cons? && stores.Cons?
      && if slot.own then
           && blocks != [] && frames != [] && names.head == Back(blocks) && names.head <= slot.full
           && NoDuplicates(slot.full) && Holds(slot.full, stores.head, Back(frames).pad)
           && Rel(rest, names.tail, stores.tail, Front(blocks), Front(frames))
         else
           names.head == [] && stores.head == map[] && Rel(rest, names.tail, stores.tail, blocks, frames)
  }

  lemma {:induction false} RelSizes(lay: List<Slot>, names: List<seq<string>>, stores: List<Store>, blocks: Blocks,
      frames: seq<Frame>)
    requires Rel(lay, names, stores, blocks, frames)
    ensures |blocks| == |frames|
  {
    match lay
    case Nil =>
    case Cons(slot, rest) =>
      if slot.own { RelSizes(rest, names.tail, stores.tail, Front(blocks), Front(frames)); }
      else { RelSizes(rest, names.tail, stores.tail, blocks, frames); }
  }

  lemma {:induction false} IndexInFull(names: seq<string>, full: seq<string>, x: string)
    requires names <= full && x in names
    ensures full[IndexOf(names, x)] == x
  {
  }

  /** Lexical addressing: the level and the slot that the compiler finds lead to the innermost declaration. */
  lemma {:induction false} FindReaches(lay: List<Slot>, names: List<seq<string>>, stores: List<Store>, blocks: Blocks,
      frames: seq<Frame>, x: string)
    requires Rel(lay, names, stores, blocks, frames)
    ensures match Find(blocks, x)
      case Some((level, no)) =>
        level < |frames| && Get(names, stores, x) == Some(PadGet(frames[|frames| - 1 - level].pad, no))
      case None => Get(names, stores, x) == None
    decreases lay
  {
    match lay
    case Nil =>
    case Cons(slot, rest) =>
      if slot.own {
        if x in names.head {
          IndexInFull(names.head, slot.full, x);
        } else {
          FindReaches(rest, names.tail, stores.tail, Front(blocks), Front(frames), x);
        }
      } else {
        FindReaches(rest, names.tail, stores.tail, blocks, frames, x);
      }
  }

  lemma HoldsAfterSet(full: seq<string>, store: Store, pad: seq<Value>, no: nat, x: string, v: Value)
    requires NoDuplicates(full) && Holds(full, store, pad) && no < |full| && full[no] == x
    ensures Holds(full, store[x := v], PadSet(pad, no, v))
  {
    forall i | 0 <= i < |full| ensures StoreGet(store[x := v], full[i]) == PadGet(PadSet(pad, no, v), i) {
      PadGetSet(pad, no, v, i);
    }
  }

  lemma WithPadFront(frames: seq<Frame>, level: nat, pad: seq<Value>)
    requires 0 < level < |frames|
    ensures Back(WithPad(frames, level, pad)) == Back(frames)
    ensures Front(WithPad(frames, level, pad)) == WithPad(Front(frames), level - 1, pad)
  {
  }

  lemma SetHere(slot: Slot, rest: List<Slot>, names: List<seq<string>>, stores: List<Store>, blocks: Blocks,
      frames: seq<Frame>, x: string, v: Value)
    requires Rel(Cons(slot, rest), names, stores, blocks, frames) && slot.own && x in names.head
    ensures Find(blocks, x) == Some((0, IndexOf(names.head, x))) && frames != []
    ensures Set(names, stores, x, v) == Some(Cons(stores.head[x := v], stores.tail))
    ensures Rel(Cons(slot, rest), names, Cons(stores.head[x := v], stores.tail), blocks,
        WithPad(frames, 0, PadSet(Back(frames).pad, IndexOf(names.head, x), v)))
  {
    var no := IndexOf(names.head, x);
    IndexInFull(names.head, slot.full, x);
    HoldsAfterSet(slot.full, stores.head, Back(frames).pad, no, x, v);
    hide PadSet, Holds;
    assert Front(WithPad(frames, 0, PadSet(Back(frames).pad, no, v))) == Front(frames);
  }

  lemma SetFurther(slot: Slot, rest: List<Slot>, names: List<seq<string>>, stores: List<Store>, blocks: Blocks,
      frames: seq<Frame>, x: string, v: Value, level: nat, pad: seq<Value>)
    requires Rel(Cons(slot, rest), names, stores, blocks, frames) && slot.own && x !in names.head
    requires level + 1 < |frames| && Set(names.tail, stores.tail, x, v).Some?
    requires Rel(rest, names.tail, Set(names.tail, stores.tail, x, v).value, Front(blocks),
        WithPad(Front(frames), level, pad))
    ensures Set(names, stores, x, v).Some?
    ensures Rel(Cons(slot, rest), names, Set(names, stores, x, v).value, blocks, WithPad(frames, level + 1, pad))
  {
    WithPadFront(frames, level + 1, pad);
    hide WithPad, Holds, NoDuplicates;
  }

  /** Writing there keeps scopes and pads aligned. */
  lemma {:induction false} SetKeepsRel(lay: List<Slot>, names: List<seq<string>>, stores: List<Store>, blocks: Blocks,
      frames: seq<Frame>, x: string, v: Value)
    requires Rel(lay, names, stores, blocks, frames) && Find(blocks, x).Some?
    ensures
      var (level, no) := Find(blocks, x).value;
      level < |frames| && Set(names, stores, x, v).Some?
      && Rel(lay, names, Set(names, stores, x, v).value, blocks,
          WithPad(frames, level, PadSet(frames[|frames| - 1 - level].pad, no, v)))
    decreases lay
  {
    var Cons(slot, rest) := lay;
    hide WithPad, PadSet, Holds, NoDuplicates;
    if !slot.own {
      SetKeepsRel(rest, names.tail, stores.tail, blocks, frames, x, v);
    } else if x in names.head {
      SetHere(slot, rest, names, stores, blocks, frames, x, v);
    } else {
      SetKeepsRel(rest, names.tail, stores.tail, Front(blocks), Front(frames), x, v);
      var (level, no) := Find(Front(blocks), x).value;
      SetFurther(slot, rest, names, stores, blocks, frames, x, v, level,
          PadSet(frames[|frames| - 2 - level].pad, no, v));
    }
  }

  // ----- declarations -----

  lemma {:induction false} NamesGrowE(e: Expr, names: seq<string>)
    requires NoDuplicates(names)
    ensures names <= NamesE(e, names) && NoDuplicates(NamesE(e, names))
  {
    match e
    case Assign(_, e) => NamesGrowE(e, names);
    case MyAssign(_, e) => NamesGrowE(e, names);
    case Binary(_, l, r) => NamesGrowE(l, names); NamesGrowE(r, NamesE(l, names));
    case Negate(e) => NamesGrowE(e, names);
    case And(l, r) => NamesGrowE(l, names); NamesGrowE(r, NamesE(l, names));
    case Or(l, r) => NamesGrowE(l, names); NamesGrowE(r, NamesE(l, names));
    case _ =>
  }

  lemma {:induction false} NamesGrowS(s: Stmt, names: seq<string>)
    requires NoDuplicates(names)
    ensures names <= NamesS(s, names) && NoDuplicates(NamesS(s, names))
  {
    match s
    case Do(e) => NamesGrowE(e, names);
    case Next(s, rest) => NamesGrowS(s, names); NamesGrowS(rest, NamesS(s, names));
    case If(c, y, n) =>
      NamesGrowE(c, names);
      NamesGrowS(y, NamesE(c, names));
      NamesGrowS(n, NamesS(y, NamesE(c, names)));
    case While(c, _) => NamesGrowE(c, names);
    case _ =>
  }

  /** The current scope may change between the names it has at different places, in step with its block. */
  lemma Rehead(lay: List<Slot>, names: List<seq<string>>, stores: List<Store>, blocks: Blocks, frames: seq<Frame>,
      head: seq<string>)
    requires Rel(lay, names, stores, blocks, frames) && lay.Cons? && blocks != []
    requires if lay.head.own then head <= lay.head.full else head == []
    ensures names.Cons?
    ensures Rel(lay, Cons(head, names.tail), stores, if lay.head.own then WithBack(blocks, head) else blocks, frames)
  {
  }

  /** There is room for the names of `e` (or of a statement), and an elided scope gets none. */
  ghost predicate Room(lay: List<Slot>, names: List<seq<string>>, after: seq<string>, count: nat) {
    lay.Cons? && names.Cons? && if lay.head.own then after <= lay.head.full else count == 0
  }

  lemma DeclareE(e: Expr, lay: List<Slot>, names: List<seq<string>>, stores: List<Store>, blocks: Blocks,
      frames: seq<Frame>)
    requires Rel(lay, names, stores, blocks, frames) && blocks != []
    requires Room(lay, names, NamesE(e, names.head), CountE(e))
    ensures Rel(lay, After(e, names), stores, DeclE(e, blocks), frames)
  {
    if !lay.head.own { NoDeclE(e, names.head); }
    Rehead(lay, names, stores, blocks, frames, NamesE(e, names.head));
    if !lay.head.own {
      NoDeclE(e, names.head);
      NoDeclE(e, Back(blocks));
      assert WithBack(blocks, Back(blocks)) == blocks;
    }
  }

  lemma DeclareS(s: Stmt, lay: List<Slot>, names: List<seq<string>>, stores: List<Store>, blocks: Blocks,
      frames: seq<Frame>)
    requires Rel(lay, names, stores, blocks, frames) && blocks != []
    requires Room(lay, names, NamesS(s, names.head), CountS(s))
    ensures Rel(lay, AfterS(s, names), stores, DeclS(s, blocks), frames)
  {
    if !lay.head.own { NoDeclS(s, names.head); }
    Rehead(lay, names, stores, blocks, frames, NamesS(s, names.head));
    if !lay.head.own {
      NoDeclS(s, Back(blocks));
      assert WithBack(blocks, Back(blocks)) == blocks;
    }
  }

  lemma RelDistinct(lay: List<Slot>, names: List<seq<string>>, stores: List<Store>, blocks: Blocks, frames: seq<Frame>)
    requires Rel(lay, names, stores, blocks, frames) && lay.Cons?
    ensures names.Cons? && NoDuplicates(names.head)
  {
  }

  // ----- code in place -----

  ghost predicate At(code: seq<Op>, pc: int, part: seq<Op>) {
    0 <= pc && pc + |part| <= |code| && code[pc..pc + |part|] == part
  }

  lemma AtSplit(code: seq<Op>, pc: int, a: seq<Op>, b: seq<Op>)
    requires At(code, pc, a + b)
    ensures At(code, pc, a) && At(code, pc + |a|, b)
  {
    var all := code[pc..pc + |a + b|];
    assert all[..|a|] == a && all[|a|..] == b;
    assert code[pc..pc + |a|] == all[..|a|] && code[pc + |a|..pc + |a| + |b|] == all[|a|..];
  }

  lemma AtOne(code: seq<Op>, pc: int, op: Op)
    requires At(code, pc, [op])
    ensures 0 <= pc < |code| && code[pc] == op
  {
    assert code[pc] == code[pc..pc + 1][0];
  }

  /** One more operation. */
  lemma OneMore(code: seq<Op>, vm0: Vm, vm: Vm, op: Op, vm': Vm)
    requires Runs(code, vm0, vm) && At(code, vm.pc, [op]) && Execute(op, vm) == Some(vm')
    ensures Runs(code, vm0, vm'.(pc := vm'.pc + 1))
  {
    AtOne(code, vm.pc, op);
    RunsStepLast(code, vm0, vm, vm'.(pc := vm'.pc + 1));
  }

  /** Same frames, with other pads. */
  ghost predicate SameShape(f: seq<Frame>, f': seq<Frame>) {
    |f| == |f'| && forall k :: 0 <= k < |f| ==> f[k].top == f'[k].top && f[k].kind == f'[k].kind
  }

  // ----- expressions -----

  /** What holds where an expression (or a statement) begins. */
  ghost predicate Here(lay: List<Slot>, names: List<seq<string>>, stores: List<Store>, blocks: Blocks, vm: Vm) {
    names.Cons? && blocks != [] && Rel(lay, names, stores, blocks, vm.frames)
  }

  /** The expression's code is through: its value is on the stack, everything below is as before. */
  ghost predicate Evaluated(vm: Vm, vm': Vm, n: nat, v: Value) {
    vm'.pc == vm.pc + n && vm'.stack == vm.stack + [v] && SameShape(vm.frames, vm'.frames)
  }

  lemma FoundCode(x: string, blocks: Blocks, level: nat, no: nat)
    requires Find(blocks, x) == Some((level, no)) && Addr(x, blocks)
    ensures SetCode(x, blocks) == [if level == 0 then SetLocal(no) else SetDynamic(Pack(level, no))]
    ensures GetCode(x, blocks) == [if level == 0 then GetLocal(no) else GetDynamic(Pack(level, no))]
    ensures High(Pack(level, no)) == level && Low(Pack(level, no)) == no
  {
    PackFits(level, no);
    hide Find, Pack, High, Low;
  }

  lemma FoundIt(x: string, blocks: Blocks)
    requires MissE(x, blocks) == 0
    ensures Find(blocks, x).Some?
  {
  }

  lemma SetExecutes(vm: Vm, level: nat, no: nat)
    requires vm.stack != [] && level < |vm.frames| && High(Pack(level, no)) == level && Low(Pack(level, no)) == no
    ensures Execute(if level == 0 then SetLocal(no) else SetDynamic(Pack(level, no)), vm)
      == Some(vm.(frames := WithPad(vm.frames, level, PadSet(vm.frames[|vm.frames| - 1 - level].pad, no,
          Back(vm.stack)))))
  {
    hide Pack, High, Low, WithPad, PadSet;
  }

  lemma GetExecutes(vm: Vm, level: nat, no: nat)
    requires level < |vm.frames| && High(Pack(level, no)) == level && Low(Pack(level, no)) == no
    ensures Execute(if level == 0 then GetLocal(no) else GetDynamic(Pack(level, no)), vm)
      == Some(vm.(stack := vm.stack + [PadGet(vm.frames[|vm.frames| - 1 - level].pad, no)]))
  {
    hide Pack, High, Low, PadGet;
  }

  lemma WithPadShape(frames: seq<Frame>, level: nat, pad: seq<Value>)
    requires level < |frames|
    ensures SameShape(frames, WithPad(frames, level, pad))
  {
  }

  lemma HereIs(lay: List<Slot>, names: List<seq<string>>, stores: List<Store>, blocks: Blocks, vm: Vm)
    ensures Here(lay, names, stores, blocks, vm) <==>
      names.Cons? && blocks != [] && Rel(lay, names, stores, blocks, vm.frames)
  {
    hide Rel;
  }

  /** Storing the value on top of the stack. */
  lemma SetRuns(code: seq<Op>, x: string, lay: List<Slot>, names: List<seq<string>>, stores: List<Store>,
      blocks: Blocks, vm0: Vm, vm: Vm) returns (vm': Vm)
    requires Here(lay, names, stores, blocks, vm) && vm.stack != [] && At(code, vm.pc, SetCode(x, blocks))
    requires Runs(code, vm0, vm)
    requires MissE(x, blocks) == 0 && Addr(x, blocks)
    ensures Runs(code, vm0, vm') && vm'.pc == vm.pc + |SetCode(x, blocks)| && vm'.stack == vm.stack
    ensures SameShape(vm.frames, vm'.frames)
    ensures Set(names, stores, x, Back(vm.stack)).Some?
    ensures Here(lay, names, Set(names, stores, x, Back(vm.stack)).value, blocks, vm')
  {
    hide *;
    FoundIt(x, blocks);
    var (level, no) := Find(blocks, x).value;
    HereIs(lay, names, stores, blocks, vm);
    SetKeepsRel(lay, names, stores, blocks, vm.frames, x, Back(vm.stack));
    FoundCode(x, blocks, level, no);
    SetExecutes(vm, level, no);
    var after := WithPad(vm.frames, level, PadSet(vm.frames[|vm.frames| - 1 - level].pad, no, Back(vm.stack)));
    WithPadShape(vm.frames, level, PadSet(vm.frames[|vm.frames| - 1 - level].pad, no, Back(vm.stack)));
    OneMore(code, vm0, vm, if level == 0 then SetLocal(no) else SetDynamic(Pack(level, no)), vm.(frames := after));
    vm' := vm.(frames := after, pc := vm.pc + 1);
    HereIs(lay, names, Set(names, stores, x, Back(vm.stack)).value, blocks, vm');
  }

  lemma GetRuns(code: seq<Op>, x: string, lay: List<Slot>, names: List<seq<string>>, stores: List<Store>,
      blocks: Blocks, vm: Vm)
    returns (vm': Vm)
    requires Here(lay, names, stores, blocks, vm) && At(code, vm.pc, GetCode(x, blocks))
    requires MissE(x, blocks) == 0 && Addr(x, blocks)
    ensures Get(names, stores, x).Some?
    ensures Runs(code, vm, vm') && Evaluated(vm, vm', |GetCode(x, blocks)|, Get(names, stores, x).value)
    ensures vm'.frames == vm.frames
  {
    hide *;
    FoundIt(x, blocks);
    var (level, no) := Find(blocks, x).value;
    HereIs(lay, names, stores, blocks, vm);
    FindReaches(lay, names, stores, blocks, vm.frames, x);
    FoundCode(x, blocks, level, no);
    GetExecutes(vm, level, no);
    RunsNone(code, vm);
    var v := PadGet(vm.frames[|vm.frames| - 1 - level].pad, no);
    OneMore(code, vm, vm, if level == 0 then GetLocal(no) else GetDynamic(Pack(level, no)),
        vm.(stack := vm.stack + [v]));
    vm' := vm.(stack := vm.stack + [v], pc := vm.pc + 1);
    assert Evaluated(vm, vm', |GetCode(x, blocks)|, v) by { NowEvaluated(vm, vm', |GetCode(x, blocks)|, v); }
  }

  lemma NowEvaluated(vm: Vm, vm': Vm, n: nat, v: Value)
    requires vm'.pc == vm.pc + n && vm'.stack == vm.stack + [v] && vm'.frames == vm.frames
    ensures Evaluated(vm, vm', n, v)
  {
  }

  lemma RoomFor(lay: List<Slot>, names: List<seq<string>>, l: Expr, r: Expr, count: nat)
    requires names.Cons? && Room(lay, names, NamesE(r, NamesE(l, names.head)), count) && NoDuplicates(names.head)
    requires CountE(l) <= count && CountE(r) <= count
    ensures Room(lay, names, NamesE(l, names.head), CountE(l))
    ensures Room(lay, After(l, names), NamesE(r, NamesE(l, names.head)), CountE(r))
  {
    NamesGrowE(l, names.head);
    NamesGrowE(r, NamesE(l, names.head));
  }

  /** `e` compiles and has a value. */
  ghost predicate Fine(e: Expr, names: List<seq<string>>, stores: List<Store>, blocks: Blocks) {
    names.Cons? && blocks != [] && ErrE(e, blocks) == 0 && AddrE(e, blocks) && Eval(e, names, stores).Some?
  }

  /** What has to be right before the code of `e` runs. */
  ghost predicate ReadyE(code: seq<Op>, e: Expr, lay: List<Slot>, names: List<seq<string>>, stores: List<Store>,
      blocks: Blocks, vm: Vm) {
    && Here(lay, names, stores, blocks, vm) && Room(lay, names, NamesE(e, names.head), CountE(e))
    && vm.pc >= 0 && At(code, vm.pc, GenE(e, blocks, vm.pc)) && Fine(e, names, stores, blocks)
  }

  ghost predicate DoneE(code: seq<Op>, e: Expr, lay: List<Slot>, names: List<seq<string>>, stores: List<Store>,
      blocks: Blocks, vm: Vm, vm': Vm)
    requires names.Cons? && blocks != [] && vm.pc >= 0 && Eval(e, names, stores).Some?
  {
    var (v, after) := Eval(e, names, stores).value;
    && Runs(code, vm, vm') && Evaluated(vm, vm', |GenE(e, blocks, vm.pc)|, v)
    && Here(lay, After(e, names), after, DeclE(e, blocks), vm')
  }

  /** Two operands in a row. */
  lemma ReadyParts(code: seq<Op>, l: Expr, r: Expr, lay: List<Slot>, names: List<seq<string>>, stores: List<Store>,
      blocks: Blocks, vm: Vm, count: nat)
    requires Here(lay, names, stores, blocks, vm) && Room(lay, names, NamesE(r, NamesE(l, names.head)), count)
    requires CountE(l) <= count && CountE(r) <= count && lay.Cons?
    ensures Room(lay, names, NamesE(l, names.head), CountE(l))
    ensures Room(lay, After(l, names), NamesE(r, NamesE(l, names.head)), CountE(r))
  {
    RelDistinct(lay, names, stores, blocks, vm.frames);
    RoomFor(lay, names, l, r, count);
  }

  /** The names of `e` become visible in the current scope without a step of the machine. */
  lemma Declared(e: Expr, e1: Expr, lay: List<Slot>, names: List<seq<string>>, stores: List<Store>, blocks: Blocks,
      vm: Vm)
    requires names.Cons? && blocks != [] && Here(lay, After(e1, names), stores, DeclE(e1, blocks), vm)
    requires Room(lay, names, NamesE(e, names.head), CountE(e)) && CountE(e1) <= CountE(e)
    requires lay.head.own ==> Back(blocks) == names.head
    ensures Here(lay, After(e, names), stores, DeclE(e, blocks), vm)
  {
    var b1 := DeclE(e1, blocks);
    if lay.head.own {
      Rehead(lay, After(e1, names), stores, b1, vm.frames, NamesE(e, names.head));
      assert WithBack(b1, NamesE(e, names.head)) == DeclE(e, blocks);
    } else {
      NoDeclE(e, names.head);
      NoDeclE(e1, names.head);
      NoDeclE(e, Back(blocks));
      NoDeclE(e1, Back(blocks));
    }
  }

  lemma HereParts(lay: List<Slot>, names: List<seq<string>>, stores: List<Store>, blocks: Blocks, vm: Vm)
    requires Here(lay, names, stores, blocks, vm)
    ensures lay.Cons? && names.Cons? && blocks != [] && vm.frames != []
    ensures lay.head.own ==> Back(blocks) == names.head
    ensures Rel(lay, names, stores, blocks, vm.frames)
  {
    RelSizes(lay, names, stores, blocks, vm.frames);
  }

  lemma NothingDeclared(e: Expr, names: List<seq<string>>, blocks: Blocks)
    requires CountE(e) == 0 && names.Cons? && blocks != []
    ensures After(e, names) == names && DeclE(e, blocks) == blocks
  {
    NoDeclE(e, names.head);
    NoDeclE(e, Back(blocks));
  }

  lemma PushesOne(code: seq<Op>, e: Expr, op: Op, v: Value, lay: List<Slot>, names: List<seq<string>>,
      stores: List<Store>, blocks: Blocks, vm: Vm)
    returns (vm': Vm)
    requires names.Cons? && blocks != [] && vm.pc >= 0 && Here(lay, names, stores, blocks, vm) && At(code, vm.pc, [op])
    requires GenE(e, blocks, vm.pc) == [op] && CountE(e) == 0 && Eval(e, names, stores) == Some((v, stores))
    requires Execute(op, vm) == Some(vm.(stack := vm.stack + [v]))
    ensures DoneE(code, e, lay, names, stores, blocks, vm, vm')
  {
    hide Execute, Rel, GenE, Eval, CountE, Runs, DeclE, After, At;
    RunsNone(code, vm);
    OneMore(code, vm, vm, op, vm.(stack := vm.stack + [v]));
    NothingDeclared(e, names, blocks);
    vm' := vm.(stack := vm.stack + [v], pc := vm.pc + 1);
  }

  /** Assignments: the value is on the stack; now it is stored, in the scope with the new name. */
  lemma SimStore(code: seq<Op>, e: Expr, e1: Expr, x: string, lay: List<Slot>, names: List<seq<string>>,
      stores: List<Store>, blocks: Blocks, vm: Vm, vm1: Vm, v: Value, s1: List<Store>) returns (vm': Vm)
    requires Here(lay, names, stores, blocks, vm) && Here(lay, After(e1, names), s1, DeclE(e1, blocks), vm1)
    requires Room(lay, names, NamesE(e, names.head), CountE(e)) && CountE(e1) <= CountE(e)
    requires Runs(code, vm, vm1) && vm1.stack == vm.stack + [v] && SameShape(vm.frames, vm1.frames)
    requires At(code, vm1.pc, SetCode(x, DeclE(e, blocks))) && MissE(x, DeclE(e, blocks)) == 0
    requires Addr(x, DeclE(e, blocks))
    ensures Set(After(e, names), s1, x, v).Some?
    ensures Runs(code, vm, vm') && vm'.pc == vm1.pc + |SetCode(x, DeclE(e, blocks))| && vm'.stack == vm.stack + [v]
    ensures SameShape(vm.frames, vm'.frames)
    ensures Here(lay, After(e, names), Set(After(e, names), s1, x, v).value, DeclE(e, blocks), vm')
  {
    HereParts(lay, names, stores, blocks, vm);
    Declared(e, e1, lay, names, s1, blocks, vm1);
    hide Rel, DeclE, SetCode, MissE, Addr, Runs, At, Set;
    vm' := SetRuns(code, x, lay, After(e, names), s1, DeclE(e, blocks), vm, vm1);
  }

  lemma AssignParts(e: Expr, e1: Expr, x: string, blocks: Blocks, base: nat, names: seq<string>)
    requires blocks != [] && (e == Assign(x, e1) || e == MyAssign(x, e1)) && NoDuplicates(names)
    ensures GenE(e, blocks, base) == GenE(e1, blocks, base) + SetCode(x, DeclE(e, blocks))
    ensures ErrE(e, blocks) == 0 ==> ErrE(e1, blocks) == 0 && MissE(x, DeclE(e, blocks)) == 0
    ensures AddrE(e, blocks) ==> AddrE(e1, blocks) && Addr(x, DeclE(e, blocks))
    ensures CountE(e1) <= CountE(e) && NamesE(e1, names) <= NamesE(e, names)
  {
    NamesGrowE(e1, names);
    hide SetCode, Addr, MissE, DeclE, NoDuplicates;
  }

  lemma AssignEval(e: Expr, e1: Expr, x: string, names: List<seq<string>>, stores: List<Store>)
    requires (e == Assign(x, e1) || e == MyAssign(x, e1)) && names.Cons?
    ensures Eval(e, names, stores) == Stored(x, Eval(e1, names, stores), After(e, names))
  {
  }

  lemma AssignReady(code: seq<Op>, e: Expr, e1: Expr, x: string, lay: List<Slot>, names: List<seq<string>>,
      stores: List<Store>, blocks: Blocks, vm: Vm)
    requires names.Cons? && blocks != [] && vm.pc >= 0 && ReadyE(code, e, lay, names, stores, blocks, vm)
    requires e == Assign(x, e1) || e == MyAssign(x, e1)
    ensures ReadyE(code, e1, lay, names, stores, blocks, vm) && CountE(e1) <= CountE(e)
    ensures GenE(e, blocks, vm.pc) == GenE(e1, blocks, vm.pc) + SetCode(x, DeclE(e, blocks))
    ensures At(code, vm.pc + |GenE(e1, blocks, vm.pc)|, SetCode(x, DeclE(e, blocks)))
    ensures MissE(x, DeclE(e, blocks)) == 0 && Addr(x, DeclE(e, blocks))
    ensures Eval(e, names, stores) == Stored(x, Eval(e1, names, stores), After(e, names))
  {
    hide Rel, At, SetCode, GenE, DeclE, Eval, ErrE, AddrE, MissE, Addr, After, NamesE, CountE;
    HereParts(lay, names, stores, blocks, vm);
    RelDistinct(lay, names, stores, blocks, vm.frames);
    AssignParts(e, e1, x, blocks, vm.pc, names.head);
    AssignEval(e, e1, x, names, stores);
    AtSplit(code, vm.pc, GenE(e1, blocks, vm.pc), SetCode(x, DeclE(e, blocks)));
  }

  lemma {:induction false} SimAssign(code: seq<Op>, e: Expr, e1: Expr, x: string, lay: List<Slot>,
      names: List<seq<string>>, stores: List<Store>, blocks: Blocks, vm: Vm) returns (vm': Vm)
    requires names.Cons? && blocks != [] && vm.pc >= 0 && ReadyE(code, e, lay, names, stores, blocks, vm)
    requires e == Assign(x, e1) || e == MyAssign(x, e1)
    ensures DoneE(code, e, lay, names, stores, blocks, vm, vm')
    decreases e, 0
  {
    hide Rel, Runs, At, Set, SetCode, NamesE, GenE, DeclE, Eval, CountE, After, MissE, Addr;
    AssignReady(code, e, e1, x, lay, names, stores, blocks, vm);
    var vm1 := SimE(code, e1, lay, names, stores, blocks, vm);
    var (v, s1) := Eval(e1, names, stores).value;
    vm' := SimStore(code, e, e1, x, lay, names, stores, blocks, vm, vm1, v, s1);
  }

  lemma SimMy(code: seq<Op>, x: string, lay: List<Slot>, names: List<seq<string>>, stores: List<Store>, blocks: Blocks,
      vm: Vm)
    returns (vm': Vm)
    requires names.Cons? && blocks != [] && vm.pc >= 0 && ReadyE(code, My(x), lay, names, stores, blocks, vm)
    ensures DoneE(code, My(x), lay, names, stores, blocks, vm, vm')
  {
    AtSplit(code, vm.pc, [PushUndef], SetCode(x, DeclE(My(x), blocks)));
    hide Rel, Runs, At, Set, SetCode, DeclE;
    var vm1 := PushesOne(code, Undef, PushUndef, UndefValue, lay, names, stores, blocks, vm);
    vm' := SimStore(code, My(x), Undef, x, lay, names, stores, blocks, vm, vm1, UndefValue, stores);
  }

  predicate IsPair(e: Expr, l: Expr, r: Expr) {
    (e.Binary? || e.And? || e.Or?) && e.l == l && e.r == r
  }

  lemma PairErr(e: Expr, l: Expr, r: Expr, blocks: Blocks)
    requires IsPair(e, l, r) && blocks != [] && ErrE(e, blocks) == 0 && AddrE(e, blocks)
    ensures ErrE(l, blocks) == 0 && AddrE(l, blocks) && ErrE(r, DeclE(l, blocks)) == 0 && AddrE(r, DeclE(l, blocks))
    ensures CountE(e) == CountE(l) + CountE(r)
  {
    hide DeclE, Addr, MissE, NamesE, GenE, Eval;
  }

  lemma PairEval(e: Expr, l: Expr, r: Expr, names: List<seq<string>>, stores: List<Store>)
    requires IsPair(e, l, r) && names.Cons? && Eval(e, names, stores).Some?
    ensures Eval(l, names, stores).Some?
    ensures e.Binary? || (e.And? == ToBool(Eval(l, names, stores).value.0)) ==>
      Eval(r, After(l, names), Eval(l, names, stores).value.1).Some?
  {
    hide After, Set, Get, BinResult, ToBool;
  }

  lemma PairFacts(e: Expr, l: Expr, r: Expr, names: List<seq<string>>, stores: List<Store>, blocks: Blocks)
    requires IsPair(e, l, r) && Fine(e, names, stores, blocks)
    ensures NamesE(e, names.head) == NamesE(r, NamesE(l, names.head)) && CountE(e) == CountE(l) + CountE(r)
    ensures Fine(l, names, stores, blocks)
    ensures e.Binary? || (e.And? == ToBool(Eval(l, names, stores).value.0)) ==>
      Fine(r, After(l, names), Eval(l, names, stores).value.1, DeclE(l, blocks))
  {
    PairNamesE(e, l, r, names.head);
    PairErr(e, l, r, blocks);
    PairEval(e, l, r, names, stores);
    AfterHead(l, names);
    hide IsPair, ErrE, AddrE, Eval, After, DeclE, NamesE, CountE, ToBool;
  }

  lemma ReadyIs(code: seq<Op>, e: Expr, lay: List<Slot>, names: List<seq<string>>, stores: List<Store>, blocks: Blocks,
      vm: Vm)
    requires ReadyE(code, e, lay, names, stores, blocks, vm)
    ensures Here(lay, names, stores, blocks, vm) && names.Cons? && Room(lay, names, NamesE(e, names.head), CountE(e))
    ensures vm.pc >= 0 && blocks != [] && At(code, vm.pc, GenE(e, blocks, vm.pc)) && Fine(e, names, stores, blocks)
  {
  }

  lemma NowReady(code: seq<Op>, e: Expr, lay: List<Slot>, names: List<seq<string>>, stores: List<Store>, blocks: Blocks,
      vm: Vm)
    requires Here(lay, names, stores, blocks, vm) && names.Cons? && Room(lay, names, NamesE(e, names.head), CountE(e))
    requires vm.pc >= 0 && blocks != [] && At(code, vm.pc, GenE(e, blocks, vm.pc)) && Fine(e, names, stores, blocks)
    ensures ReadyE(code, e, lay, names, stores, blocks, vm)
  {
  }

  lemma DoneIs(code: seq<Op>, e: Expr, lay: List<Slot>, names: List<seq<string>>, stores: List<Store>, blocks: Blocks,
      vm: Vm, vm': Vm)
    requires names.Cons? && blocks != [] && vm.pc >= 0 && Fine(e, names, stores, blocks)
    ensures Eval(e, names, stores).Some?
    ensures DoneE(code, e, lay, names, stores, blocks, vm, vm') <==>
      var (v, after) := Eval(e, names, stores).value;
      && Runs(code, vm, vm') && vm'.pc == vm.pc + |GenE(e, blocks, vm.pc)| && vm'.stack == vm.stack + [v]
      && SameShape(vm.frames, vm'.frames) && Here(lay, After(e, names), after, DeclE(e, blocks), vm')
  {
    hide Runs, GenE, Eval, ErrE, AddrE;
  }

  lemma HereMoves(lay: List<Slot>, names: List<seq<string>>, stores: List<Store>, blocks: Blocks, vm: Vm, vm': Vm)
    requires Here(lay, names, stores, blocks, vm) && vm'.frames == vm.frames
    ensures Here(lay, names, stores, blocks, vm')
  {
  }

  /** The left operand of a pair is ready when the pair is. */
  lemma ReadyLeft(code: seq<Op>, e: Expr, l: Expr, r: Expr, lay: List<Slot>, names: List<seq<string>>,
      stores: List<Store>, blocks: Blocks, vm: Vm)
    requires names.Cons? && blocks != [] && vm.pc >= 0 && ReadyE(code, e, lay, names, stores, blocks, vm)
    requires IsPair(e, l, r)
    requires At(code, vm.pc, GenE(l, blocks, vm.pc))
    ensures ReadyE(code, l, lay, names, stores, blocks, vm) && Fine(l, names, stores, blocks)
    ensures Here(lay, names, stores, blocks, vm)
  {
    hide *;
    ReadyIs(code, e, lay, names, stores, blocks, vm);
    PairFacts(e, l, r, names, stores, blocks);
    HereParts(lay, names, stores, blocks, vm);
    ReadyParts(code, l, r, lay, names, stores, blocks, vm, CountE(e));
    NowReady(code, l, lay, names, stores, blocks, vm);
  }

  /** And then the right operand is, from any state with the same frames. */
  lemma ReadyRight(code: seq<Op>, e: Expr, l: Expr, r: Expr, lay: List<Slot>, names: List<seq<string>>,
      stores: List<Store>, blocks: Blocks, vm: Vm, vm1: Vm, vm2: Vm)
    requires names.Cons? && blocks != [] && vm.pc >= 0 && ReadyE(code, e, lay, names, stores, blocks, vm)
    requires IsPair(e, l, r)
    requires Eval(l, names, stores).Some? && DoneE(code, l, lay, names, stores, blocks, vm, vm1)
    requires e.Binary? || (e.And? == ToBool(Eval(l, names, stores).value.0))
    requires vm2.frames == vm1.frames && vm2.pc >= 0 && At(code, vm2.pc, GenE(r, DeclE(l, blocks), vm2.pc))
    ensures ReadyE(code, r, lay, After(l, names), Eval(l, names, stores).value.1, DeclE(l, blocks), vm2)
    ensures Fine(r, After(l, names), Eval(l, names, stores).value.1, DeclE(l, blocks))
  {
    hide *;
    ReadyIs(code, e, lay, names, stores, blocks, vm);
    PairFacts(e, l, r, names, stores, blocks);
    DoneIs(code, l, lay, names, stores, blocks, vm, vm1);
    HereParts(lay, names, stores, blocks, vm);
    ReadyParts(code, l, r, lay, names, stores, blocks, vm, CountE(e));
    HereMoves(lay, After(l, names), Eval(l, names, stores).value.1, DeclE(l, blocks), vm1, vm2);
    AfterHead(l, names);
    NowReady(code, r, lay, After(l, names), Eval(l, names, stores).value.1, DeclE(l, blocks), vm2);
  }

  lemma AfterHead(e: Expr, names: List<seq<string>>)
    requires names.Cons?
    ensures After(e, names).Cons? && After(e, names).head == NamesE(e, names.head) && After(e, names).tail == names.tail
  {
  }

  lemma PairNames(e: Expr, l: Expr, r: Expr, names: List<seq<string>>, blocks: Blocks)
    requires names.Cons? && blocks != [] && IsPair(e, l, r)
    ensures After(r, After(l, names)).Cons? && After(r, After(l, names)) == After(e, names)
    ensures DeclE(r, DeclE(l, blocks)) == DeclE(e, blocks)
  {
    PairNamesE(e, l, r, names.head);
    PairNamesE(e, l, r, Back(blocks));
    hide NamesE, IsPair;
  }

  lemma PairNamesE(e: Expr, l: Expr, r: Expr, names: seq<string>)
    requires IsPair(e, l, r)
    ensures NamesE(e, names) == NamesE(r, NamesE(l, names))
  {
  }

  lemma SameShapeTrans(a: seq<Frame>, b: seq<Frame>, c: seq<Frame>)
    requires SameShape(a, b) && SameShape(b, c)
    ensures SameShape(a, c)
  {
  }

  lemma BinaryCode(code: seq<Op>, op: BinOp, l: Expr, r: Expr, blocks: Blocks, pc: nat)
    requires blocks != [] && At(code, pc, GenE(Binary(op, l, r), blocks, pc))
    ensures At(code, pc, GenE(l, blocks, pc))
    ensures var next := pc + |GenE(l, blocks, pc)|;
      && At(code, next, GenE(r, DeclE(l, blocks), next))
        && At(code, next + |GenE(r, DeclE(l, blocks), next)|, [Bin(op)])
      && |GenE(Binary(op, l, r), blocks, pc)| == |GenE(l, blocks, pc)| + |GenE(r, DeclE(l, blocks), next)| + 1
  {
    hide At, DeclE;
    var (a, b) := (GenE(l, blocks, pc), GenE(r, DeclE(l, blocks), pc + |GenE(l, blocks, pc)|));
    AtSplit(code, pc, a + b, [Bin(op)]);
    AtSplit(code, pc, a, b);
  }

  lemma BinaryEval(op: BinOp, l: Expr, r: Expr, names: List<seq<string>>, stores: List<Store>)
    requires names.Cons? && Eval(Binary(op, l, r), names, stores).Some?
    ensures Eval(l, names, stores).Some?
    ensures var (x, s1) := Eval(l, names, stores).value;
      && Eval(r, After(l, names), s1).Some?
      && var (y, s2) := Eval(r, After(l, names), s1).value;
         BinResult(op, x, y).Some? && Eval(Binary(op, l, r), names, stores) == Some((BinResult(op, x, y).value, s2))
  {
    hide BinResult, After;
  }

  lemma {:induction false} SimBinary(code: seq<Op>, op: BinOp, l: Expr, r: Expr, lay: List<Slot>,
      names: List<seq<string>>, stores: List<Store>, blocks: Blocks, vm: Vm) returns (vm': Vm)
    requires names.Cons? && blocks != [] && vm.pc >= 0 && ReadyE(code, Binary(op, l, r), lay, names, stores, blocks, vm)
    ensures Fine(Binary(op, l, r), names, stores, blocks)
    ensures DoneE(code, Binary(op, l, r), lay, names, stores, blocks, vm, vm')
    decreases Binary(op, l, r), 0
  {
    hide *;
    var e := Binary(op, l, r);
    assert IsPair(e, l, r) by { BinaryPair(op, l, r); }
    ReadyIs(code, e, lay, names, stores, blocks, vm);
    BinaryCode(code, op, l, r, blocks, vm.pc);
    FineIs(e, names, stores, blocks);
    BinaryEval(op, l, r, names, stores);
    ReadyLeft(code, e, l, r, lay, names, stores, blocks, vm);
    var vm1 := SimE(code, l, lay, names, stores, blocks, vm);
    DoneIs(code, l, lay, names, stores, blocks, vm, vm1);
    ReadyRight(code, e, l, r, lay, names, stores, blocks, vm, vm1, vm1);
    var (x, s1) := Eval(l, names, stores).value;
    AfterHead(l, names);
    var vm2 := SimE(code, r, lay, After(l, names), s1, DeclE(l, blocks), vm1);
    DoneIs(code, r, lay, After(l, names), s1, DeclE(l, blocks), vm1, vm2);
    var (y, s2) := Eval(r, After(l, names), s1).value;
    var v := BinResult(op, x, y).value;
    RunsOn(code, vm, vm1, vm2);
    SameShapeTrans(vm.frames, vm1.frames, vm2.frames);
    BinaryStep(code, op, vm, vm2, x, y, v);
    vm' := vm2.(stack := vm.stack + [v], pc := vm2.pc + 1);
    PairNames(e, l, r, names, blocks);
    HereMoves(lay, After(e, names), s2, DeclE(e, blocks), vm2, vm');
    DoneIs(code, e, lay, names, stores, blocks, vm, vm');
  }

  lemma BinaryPair(op: BinOp, l: Expr, r: Expr)
    ensures IsPair(Binary(op, l, r), l, r)
  {
  }

  lemma FineIs(e: Expr, names: List<seq<string>>, stores: List<Store>, blocks: Blocks)
    requires Fine(e, names, stores, blocks)
    ensures names.Cons? && blocks != [] && Eval(e, names, stores).Some?
  {
  }

  lemma BinaryStep(code: seq<Op>, op: BinOp, vm: Vm, vm2: Vm, x: Value, y: Value, v: Value)
    requires Runs(code, vm, vm2) && vm2.stack == (vm.stack + [x]) + [y] && At(code, vm2.pc, [Bin(op)])
    requires BinResult(op, x, y) == Some(v)
    ensures Runs(code, vm, vm2.(stack := vm.stack + [v], pc := vm2.pc + 1))
  {
    hide Runs, At, BinResult;
    assert vm2.stack[..|vm2.stack| - 2] == vm.stack;
    OneMore(code, vm, vm2, Bin(op), vm2.(stack := vm.stack + [v]));
  }

  lemma {:induction false} SimNegate(code: seq<Op>, e1: Expr, lay: List<Slot>, names: List<seq<string>>,
      stores: List<Store>, blocks: Blocks, vm: Vm)
    returns (vm': Vm)
    requires names.Cons? && blocks != [] && vm.pc >= 0 && ReadyE(code, Negate(e1), lay, names, stores, blocks, vm)
    ensures DoneE(code, Negate(e1), lay, names, stores, blocks, vm, vm')
    decreases Negate(e1), 0
  {
    AtSplit(code, vm.pc, GenE(e1, blocks, vm.pc), [Op.Not]);
    var vm1 := SimE(code, e1, lay, names, stores, blocks, vm);
    var (v, s1) := Eval(e1, names, stores).value;
    hide Rel, Runs, At, Set, NamesE;
    assert Front(vm1.stack) == vm.stack;
    OneMore(code, vm, vm1, Op.Not, vm1.(stack := vm.stack + [BoolValue(!ToBool(v))]));
    vm' := vm1.(stack := vm.stack + [BoolValue(!ToBool(v))], pc := vm1.pc + 1);
  }

  lemma LogicalCode(code: seq<Op>, e: Expr, l: Expr, r: Expr, blocks: Blocks, pc: nat)
    requires blocks != [] && (e == And(l, r) || e == Or(l, r)) && At(code, pc, GenE(e, blocks, pc))
    ensures At(code, pc, GenE(l, blocks, pc))
    ensures var next := pc + |GenE(l, blocks, pc)|;
      var b := GenE(r, DeclE(l, blocks), next + 2);
      var end := next + 2 + |b|;
      && At(code, next, [if e.And? then JumpIfFalse(end) else JumpIfTrue(end)]) && At(code, next + 1, [PopTop])
      && At(code, next + 2, b) && |GenE(e, blocks, pc)| == end - pc
  {
    hide *;
    var a := GenE(l, blocks, pc);
    var b := GenE(r, DeclE(l, blocks), pc + |a| + 2);
    var end := pc + |a| + 2 + |b|;
    var jump := if e.And? then JumpIfFalse(end) else JumpIfTrue(end);
    LogicalGen(e, l, r, blocks, pc);
    AtSplit(code, pc, a + [jump, PopTop], b);
    AtSplit(code, pc, a, [jump, PopTop]);
    assert [jump, PopTop] == [jump] + [PopTop];
    AtSplit(code, pc + |a|, [jump], [PopTop]);
  }

  lemma LogicalEval(e: Expr, l: Expr, r: Expr, names: List<seq<string>>, stores: List<Store>)
    requires names.Cons? && (e == And(l, r) || e == Or(l, r)) && Eval(e, names, stores).Some?
    ensures Eval(l, names, stores).Some? && IsPair(e, l, r)
    ensures var (x, s1) := Eval(l, names, stores).value;
      Eval(e, names, stores) == if e.And? == ToBool(x) then Eval(r, After(l, names), s1) else Some((x, s1))
  {
    hide After;
  }

  /** `and` and `or`: the left value stays on the stack when it decides. */
  lemma {:induction false} SimLogical(code: seq<Op>, e: Expr, l: Expr, r: Expr, lay: List<Slot>,
      names: List<seq<string>>, stores: List<Store>, blocks: Blocks, vm: Vm) returns (vm': Vm)
    requires names.Cons? && blocks != [] && vm.pc >= 0 && ReadyE(code, e, lay, names, stores, blocks, vm)
    requires e == And(l, r) || e == Or(l, r)
    ensures Fine(e, names, stores, blocks) && DoneE(code, e, lay, names, stores, blocks, vm, vm')
    decreases e, 0
  {
    hide *;
    ReadyIs(code, e, lay, names, stores, blocks, vm);
    LogicalCode(code, e, l, r, blocks, vm.pc);
    FineIs(e, names, stores, blocks);
    LogicalEval(e, l, r, names, stores);
    ReadyLeft(code, e, l, r, lay, names, stores, blocks, vm);
    var vm1 := SimE(code, l, lay, names, stores, blocks, vm);
    DoneIs(code, l, lay, names, stores, blocks, vm, vm1);
    var (x, s1) := Eval(l, names, stores).value;
    var end := vm.pc + |GenE(e, blocks, vm.pc)|;
    if e.And? == ToBool(x) {
      var vm2 := vm1.(pc := vm1.pc + 2, stack := vm.stack);
      ReadyRight(code, e, l, r, lay, names, stores, blocks, vm, vm1, vm2);
      JumpPasses(code, e.And?, vm, vm1, x, end);
      AfterHead(l, names);
      vm' := SimE(code, r, lay, After(l, names), s1, DeclE(l, blocks), vm2);
      DoneIs(code, r, lay, After(l, names), s1, DeclE(l, blocks), vm2, vm');
      RunsOn(code, vm, vm2, vm');
      SameShapeTrans(vm.frames, vm1.frames, vm'.frames);
      PairNames(e, l, r, names, blocks);
    } else {
      HereParts(lay, names, stores, blocks, vm);
      PairFacts(e, l, r, names, stores, blocks);
      Declared(e, l, lay, names, s1, blocks, vm1);
      JumpTaken(code, e.And?, vm, vm1, x, end);
      vm' := vm1.(pc := end);
      HereMoves(lay, After(e, names), s1, DeclE(e, blocks), vm1, vm');
    }
    DoneIs(code, e, lay, names, stores, blocks, vm, vm');
  }

  lemma JumpPasses(code: seq<Op>, onFalse: bool, vm: Vm, vm1: Vm, x: Value, end: int)
    requires Runs(code, vm, vm1) && vm1.stack == vm.stack + [x] && onFalse == ToBool(x)
    requires At(code, vm1.pc, [if onFalse then JumpIfFalse(end) else JumpIfTrue(end)]) && At(code, vm1.pc + 1, [PopTop])
    ensures Runs(code, vm, vm1.(pc := vm1.pc + 2, stack := vm.stack))
  {
    hide Runs, At, ToBool;
    OneMore(code, vm, vm1, if onFalse then JumpIfFalse(end) else JumpIfTrue(end), vm1);
    assert Front(vm1.stack) == vm.stack;
    OneMore(code, vm, vm1.(pc := vm1.pc + 1), PopTop, vm1.(pc := vm1.pc + 1, stack := vm.stack));
  }

  lemma JumpTaken(code: seq<Op>, onFalse: bool, vm: Vm, vm1: Vm, x: Value, end: int)
    requires Runs(code, vm, vm1) && vm1.stack == vm.stack + [x] && onFalse != ToBool(x)
    requires At(code, vm1.pc, [if onFalse then JumpIfFalse(end) else JumpIfTrue(end)])
    ensures Runs(code, vm, vm1.(pc := end))
  {
    hide Runs, At, ToBool;
    OneMore(code, vm, vm1, if onFalse then JumpIfFalse(end) else JumpIfTrue(end), vm1.(pc := end - 1));
  }

  lemma {:induction false} SimE(code: seq<Op>, e: Expr, lay: List<Slot>, names: List<seq<string>>, stores: List<Store>,
      blocks: Blocks, vm: Vm)
    returns (vm': Vm)
    requires names.Cons? && blocks != [] && vm.pc >= 0 && ReadyE(code, e, lay, names, stores, blocks, vm)
    ensures DoneE(code, e, lay, names, stores, blocks, vm, vm')
    decreases e, 1
  {
    hide Rel, Runs, At, Set, DeclE, GetCode, SetCode;
    match e
    case Int(n) => vm' := PushesOne(code, e, PushInt(n), IntValue(n), lay, names, stores, blocks, vm);
    case True => vm' := PushesOne(code, e, PushTrue, BoolValue(true), lay, names, stores, blocks, vm);
    case False => vm' := PushesOne(code, e, PushFalse, BoolValue(false), lay, names, stores, blocks, vm);
    case Undef => vm' := PushesOne(code, e, PushUndef, UndefValue, lay, names, stores, blocks, vm);
    case Var(x) =>
      NothingDeclared(e, names, blocks);
      vm' := GetRuns(code, x, lay, names, stores, blocks, vm);
    case Assign(x, e1) => vm' := SimAssign(code, e, e1, x, lay, names, stores, blocks, vm);
    case MyAssign(x, e1) => vm' := SimAssign(code, e, e1, x, lay, names, stores, blocks, vm);
    case My(x) => vm' := SimMy(code, x, lay, names, stores, blocks, vm);
    case Binary(op, l, r) => vm' := SimBinary(code, op, l, r, lay, names, stores, blocks, vm);
    case Negate(e1) => vm' := SimNegate(code, e1, lay, names, stores, blocks, vm);
    case And(l, r) => vm' := SimLogical(code, e, l, r, lay, names, stores, blocks, vm);
    case Or(l, r) => vm' := SimLogical(code, e, l, r, lay, names, stores, blocks, vm);
  }
}
