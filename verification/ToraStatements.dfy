/** The same for statements: blocks, conditions, loops and `last`. */
module ToraStatements {
  import opened Basics
  import opened ToraMachine
  import opened ToraSyntax
  import opened ToraCompiler
  import opened ToraCorrect

  // ----- the stack below the frame -----

  ghost predicate Tops(frames: seq<Frame>) {
    forall k :: 0 < k < |frames| ==> frames[k - 1].top <= frames[k].top
  }

  ghost predicate Sane(vm: Vm) {
    vm.frames != [] && Back(vm.frames).top <= |vm.stack| && Tops(vm.frames)
  }

  /** Nothing below the top of the current frame has changed. */
  ghost predicate Kept(vm: Vm, vm': Vm)
    requires vm.frames != []
  {
    Back(vm.frames).top <= |vm.stack| && Back(vm.frames).top <= |vm'.stack|
    && vm'.stack[..Back(vm.frames).top] == vm.stack[..Back(vm.frames).top]
  }

  lemma ShapeSane(vm: Vm, vm': Vm)
    requires Sane(vm) && SameShape(vm.frames, vm'.frames) && Kept(vm, vm')
    ensures Sane(vm')
  {
    forall k | 0 < k < |vm'.frames| ensures vm'.frames[k - 1].top <= vm'.frames[k].top {
      assert vm.frames[k - 1].top <= vm.frames[k].top;
    }
  }

  lemma KeptTrans(a: Vm, b: Vm, c: Vm)
    requires a.frames != [] && b.frames != [] && SameShape(a.frames, b.frames) && Kept(a, b) && Kept(b, c)
    ensures Kept(a, c)
  {
  }

  // ----- where `last` goes -----

  /** Scope `m`, counted from the inside, belongs to the innermost loop; `d` frames go. */
  ghost predicate LoopAt(frames: seq<Frame>, d: nat) {
    0 < d <= |frames| && IsLoop(frames[|frames| - d].kind) && forall k :: |frames| - d < k < |frames| ==>
        !IsLoop(frames[k].kind)
  }

  ghost function Reals(lay: List<Slot>, m: nat): nat {
    if m == 0 || lay.Nil? then 0 else (if lay.head.own then 1 else 0) + Reals(lay.tail, m - 1)
  }

  function Drop<T>(l: List<T>, m: nat): List<T> {
    if m == 0 || l.Nil? then l else Drop(l.tail, m - 1)
  }

  lemma {:induction false} Unwinds(stack: seq<Value>, frames: seq<Frame>, d: nat)
    requires LoopAt(frames, d) && Tops(frames) && Back(frames).top <= |stack|
    ensures frames[|frames| - d].top <= |stack|
    ensures UnwindLoop(stack, frames) == Some((stack[..frames[|frames| - d].top], frames[..|frames| - d]))
    decreases d
  {
    if d > 1 {
      var s := stack[..Back(frames).top];
      assert Front(frames)[|frames| - d] == frames[|frames| - d];
      Unwinds(s, Front(frames), d - 1);
      assert Front(frames)[..|frames| - d] == frames[..|frames| - d];
      assert s[..frames[|frames| - d].top] == stack[..frames[|frames| - d].top];
    }
  }

  lemma {:induction false} DropRel(lay: List<Slot>, names: List<seq<string>>, stores: List<Store>, blocks: Blocks,
      frames: seq<Frame>, m: nat)
    requires Rel(lay, names, stores, blocks, frames)
    ensures Reals(lay, m) <= |frames| == |blocks|
    ensures Rel(Drop(lay, m), Drop(names, m), Drop(stores, m), blocks[..|blocks| - Reals(lay, m)],
        frames[..|frames| - Reals(lay, m)])
    decreases m
  {
    RelSizes(lay, names, stores, blocks, frames);
    if m == 0 || lay.Nil? {
      assert blocks[..|blocks|] == blocks && frames[..|frames|] == frames;
    } else if lay.head.own {
      DropRel(lay.tail, names.tail, stores.tail, Front(blocks), Front(frames), m - 1);
      var d := Reals(lay.tail, m - 1);
      assert Front(blocks)[..|blocks| - 1 - d] == blocks[..|blocks| - 1 - d];
      assert Front(frames)[..|frames| - 1 - d] == frames[..|frames| - 1 - d];
    } else {
      DropRel(lay.tail, names.tail, stores.tail, blocks, frames, m - 1);
    }
  }

  // ----- outcomes -----

  /** The statement's code is through. */
  ghost predicate Through(code: seq<Op>, lay: List<Slot>, names: List<seq<string>>, stores: List<Store>, blocks: Blocks,
      vm: Vm, vm': Vm, n: nat)
  {
    && vm.frames != [] && Runs(code, vm, vm') && vm'.pc == vm.pc + n && SameShape(vm.frames, vm'.frames)
      && Kept(vm, vm')
    && Here(lay, names, stores, blocks, vm')
  }

  /** The loop that scope `m` belongs to is left, with all its frames. */
  ghost predicate Broke(code: seq<Op>, lay: List<Slot>, names: List<seq<string>>, stores: List<Store>, blocks: Blocks,
      vm: Vm, vm': Vm, m: nat, brk: int)
  {
    var (n, d) := (|vm.frames|, Reals(lay, m));
    && Runs(code, vm, vm') && vm'.pc == brk + 1 && 0 < d <= n == |blocks| && vm.frames[n - d].top <= |vm.stack|
    && vm'.stack == vm.stack[..vm.frames[n - d].top] && SameShape(vm.frames[..n - d], vm'.frames)
    && Rel(Drop(lay, m), Drop(names, m), Drop(stores, m), blocks[..n - d], vm'.frames)
  }

  ghost predicate ReadyS(code: seq<Op>, s: Stmt, lay: List<Slot>, names: List<seq<string>>, stores: List<Store>,
      blocks: Blocks, vm: Vm, m: nat, brk: int)
  {
    && Here(lay, names, stores, blocks, vm) && Room(lay, names, NamesS(s, names.head), CountS(s)) && Sane(vm)
    && vm.pc >= 0 && At(code, vm.pc, Gen(s, blocks, vm.pc, brk, false)) && ErrS(s, blocks, m > 0) == 0
      && AddrS(s, blocks)
    && (m > 0 ==> LoopAt(vm.frames, Reals(lay, m)))
  }

  ghost predicate DoneS(code: seq<Op>, s: Stmt, lay: List<Slot>, names: List<seq<string>>, blocks: Blocks, vm: Vm,
      vm': Vm, m: nat, brk: int, o: Outcome)
    requires names.Cons? && blocks != []
  {
    match o
    case Normal(stores) => Through(code, lay, AfterS(s, names), stores, DeclS(s, blocks), vm, vm', LenS(s, blocks))
    case Broken(stores) => m > 0 && Broke(code, lay, names, stores, blocks, vm, vm', m, brk)
    case Stuck => false
  }

  // ----- `last` -----

  lemma SimLast(code: seq<Op>, lay: List<Slot>, names: List<seq<string>>, stores: List<Store>, blocks: Blocks, vm: Vm,
      m: nat, brk: int)
    returns (vm': Vm)
    requires names.Cons? && blocks != [] && ReadyS(code, Last, lay, names, stores, blocks, vm, m, brk)
    ensures m > 0 && Broke(code, lay, names, stores, blocks, vm, vm', m, brk)
  {
    var d := Reals(lay, m);
    Unwinds(vm.stack, vm.frames, d);
    DropRel(lay, names, stores, blocks, vm.frames, m);
    RunsNone(code, vm);
    hide Rel, At, Runs, UnwindLoop, Reals, Drop;
    var after := Vm(brk, vm.stack[..vm.frames[|vm.frames| - d].top], vm.frames[..|vm.frames| - d]);
    OneMore(code, vm, vm, LastOp(brk), after);
    vm' := after.(pc := brk + 1);
  }

  // ----- scopes -----

  lemma EnteredRel(lay: List<Slot>, names: List<seq<string>>, stores: List<Store>, blocks: Blocks, frames: seq<Frame>,
      full: seq<string>, f: Frame)
    requires Rel(lay, names, stores, blocks, frames) && NoDuplicates(full) && f.pad == []
    ensures Rel(Cons(Slot(true, full), lay), Cons([], names), Cons(map[], stores), Inner(blocks), frames + [f])
  {
    hide Rel;
    assert Front(Inner(blocks)) == blocks && Back(Inner(blocks)) == [] && Front(frames + [f]) == frames;
    assert Back(frames + [f]) == f;
    OwnRel(Slot(true, full), lay, Cons([], names), Cons(map[], stores), Inner(blocks), frames + [f]);
  }

  lemma OwnRel(slot: Slot, lay: List<Slot>, names: List<seq<string>>, stores: List<Store>, blocks: Blocks,
      frames: seq<Frame>)
    requires slot.own && names.Cons? && stores.Cons? && blocks != [] && frames != []
    requires names.head == Back(blocks) && names.head <= slot.full && NoDuplicates(slot.full)
    requires Holds(slot.full, stores.head, Back(frames).pad)
    requires Rel(lay, names.tail, stores.tail, Front(blocks), Front(frames))
    ensures Rel(Cons(slot, lay), names, stores, blocks, frames)
  {
  }

  lemma ElidedRel(lay: List<Slot>, names: List<seq<string>>, stores: List<Store>, blocks: Blocks, frames: seq<Frame>)
    requires Rel(lay, names, stores, blocks, frames)
    ensures Rel(Cons(Slot(false, []), lay), Cons([], names), Cons(map[], stores), blocks, frames)
  {
  }

  lemma LeftRel(lay: List<Slot>, slot: Slot, names: List<seq<string>>, stores: List<Store>, blocks: Blocks,
      frames: seq<Frame>)
    requires Rel(Cons(slot, lay), names, stores, blocks, frames)
    ensures names.Cons? && stores.Cons? && (slot.own ==> blocks != [] && frames != [])
    ensures Rel(lay, names.tail, stores.tail, if slot.own then Front(blocks) else blocks,
        if slot.own then Front(frames) else frames)
  {
  }

  // ----- one thing after another -----

  /** Names and blocks that differ in the current scope only. */
  ghost predicate SameOutside(names: List<seq<string>>, names': List<seq<string>>, blocks: Blocks, blocks': Blocks) {
    && names.Cons? && names'.Cons? && names.tail == names'.tail
    && blocks != [] && |blocks| == |blocks'| && Front(blocks) == Front(blocks')
  }

  lemma PrefixOfFront<T>(a: seq<T>, b: seq<T>, k: nat)
    requires a != [] && |a| == |b| && Front(a) == Front(b) && k < |a|
    ensures a[..k] == b[..k]
  {
    assert a[..k] == Front(a)[..k] && b[..k] == Front(b)[..k];
  }

  lemma BrokeFrom(code: seq<Op>, lay: List<Slot>, names: List<seq<string>>, names1: List<seq<string>>,
      stores: List<Store>, blocks: Blocks, blocks1: Blocks, vm: Vm, vm1: Vm, vm': Vm, m: nat, brk: int)
    requires m > 0 && Runs(code, vm, vm1) && SameShape(vm.frames, vm1.frames) && Sane(vm) && Kept(vm, vm1)
    requires SameOutside(names, names1, blocks, blocks1) && Broke(code, lay, names1, stores, blocks1, vm1, vm', m, brk)
    ensures Broke(code, lay, names, stores, blocks, vm, vm', m, brk)
  {
    var (n, d) := (|vm.frames|, Reals(lay, m));
    RunsOn(code, vm, vm1, vm');
    TopsUp(vm.frames, n - d, n - 1);
    PrefixOfFront(blocks, blocks1, n - d);
    DropTail(names, names1, m);
    hide Runs, Rel, Drop, Reals;
    var top := vm.frames[n - d].top;
    assert vm1.stack[..top] == vm1.stack[..Back(vm.frames).top][..top];
    assert vm.stack[..top] == vm.stack[..Back(vm.frames).top][..top];
    assert SameShape(vm.frames[..n - d], vm'.frames);
  }

  lemma {:induction false} TopsUp(frames: seq<Frame>, i: nat, j: nat)
    requires Tops(frames) && i <= j < |frames|
    ensures frames[i].top <= frames[j].top
    decreases j - i
  {
    if i < j {
      TopsUp(frames, i, j - 1);
      assert frames[j - 1].top <= frames[j].top;
    }
  }

  lemma DropTail(names: List<seq<string>>, names1: List<seq<string>>, m: nat)
    requires m > 0 && names.Cons? && names1.Cons? && names.tail == names1.tail
    ensures Drop(names, m) == Drop(names1, m)
  {
  }

  /** A part that is through, and then the outcome of the rest. */
  lemma ThenDone(code: seq<Op>, whole: Stmt, rest: Stmt, lay: List<Slot>, names: List<seq<string>>,
      names1: List<seq<string>>, stores1: List<Store>, blocks: Blocks, blocks1: Blocks, vm: Vm, vm1: Vm, vm': Vm,
      m: nat, brk: int, n: nat, o: Outcome)
    requires names.Cons? && names1.Cons? && blocks != [] && blocks1 != [] && Sane(vm)
    requires Through(code, lay, names1, stores1, blocks1, vm, vm1, n)
    requires DoneS(code, rest, lay, names1, blocks1, vm1, vm', m, brk, o)
    requires SameOutside(names, names1, blocks, blocks1)
    requires AfterS(whole, names) == AfterS(rest, names1) && DeclS(whole, blocks) == DeclS(rest, blocks1)
    requires LenS(whole, blocks) == n + LenS(rest, blocks1)
    ensures DoneS(code, whole, lay, names, blocks, vm, vm', m, brk, o)
  {
    hide Runs, Rel, Broke, AfterS, DeclS, LenS, Here;
    if o.Normal? {
      RunsOn(code, vm, vm1, vm');
      SameShapeTrans(vm.frames, vm1.frames, vm'.frames);
      KeptTrans(vm, vm1, vm');
    } else {
      BrokeFrom(code, lay, names, names1, o.stores, blocks, blocks1, vm, vm1, vm', m, brk);
    }
  }

  lemma SimDo(code: seq<Op>, e: Expr, lay: List<Slot>, names: List<seq<string>>, stores: List<Store>, blocks: Blocks,
      vm: Vm, m: nat, brk: int)
    returns (vm': Vm)
    requires names.Cons? && blocks != [] && ReadyS(code, Do(e), lay, names, stores, blocks, vm, m, brk)
    requires Eval(e, names, stores).Some?
    ensures DoneS(code, Do(e), lay, names, blocks, vm, vm', m, brk, Normal(Eval(e, names, stores).value.1))
  {
    assert ReadyE(code, e, lay, names, stores, blocks, vm) by {
      hide Rel, At, GenE, ErrE, AddrE, NamesE, CountE, Eval, LoopAt, Tops;
    }
    hide *;
    SaneIs(code, Do(e), lay, names, stores, blocks, vm, m, brk);
    ReadyIs(code, e, lay, names, stores, blocks, vm);
    vm' := SimE(code, e, lay, names, stores, blocks, vm);
    DoneIs(code, e, lay, names, stores, blocks, vm, vm');
    GenELen(e, blocks, vm.pc);
    DoThrough(code, e, lay, names, stores, blocks, vm, vm', m, brk);
  }

  lemma SaneIs(code: seq<Op>, s: Stmt, lay: List<Slot>, names: List<seq<string>>, stores: List<Store>, blocks: Blocks,
      vm: Vm, m: nat, brk: int)
    requires ReadyS(code, s, lay, names, stores, blocks, vm, m, brk)
    ensures Sane(vm) && Here(lay, names, stores, blocks, vm) && vm.pc >= 0
  {
  }

  lemma DoThrough(code: seq<Op>, e: Expr, lay: List<Slot>, names: List<seq<string>>, stores: List<Store>,
      blocks: Blocks, vm: Vm, vm': Vm, m: nat, brk: int)
    requires names.Cons? && blocks != [] && Sane(vm) && Eval(e, names, stores).Some?
    requires var (v, after) := Eval(e, names, stores).value;
      && Runs(code, vm, vm') && vm'.pc == vm.pc + LenE(e, blocks) && vm'.stack == vm.stack + [v]
      && SameShape(vm.frames, vm'.frames) && Here(lay, After(e, names), after, DeclE(e, blocks), vm')
    ensures DoneS(code, Do(e), lay, names, blocks, vm, vm', m, brk, Normal(Eval(e, names, stores).value.1))
  {
    hide Runs, Rel, LenE, NamesE, Eval, SameShape;
  }

  lemma NextCode(code: seq<Op>, s1: Stmt, rest: Stmt, blocks: Blocks, pc: nat, brk: int)
    requires blocks != [] && At(code, pc, Gen(Next(s1, rest), blocks, pc, brk, false))
    ensures At(code, pc, [NextState]) && At(code, pc + 1, Gen(s1, blocks, pc + 1, brk, false))
    ensures At(code, pc + 1 + LenS(s1, blocks), Gen(rest, DeclS(s1, blocks), pc + 1 + LenS(s1, blocks), brk, false))
  {
    hide At, LenS, DeclS, FirstLabel, HasLoop;
    var (a, b) := (Gen(s1, blocks, pc + 1, brk, false), Gen(rest, DeclS(s1, blocks), pc + 1 + LenS(s1, blocks), brk,
        false));
    GenLength(s1, blocks, pc + 1, brk, false);
    AtSplit(code, pc, [NextState] + a, b);
    AtSplit(code, pc, [NextState], a);
  }

  lemma NextStateRuns(code: seq<Op>, lay: List<Slot>, names: List<seq<string>>, stores: List<Store>, blocks: Blocks,
      vm: Vm) returns (vm': Vm)
    requires Here(lay, names, stores, blocks, vm) && Sane(vm) && At(code, vm.pc, [NextState])
    ensures Through(code, lay, names, stores, blocks, vm, vm', 1) && Sane(vm') && vm'.frames == vm.frames
  {
    hide At, Runs, Rel;
    RunsNone(code, vm);
    var after := vm.(stack := vm.stack[..Back(vm.frames).top]);
    OneMore(code, vm, vm, NextState, after);
    vm' := after.(pc := vm.pc + 1);
  }

  /** What the parts of a statement list need. */
  lemma NextParts(s1: Stmt, rest: Stmt, lay: List<Slot>, names: List<seq<string>>, blocks: Blocks, inLoop: bool)
    requires names.Cons? && blocks != [] && lay.Cons? && NoDuplicates(names.head)
    requires Room(lay, names, NamesS(Next(s1, rest), names.head), CountS(Next(s1, rest)))
    requires ErrS(Next(s1, rest), blocks, inLoop) == 0 && AddrS(Next(s1, rest), blocks)
    ensures Room(lay, names, NamesS(s1, names.head), CountS(s1)) && ErrS(s1, blocks, inLoop) == 0 && AddrS(s1, blocks)
    ensures Room(lay, AfterS(s1, names), NamesS(rest, NamesS(s1, names.head)), CountS(rest))
    ensures ErrS(rest, DeclS(s1, blocks), inLoop) == 0 && AddrS(rest, DeclS(s1, blocks))
    ensures AfterS(Next(s1, rest), names) == AfterS(rest, AfterS(s1, names))
    ensures DeclS(Next(s1, rest), blocks) == DeclS(rest, DeclS(s1, blocks))
    ensures LenS(Next(s1, rest), blocks) == 1 + LenS(s1, blocks) + LenS(rest, DeclS(s1, blocks))
    ensures SameOutside(names, AfterS(s1, names), blocks, DeclS(s1, blocks))
  {
    NamesGrowS(s1, names.head);
    NamesGrowS(rest, NamesS(s1, names.head));
  }

  lemma ThroughTrans(code: seq<Op>, lay: List<Slot>, names1: List<seq<string>>, stores1: List<Store>, blocks1: Blocks,
      names2: List<seq<string>>, stores2: List<Store>, blocks2: Blocks, vm: Vm, vm1: Vm, vm2: Vm, n: nat, k: nat)
    requires Through(code, lay, names1, stores1, blocks1, vm, vm1, n)
    requires Through(code, lay, names2, stores2, blocks2, vm1, vm2, k)
    ensures Through(code, lay, names2, stores2, blocks2, vm, vm2, n + k)
  {
    hide Runs, Here;
    RunsOn(code, vm, vm1, vm2);
    SameShapeTrans(vm.frames, vm1.frames, vm2.frames);
    KeptTrans(vm, vm1, vm2);
  }

  lemma NowReadyS(code: seq<Op>, s: Stmt, lay: List<Slot>, names: List<seq<string>>, stores: List<Store>,
      blocks: Blocks, vm: Vm, m: nat, brk: int)
    requires Here(lay, names, stores, blocks, vm) && names.Cons? && blocks != []
    requires Room(lay, names, NamesS(s, names.head), CountS(s)) && Sane(vm)
    requires vm.pc >= 0 && At(code, vm.pc, Gen(s, blocks, vm.pc, brk, false)) && ErrS(s, blocks, m > 0) == 0
    requires AddrS(s, blocks)
    requires m > 0 ==> LoopAt(vm.frames, Reals(lay, m))
    ensures ReadyS(code, s, lay, names, stores, blocks, vm, m, brk)
  {
    hide At, Gen, LoopAt, Reals, ErrS, AddrS, NamesS, CountS, Rel;
  }

  lemma ReadySIs(code: seq<Op>, s: Stmt, lay: List<Slot>, names: List<seq<string>>, stores: List<Store>, blocks: Blocks,
      vm: Vm, m: nat, brk: int)
    requires ReadyS(code, s, lay, names, stores, blocks, vm, m, brk)
    ensures Here(lay, names, stores, blocks, vm) && names.Cons? && blocks != []
    ensures Room(lay, names, NamesS(s, names.head), CountS(s)) && Sane(vm)
    ensures vm.pc >= 0 && At(code, vm.pc, Gen(s, blocks, vm.pc, brk, false)) && ErrS(s, blocks, m > 0) == 0
    ensures AddrS(s, blocks)
    ensures m > 0 ==> LoopAt(vm.frames, Reals(lay, m))
    ensures lay.Cons? && NoDuplicates(names.head) && vm.frames != []
  {
    HereParts(lay, names, stores, blocks, vm);
    RelDistinct(lay, names, stores, blocks, vm.frames);
    hide At, Gen, LoopAt, Reals, ErrS, AddrS, NamesS, CountS, Rel;
  }

  lemma ThroughIs(code: seq<Op>, lay: List<Slot>, names: List<seq<string>>, stores: List<Store>, blocks: Blocks, vm: Vm,
      vm': Vm, n: nat)
    requires Sane(vm) && Through(code, lay, names, stores, blocks, vm, vm', n)
    ensures Runs(code, vm, vm') && vm'.pc == vm.pc + n && SameShape(vm.frames, vm'.frames) && Kept(vm, vm')
    ensures vm.frames != [] && Here(lay, names, stores, blocks, vm') && Sane(vm')
    ensures names.Cons? && blocks != []
  {
    hide Runs, Rel;
    ShapeSane(vm, vm');
  }

  lemma ShapeLoop(f: seq<Frame>, f': seq<Frame>, d: nat)
    requires SameShape(f, f') && LoopAt(f, d)
    ensures LoopAt(f', d)
  {
  }

  /** The rest of a list after its first statement. */
  lemma RestReady(code: seq<Op>, s1: Stmt, rest: Stmt, lay: List<Slot>, names: List<seq<string>>, stores: List<Store>,
      stores1: List<Store>, blocks: Blocks, vm: Vm, vm2: Vm, m: nat, brk: int)
    requires ReadyS(code, Next(s1, rest), lay, names, stores, blocks, vm, m, brk) && names.Cons? && blocks != []
    requires Through(code, lay, AfterS(s1, names), stores1, DeclS(s1, blocks), vm, vm2, 1 + LenS(s1, blocks))
    ensures ReadyS(code, rest, lay, AfterS(s1, names), stores1, DeclS(s1, blocks), vm2, m, brk)
  {
    hide *;
    ReadySIs(code, Next(s1, rest), lay, names, stores, blocks, vm, m, brk);
    NextParts(s1, rest, lay, names, blocks, m > 0);
    NextCode(code, s1, rest, blocks, vm.pc, brk);
    ThroughIs(code, lay, AfterS(s1, names), stores1, DeclS(s1, blocks), vm, vm2, 1 + LenS(s1, blocks));
    if m > 0 { ShapeLoop(vm.frames, vm2.frames, Reals(lay, m)); }
    AfterSHead(s1, names);
    NowReadyS(code, rest, lay, AfterS(s1, names), stores1, DeclS(s1, blocks), vm2, m, brk);
  }

  lemma AfterSHead(s: Stmt, names: List<seq<string>>)
    requires names.Cons?
    ensures AfterS(s, names).Cons? && AfterS(s, names).head == NamesS(s, names.head)
    ensures AfterS(s, names).tail == names.tail
  {
  }

  lemma DoneNormal(code: seq<Op>, s: Stmt, lay: List<Slot>, names: List<seq<string>>, stores: List<Store>,
      blocks: Blocks, vm: Vm, vm': Vm, m: nat, brk: int)
    requires names.Cons? && blocks != []
    ensures DoneS(code, s, lay, names, blocks, vm, vm', m, brk, Normal(stores))
      <==> Through(code, lay, AfterS(s, names), stores, DeclS(s, blocks), vm, vm', LenS(s, blocks))
  {
    hide Through;
  }

  lemma DoneBroken(code: seq<Op>, s: Stmt, lay: List<Slot>, names: List<seq<string>>, stores: List<Store>,
      blocks: Blocks, vm: Vm, vm': Vm, m: nat, brk: int)
    requires names.Cons? && blocks != []
    ensures DoneS(code, s, lay, names, blocks, vm, vm', m, brk, Broken(stores))
      <==> m > 0 && Broke(code, lay, names, stores, blocks, vm, vm', m, brk)
  {
    hide Broke;
  }

  lemma NextExec(s1: Stmt, rest: Stmt, names: List<seq<string>>, stores: List<Store>, fuel: nat)
    requires names.Cons? && Exec(Next(s1, rest), names, stores, fuel) != Stuck
    ensures Exec(s1, names, stores, fuel) != Stuck
    ensures AfterS(s1, names).Cons?
    ensures Exec(Next(s1, rest), names, stores, fuel) ==
      match Exec(s1, names, stores, fuel)
      case Normal(st) => Exec(rest, AfterS(s1, names), st, fuel)
      case Broken(st) => Broken(st)
      case Stuck => Stuck
  {
    hide AfterS;
  }

  lemma {:induction false} SimNext(code: seq<Op>, s1: Stmt, rest: Stmt, lay: List<Slot>, names: List<seq<string>>,
      stores: List<Store>, blocks: Blocks, vm: Vm, m: nat, brk: int, fuel: nat) returns (vm': Vm)
    requires names.Cons? && blocks != [] && ReadyS(code, Next(s1, rest), lay, names, stores, blocks, vm, m, brk)
    requires Exec(Next(s1, rest), names, stores, fuel) != Stuck
    ensures DoneS(code, Next(s1, rest), lay, names, blocks, vm, vm', m, brk, Exec(Next(s1, rest), names, stores, fuel))
    decreases fuel, Next(s1, rest), 0
  {
    hide *;
    ReadySIs(code, Next(s1, rest), lay, names, stores, blocks, vm, m, brk);
    NextParts(s1, rest, lay, names, blocks, m > 0);
    NextCode(code, s1, rest, blocks, vm.pc, brk);
    NextExec(s1, rest, names, stores, fuel);
    var vm1 := NextStateRuns(code, lay, names, stores, blocks, vm);
    ThroughIs(code, lay, names, stores, blocks, vm, vm1, 1);
    NowReadyS(code, s1, lay, names, stores, blocks, vm1, m, brk);
    var vm2 := SimS(code, s1, lay, names, stores, blocks, vm1, m, brk, fuel);
    match Exec(s1, names, stores, fuel) {
      case Normal(st) =>
        DoneNormal(code, s1, lay, names, st, blocks, vm1, vm2, m, brk);
        ThroughTrans(code, lay, names, stores, blocks, AfterS(s1, names), st, DeclS(s1, blocks), vm, vm1, vm2, 1,
            LenS(s1, blocks));
        RestReady(code, s1, rest, lay, names, stores, st, blocks, vm, vm2, m, brk);
        vm' := SimS(code, rest, lay, AfterS(s1, names), st, DeclS(s1, blocks), vm2, m, brk, fuel);
        ThenDone(code, Next(s1, rest), rest, lay, names, AfterS(s1, names), st, blocks, DeclS(s1, blocks), vm, vm2, vm',
            m, brk,
                 1 + LenS(s1, blocks), Exec(Next(s1, rest), names, stores, fuel));
      case Broken(st) =>
        vm' := vm2;
        DoneBroken(code, s1, lay, names, st, blocks, vm1, vm2, m, brk);
        OutsideSelf(names, blocks);
        BrokeFrom(code, lay, names, names, st, blocks, blocks, vm, vm1, vm', m, brk);
        DoneBroken(code, Next(s1, rest), lay, names, st, blocks, vm, vm', m, brk);
    }
  }

  lemma OutsideSelf(names: List<seq<string>>, blocks: Blocks)
    requires names.Cons? && blocks != []
    ensures SameOutside(names, names, blocks, blocks)
  {
  }

  // ----- entering and leaving frames -----

  lemma EnterRuns(code: seq<Op>, op: Op, kind: Kind, full: seq<string>, lay: List<Slot>, names: List<seq<string>>,
      stores: List<Store>, blocks: Blocks, vm: Vm) returns (vm1: Vm)
    requires Here(lay, names, stores, blocks, vm) && Sane(vm) && At(code, vm.pc, [op]) && NoDuplicates(full)
    requires Execute(op, vm) == Some(vm.(frames := vm.frames + [Frame(|vm.stack|, kind, [])]))
    ensures Runs(code, vm, vm1) && vm1.pc == vm.pc + 1 && vm1.stack == vm.stack
    ensures vm1.frames == vm.frames + [Frame(|vm.stack|, kind, [])] && Sane(vm1) && Front(vm1.frames) == vm.frames
    ensures Back(vm1.frames).top == |vm1.stack|
    ensures Here(Cons(Slot(true, full), lay), Cons([], names), Cons(map[], stores), Inner(blocks), vm1)
    ensures Front(Inner(blocks)) == blocks
  {
    RunsNone(code, vm);
    EnteredRel(lay, names, stores, blocks, vm.frames, full, Frame(|vm.stack|, kind, []));
    hide Rel, Runs, At, Execute;
    var after := vm.(frames := vm.frames + [Frame(|vm.stack|, kind, [])]);
    OneMore(code, vm, vm, op, after);
    vm1 := after.(pc := vm.pc + 1);
    assert Front(vm1.frames) == vm.frames && Front(Inner(blocks)) == blocks;
  }

  /** OP_LEAVE at the end of a scope that was entered as `vm1`. */
  lemma LeaveRuns(code: seq<Op>, full: seq<string>, lay: List<Slot>, namesIn: List<seq<string>>, storesIn: List<Store>,
      blocksIn: Blocks, vm: Vm, vm1: Vm, vm2: Vm) returns (vm3: Vm)
    requires vm.frames != [] && Runs(code, vm, vm1) && vm1.stack == vm.stack && vm1.frames != []
    requires Front(vm1.frames) == vm.frames
    requires Back(vm1.frames).top == |vm.stack| && Runs(code, vm1, vm2) && SameShape(vm1.frames, vm2.frames)
    requires Kept(vm1, vm2)
    requires Here(Cons(Slot(true, full), lay), namesIn, storesIn, blocksIn, vm2) && At(code, vm2.pc, [Op.Leave])
    ensures Runs(code, vm, vm3) && vm3.pc == vm2.pc + 1 && vm3.stack == vm.stack && SameShape(vm.frames, vm3.frames)
    ensures namesIn.Cons? && storesIn.Cons? && blocksIn != []
    ensures Rel(lay, namesIn.tail, storesIn.tail, Front(blocksIn), vm3.frames)
  {
    LeftRel(lay, Slot(true, full), namesIn, storesIn, blocksIn, vm2.frames);
    hide Rel, Runs, At;
    RunsOn(code, vm, vm1, vm2);
    var after := vm2.(stack := vm2.stack[..Back(vm2.frames).top], frames := Front(vm2.frames));
    assert Execute(Op.Leave, vm2) == Some(after);
    OneMore(code, vm, vm2, Op.Leave, after);
    vm3 := after.(pc := vm2.pc + 1);
    assert vm1.stack[..|vm.stack|] == vm.stack;
    forall k | 0 <= k < |vm.frames|
      ensures vm.frames[k].top == vm3.frames[k].top && vm.frames[k].kind == vm3.frames[k].kind
    {
      assert vm.frames[k] == vm1.frames[k] && vm3.frames[k] == vm2.frames[k];
    }
  }

  lemma InnerLoop(frames: seq<Frame>, f: Frame, lay: List<Slot>, full: seq<string>, m: nat)
    requires m > 0 && LoopAt(frames, Reals(lay, m)) && !IsLoop(f.kind)
    ensures LoopAt(frames + [f], Reals(Cons(Slot(true, full), lay), m + 1))
  {
    var (n, d) := (|frames|, Reals(lay, m));
    var more := frames + [f];
    assert more[n - d] == frames[n - d];
    forall k | n - d < k < n + 1 ensures !IsLoop(more[k].kind) {
      if k < n { assert more[k] == frames[k]; }
    }
  }

  /** Leaving the loop from an inner scope leaves it from the outer one. */
  lemma BrokeOut(code: seq<Op>, slot: Slot, lay: List<Slot>, names: List<seq<string>>, namesIn: List<seq<string>>,
      stores: List<Store>, blocks: Blocks, blocksIn: Blocks, vm: Vm, vm1: Vm, vm': Vm, m: nat, brk: int)
    requires m > 0 && Runs(code, vm, vm1) && vm1.stack == vm.stack && |blocks| == |vm.frames| > 0 && 0 < Reals(lay, m)
    requires blocksIn != []
    requires if slot.own then vm1.frames != [] && Front(vm1.frames) == vm.frames && Front(blocksIn) == blocks
             else vm1.frames == vm.frames && |blocksIn| == |blocks| && Front(blocksIn) == Front(blocks)
    requires namesIn.Cons? && namesIn.tail == names && stores.Cons?
    requires Broke(code, Cons(slot, lay), namesIn, stores, blocksIn, vm1, vm', m + 1, brk)
    ensures Broke(code, lay, names, stores.tail, blocks, vm, vm', m, brk)
  {
    hide Runs, Rel, Drop, Reals, SameShape;
    var (n, d) := (|vm.frames|, Reals(lay, m));
    RunsOn(code, vm, vm1, vm');
    OneDown(slot, lay, m);
    DropOne(slot, lay, m);
    DropOne(namesIn.head, names, m);
    DropOne(stores.head, stores.tail, m);
    if slot.own {
      FrontPrefix(vm1.frames, n - d);
      FrontPrefix(blocksIn, n - d);
      assert vm1.frames[n - d] == Front(vm1.frames)[n - d];
    } else {
      PrefixOfFront(blocksIn, blocks, n - d);
    }
  }

  lemma OneDown(slot: Slot, lay: List<Slot>, m: nat)
    ensures Reals(Cons(slot, lay), m + 1) == Reals(lay, m) + if slot.own then 1 else 0
  {
  }

  lemma DropOne<T>(x: T, l: List<T>, m: nat)
    ensures Drop(Cons(x, l), m + 1) == Drop(l, m)
  {
  }

  lemma FrontPrefix<T>(a: seq<T>, k: nat)
    requires a != [] && k < |a|
    ensures a[..k] == Front(a)[..k]
  {
  }

  /** State `vm1` is `vm` after the operation that enters a lexical scope. */
  ghost predicate Entered(code: seq<Op>, full: seq<string>, lay: List<Slot>, names: List<seq<string>>,
      stores: List<Store>, blocks: Blocks, vm: Vm, vm1: Vm, m: nat)
  {
    && Runs(code, vm, vm1) && vm1.pc == vm.pc + 1 && vm1.stack == vm.stack && Sane(vm) && Sane(vm1)
    && vm1.frames != [] && Front(vm1.frames) == vm.frames && Back(vm1.frames).top == |vm.stack|
    && Here(lay, names, stores, blocks, vm)
    && Here(Cons(Slot(true, full), lay), Cons([], names), Cons(map[], stores), Inner(blocks), vm1)
    && (m > 0 ==> LoopAt(vm.frames, Reals(lay, m)) && LoopAt(vm1.frames, Reals(Cons(Slot(true, full), lay), m + 1)))
  }

  lemma EnterScope(code: seq<Op>, n: nat, full: seq<string>, lay: List<Slot>, names: List<seq<string>>,
      stores: List<Store>, blocks: Blocks, vm: Vm, m: nat) returns (vm1: Vm)
    requires Here(lay, names, stores, blocks, vm) && Sane(vm) && At(code, vm.pc, [Enter(n)]) && NoDuplicates(full)
    requires m > 0 ==> LoopAt(vm.frames, Reals(lay, m))
    ensures Entered(code, full, lay, names, stores, blocks, vm, vm1, m)
  {
    EnterExecutes(vm, n);
    hide Here, Sane, At, Execute, LoopAt, Reals, Runs, Inner;
    vm1 := EnterRuns(code, Enter(n), Lexical, full, lay, names, stores, blocks, vm);
    if m > 0 { InnerLoop(vm.frames, Frame(|vm.stack|, Lexical, []), lay, full, m); }
  }

  lemma ScopeEnds(code: seq<Op>, s: Stmt, full: seq<string>, lay: List<Slot>, names: List<seq<string>>,
      stores: List<Store>, blocks: Blocks, vm: Vm, vm1: Vm, vm2: Vm, m: nat, brk: int, namesIn: List<seq<string>>,
      storesIn: List<Store>, blocksIn: Blocks, n: nat)
    returns (vm': Vm)
    requires names.Cons? && blocks != [] && Entered(code, full, lay, names, stores, blocks, vm, vm1, m)
    requires Through(code, Cons(Slot(true, full), lay), namesIn, storesIn, blocksIn, vm1, vm2, n)
    requires At(code, vm2.pc, [Op.Leave])
    requires namesIn.Cons? && namesIn.tail == names && storesIn.Cons? && blocksIn != [] && Front(blocksIn) == blocks
    requires AfterS(s, names) == names && DeclS(s, blocks) == blocks && LenS(s, blocks) == n + 2
    ensures DoneS(code, s, lay, names, blocks, vm, vm', m, brk, Normal(storesIn.tail))
  {
    hide Rel, LoopAt, Reals, Runs, At, Tops, AfterS, DeclS, LenS;
    vm' := LeaveRuns(code, full, lay, namesIn, storesIn, blocksIn, vm, vm1, vm2);
    ScopeThrough(code, lay, names, storesIn.tail, blocks, vm, vm', n + 2);
  }

  lemma ScopeBreaks(code: seq<Op>, s: Stmt, full: seq<string>, lay: List<Slot>, names: List<seq<string>>,
      stores: List<Store>, blocks: Blocks, vm: Vm, vm1: Vm, vm': Vm, m: nat, brk: int, storesIn: List<Store>)
    requires names.Cons? && blocks != [] && Entered(code, full, lay, names, stores, blocks, vm, vm1, m) && m > 0
    requires storesIn.Cons?
    requires Broke(code, Cons(Slot(true, full), lay), Cons([], names), storesIn, Inner(blocks), vm1, vm', m + 1, brk)
    ensures DoneS(code, s, lay, names, blocks, vm, vm', m, brk, Broken(storesIn.tail))
  {
    LoopFrames(lay, names, stores, blocks, vm, m);
    assert Front(Inner(blocks)) == blocks;
    hide Rel, LoopAt, Reals, Runs, Here, Sane, Broke;
    BrokeOut(code, Slot(true, full), lay, names, Cons([], names), storesIn, blocks, Inner(blocks), vm, vm1, vm', m,
        brk);
  }

  // ----- blocks -----

  lemma BlockCode(code: seq<Op>, body: Stmt, blocks: Blocks, pc: nat, brk: int)
    requires blocks != [] && At(code, pc, Gen(Block(body), blocks, pc, brk, false))
    ensures if CountS(body) > 0 then
        && At(code, pc, [Enter(|NamesS(body, [])|)]) && At(code, pc + 1, Gen(body, Inner(blocks), pc + 1, brk, false))
        && At(code, pc + 1 + LenS(body, Inner(blocks)), [Op.Leave])
          && LenS(Block(body), blocks) == LenS(body, Inner(blocks)) + 2
      else At(code, pc, Gen(body, blocks, pc, brk, false)) && LenS(Block(body), blocks) == LenS(body, blocks)
  {
    hide At, CountS, NamesS, Inner;
    if CountS(body) > 0 {
      var g := Gen(body, Inner(blocks), pc + 1, brk, false);
      GenLength(body, Inner(blocks), pc + 1, brk, false);
      AtSplit(code, pc, [Enter(|NamesS(body, [])|)] + g, [Op.Leave]);
      AtSplit(code, pc, [Enter(|NamesS(body, [])|)], g);
    }
  }

  lemma BlockParts(body: Stmt, lay: List<Slot>, names: List<seq<string>>, blocks: Blocks, inLoop: bool)
    requires names.Cons? && blocks != []
    requires Room(lay, names, NamesS(Block(body), names.head), CountS(Block(body)))
    requires ErrS(Block(body), blocks, inLoop) == 0 && AddrS(Block(body), blocks)
    ensures var b := if CountS(body) > 0 then Inner(blocks) else blocks; ErrS(body, b, inLoop) == 0 && AddrS(body, b)
    ensures NoDuplicates(NamesS(body, []))
    ensures AfterS(Block(body), names) == names && DeclS(Block(body), blocks) == blocks
    ensures Room(Cons(Slot(true, NamesS(body, [])), lay), Cons([], names), NamesS(body, []), CountS(body))
    ensures CountS(body) == 0 ==> Room(Cons(Slot(false, []), lay), Cons([], names), NamesS(body, []), CountS(body))
  {
    NamesGrowS(body, []);
  }

  /** A scope with a frame of its own is through. */
  lemma ScopeThrough(code: seq<Op>, lay: List<Slot>, names: List<seq<string>>, stores: List<Store>, blocks: Blocks,
      vm: Vm, vm': Vm, n: nat)
    requires vm.frames != [] && Sane(vm) && Runs(code, vm, vm') && vm'.pc == vm.pc + n && vm'.stack == vm.stack
    requires SameShape(vm.frames, vm'.frames)
    requires names.Cons? && blocks != [] && Rel(lay, names, stores, blocks, vm'.frames)
    ensures Through(code, lay, names, stores, blocks, vm, vm', n)
  {
    hide Rel, Runs;
  }

  lemma BlockExec(body: Stmt, names: List<seq<string>>, stores: List<Store>, fuel: nat)
    requires names.Cons? && Exec(Block(body), names, stores, fuel) != Stuck
    ensures Exec(Block(body), names, stores, fuel) ==
        ToraSyntax.Leave(Exec(body, Cons([], names), Cons(map[], stores), fuel))
    ensures Exec(body, Cons([], names), Cons(map[], stores), fuel) != Stuck
  {
  }

  /** Entering the block and running its body. */
  lemma {:induction false} BlockBody(code: seq<Op>, body: Stmt, lay: List<Slot>, names: List<seq<string>>,
      stores: List<Store>, blocks: Blocks, vm: Vm, m: nat, brk: int, fuel: nat) returns (vm1: Vm, vm2: Vm)
    requires names.Cons? && blocks != [] && ReadyS(code, Block(body), lay, names, stores, blocks, vm, m, brk)
    requires CountS(body) > 0
    requires Exec(body, Cons([], names), Cons(map[], stores), fuel) != Stuck
    ensures Entered(code, NamesS(body, []), lay, names, stores, blocks, vm, vm1, m)
    ensures DoneS(code, body, Cons(Slot(true, NamesS(body, [])), lay), Cons([], names), Inner(blocks), vm1, vm2,
        if m > 0 then m + 1 else 0, brk,
                  Exec(body, Cons([], names), Cons(map[], stores), fuel))
    decreases fuel, Block(body), 0
  {
    hide *;
    var full := NamesS(body, []);
    var (lay1, names1, stores1, blocks1) :=
        (Cons(Slot(true, full), lay), Cons([], names), Cons(map[], stores), Inner(blocks));
    var m1 := if m > 0 then m + 1 else 0;
    ReadySIs(code, Block(body), lay, names, stores, blocks, vm, m, brk);
    BlockParts(body, lay, names, blocks, m > 0);
    BlockCode(code, body, blocks, vm.pc, brk);
    vm1 := EnterScope(code, |full|, full, lay, names, stores, blocks, vm, m);
    EnteredIs(code, full, lay, names, stores, blocks, vm, vm1, m);
    NowReadyS(code, body, lay1, names1, stores1, blocks1, vm1, m1, brk);
    vm2 := SimS(code, body, lay1, names1, stores1, blocks1, vm1, m1, brk, fuel);
  }

  lemma {:induction false} SimBlock(code: seq<Op>, body: Stmt, lay: List<Slot>, names: List<seq<string>>,
      stores: List<Store>, blocks: Blocks, vm: Vm, m: nat, brk: int, fuel: nat) returns (vm': Vm)
    requires names.Cons? && blocks != [] && ReadyS(code, Block(body), lay, names, stores, blocks, vm, m, brk)
    requires Exec(Block(body), names, stores, fuel) != Stuck && CountS(body) > 0
    ensures DoneS(code, Block(body), lay, names, blocks, vm, vm', m, brk, Exec(Block(body), names, stores, fuel))
    decreases fuel, Block(body), 1
  {
    hide *;
    var full := NamesS(body, []);
    var (lay1, names1, stores1, blocks1) :=
        (Cons(Slot(true, full), lay), Cons([], names), Cons(map[], stores), Inner(blocks));
    var m1 := if m > 0 then m + 1 else 0;
    var o1 := Exec(body, names1, stores1, fuel);
    BlockExec(body, names, stores, fuel);
    ReadySIs(code, Block(body), lay, names, stores, blocks, vm, m, brk);
    BlockParts(body, lay, names, blocks, m > 0);
    BlockCode(code, body, blocks, vm.pc, brk);
    LeaveIs(o1);
    var vm1, vm2 := BlockBody(code, body, lay, names, stores, blocks, vm, m, brk, fuel);
    EnteredIs(code, full, lay, names, stores, blocks, vm, vm1, m);
    match o1 {
      case Normal(st) =>
        DoneNormal(code, body, lay1, names1, st, blocks1, vm1, vm2, m1, brk);
        ThroughIs(code, lay1, AfterS(body, names1), st, DeclS(body, blocks1), vm1, vm2, LenS(body, blocks1));
        AfterSHead(body, names1);
        DeclSFront(body, blocks1);
        vm' := ScopeEnds(code, Block(body), full, lay, names, stores, blocks, vm, vm1, vm2, m, brk,
                         AfterS(body, names1), st, DeclS(body, blocks1), LenS(body, blocks1));
      case Broken(st) =>
        vm' := vm2;
        DoneBroken(code, body, lay1, names1, st, blocks1, vm1, vm2, m1, brk);
        ScopeBreaks(code, Block(body), full, lay, names, stores, blocks, vm, vm1, vm', m, brk, st);
    }
  }

  lemma EnteredIs(code: seq<Op>, full: seq<string>, lay: List<Slot>, names: List<seq<string>>, stores: List<Store>,
      blocks: Blocks, vm: Vm, vm1: Vm, m: nat)
    requires Entered(code, full, lay, names, stores, blocks, vm, vm1, m)
    ensures Sane(vm1) && vm1.pc == vm.pc + 1 && Front(Inner(blocks)) == blocks
    ensures Here(Cons(Slot(true, full), lay), Cons([], names), Cons(map[], stores), Inner(blocks), vm1)
    ensures m > 0 ==> LoopAt(vm1.frames, Reals(Cons(Slot(true, full), lay), m + 1))
  {
    hide Here, Sane, LoopAt, Reals, Runs;
  }

  lemma LeaveIs(o: Outcome)
    requires ToraSyntax.Leave(o) != Stuck
    ensures o != Stuck && o.stores.Cons?
    ensures ToraSyntax.Leave(o) == if o.Normal? then Normal(o.stores.tail) else Broken(o.stores.tail)
  {
  }

  lemma EnterExecutes(vm: Vm, n: nat)
    ensures Execute(Enter(n), vm) == Some(vm.(frames := vm.frames + [Frame(|vm.stack|, Lexical, [])]))
    ensures Execute(EnterWhile(n), vm) == Some(vm.(frames := vm.frames + [Frame(|vm.stack|, WhileFrame, [])]))
    ensures Execute(EnterFor(n), vm) == Some(vm.(frames := vm.frames + [Frame(|vm.stack|, ForFrame, [])]))
  {
  }

  lemma NotLoop()
    ensures !IsLoop(Lexical) && IsLoop(WhileFrame) && IsLoop(ForFrame)
  {
  }

  lemma DeclSFront(s: Stmt, blocks: Blocks)
    requires blocks != []
    ensures |DeclS(s, blocks)| == |blocks| && Front(DeclS(s, blocks)) == Front(blocks)
  {
  }

  lemma LoopFrames(lay: List<Slot>, names: List<seq<string>>, stores: List<Store>, blocks: Blocks, vm: Vm, m: nat)
    requires Here(lay, names, stores, blocks, vm) && LoopAt(vm.frames, Reals(lay, m))
    ensures |blocks| == |vm.frames| > 0 && 0 < Reals(lay, m)
  {
    RelSizes(lay, names, stores, blocks, vm.frames);
  }

  /** A block without declarations has neither block nor frame, and means the same. */
  lemma {:induction false} SimElided(code: seq<Op>, body: Stmt, lay: List<Slot>, names: List<seq<string>>,
      stores: List<Store>, blocks: Blocks, vm: Vm, m: nat, brk: int, fuel: nat) returns (vm': Vm)
    requires names.Cons? && blocks != [] && ReadyS(code, Block(body), lay, names, stores, blocks, vm, m, brk)
    requires Exec(Block(body), names, stores, fuel) != Stuck && CountS(body) == 0
    ensures DoneS(code, Block(body), lay, names, blocks, vm, vm', m, brk, Exec(Block(body), names, stores, fuel))
    decreases fuel, Block(body), 0
  {
    var (lay1, names1, stores1) := (Cons(Slot(false, []), lay), Cons([], names), Cons(map[], stores));
    var m1 := if m > 0 then m + 1 else 0;
    var o1 := Exec(body, names1, stores1, fuel);
    hide *;
    BlockExec(body, names, stores, fuel);
    ReadySIs(code, Block(body), lay, names, stores, blocks, vm, m, brk);
    BlockParts(body, lay, names, blocks, m > 0);
    BlockCode(code, body, blocks, vm.pc, brk);
    HereIs(lay, names, stores, blocks, vm);
    ElidedRel(lay, names, stores, blocks, vm.frames);
    HereIs(lay1, names1, stores1, blocks, vm);
    RealsElided(lay, m);
    NowReadyS(code, body, lay1, names1, stores1, blocks, vm, m1, brk);
    vm' := SimS(code, body, lay1, names1, stores1, blocks, vm, m1, brk, fuel);
    LeaveIs(o1);
    match o1 {
      case Normal(st) =>
        DoneNormal(code, body, lay1, names1, st, blocks, vm, vm', m1, brk);
        ThroughIs(code, lay1, AfterS(body, names1), st, DeclS(body, blocks), vm, vm', LenS(body, blocks));
        HereIs(lay1, AfterS(body, names1), st, DeclS(body, blocks), vm');
        LeftRel(lay, Slot(false, []), AfterS(body, names1), st, DeclS(body, blocks), vm'.frames);
        AfterSHead(body, names1);
        NothingDeclaredS(body, blocks);
        HereIs(lay, names, st.tail, blocks, vm');
        NowThrough(code, lay, names, st.tail, blocks, vm, vm', LenS(Block(body), blocks));
        DoneNormal(code, Block(body), lay, names, st.tail, blocks, vm, vm', m, brk);
      case Broken(st) =>
        DoneBroken(code, body, lay1, names1, st, blocks, vm, vm', m1, brk);
        LoopFrames(lay, names, stores, blocks, vm, m);
        RunsNone(code, vm);
        BrokeOut(code, Slot(false, []), lay, names, names1, st, blocks, blocks, vm, vm, vm', m, brk);
        DoneBroken(code, Block(body), lay, names, st.tail, blocks, vm, vm', m, brk);
    }
  }

  lemma NowThrough(code: seq<Op>, lay: List<Slot>, names: List<seq<string>>, stores: List<Store>, blocks: Blocks,
      vm: Vm, vm': Vm, n: nat)
    requires vm.frames != [] && Runs(code, vm, vm') && vm'.pc == vm.pc + n && SameShape(vm.frames, vm'.frames)
    requires Kept(vm, vm')
    requires Here(lay, names, stores, blocks, vm')
    ensures Through(code, lay, names, stores, blocks, vm, vm', n)
  {
  }

  lemma RealsElided(lay: List<Slot>, m: nat)
    ensures Reals(Cons(Slot(false, []), lay), m + 1) == Reals(lay, m)
  {
  }

  lemma NothingDeclaredS(s: Stmt, blocks: Blocks)
    requires CountS(s) == 0 && blocks != []
    ensures DeclS(s, blocks) == blocks
  {
    NoDeclS(s, Back(blocks));
  }

  // ----- conditions -----

  /** The blocks and names after an `if` without its scope. */
  function IfNames(c: Expr, y: Stmt, n: Stmt, names: seq<string>): seq<string> {
    NamesS(n, NamesS(y, NamesE(c, names)))
  }

  function IfLen(c: Expr, y: Stmt, n: Stmt, blocks: Blocks): nat
    requires blocks != []
  {
    LenE(c, blocks) + LenS(y, DeclE(c, blocks)) + LenS(n, DeclS(y, DeclE(c, blocks))) + 2
  }

  lemma IfCodeAt(code: seq<Op>, c: Expr, y: Stmt, n: Stmt, blocks: Blocks, pc: nat, brk: int)
    requires blocks != [] && At(code, pc, IfCode(c, y, n, blocks, pc, brk, false))
    ensures
      var b := DeclE(c, blocks);
      var yes := pc + LenE(c, blocks) + 1;
      var no := yes + LenS(y, b) + 1;
      && At(code, pc, GenE(c, blocks, pc)) && At(code, yes - 1, [JumpIfFalse(no)])
        && At(code, yes, Gen(y, b, yes, brk, false))
      && At(code, no - 1, [Jump(pc + IfLen(c, y, n, blocks))]) && At(code, no, Gen(n, DeclS(y, b), no, brk, false))
  {
    hide *;
    var b := DeclE(c, blocks);
    var yes := pc + LenE(c, blocks) + 1;
    var no := yes + LenS(y, b) + 1;
    IfParts(c, y, n, blocks, pc, brk, false);
    WaitingIntended(n, DeclS(y, b), no, brk);
    GenELen(c, blocks, pc);
    GenLength(y, b, yes, brk, false);
    IfLenIs(c, y, n, blocks);
    var (g, j, gy, k, gn) := (GenE(c, blocks, pc), [JumpIfFalse(no)], Gen(y, b, yes, brk, false),
                              [Jump(no + LenS(n, DeclS(y, b)))], Gen(n, DeclS(y, b), no, brk, false));
    AtSplit(code, pc, (g + j) + gy + k, gn);
    AtSplit(code, pc, (g + j) + gy, k);
    AtSplit(code, pc, g + j, gy);
    AtSplit(code, pc, g, j);
  }

  lemma WaitingIntended(rest: Stmt, blocks: Blocks, base: nat, brk: int)
    requires blocks != []
    ensures Waiting(rest, blocks, base, brk, false) == brk
  {
  }

  lemma IfLenIs(c: Expr, y: Stmt, n: Stmt, blocks: Blocks)
    requires blocks != []
    ensures IfLen(c, y, n, blocks) ==
        LenE(c, blocks) + LenS(y, DeclE(c, blocks)) + LenS(n, DeclS(y, DeclE(c, blocks))) + 2
  {
  }

  /** What the parts of an `if` need, in the scope they share. */
  ghost predicate FineIf(c: Expr, y: Stmt, n: Stmt, lay: List<Slot>, names: List<seq<string>>, blocks: Blocks,
      inLoop: bool)
    requires names.Cons? && blocks != []
  {
    var b := DeclE(c, blocks);
    && Room(lay, names, NamesE(c, names.head), CountE(c)) && ErrE(c, blocks) == 0 && AddrE(c, blocks)
    && Room(lay, After(c, names), NamesS(y, NamesE(c, names.head)), CountS(y)) && ErrS(y, b, inLoop) == 0 && AddrS(y, b)
    && Room(lay, AfterS(y, After(c, names)), IfNames(c, y, n, names.head), CountS(n))
    && ErrS(n, DeclS(y, b), inLoop) == 0 && AddrS(n, DeclS(y, b))
  }

  lemma IsFineIf(c: Expr, y: Stmt, n: Stmt, lay: List<Slot>, names: List<seq<string>>, blocks: Blocks, inLoop: bool,
      count: nat)
    requires names.Cons? && blocks != [] && NoDuplicates(names.head)
    requires Room(lay, names, IfNames(c, y, n, names.head), count)
    requires count >= CountE(c) + CountS(y) + CountS(n)
    requires var b := DeclE(c, blocks); ErrE(c, blocks) + ErrS(y, b, inLoop) + ErrS(n, DeclS(y, b), inLoop) == 0
    requires var b := DeclE(c, blocks); AddrE(c, blocks) && AddrS(y, b) && AddrS(n, DeclS(y, b))
    ensures FineIf(c, y, n, lay, names, blocks, inLoop)
  {
    hide NamesE, NamesS, ErrE, ErrS, AddrE, AddrS, CountE, CountS, DeclE, DeclS;
    IfRooms(c, y, n, lay, names, count);
    hide Room;
  }

  /** A scope with room for the names of an `if` has room for those of its parts. */
  lemma IfRooms(c: Expr, y: Stmt, n: Stmt, lay: List<Slot>, names: List<seq<string>>, count: nat)
    requires names.Cons? && NoDuplicates(names.head) && Room(lay, names, IfNames(c, y, n, names.head), count)
    requires count >= CountE(c) + CountS(y) + CountS(n)
    ensures Room(lay, names, NamesE(c, names.head), CountE(c))
    ensures Room(lay, After(c, names), NamesS(y, NamesE(c, names.head)), CountS(y))
    ensures Room(lay, AfterS(y, After(c, names)), IfNames(c, y, n, names.head), CountS(n))
  {
    hide NamesE, NamesS, CountE, CountS, NoDuplicates;
    NamesGrowE(c, names.head);
    NamesGrowS(y, NamesE(c, names.head));
    NamesGrowS(n, NamesS(y, NamesE(c, names.head)));
  }

  /** Evaluating a condition and looking at it. */
  lemma CondRuns(code: seq<Op>, c: Expr, lay: List<Slot>, names: List<seq<string>>, stores: List<Store>, blocks: Blocks,
      vm: Vm, target: int)
    returns (vm1: Vm)
    requires names.Cons? && blocks != [] && vm.pc >= 0 && ReadyE(code, c, lay, names, stores, blocks, vm) && Sane(vm)
    requires At(code, vm.pc + LenE(c, blocks), [JumpIfFalse(target)])
    ensures Fine(c, names, stores, blocks) && Eval(c, names, stores).Some?
    ensures var (v, st) := Eval(c, names, stores).value;
      && Runs(code, vm, vm1) && vm1.pc == (if ToBool(v) then vm.pc + LenE(c, blocks) + 1 else target)
      && vm1.stack == vm.stack + [v] && SameShape(vm.frames, vm1.frames) && Kept(vm, vm1) && Sane(vm1)
      && Here(lay, After(c, names), st, DeclE(c, blocks), vm1)
  {
    hide *;
    ReadyIs(code, c, lay, names, stores, blocks, vm);
    FineIs(c, names, stores, blocks);
    var vm0 := SimE(code, c, lay, names, stores, blocks, vm);
    DoneIs(code, c, lay, names, stores, blocks, vm, vm0);
    GenELen(c, blocks, vm.pc);
    var (v, st) := Eval(c, names, stores).value;
    JumpIfFalseRuns(code, vm, vm0, v, target);
    vm1 := if ToBool(v) then vm0.(pc := vm0.pc + 1) else vm0.(pc := target);
    HereMoves(lay, After(c, names), st, DeclE(c, blocks), vm0, vm1);
    PushKept(vm, vm1, v);
    ShapeSane(vm, vm1);
  }

  lemma JumpIfFalseRuns(code: seq<Op>, vm: Vm, vm0: Vm, v: Value, target: int)
    requires Runs(code, vm, vm0) && vm0.stack == vm.stack + [v] && At(code, vm0.pc, [JumpIfFalse(target)])
    ensures Runs(code, vm, if ToBool(v) then vm0.(pc := vm0.pc + 1) else vm0.(pc := target))
  {
    hide Runs, At, ToBool;
    OneMore(code, vm, vm0, JumpIfFalse(target), if ToBool(v) then vm0 else vm0.(pc := target - 1));
  }

  lemma PushKept(vm: Vm, vm': Vm, v: Value)
    requires Sane(vm) && vm'.stack == vm.stack + [v]
    ensures Kept(vm, vm')
  {
  }

  /** An `if` in the scope it is compiled in. */
  lemma {:induction false} SimBranch(code: seq<Op>, c: Expr, y: Stmt, n: Stmt, lay: List<Slot>,
      names: List<seq<string>>, stores: List<Store>, blocks: Blocks, vm: Vm, m: nat, brk: int, fuel: nat)
    returns (vm': Vm)
    requires names.Cons? && blocks != [] && Here(lay, names, stores, blocks, vm) && Sane(vm) && vm.pc >= 0
    requires FineIf(c, y, n, lay, names, blocks, m > 0) && At(code, vm.pc, IfCode(c, y, n, blocks, vm.pc, brk, false))
    requires (m > 0 ==> LoopAt(vm.frames, Reals(lay, m))) && Branch(c, y, n, names, stores, fuel) != Stuck
    ensures match Branch(c, y, n, names, stores, fuel)
      case Normal(st) =>
        Through(code, lay, Cons(IfNames(c, y, n, names.head), names.tail), st, DeclS(n, DeclS(y, DeclE(c, blocks))),
                                 vm, vm', IfLen(c, y, n, blocks))
      case Broken(st) => m > 0 && Broke(code, lay, names, st, blocks, vm, vm', m, brk)
      case Stuck => false
    decreases fuel, If(c, y, n), 0
  {
    hide *;
    IfCodeAt(code, c, y, n, blocks, vm.pc, brk);
    IfLenIs(c, y, n, blocks);
    FineIfIs(c, y, n, lay, names, blocks, m > 0);
    BranchIs(c, y, n, names, stores, fuel);
    NowFine(c, names, stores, blocks);
    NowReady(code, c, lay, names, stores, blocks, vm);
    var no := vm.pc + LenE(c, blocks) + 1 + LenS(y, DeclE(c, blocks)) + 1;
    var vm1 := CondRuns(code, c, lay, names, stores, blocks, vm, no);
    var (v, s1) := Eval(c, names, stores).value;
    var (names1, blocks1) := (After(c, names), DeclE(c, blocks));
    var (names2, blocks2) := (AfterS(y, names1), DeclS(y, blocks1));
    AfterHead(c, names);
    AfterSHead(y, names1);
    AfterSHead(n, names2);
    IfNamesIs(c, y, n, names.head);
    assert AfterS(n, names2) == Cons(IfNames(c, y, n, names.head), names.tail);
    if m > 0 { ShapeLoop(vm.frames, vm1.frames, Reals(lay, m)); }
    IfOutside(c, y, names, blocks);
    SaneFrames(vm);
    if ToBool(v) {
      NowReadyS(code, y, lay, names1, s1, blocks1, vm1, m, brk);
      var vm2 := SimS(code, y, lay, names1, s1, blocks1, vm1, m, brk, fuel);
      match Branch(c, y, n, names, stores, fuel) {
        case Normal(st) =>
          DoneNormal(code, y, lay, names1, st, blocks1, vm1, vm2, m, brk);
          ThroughIs(code, lay, names2, st, blocks2, vm1, vm2, LenS(y, blocks1));
          JumpRuns(code, vm1, vm2, vm.pc + IfLen(c, y, n, blocks));
          vm' := vm2.(pc := vm.pc + IfLen(c, y, n, blocks));
          HereIs(lay, names2, st, blocks2, vm2);
          DeclareS(n, lay, names2, st, blocks2, vm2.frames);
          HereIs(lay, AfterS(n, names2), st, DeclS(n, blocks2), vm');
          RunsOn(code, vm, vm1, vm');
          SameShapeTrans(vm.frames, vm1.frames, vm'.frames);
          KeptTrans(vm, vm1, vm2);
          KeptStack(vm, vm2, vm');
          NowThrough(code, lay, AfterS(n, names2), st, DeclS(n, blocks2), vm, vm', IfLen(c, y, n, blocks));
        case Broken(st) =>
          vm' := vm2;
          DoneBroken(code, y, lay, names1, st, blocks1, vm1, vm', m, brk);
          BrokeFrom(code, lay, names, names1, st, blocks, blocks1, vm, vm1, vm', m, brk);
      }
    } else {
      HereIs(lay, names1, s1, blocks1, vm1);
      DeclareS(y, lay, names1, s1, blocks1, vm1.frames);
      HereIs(lay, names2, s1, blocks2, vm1);
      NowReadyS(code, n, lay, names2, s1, blocks2, vm1, m, brk);
      vm' := SimS(code, n, lay, names2, s1, blocks2, vm1, m, brk, fuel);
      match Branch(c, y, n, names, stores, fuel) {
        case Normal(st) =>
          DoneNormal(code, n, lay, names2, st, blocks2, vm1, vm', m, brk);
          ThroughIs(code, lay, AfterS(n, names2), st, DeclS(n, blocks2), vm1, vm', LenS(n, blocks2));
          RunsOn(code, vm, vm1, vm');
          SameShapeTrans(vm.frames, vm1.frames, vm'.frames);
          KeptTrans(vm, vm1, vm');
          NowThrough(code, lay, AfterS(n, names2), st, DeclS(n, blocks2), vm, vm', IfLen(c, y, n, blocks));
        case Broken(st) =>
          DoneBroken(code, n, lay, names2, st, blocks2, vm1, vm', m, brk);
          BrokeFrom(code, lay, names, names2, st, blocks, blocks2, vm, vm1, vm', m, brk);
      }
    }
  }

  lemma SaneFrames(vm: Vm)
    requires Sane(vm)
    ensures vm.frames != []
  {
  }

  lemma IfNamesIs(c: Expr, y: Stmt, n: Stmt, names: seq<string>)
    ensures IfNames(c, y, n, names) == NamesS(n, NamesS(y, NamesE(c, names)))
  {
  }

  lemma KeptStack(vm: Vm, vm1: Vm, vm2: Vm)
    requires vm.frames != [] && Kept(vm, vm1) && vm2.stack == vm1.stack
    ensures Kept(vm, vm2)
  {
  }

  lemma JumpRuns(code: seq<Op>, vm: Vm, vm1: Vm, target: int)
    requires Runs(code, vm, vm1) && At(code, vm1.pc, [Jump(target)])
    ensures Runs(code, vm, vm1.(pc := target))
  {
    hide Runs, At;
    OneMore(code, vm, vm1, Jump(target), vm1.(pc := target - 1));
  }

  lemma NowFine(e: Expr, names: List<seq<string>>, stores: List<Store>, blocks: Blocks)
    requires names.Cons? && blocks != [] && ErrE(e, blocks) == 0 && AddrE(e, blocks) && Eval(e, names, stores).Some?
    ensures Fine(e, names, stores, blocks)
  {
  }

  lemma FineIfIs(c: Expr, y: Stmt, n: Stmt, lay: List<Slot>, names: List<seq<string>>, blocks: Blocks, inLoop: bool)
    requires names.Cons? && blocks != [] && FineIf(c, y, n, lay, names, blocks, inLoop)
    ensures var b := DeclE(c, blocks);
      && Room(lay, names, NamesE(c, names.head), CountE(c)) && ErrE(c, blocks) == 0 && AddrE(c, blocks)
      && Room(lay, After(c, names), NamesS(y, NamesE(c, names.head)), CountS(y)) && ErrS(y, b, inLoop) == 0
        && AddrS(y, b)
      && Room(lay, AfterS(y, After(c, names)), NamesS(n, NamesS(y, NamesE(c, names.head))), CountS(n))
      && ErrS(n, DeclS(y, b), inLoop) == 0 && AddrS(n, DeclS(y, b))
  {
    hide NamesE, NamesS, ErrE, ErrS, AddrE, AddrS, CountE, CountS, Room;
  }

  lemma BranchIs(c: Expr, y: Stmt, n: Stmt, names: List<seq<string>>, stores: List<Store>, fuel: nat)
    requires names.Cons? && Branch(c, y, n, names, stores, fuel) != Stuck
    ensures Eval(c, names, stores).Some? && After(c, names).Cons? && AfterS(y, After(c, names)).Cons?
    ensures var (v, s1) := Eval(c, names, stores).value;
      Branch(c, y, n, names, stores, fuel) ==
        if ToBool(v) then Exec(y, After(c, names), s1, fuel) else Exec(n, AfterS(y, After(c, names)), s1, fuel)
  {
    hide Eval, ToBool, Exec;
  }

  lemma IfOutside(c: Expr, y: Stmt, names: List<seq<string>>, blocks: Blocks)
    requires names.Cons? && blocks != []
    ensures After(c, names).Cons?
    ensures SameOutside(names, After(c, names), blocks, DeclE(c, blocks))
    ensures SameOutside(names, AfterS(y, After(c, names)), blocks, DeclS(y, DeclE(c, blocks)))
  {
    hide NamesE, NamesS;
  }

  lemma IfOwnCode(code: seq<Op>, c: Expr, y: Stmt, n: Stmt, blocks: Blocks, pc: nat, brk: int)
    requires blocks != [] && OwnScope(c) && At(code, pc, Gen(If(c, y, n), blocks, pc, brk, false))
    ensures At(code, pc, [Enter(|IfNames(c, y, n, [])|)])
    ensures At(code, pc + 1, IfCode(c, y, n, Inner(blocks), pc + 1, brk, false))
    ensures At(code, pc + 1 + IfLen(c, y, n, Inner(blocks)), [Op.Leave])
    ensures LenS(If(c, y, n), blocks) == IfLen(c, y, n, Inner(blocks)) + 2
  {
    hide *;
    var g := IfCode(c, y, n, Inner(blocks), pc + 1, brk, false);
    IfLength(c, y, n, Inner(blocks), pc + 1, brk, false);
    IfLenIs(c, y, n, Inner(blocks));
    IfOwnUnfolds(c, y, n, blocks, pc, brk);
    var enter := [Enter(|IfNames(c, y, n, [])|)];
    AtSplit(code, pc, enter + g, [Op.Leave]);
    AtSplit(code, pc, enter, g);
  }

  lemma IfOwnUnfolds(c: Expr, y: Stmt, n: Stmt, blocks: Blocks, pc: nat, brk: int)
    requires blocks != [] && OwnScope(c)
    ensures Gen(If(c, y, n), blocks, pc, brk, false) ==
        [Enter(|IfNames(c, y, n, [])|)] + IfCode(c, y, n, Inner(blocks), pc + 1, brk, false) + [Op.Leave]
    ensures LenS(If(c, y, n), blocks) == IfLen(c, y, n, Inner(blocks)) + 2
  {
    hide IfCode, NamesS, NamesE, Inner, LenE, GenE, DeclE, DeclS, OwnScope, CountS, WhileCode, ForCode, Waiting;
  }

  lemma IfOwnNames(c: Expr, y: Stmt, n: Stmt, names: List<seq<string>>, blocks: Blocks)
    requires names.Cons? && blocks != [] && OwnScope(c)
    ensures AfterS(If(c, y, n), names) == names && DeclS(If(c, y, n), blocks) == blocks
  {
    hide NamesE;
  }

  lemma IfOwnErr(c: Expr, y: Stmt, n: Stmt, blocks: Blocks, inLoop: bool)
    requires blocks != [] && OwnScope(c) && ErrS(If(c, y, n), blocks, inLoop) == 0 && AddrS(If(c, y, n), blocks)
    ensures var b := DeclE(c, Inner(blocks));
      && ErrE(c, Inner(blocks)) + ErrS(y, b, inLoop) + ErrS(n, DeclS(y, b), inLoop) == 0
      && AddrE(c, Inner(blocks)) && AddrS(y, b) && AddrS(n, DeclS(y, b))
  {
    hide ErrE, AddrE, DeclE, DeclS, Inner, OwnScope;
  }

  lemma IfOwnParts(c: Expr, y: Stmt, n: Stmt, lay: List<Slot>, names: List<seq<string>>, blocks: Blocks, inLoop: bool)
    requires names.Cons? && blocks != [] && OwnScope(c)
    requires ErrS(If(c, y, n), blocks, inLoop) == 0 && AddrS(If(c, y, n), blocks)
    ensures NoDuplicates(IfNames(c, y, n, []))
    ensures FineIf(c, y, n, Cons(Slot(true, IfNames(c, y, n, [])), lay), Cons([], names), Inner(blocks), inLoop)
    ensures AfterS(If(c, y, n), names) == names && DeclS(If(c, y, n), blocks) == blocks
  {
    hide FineIf, NamesE, NamesS, ErrE, ErrS, AddrE, AddrS, CountE, CountS, DeclE, DeclS, Inner, OwnScope, AfterS;
    var full := IfNames(c, y, n, []);
    NamesGrowE(c, []);
    NamesGrowS(y, NamesE(c, []));
    NamesGrowS(n, NamesS(y, NamesE(c, [])));
    IfOwnErr(c, y, n, blocks, inLoop);
    IfOwnNames(c, y, n, names, blocks);
    assert Room(Cons(Slot(true, full), lay), Cons([], names), full, CountE(c) + CountS(y) + CountS(n));
    IsFineIf(c, y, n, Cons(Slot(true, full), lay), Cons([], names), Inner(blocks), inLoop,
        CountE(c) + CountS(y) + CountS(n));
  }

  lemma IfExec(c: Expr, y: Stmt, n: Stmt, names: List<seq<string>>, stores: List<Store>, fuel: nat)
    requires names.Cons? && Exec(If(c, y, n), names, stores, fuel) != Stuck
    ensures Exec(If(c, y, n), names, stores, fuel) ==
      if OwnScope(c) then ToraSyntax.Leave(Branch(c, y, n, Cons([], names), Cons(map[], stores), fuel))
      else Branch(c, y, n, names, stores, fuel)
    ensures OwnScope(c) ==> Branch(c, y, n, Cons([], names), Cons(map[], stores), fuel) != Stuck
  {
    hide Branch, OwnScope;
  }

  lemma IfSameCode(c: Expr, y: Stmt, n: Stmt, blocks: Blocks, pc: nat, brk: int)
    requires blocks != [] && pc >= 0 && !OwnScope(c)
    ensures Gen(If(c, y, n), blocks, pc, brk, false) == IfCode(c, y, n, blocks, pc, brk, false)
  {
    hide IfCode, OwnScope;
  }

  /** An `if` whose condition declares something: it has a scope of its own. */
  lemma {:induction false} SimIfOwn(code: seq<Op>, c: Expr, y: Stmt, n: Stmt, lay: List<Slot>, names: List<seq<string>>,
      stores: List<Store>, blocks: Blocks, vm: Vm, m: nat, brk: int, fuel: nat) returns (vm': Vm)
    requires names.Cons? && blocks != [] && ReadyS(code, If(c, y, n), lay, names, stores, blocks, vm, m, brk)
    requires Exec(If(c, y, n), names, stores, fuel) != Stuck && OwnScope(c)
    ensures DoneS(code, If(c, y, n), lay, names, blocks, vm, vm', m, brk, Exec(If(c, y, n), names, stores, fuel))
    decreases fuel, If(c, y, n), 1
  {
    hide *;
    var (s, full) := (If(c, y, n), IfNames(c, y, n, []));
    var (lay1, names1, stores1, blocks1) :=
        (Cons(Slot(true, full), lay), Cons([], names), Cons(map[], stores), Inner(blocks));
    var m1 := if m > 0 then m + 1 else 0;
    var o1 := Branch(c, y, n, names1, stores1, fuel);
    IfExec(c, y, n, names, stores, fuel);
    ReadySIs(code, s, lay, names, stores, blocks, vm, m, brk);
    IfOwnParts(c, y, n, lay, names, blocks, m > 0);
    IfOwnCode(code, c, y, n, blocks, vm.pc, brk);
    var vm1 := EnterScope(code, |full|, full, lay, names, stores, blocks, vm, m);
    EnteredIs(code, full, lay, names, stores, blocks, vm, vm1, m);
    var vm2 := SimBranch(code, c, y, n, lay1, names1, stores1, blocks1, vm1, m1, brk, fuel);
    LeaveIs(o1);
    match o1 {
      case Normal(st) =>
        var (names2, blocks2) := (Cons(IfNames(c, y, n, []), names), DeclS(n, DeclS(y, DeclE(c, blocks1))));
        ThroughIs(code, lay1, names2, st, blocks2, vm1, vm2, IfLen(c, y, n, blocks1));
        DeclSFront(n, DeclS(y, DeclE(c, blocks1)));
        DeclSFront(y, DeclE(c, blocks1));
        DeclEFront(c, blocks1);
        vm' := ScopeEnds(code, s, full, lay, names, stores, blocks, vm, vm1, vm2, m, brk, names2, st, blocks2,
            IfLen(c, y, n, blocks1));
      case Broken(st) =>
        vm' := vm2;
        ScopeBreaks(code, s, full, lay, names, stores, blocks, vm, vm1, vm', m, brk, st);
    }
  }

  lemma DeclEFront(e: Expr, blocks: Blocks)
    requires blocks != []
    ensures |DeclE(e, blocks)| == |blocks| && Front(DeclE(e, blocks)) == Front(blocks)
  {
  }

  lemma IfSameParts(c: Expr, y: Stmt, n: Stmt, lay: List<Slot>, names: List<seq<string>>, blocks: Blocks, inLoop: bool)
    requires names.Cons? && blocks != [] && !OwnScope(c) && NoDuplicates(names.head)
    requires Room(lay, names, NamesS(If(c, y, n), names.head), CountS(If(c, y, n)))
    requires ErrS(If(c, y, n), blocks, inLoop) == 0 && AddrS(If(c, y, n), blocks)
    ensures FineIf(c, y, n, lay, names, blocks, inLoop)
    ensures AfterS(If(c, y, n), names) == Cons(IfNames(c, y, n, names.head), names.tail)
    ensures DeclS(If(c, y, n), blocks) == DeclS(n, DeclS(y, DeclE(c, blocks)))
    ensures LenS(If(c, y, n), blocks) == IfLen(c, y, n, blocks)
  {
    IsFineIf(c, y, n, lay, names, blocks, inLoop, CountS(If(c, y, n)));
    hide FineIf;
  }

  lemma {:induction false} SimIfSame(code: seq<Op>, c: Expr, y: Stmt, n: Stmt, lay: List<Slot>,
      names: List<seq<string>>, stores: List<Store>, blocks: Blocks, vm: Vm, m: nat, brk: int, fuel: nat)
    returns (vm': Vm)
    requires names.Cons? && blocks != [] && ReadyS(code, If(c, y, n), lay, names, stores, blocks, vm, m, brk)
    requires Exec(If(c, y, n), names, stores, fuel) != Stuck && !OwnScope(c)
    ensures DoneS(code, If(c, y, n), lay, names, blocks, vm, vm', m, brk, Exec(If(c, y, n), names, stores, fuel))
    decreases fuel, If(c, y, n), 1
  {
    var s := If(c, y, n);
    hide *;
    IfExec(c, y, n, names, stores, fuel);
    ReadySIs(code, s, lay, names, stores, blocks, vm, m, brk);
    IfSameCode(c, y, n, blocks, vm.pc, brk);
    IfSameParts(c, y, n, lay, names, blocks, m > 0);
    vm' := SimBranch(code, c, y, n, lay, names, stores, blocks, vm, m, brk, fuel);
    match Branch(c, y, n, names, stores, fuel) {
      case Normal(st) => DoneNormal(code, s, lay, names, st, blocks, vm, vm', m, brk);
      case Broken(st) => DoneBroken(code, s, lay, names, st, blocks, vm, vm', m, brk);
    }
  }

  // ----- loops -----

  lemma WhileCodeAt(code: seq<Op>, c: Expr, body: Stmt, blocks: Blocks, pc: nat, brk: int)
    requires blocks != [] && At(code, pc, Gen(While(c, body), blocks, pc, brk, false))
    ensures
      var end := pc + LenS(While(c, body), blocks);
      var start := pc + LenE(c, blocks) + 2;
      var b := Inner(DeclE(c, blocks));
      && At(code, pc, GenE(c, blocks, pc)) && At(code, start - 2, [JumpIfFalse(end)])
        && At(code, start - 1, [EnterWhile(|NamesS(body, [])|)])
      && At(code, start, Gen(body, b, start, end - 1, false)) && At(code, start + LenS(body, b), [Op.Leave])
      && At(code, start + LenS(body, b) + 1, [Jump(pc)]) && end == start + LenS(body, b) + 2
  {
    hide *;
    var end := pc + LenS(While(c, body), blocks);
    var start := pc + LenE(c, blocks) + 2;
    var b := Inner(DeclE(c, blocks));
    WhileIs(c, body, blocks, pc, brk);
    GenELen(c, blocks, pc);
    GenLength(body, b, start, end - 1, false);
    FourParts(code, pc, GenE(c, blocks, pc), JumpIfFalse(end), EnterWhile(|NamesS(body, [])|),
        Gen(body, b, start, end - 1, false), Op.Leave, Jump(pc));
  }

  lemma FourParts(code: seq<Op>, pc: int, g: seq<Op>, j: Op, e: Op, gb: seq<Op>, l: Op, k: Op)
    requires At(code, pc, g + [j, e] + gb + [l, k])
    ensures At(code, pc, g) && At(code, pc + |g|, [j]) && At(code, pc + |g| + 1, [e]) && At(code, pc + |g| + 2, gb)
    ensures At(code, pc + |g| + 2 + |gb|, [l]) && At(code, pc + |g| + 3 + |gb|, [k])
  {
    hide At;
    AtSplit(code, pc, g + [j, e] + gb, [l, k]);
    AtSplit(code, pc, g + [j, e], gb);
    AtSplit(code, pc, g, [j, e]);
    assert [j, e] == [j] + [e] && [l, k] == [l] + [k];
    AtSplit(code, pc + |g|, [j], [e]);
    AtSplit(code, pc + |g| + 2 + |gb|, [l], [k]);
  }

  lemma WhileIs(c: Expr, body: Stmt, blocks: Blocks, pc: nat, brk: int)
    requires blocks != []
    ensures
      var end := pc + LenS(While(c, body), blocks);
      var b := Inner(DeclE(c, blocks));
      var start := pc + LenE(c, blocks) + 2;
      && end == start + LenS(body, b) + 2
      && Gen(While(c, body), blocks, pc, brk, false) ==
           GenE(c, blocks, pc) + [JumpIfFalse(end), EnterWhile(|NamesS(body, [])|)]
               + Gen(body, b, start, end - 1, false) + [Op.Leave, Jump(pc)]
  {
    hide *;
    WhileLen(c, body, blocks);
    WhileUnfolds(c, body, blocks, pc, brk, false);
    ToraCompiler.WhileParts(c, body, blocks, pc, pc + LenS(While(c, body), blocks), false);
  }

  lemma WhileParts(c: Expr, body: Stmt, lay: List<Slot>, names: List<seq<string>>, blocks: Blocks, inLoop: bool)
    requires names.Cons? && blocks != [] && Room(lay, names, NamesS(While(c, body), names.head), CountS(While(c, body)))
    requires ErrS(While(c, body), blocks, inLoop) == 0 && AddrS(While(c, body), blocks)
    ensures Room(lay, names, NamesE(c, names.head), CountE(c)) && ErrE(c, blocks) == 0 && AddrE(c, blocks)
    ensures ErrS(body, Inner(DeclE(c, blocks)), true) == 0 && AddrS(body, Inner(DeclE(c, blocks)))
    ensures NoDuplicates(NamesS(body, []))
    ensures Room(Cons(Slot(true, NamesS(body, [])), lay), Cons([], After(c, names)), NamesS(body, []), CountS(body))
    ensures AfterS(While(c, body), names) == After(c, names) && DeclS(While(c, body), blocks) == DeclE(c, blocks)
  {
    NamesGrowS(body, []);
  }

  lemma WhileExec(c: Expr, body: Stmt, names: List<seq<string>>, stores: List<Store>, fuel: nat)
    requires names.Cons? && Exec(While(c, body), names, stores, fuel) != Stuck
    ensures fuel > 0 && Eval(c, names, stores).Some?
    ensures
      var (v, s1) := Eval(c, names, stores).value;
      if !ToBool(v) then Exec(While(c, body), names, stores, fuel) == Normal(s1)
      else
        var o := Exec(body, Cons([], After(c, names)), Cons(map[], s1), fuel);
        && o != Stuck && o.stores.Cons?
        && Exec(While(c, body), names, stores, fuel) ==
             if o.Normal? then Exec(While(c, body), names, o.stores.tail, fuel - 1) else Normal(o.stores.tail)
  {
    hide Eval, ToBool, After;
  }

  lemma LoopOne(vm: Vm, f: Frame, slot: Slot, lay: List<Slot>)
    requires IsLoop(f.kind) && slot.own
    ensures Reals(Cons(slot, lay), 1) == 1 && LoopAt(vm.frames + [f], 1)
  {
    assert Reals(lay, 0) == 0;
    assert (vm.frames + [f])[|vm.frames|] == f;
  }

  /** `last` in the body of a loop whose frame is on top: the frame is gone, the stack is as at its entry. */
  lemma BrokeLoop(code: seq<Op>, slot: Slot, lay: List<Slot>, names: List<seq<string>>, stores: List<Store>,
      blocks: Blocks, vm1: Vm, vm': Vm, brk: int)
    requires slot.own && names.Cons? && stores.Cons? && blocks != [] && vm1.frames != []
    requires Broke(code, Cons(slot, lay), names, stores, blocks, vm1, vm', 1, brk)
    ensures Runs(code, vm1, vm') && vm'.pc == brk + 1 && Back(vm1.frames).top <= |vm1.stack|
    ensures vm'.stack == vm1.stack[..Back(vm1.frames).top]
    ensures SameShape(Front(vm1.frames), vm'.frames) && Rel(lay, names.tail, stores.tail, Front(blocks), vm'.frames)
  {
    assert Reals(lay, 0) == 0 && Reals(Cons(slot, lay), 1) == 1;
    assert Drop(Cons(slot, lay), 1) == lay && Drop(names, 1) == names.tail && Drop(stores, 1) == stores.tail;
    hide Rel, Runs, Drop, Reals;
  }

  /** The true condition has been seen: into the scope of the body. */
  lemma WhileEnter(code: seq<Op>, c: Expr, body: Stmt, lay: List<Slot>, names: List<seq<string>>, stores: List<Store>,
      s1: List<Store>, blocks: Blocks, vm: Vm, vm1: Vm, m: nat, brk: int) returns (vm2: Vm)
    requires names.Cons? && blocks != [] && ReadyS(code, While(c, body), lay, names, stores, blocks, vm, m, brk)
    requires vm1.pc == vm.pc + LenE(c, blocks) + 1 && Sane(vm1)
    requires Here(lay, After(c, names), s1, DeclE(c, blocks), vm1)
    ensures Runs(code, vm1, vm2) && vm2.pc == vm1.pc + 1 && vm2.stack == vm1.stack && Sane(vm2) && vm2.frames != []
    ensures Front(vm2.frames) == vm1.frames && Back(vm2.frames).top == |vm1.stack|
    ensures Front(Inner(DeclE(c, blocks))) == DeclE(c, blocks)
    ensures ReadyS(code, body, Cons(Slot(true, NamesS(body, [])), lay), Cons([], After(c, names)), Cons(map[], s1),
        Inner(DeclE(c, blocks)), vm2, 1, vm.pc + LenS(While(c, body), blocks) - 1)
  {
    hide *;
    var s := While(c, body);
    ReadySIs(code, s, lay, names, stores, blocks, vm, m, brk);
    WhileParts(c, body, lay, names, blocks, m > 0);
    WhileCodeAt(code, c, body, blocks, vm.pc, brk);
    var (names1, blocks1, full) := (After(c, names), DeclE(c, blocks), NamesS(body, []));
    var slot := Slot(true, full);
    EnterExecutes(vm1, |full|);
    vm2 := EnterRuns(code, EnterWhile(|full|), WhileFrame, full, lay, names1, s1, blocks1, vm1);
    NotLoop();
    LoopOne(vm1, Frame(|vm1.stack|, WhileFrame, []), slot, lay);
    NowReadyS(code, body, Cons(slot, lay), Cons([], names1), Cons(map[], s1), Inner(blocks1), vm2, 1,
        vm.pc + LenS(s, blocks) - 1);
  }

  /** One iteration. */
  lemma {:induction false} WhileBody(code: seq<Op>, c: Expr, body: Stmt, lay: List<Slot>, names: List<seq<string>>,
      stores: List<Store>, s1: List<Store>, blocks: Blocks, vm: Vm, vm1: Vm, m: nat, brk: int, fuel: nat)
    returns (vm3: Vm)
    requires names.Cons? && blocks != [] && ReadyS(code, While(c, body), lay, names, stores, blocks, vm, m, brk)
    requires Exec(body, Cons([], After(c, names)), Cons(map[], s1), fuel) != Stuck
    requires Exec(body, Cons([], After(c, names)), Cons(map[], s1), fuel).stores.Cons?
    requires Runs(code, vm, vm1) && vm1.pc == vm.pc + LenE(c, blocks) + 1 && SameShape(vm.frames, vm1.frames)
    requires Kept(vm, vm1) && Sane(vm1)
    requires Here(lay, After(c, names), s1, DeclE(c, blocks), vm1)
    ensures var o := Exec(body, Cons([], After(c, names)), Cons(map[], s1), fuel);
      Through(code, lay, After(c, names), o.stores.tail, DeclE(c, blocks), vm, vm3,
          if o.Normal? then 0 else LenS(While(c, body), blocks))
    ensures Runs(code, vm1, vm3)
    decreases fuel, While(c, body), 0
  {
    hide *;
    var s := While(c, body);
    ReadySIs(code, s, lay, names, stores, blocks, vm, m, brk);
    WhileParts(c, body, lay, names, blocks, m > 0);
    WhileCodeAt(code, c, body, blocks, vm.pc, brk);
    var (names1, blocks1, full) := (After(c, names), DeclE(c, blocks), NamesS(body, []));
    var slot := Slot(true, full);
    var (lay2, names2, stores2, blocks2) := (Cons(slot, lay), Cons([], names1), Cons(map[], s1), Inner(blocks1));
    var end := vm.pc + LenS(s, blocks);
    var vm2 := WhileEnter(code, c, body, lay, names, stores, s1, blocks, vm, vm1, m, brk);
    var vm4 := SimS(code, body, lay2, names2, stores2, blocks2, vm2, 1, end - 1, fuel);
    match Exec(body, names2, stores2, fuel) {
      case Normal(st) =>
        DoneNormal(code, body, lay2, names2, st, blocks2, vm2, vm4, 1, end - 1);
        ThroughIs(code, lay2, AfterS(body, names2), st, DeclS(body, blocks2), vm2, vm4, LenS(body, blocks2));
        AfterSHead(body, names2);
        DeclSFront(body, blocks2);
        SaneFrames(vm1);
        var vm5 := LeaveRuns(code, full, lay, AfterS(body, names2), st, DeclS(body, blocks2), vm1, vm2, vm4);
        JumpRuns(code, vm1, vm5, vm.pc);
        vm3 := vm5.(pc := vm.pc);
        HereIs(lay, names1, st.tail, blocks1, vm3);
      case Broken(st) =>
        DoneBroken(code, body, lay2, names2, st, blocks2, vm2, vm4, 1, end - 1);
        BrokeLoop(code, slot, lay, names2, st, blocks2, vm2, vm4, end - 1);
        vm3 := vm4;
        RunsOn(code, vm1, vm2, vm3);
        assert vm3.stack == vm1.stack;
        HereIs(lay, names1, st.tail, blocks1, vm3);
    }
    RunsOn(code, vm, vm1, vm3);
    SameShapeTrans(vm.frames, vm1.frames, vm3.frames);
    KeptStack(vm, vm1, vm3);
    NowThrough(code, lay, names1, Exec(body, names2, stores2, fuel).stores.tail, blocks1, vm, vm3,
               if Exec(body, names2, stores2, fuel).Normal? then 0 else LenS(s, blocks));
  }

  /** Back at the condition the names are those of the beginning again. */
  lemma AgainReady(code: seq<Op>, c: Expr, body: Stmt, lay: List<Slot>, names: List<seq<string>>, stores: List<Store>,
      stores3: List<Store>, blocks: Blocks, vm: Vm, vm3: Vm, m: nat, brk: int)
    requires names.Cons? && blocks != [] && ReadyS(code, While(c, body), lay, names, stores, blocks, vm, m, brk)
    requires Through(code, lay, After(c, names), stores3, DeclE(c, blocks), vm, vm3, 0)
    ensures Through(code, lay, names, stores3, blocks, vm, vm3, 0)
    ensures ReadyS(code, While(c, body), lay, names, stores3, blocks, vm3, m, brk)
  {
    hide *;
    var s := While(c, body);
    ReadySIs(code, s, lay, names, stores, blocks, vm, m, brk);
    WhileParts(c, body, lay, names, blocks, m > 0);
    ThroughIs(code, lay, After(c, names), stores3, DeclE(c, blocks), vm, vm3, 0);
    HereBack(lay, names, c, stores, stores3, blocks, vm, vm3);
    NowThrough(code, lay, names, stores3, blocks, vm, vm3, 0);
    if m > 0 { ShapeLoop(vm.frames, vm3.frames, Reals(lay, m)); }
    NowReadyS(code, s, lay, names, stores3, blocks, vm3, m, brk);
  }

  lemma HereBack(lay: List<Slot>, names: List<seq<string>>, c: Expr, stores: List<Store>, stores3: List<Store>,
      blocks: Blocks, vm: Vm, vm3: Vm)
    requires Here(lay, names, stores, blocks, vm) && names.Cons? && blocks != []
    requires Here(lay, After(c, names), stores3, DeclE(c, blocks), vm3)
    requires Room(lay, names, NamesE(c, names.head), CountE(c))
    ensures Here(lay, names, stores3, blocks, vm3)
  {
    HereParts(lay, names, stores, blocks, vm);
    if !lay.head.own { NothingDeclared(c, names, blocks); }
    BackTo(lay, names, After(c, names), stores, stores3, blocks, DeclE(c, blocks), vm.frames, vm3.frames);
  }

  /** The current scope may go back to the names of an earlier place. */
  lemma BackTo(lay: List<Slot>, names: List<seq<string>>, names1: List<seq<string>>, stores: List<Store>,
      stores1: List<Store>, blocks: Blocks, blocks1: Blocks, frames: seq<Frame>, frames1: seq<Frame>)
    requires Rel(lay, names, stores, blocks, frames) && Rel(lay, names1, stores1, blocks1, frames1) && lay.Cons?
    requires names1.Cons? && names1.tail == names.tail && blocks != [] && |blocks| == |blocks1|
    requires Front(blocks) == Front(blocks1)
    requires lay.head.own || blocks1 == blocks || Back(blocks1) == Back(blocks)
    ensures Rel(lay, names, stores1, blocks, frames1)
  {
    Rehead(lay, names1, stores1, blocks1, frames1, names.head);
    if lay.head.own {
      assert WithBack(blocks1, names.head) == blocks;
    } else {
      assert blocks1 == Front(blocks1) + [Back(blocks1)] == blocks;
    }
  }

  lemma {:induction false} SimWhile(code: seq<Op>, c: Expr, body: Stmt, lay: List<Slot>, names: List<seq<string>>,
      stores: List<Store>, blocks: Blocks, vm: Vm, m: nat, brk: int, fuel: nat) returns (vm': Vm)
    requires names.Cons? && blocks != [] && ReadyS(code, While(c, body), lay, names, stores, blocks, vm, m, brk)
    requires Exec(While(c, body), names, stores, fuel) != Stuck
    ensures DoneS(code, While(c, body), lay, names, blocks, vm, vm', m, brk, Exec(While(c, body), names, stores, fuel))
    decreases fuel, While(c, body), 1
  {
    hide *;
    var s := While(c, body);
    ReadySIs(code, s, lay, names, stores, blocks, vm, m, brk);
    WhileParts(c, body, lay, names, blocks, m > 0);
    WhileCodeAt(code, c, body, blocks, vm.pc, brk);
    WhileExec(c, body, names, stores, fuel);
    var end := vm.pc + LenS(s, blocks);
    var (names1, blocks1) := (After(c, names), DeclE(c, blocks));
    NowFine(c, names, stores, blocks);
    NowReady(code, c, lay, names, stores, blocks, vm);
    var vm1 := CondRuns(code, c, lay, names, stores, blocks, vm, end);
    var (v, s1) := Eval(c, names, stores).value;
    if !ToBool(v) {
      vm' := vm1;
      NowThrough(code, lay, names1, s1, blocks1, vm, vm', LenS(s, blocks));
      DoneNormal(code, s, lay, names, s1, blocks, vm, vm', m, brk);
    } else {
      var vm3 := WhileBody(code, c, body, lay, names, stores, s1, blocks, vm, vm1, m, brk, fuel);
      var o := Exec(body, Cons([], names1), Cons(map[], s1), fuel);
      if o.Normal? {
        AgainReady(code, c, body, lay, names, stores, o.stores.tail, blocks, vm, vm3, m, brk);
        vm' := SimS(code, s, lay, names, o.stores.tail, blocks, vm3, m, brk, fuel - 1);
        OutsideSelf(names, blocks);
        ThenDone(code, s, s, lay, names, names, o.stores.tail, blocks, blocks, vm, vm3, vm', m, brk, 0,
            Exec(s, names, stores, fuel));
      } else {
        vm' := vm3;
        DoneNormal(code, s, lay, names, o.stores.tail, blocks, vm, vm', m, brk);
      }
    }
  }

  /** The parts of a `for`, from the condition on, are in place: condition at `again`, OP_LEAVE at `end`. */
  ghost predicate LoopCode(code: seq<Op>, c: Expr, p: Expr, body: Stmt, blocks: Blocks, again: int, end: int)
    requires blocks != []
  {
    var b := DeclE(c, blocks);
    var start := again + LenE(c, blocks) + 1;
    var post := start + LenS(body, b);
    && again >= 0 && At(code, again, GenE(c, blocks, again)) && At(code, start - 1, [JumpIfFalse(end)])
    && At(code, start, Gen(body, b, start, end, false)) && At(code, post, GenE(p, DeclS(body, b), post))
    && At(code, post + LenE(p, DeclS(body, b)), [Jump(again)]) && At(code, end, [Op.Leave])
  }

  ghost predicate FineLoop(c: Expr, p: Expr, body: Stmt, lay: List<Slot>, names: List<seq<string>>, blocks: Blocks)
    requires names.Cons? && blocks != []
  {
    var (b1, n1) := (DeclE(c, blocks), NamesE(c, names.head));
    var (b2, n2) := (DeclS(body, b1), NamesS(body, n1));
    && lay.Cons? && lay.head.own
    && Room(lay, names, n1, CountE(c)) && ErrE(c, blocks) == 0 && AddrE(c, blocks)
    && Room(lay, After(c, names), n2, CountS(body)) && ErrS(body, b1, true) == 0 && AddrS(body, b1)
    && Room(lay, AfterS(body, After(c, names)), NamesE(p, n2), CountE(p)) && ErrE(p, b2) == 0 && AddrE(p, b2)
  }

  lemma FineLoopIs(c: Expr, p: Expr, body: Stmt, lay: List<Slot>, names: List<seq<string>>, blocks: Blocks)
    requires names.Cons? && blocks != [] && FineLoop(c, p, body, lay, names, blocks)
    ensures lay.Cons? && lay.head.own && Reals(lay, 1) == 1
    ensures Room(lay, names, NamesE(c, names.head), CountE(c)) && ErrE(c, blocks) == 0 && AddrE(c, blocks)
    ensures var (b1, n1) := (DeclE(c, blocks), NamesE(c, names.head));
      var (b2, n2) := (DeclS(body, b1), NamesS(body, n1));
      && Room(lay, After(c, names), n2, CountS(body)) && ErrS(body, b1, true) == 0 && AddrS(body, b1)
      && Room(lay, AfterS(body, After(c, names)), NamesE(p, n2), CountE(p)) && ErrE(p, b2) == 0 && AddrE(p, b2)
  {
    assert Reals(lay.tail, 0) == 0;
    hide NamesE, NamesS, ErrE, ErrS, AddrE, AddrS, CountE, CountS, Room, DeclE, DeclS;
  }

  lemma LoopCodeIs(code: seq<Op>, c: Expr, p: Expr, body: Stmt, blocks: Blocks, again: int, end: int)
    requires blocks != [] && LoopCode(code, c, p, body, blocks, again, end)
    ensures
      var b := DeclE(c, blocks);
      var start := again + LenE(c, blocks) + 1;
      var post := start + LenS(body, b);
      && again >= 0 && At(code, again, GenE(c, blocks, again)) && At(code, start - 1, [JumpIfFalse(end)])
      && At(code, start, Gen(body, b, start, end, false)) && At(code, post, GenE(p, DeclS(body, b), post))
      && At(code, post + LenE(p, DeclS(body, b)), [Jump(again)]) && At(code, end, [Op.Leave])
  {
    hide At, GenE, Gen, LenE, LenS, DeclE, DeclS;
  }

  lemma LoopExec(c: Expr, p: Expr, body: Stmt, names: List<seq<string>>, stores: List<Store>, fuel: nat)
    requires names.Cons? && Loop(c, p, body, names, stores, fuel) != Stuck
    ensures fuel > 0 && Eval(c, names, stores).Some?
    ensures
      var (v, s1) := Eval(c, names, stores).value;
      if !ToBool(v) then Loop(c, p, body, names, stores, fuel) == Normal(s1)
      else
        var o := Exec(body, After(c, names), s1, fuel);
        && o != Stuck
        && if o.Normal? then
             var e := Eval(p, AfterS(body, After(c, names)), o.stores);
             e.Some? && Loop(c, p, body, names, stores, fuel) == Loop(c, p, body, names, e.value.1, fuel - 1)
           else Loop(c, p, body, names, stores, fuel) == Normal(o.stores)
  {
    hide Eval, ToBool, After, AfterS, Exec;
    var (v, s1) := Eval(c, names, stores).value;
    if ToBool(v) {
      var o := Exec(body, After(c, names), s1, fuel);
      if o.Normal? { assert Eval(p, AfterS(body, After(c, names)), o.stores).Some?; }
    }
  }

  /** What the end of a `for` leaves: its frame is gone, and everything from the top of the frame on. */
  ghost predicate LoopDone(code: seq<Op>, lay: List<Slot>, names: List<seq<string>>, stores: List<Store>,
      blocks: Blocks, vm: Vm, vm': Vm, end: int)
  {
    && lay.Cons? && names.Cons? && stores.Cons? && blocks != [] && vm.frames != [] && Back(vm.frames).top <= |vm.stack|
    && Runs(code, vm, vm') && vm'.pc == end + 1 && vm'.stack == vm.stack[..Back(vm.frames).top]
    && SameShape(Front(vm.frames), vm'.frames) && Rel(lay.tail, names.tail, stores.tail, Front(blocks), vm'.frames)
  }

  lemma LoopDoneFrom(code: seq<Op>, lay: List<Slot>, names: List<seq<string>>, names1: List<seq<string>>,
      stores: List<Store>, blocks: Blocks, blocks1: Blocks, vm: Vm, vm1: Vm, vm': Vm, end: int)
    requires LoopDone(code, lay, names1, stores, blocks1, vm1, vm', end)
    requires Sane(vm) && Runs(code, vm, vm1) && SameShape(vm.frames, vm1.frames) && Kept(vm, vm1)
    requires SameOutside(names, names1, blocks, blocks1)
    ensures LoopDone(code, lay, names, stores, blocks, vm, vm', end)
  {
    RunsOn(code, vm, vm1, vm');
    hide Rel, Runs;
  }

  lemma LeaveLoop(code: seq<Op>, lay: List<Slot>, names: List<seq<string>>, stores: List<Store>, blocks: Blocks, vm: Vm,
      end: int) returns (vm': Vm)
    requires lay.Cons? && lay.head.own && Here(lay, names, stores, blocks, vm) && Sane(vm) && vm.pc == end
    requires At(code, end, [Op.Leave])
    ensures LoopDone(code, lay, names, stores, blocks, vm, vm', end)
  {
    LeftRel(lay.tail, lay.head, names, stores, blocks, vm.frames);
    RunsNone(code, vm);
    hide Rel, Runs, At;
    var after := vm.(stack := vm.stack[..Back(vm.frames).top], frames := Front(vm.frames));
    assert Execute(Op.Leave, vm) == Some(after);
    OneMore(code, vm, vm, Op.Leave, after);
    vm' := after.(pc := end + 1);
  }

  lemma {:induction false} SimLoop(code: seq<Op>, c: Expr, p: Expr, body: Stmt, lay: List<Slot>,
      names: List<seq<string>>, stores: List<Store>, blocks: Blocks, vm: Vm, end: int, fuel: nat) returns (vm': Vm)
    requires names.Cons? && blocks != [] && FineLoop(c, p, body, lay, names, blocks)
    requires LoopCode(code, c, p, body, blocks, vm.pc, end)
    requires Here(lay, names, stores, blocks, vm) && Sane(vm) && LoopAt(vm.frames, 1)
    requires Loop(c, p, body, names, stores, fuel).Normal? && Loop(c, p, body, names, stores, fuel).stores.Cons?
    ensures LoopDone(code, lay, names, Loop(c, p, body, names, stores, fuel).stores, blocks, vm, vm', end)
    decreases fuel, body, 3
  {
    hide *;
    FineLoopIs(c, p, body, lay, names, blocks);
    LoopCodeIs(code, c, p, body, blocks, vm.pc, end);
    LoopExec(c, p, body, names, stores, fuel);
    NowFine(c, names, stores, blocks);
    NowReady(code, c, lay, names, stores, blocks, vm);
    var vm1 := CondRuns(code, c, lay, names, stores, blocks, vm, end);
    var (v, s1) := Eval(c, names, stores).value;
    var (names1, blocks1) := (After(c, names), DeclE(c, blocks));
    AfterHead(c, names);
    LoopOutside(c, body, p, names, blocks);
    if !ToBool(v) {
      vm' := LeaveLoop(code, lay, names1, s1, blocks1, vm1, end);
      LoopDoneFrom(code, lay, names, names1, s1, blocks, blocks1, vm, vm1, vm', end);
    } else {
      ShapeLoop(vm.frames, vm1.frames, 1);
      NowReadyS(code, body, lay, names1, s1, blocks1, vm1, 1, end);
      var vm2 := SimS(code, body, lay, names1, s1, blocks1, vm1, 1, end, fuel);
      match Exec(body, names1, s1, fuel) {
        case Normal(s2) =>
          DoneNormal(code, body, lay, names1, s2, blocks1, vm1, vm2, 1, end);
          vm' := LoopPost(code, c, p, body, lay, names, stores, blocks, vm, vm1, s1, vm2, s2, end, fuel);
        case Broken(s2) =>
          DoneBroken(code, body, lay, names1, s2, blocks1, vm1, vm2, 1, end);
          SaneFrames(vm1);
          assert lay == Cons(lay.head, lay.tail);
          BrokeLoop(code, lay.head, lay.tail, names1, s2, blocks1, vm1, vm2, end);
          vm' := vm2;
          NowLoopDone(code, lay, names1, s2, blocks1, vm1, vm', end);
          LoopDoneFrom(code, lay, names, names1, s2, blocks, blocks1, vm, vm1, vm', end);
      }
    }
  }

  lemma NowLoopDone(code: seq<Op>, lay: List<Slot>, names: List<seq<string>>, stores: List<Store>, blocks: Blocks,
      vm: Vm, vm': Vm, end: int)
    requires lay.Cons? && names.Cons? && stores.Cons? && blocks != [] && vm.frames != []
    requires Back(vm.frames).top <= |vm.stack|
    requires Runs(code, vm, vm') && vm'.pc == end + 1 && vm'.stack == vm.stack[..Back(vm.frames).top]
    requires SameShape(Front(vm.frames), vm'.frames)
    requires Rel(lay.tail, names.tail, stores.tail, Front(blocks), vm'.frames)
    ensures LoopDone(code, lay, names, stores, blocks, vm, vm', end)
  {
  }

  lemma LoopOutside(c: Expr, body: Stmt, p: Expr, names: List<seq<string>>, blocks: Blocks)
    requires names.Cons? && blocks != []
    ensures After(c, names).Cons? && SameOutside(names, After(c, names), blocks, DeclE(c, blocks))
    ensures var (n2, b2) := (AfterS(body, After(c, names)), DeclS(body, DeclE(c, blocks)));
      n2.Cons? && SameOutside(names, After(p, n2), blocks, DeclE(p, b2)) && SameOutside(names, names, blocks, blocks)
  {
    hide NamesE, NamesS;
  }

  /** The body is through: the postfix expression and the jump back to the condition. */
  lemma LoopAgain(code: seq<Op>, c: Expr, p: Expr, body: Stmt, lay: List<Slot>, names: List<seq<string>>,
      stores: List<Store>, blocks: Blocks, vm: Vm, vm1: Vm, vm2: Vm, s2: List<Store>, end: int) returns (vm4: Vm)
    requires names.Cons? && blocks != [] && FineLoop(c, p, body, lay, names, blocks)
    requires LoopCode(code, c, p, body, blocks, vm.pc, end)
    requires Here(lay, names, stores, blocks, vm) && Sane(vm) && LoopAt(vm.frames, 1)
    requires Runs(code, vm, vm1) && vm1.pc == vm.pc + LenE(c, blocks) + 1 && SameShape(vm.frames, vm1.frames)
    requires Kept(vm, vm1) && Sane(vm1)
    requires Through(code, lay, AfterS(body, After(c, names)), s2, DeclS(body, DeclE(c, blocks)), vm1, vm2,
        LenS(body, DeclE(c, blocks)))
    requires AfterS(body, After(c, names)).Cons? && Eval(p, AfterS(body, After(c, names)), s2).Some?
    ensures Runs(code, vm1, vm4) && Runs(code, vm, vm4) && vm4.pc == vm.pc && SameShape(vm.frames, vm4.frames)
    ensures Kept(vm, vm4) && Sane(vm4) && LoopAt(vm4.frames, 1)
    ensures Here(lay, names, Eval(p, AfterS(body, After(c, names)), s2).value.1, blocks, vm4)
  {
    hide *;
    FineLoopIs(c, p, body, lay, names, blocks);
    LoopCodeIs(code, c, p, body, blocks, vm.pc, end);
    var (names2, blocks2) := (AfterS(body, After(c, names)), DeclS(body, DeclE(c, blocks)));
    AfterHead(c, names);
    AfterSHead(body, After(c, names));
    LoopOutside(c, body, p, names, blocks);
    ThroughIs(code, lay, names2, s2, blocks2, vm1, vm2, LenS(body, DeclE(c, blocks)));
    NowFine(p, names2, s2, blocks2);
    NowReady(code, p, lay, names2, s2, blocks2, vm2);
    var vm3 := SimE(code, p, lay, names2, s2, blocks2, vm2);
    DoneIs(code, p, lay, names2, s2, blocks2, vm2, vm3);
    GenELen(p, blocks2, vm2.pc);
    var (v, s3) := Eval(p, names2, s2).value;
    JumpRuns(code, vm2, vm3, vm.pc);
    vm4 := vm3.(pc := vm.pc);
    PushKept(vm2, vm4, v);
    HereAgain(lay, names, After(p, names2), stores, s3, blocks, DeclE(p, blocks2), vm, vm3, vm4);
    RunsOn(code, vm1, vm2, vm4);
    RunsOn(code, vm, vm1, vm4);
    SameShapeTrans(vm.frames, vm1.frames, vm2.frames);
    SameShapeTrans(vm.frames, vm2.frames, vm4.frames);
    SaneFrames(vm);
    KeptTrans(vm, vm1, vm2);
    KeptTrans(vm, vm2, vm4);
    ShapeSane(vm, vm4);
    ShapeLoop(vm.frames, vm4.frames, 1);
  }

  /** And the remaining iterations. */
  lemma {:induction false} LoopPost(code: seq<Op>, c: Expr, p: Expr, body: Stmt, lay: List<Slot>,
      names: List<seq<string>>, stores: List<Store>, blocks: Blocks, vm: Vm, vm1: Vm, s1: List<Store>, vm2: Vm,
      s2: List<Store>, end: int, fuel: nat) returns (vm': Vm)
    requires names.Cons? && blocks != [] && FineLoop(c, p, body, lay, names, blocks)
    requires LoopCode(code, c, p, body, blocks, vm.pc, end)
    requires Here(lay, names, stores, blocks, vm) && Sane(vm) && LoopAt(vm.frames, 1)
    requires Loop(c, p, body, names, stores, fuel).Normal? && Loop(c, p, body, names, stores, fuel).stores.Cons?
    requires fuel > 0 && Eval(c, names, stores).Some? && ToBool(Eval(c, names, stores).value.0)
    requires s1 == Eval(c, names, stores).value.1
    requires Exec(body, After(c, names), s1, fuel) == Normal(s2)
    requires Runs(code, vm, vm1) && vm1.pc == vm.pc + LenE(c, blocks) + 1 && SameShape(vm.frames, vm1.frames)
    requires Kept(vm, vm1) && Sane(vm1)
    requires Through(code, lay, AfterS(body, After(c, names)), s2, DeclS(body, DeclE(c, blocks)), vm1, vm2,
        LenS(body, DeclE(c, blocks)))
    ensures LoopDone(code, lay, names, Loop(c, p, body, names, stores, fuel).stores, blocks, vm, vm', end)
    decreases fuel, body, 2
  {
    hide *;
    LoopExec(c, p, body, names, stores, fuel);
    AfterHead(c, names);
    AfterSHead(body, After(c, names));
    LoopOutside(c, body, p, names, blocks);
    var vm4 := LoopAgain(code, c, p, body, lay, names, stores, blocks, vm, vm1, vm2, s2, end);
    var s3 := Eval(p, AfterS(body, After(c, names)), s2).value.1;
    vm' := SimLoop(code, c, p, body, lay, names, s3, blocks, vm4, end, fuel - 1);
    LoopDoneFrom(code, lay, names, names, Loop(c, p, body, names, stores, fuel).stores, blocks, blocks, vm, vm4, vm',
        end);
  }

  lemma HereAgain(lay: List<Slot>, names: List<seq<string>>, names1: List<seq<string>>, stores: List<Store>,
      stores1: List<Store>, blocks: Blocks, blocks1: Blocks, vm: Vm, vm1: Vm, vm2: Vm)
    requires Here(lay, names, stores, blocks, vm) && Here(lay, names1, stores1, blocks1, vm1)
    requires vm2.frames == vm1.frames
    requires lay.Cons? && lay.head.own && SameOutside(names, names1, blocks, blocks1)
    ensures Here(lay, names, stores1, blocks, vm2)
  {
    BackTo(lay, names, names1, stores, stores1, blocks, blocks1, vm.frames, vm1.frames);
    hide Rel;
  }

  // ----- the whole `for` -----

  lemma ForIs(i: Expr, c: Expr, p: Expr, body: Stmt, blocks: Blocks, pc: nat, brk: int)
    requires blocks != []
    ensures
      var s := For(i, c, p, body);
      var end := pc + LenS(s, blocks) - 1;
      var b1 := DeclE(i, Inner(blocks));
      var b2 := DeclE(c, b1);
      var again := pc + 1 + LenE(i, Inner(blocks));
      var start := again + LenE(c, b1) + 1;
      && end >= 0 && end == start + LenS(body, b2) + LenE(p, DeclS(body, b2)) + 1
      && Gen(s, blocks, pc, brk, false) ==
           [EnterFor(|NamesE(p, NamesS(body, NamesE(c, NamesE(i, []))))|)]
               + ForCode(i, c, p, body, Inner(blocks), pc + 1, end, false) + [Op.Leave]
  {
    hide GenE, LenE, NamesS, NamesE, Inner, DeclE, DeclS, ForCode;
  }

  lemma ForCodeAt(code: seq<Op>, i: Expr, c: Expr, p: Expr, body: Stmt, blocks: Blocks, pc: nat, brk: int)
    requires blocks != [] && At(code, pc, Gen(For(i, c, p, body), blocks, pc, brk, false))
    ensures
      var end := pc + LenS(For(i, c, p, body), blocks) - 1;
      && At(code, pc, [EnterFor(|NamesE(p, NamesS(body, NamesE(c, NamesE(i, []))))|)])
      && At(code, pc + 1, GenE(i, Inner(blocks), pc + 1))
      && LoopCode(code, c, p, body, DeclE(i, Inner(blocks)), pc + 1 + LenE(i, Inner(blocks)), end)
  {
    hide *;
    ForIs(i, c, p, body, blocks, pc, brk);
    var end := pc + LenS(For(i, c, p, body), blocks) - 1;
    var (b0, b1) := (Inner(blocks), DeclE(i, Inner(blocks)));
    var b2 := DeclE(c, b1);
    var again := pc + 1 + LenE(i, b0);
    var start := again + LenE(c, b1) + 1;
    var post := start + LenS(body, b2);
    ForParts(i, c, p, body, b0, pc + 1, end, false);
    GenELen(i, b0, pc + 1);
    GenELen(c, b1, again);
    GenELen(p, DeclS(body, b2), post);
    GenLength(body, b2, start, end, false);
    var enter := [EnterFor(|NamesE(p, NamesS(body, NamesE(c, NamesE(i, []))))|)];
    var (gi, gc, j, gb, gp, k) := (GenE(i, b0, pc + 1), GenE(c, b1, again), [JumpIfFalse(end)],
        Gen(body, b2, start, end, false),
                                   GenE(p, DeclS(body, b2), post), [Jump(again)]);
    var all := (gi + gc + j) + gb + (gp + k);
    AtSplit(code, pc, enter + all, [Op.Leave]);
    AtSplit(code, pc, enter, all);
    AtSplit(code, pc + 1, (gi + gc + j) + gb, gp + k);
    AtSplit(code, pc + 1, gi + gc + j, gb);
    AtSplit(code, pc + 1, gi + gc, j);
    AtSplit(code, pc + 1, gi, gc);
    AtSplit(code, post, gp, k);
    NowLoopCode(code, c, p, body, b1, again, end);
  }

  lemma NowLoopCode(code: seq<Op>, c: Expr, p: Expr, body: Stmt, blocks: Blocks, again: int, end: int)
    requires blocks != [] && again >= 0
    requires var b := DeclE(c, blocks);
      var start := again + LenE(c, blocks) + 1;
      var post := start + LenS(body, b);
      && At(code, again, GenE(c, blocks, again)) && At(code, start - 1, [JumpIfFalse(end)])
      && At(code, start, Gen(body, b, start, end, false)) && At(code, post, GenE(p, DeclS(body, b), post))
      && At(code, post + LenE(p, DeclS(body, b)), [Jump(again)]) && At(code, end, [Op.Leave])
    ensures LoopCode(code, c, p, body, blocks, again, end)
  {
    hide At, GenE, Gen, LenE, LenS, DeclE, DeclS;
  }

  lemma ForFine(i: Expr, c: Expr, p: Expr, body: Stmt, lay: List<Slot>, names: List<seq<string>>, blocks: Blocks,
      inLoop: bool)
    requires names.Cons? && blocks != [] && ErrS(For(i, c, p, body), blocks, inLoop) == 0
    requires AddrS(For(i, c, p, body), blocks)
    ensures
      var full := NamesE(p, NamesS(body, NamesE(c, NamesE(i, []))));
      var (lay1, names1) := (Cons(Slot(true, full), lay), Cons([], names));
      && NoDuplicates(full) && Room(lay1, names1, NamesE(i, []), CountE(i)) && ErrE(i, Inner(blocks)) == 0
        && AddrE(i, Inner(blocks))
      && FineLoop(c, p, body, lay1, After(i, names1), DeclE(i, Inner(blocks)))
    ensures AfterS(For(i, c, p, body), names) == names && DeclS(For(i, c, p, body), blocks) == blocks
  {
    hide NamesE, NamesS, ErrE, AddrE, CountE, CountS, DeclE, Inner;
    ForNamesGrow(i, c, p, body);
    ForScope(i, c, p, body, names, blocks);
    hide DeclS, NoDuplicates;
  }

  lemma ForScope(i: Expr, c: Expr, p: Expr, body: Stmt, names: List<seq<string>>, blocks: Blocks)
    requires names.Cons? && blocks != []
    ensures AfterS(For(i, c, p, body), names) == names && DeclS(For(i, c, p, body), blocks) == blocks
  {
    hide NamesE;
  }

  lemma ForNamesGrow(i: Expr, c: Expr, p: Expr, body: Stmt)
    ensures
      var n0 := NamesE(i, []);
      var n1 := NamesE(c, n0);
      var n2 := NamesS(body, n1);
      var full := NamesE(p, n2);
      NoDuplicates(full) && n0 <= full && n1 <= full && n2 <= full
  {
    hide NamesE, NamesS;
    NamesGrowE(i, []);
    NamesGrowE(c, NamesE(i, []));
    NamesGrowS(body, NamesE(c, NamesE(i, [])));
    NamesGrowE(p, NamesS(body, NamesE(c, NamesE(i, []))));
  }

  lemma ForExec(i: Expr, c: Expr, p: Expr, body: Stmt, names: List<seq<string>>, stores: List<Store>, fuel: nat)
    requires names.Cons? && Exec(For(i, c, p, body), names, stores, fuel) != Stuck
    ensures Eval(i, Cons([], names), Cons(map[], stores)).Some?
    ensures
      var s1 := Eval(i, Cons([], names), Cons(map[], stores)).value.1;
      var o := Loop(c, p, body, After(i, Cons([], names)), s1, fuel);
      o.Normal? && o.stores.Cons? && Exec(For(i, c, p, body), names, stores, fuel) == Normal(o.stores.tail)
  {
    var s1 := Eval(i, Cons([], names), Cons(map[], stores)).value.1;
    LoopNeverBreaks(c, p, body, After(i, Cons([], names)), s1, fuel);
    hide Eval, After, Loop;
  }

  lemma {:induction false} LoopNeverBreaks(c: Expr, p: Expr, body: Stmt, names: List<seq<string>>, stores: List<Store>,
      fuel: nat)
    requires names.Cons?
    ensures !Loop(c, p, body, names, stores, fuel).Broken?
    decreases fuel
  {
    hide Eval, Exec, After, AfterS, ToBool;
    if fuel > 0 && Eval(c, names, stores).Some? {
      var (v, s1) := Eval(c, names, stores).value;
      if ToBool(v) && Exec(body, After(c, names), s1, fuel).Normal? {
        var e := Eval(p, AfterS(body, After(c, names)), Exec(body, After(c, names), s1, fuel).stores);
        if e.Some? { LoopNeverBreaks(c, p, body, names, e.value.1, fuel - 1); }
      }
    }
  }

  lemma {:induction false} SimFor(code: seq<Op>, i: Expr, c: Expr, p: Expr, body: Stmt, lay: List<Slot>,
      names: List<seq<string>>, stores: List<Store>, blocks: Blocks, vm: Vm, m: nat, brk: int, fuel: nat)
    returns (vm': Vm)
    requires names.Cons? && blocks != [] && ReadyS(code, For(i, c, p, body), lay, names, stores, blocks, vm, m, brk)
    requires Exec(For(i, c, p, body), names, stores, fuel) != Stuck
    ensures DoneS(code, For(i, c, p, body), lay, names, blocks, vm, vm', m, brk,
        Exec(For(i, c, p, body), names, stores, fuel))
    decreases fuel, For(i, c, p, body), 0
  {
    hide *;
    var s := For(i, c, p, body);
    ReadySIs(code, s, lay, names, stores, blocks, vm, m, brk);
    ForFine(i, c, p, body, lay, names, blocks, m > 0);
    ForCodeAt(code, i, c, p, body, blocks, vm.pc, brk);
    ForExec(i, c, p, body, names, stores, fuel);
    var full := NamesE(p, NamesS(body, NamesE(c, NamesE(i, []))));
    var slot := Slot(true, full);
    var (lay1, names1, stores1, blocks1) := (Cons(slot, lay), Cons([], names), Cons(map[], stores), Inner(blocks));
    var end := vm.pc + LenS(s, blocks) - 1;
    EnterExecutes(vm, |full|);
    var vm1 := EnterRuns(code, EnterFor(|full|), ForFrame, full, lay, names, stores, blocks, vm);
    NotLoop();
    LoopOne(vm, Frame(|vm.stack|, ForFrame, []), slot, lay);
    NowFine(i, names1, stores1, blocks1);
    NowReady(code, i, lay1, names1, stores1, blocks1, vm1);
    var vm2 := SimE(code, i, lay1, names1, stores1, blocks1, vm1);
    DoneIs(code, i, lay1, names1, stores1, blocks1, vm1, vm2);
    GenELen(i, blocks1, vm1.pc);
    var (v, s1) := Eval(i, names1, stores1).value;
    PushKept(vm1, vm2, v);
    ShapeSane(vm1, vm2);
    ShapeLoop(vm1.frames, vm2.frames, 1);
    vm' := SimLoop(code, c, p, body, lay1, After(i, names1), s1, DeclE(i, blocks1), vm2, end, fuel);
    var st := Loop(c, p, body, After(i, names1), s1, fuel).stores;
    DeclEFront(i, blocks1);
    AfterHead(i, names1);
    ForThrough(code, lay1, After(i, names1), st, DeclE(i, blocks1), names, blocks, vm, vm1, vm2, vm', end);
    DoneNormal(code, s, lay, names, st.tail, blocks, vm, vm', m, brk);
  }

  lemma ForThrough(code: seq<Op>, lay1: List<Slot>, names1: List<seq<string>>, stores: List<Store>, blocks1: Blocks,
      names: List<seq<string>>, blocks: Blocks, vm: Vm, vm1: Vm, vm2: Vm, vm': Vm, end: int)
    requires LoopDone(code, lay1, names1, stores, blocks1, vm2, vm', end) && Sane(vm) && end + 1 >= vm.pc
    requires Runs(code, vm, vm1) && vm1.frames != [] && vm1.stack == vm.stack && Front(vm1.frames) == vm.frames
    requires Back(vm1.frames).top == |vm.stack|
    requires Runs(code, vm1, vm2) && SameShape(vm1.frames, vm2.frames) && Kept(vm1, vm2)
    requires names1.tail == names && names.Cons? && blocks != [] && blocks1 != [] && Front(blocks1) == blocks
    ensures Through(code, lay1.tail, names, stores.tail, blocks, vm, vm', end + 1 - vm.pc)
  {
    RunsOn(code, vm, vm1, vm2);
    RunsOn(code, vm, vm2, vm');
    hide Rel, Runs;
    assert Back(vm2.frames).top == |vm.stack| && vm'.stack == vm.stack;
    forall k | 0 <= k < |vm.frames|
      ensures vm.frames[k].top == vm'.frames[k].top && vm.frames[k].kind == vm'.frames[k].kind
    {
      assert vm.frames[k] == vm1.frames[k] && Front(vm2.frames)[k] == vm2.frames[k];
    }
  }

  lemma SimVoid(code: seq<Op>, lay: List<Slot>, names: List<seq<string>>, stores: List<Store>, blocks: Blocks, vm: Vm,
      m: nat, brk: int)
    requires names.Cons? && blocks != [] && ReadyS(code, Void, lay, names, stores, blocks, vm, m, brk)
    ensures DoneS(code, Void, lay, names, blocks, vm, vm, m, brk, Normal(stores))
  {
    RunsNone(code, vm);
    assert WithBack(blocks, Back(blocks)) == blocks;
    hide Rel, At, Runs, LoopAt;
  }

  lemma {:induction false} SimS(code: seq<Op>, s: Stmt, lay: List<Slot>, names: List<seq<string>>, stores: List<Store>,
      blocks: Blocks, vm: Vm, m: nat, brk: int, fuel: nat) returns (vm': Vm)
    requires names.Cons? && blocks != [] && ReadyS(code, s, lay, names, stores, blocks, vm, m, brk)
    requires Exec(s, names, stores, fuel) != Stuck
    ensures DoneS(code, s, lay, names, blocks, vm, vm', m, brk, Exec(s, names, stores, fuel))
    decreases fuel, s, 2
  {
    hide ReadyS, DoneS, Gen, Through, Broke, Here, Sane;
    match s
    case Do(e) => vm' := SimDo(code, e, lay, names, stores, blocks, vm, m, brk);
    case Next(s1, rest) => vm' := SimNext(code, s1, rest, lay, names, stores, blocks, vm, m, brk, fuel);
    case Block(body) =>
      if CountS(body) > 0 { vm' := SimBlock(code, body, lay, names, stores, blocks, vm, m, brk, fuel); }
      else { vm' := SimElided(code, body, lay, names, stores, blocks, vm, m, brk, fuel); }
    case If(c, y, n) =>
      if OwnScope(c) { vm' := SimIfOwn(code, c, y, n, lay, names, stores, blocks, vm, m, brk, fuel); }
      else { vm' := SimIfSame(code, c, y, n, lay, names, stores, blocks, vm, m, brk, fuel); }
    case While(c, body) => vm' := SimWhile(code, c, body, lay, names, stores, blocks, vm, m, brk, fuel);
    case Last =>
      vm' := SimLast(code, lay, names, stores, blocks, vm, m, brk);
      DoneBroken(code, s, lay, names, stores, blocks, vm, vm', m, brk);
    case Void =>
      SimVoid(code, lay, names, stores, blocks, vm, m, brk);
      vm' := vm;
    case For(i, c, p, body) => vm' := SimFor(code, i, c, p, body, lay, names, stores, blocks, vm, m, brk, fuel);
  }
}
