/** The other direction: where the meaning of a program has no end, by an exception or for ever, the machine does not
    get to the end of its code. */
module ToraConverse {
  import opened Basics
  import opened ToraMachine
  import opened ToraSyntax
  import opened ToraCompiler
  import opened ToraCorrect
  import opened ToraStatements

  // ----- runs that do not reach the end -----

  ghost predicate AtEnd(code: seq<Op>, vm: Vm) {
    0 <= vm.pc < |code| && code[vm.pc] == End
  }

  /** None of the first `n` states is at an END: the machine has stopped elsewhere or is still running. */
  ghost predicate Lost(code: seq<Op>, vm: Vm, n: nat)
    decreases n
  {
    n == 0 || (!AtEnd(code, vm) && (Step(code, vm).None? || Lost(code, Step(code, vm).value, n - 1)))
  }

  lemma EndStops(code: seq<Op>, vm: Vm)
    requires AtEnd(code, vm)
    ensures Step(code, vm).None?
  {
  }

  lemma {:induction false} LostIn(code: seq<Op>, a: Vm, k: nat, b: Vm, n: nat)
    requires RunsIn(code, a, k, b) && Lost(code, b, n)
    ensures Lost(code, a, n + k)
    decreases k
  {
    hide Step;
    if k > 0 {
      LostIn(code, Step(code, a).value, k - 1, b, n);
      if AtEnd(code, a) { EndStops(code, a); }
    }
  }

  lemma {:induction false} LostLess(code: seq<Op>, a: Vm, n: nat, k: nat)
    requires Lost(code, a, n) && k <= n
    ensures Lost(code, a, k)
    decreases k
  {
    hide Step;
    if k > 0 && Step(code, a).Some? { LostLess(code, Step(code, a).value, n - 1, k - 1); }
  }

  lemma LostFrom(code: seq<Op>, a: Vm, b: Vm, n: nat)
    requires Runs(code, a, b) && Lost(code, b, n)
    ensures Lost(code, a, n)
  {
    hide Step;
    var k: nat :| RunsIn(code, a, k, b);
    LostIn(code, a, k, b, n);
    LostLess(code, a, n + k, n);
  }

  /** At least one step more. */
  lemma LostLonger(code: seq<Op>, a: Vm, b: Vm, n: nat)
    requires Runs(code, a, b) && a != b && Lost(code, b, n)
    ensures Lost(code, a, n + 1)
  {
    hide Step;
    var k: nat :| RunsIn(code, a, k, b);
    LostIn(code, a, k, b, n);
    LostLess(code, a, n + k, n + 1);
  }

  lemma {:induction false} LostIsNotEnd(code: seq<Op>, a: Vm, n: nat, b: Vm)
    requires Lost(code, a, n + 1) && RunsIn(code, a, n, b)
    ensures !AtEnd(code, b)
    decreases n
  {
    hide Step;
    if n > 0 { LostIsNotEnd(code, Step(code, a).value, n - 1, b); }
  }

  lemma Stopped(code: seq<Op>, vm: Vm, n: nat)
    requires Step(code, vm).None? && !AtEnd(code, vm)
    ensures Lost(code, vm, n)
  {
  }

  // ----- expressions without a value -----

  /** As `ReadyE`, whether or not the expression has a value. */
  ghost predicate Posed(code: seq<Op>, e: Expr, lay: List<Slot>, names: List<seq<string>>, stores: List<Store>,
      blocks: Blocks, vm: Vm) {
    && Here(lay, names, stores, blocks, vm) && names.Cons? && blocks != []
    && Room(lay, names, NamesE(e, names.head), CountE(e))
    && vm.pc >= 0 && At(code, vm.pc, GenE(e, blocks, vm.pc)) && ErrE(e, blocks) == 0 && AddrE(e, blocks)
  }

  lemma PosedIs(code: seq<Op>, e: Expr, lay: List<Slot>, names: List<seq<string>>, stores: List<Store>, blocks: Blocks,
      vm: Vm)
    requires Posed(code, e, lay, names, stores, blocks, vm)
    ensures Here(lay, names, stores, blocks, vm) && names.Cons? && blocks != []
    ensures Room(lay, names, NamesE(e, names.head), CountE(e))
    ensures vm.pc >= 0 && At(code, vm.pc, GenE(e, blocks, vm.pc)) && ErrE(e, blocks) == 0 && AddrE(e, blocks)
    ensures Eval(e, names, stores).Some? ==> ReadyE(code, e, lay, names, stores, blocks, vm)
    ensures lay.Cons? && NoDuplicates(names.head)
  {
    HereParts(lay, names, stores, blocks, vm);
    RelDistinct(lay, names, stores, blocks, vm.frames);
    hide Here, At, GenE, ErrE, AddrE, NamesE, CountE, Eval;
  }

  lemma NowPosed(code: seq<Op>, e: Expr, lay: List<Slot>, names: List<seq<string>>, stores: List<Store>, blocks: Blocks,
      vm: Vm)
    requires Here(lay, names, stores, blocks, vm) && names.Cons? && blocks != []
    requires Room(lay, names, NamesE(e, names.head), CountE(e))
    requires vm.pc >= 0 && At(code, vm.pc, GenE(e, blocks, vm.pc)) && ErrE(e, blocks) == 0 && AddrE(e, blocks)
    ensures Posed(code, e, lay, names, stores, blocks, vm)
  {
    hide Here, At, GenE, ErrE, AddrE, NamesE, CountE;
  }

  /** Constants and variables have a value. */
  lemma LeafHasValue(code: seq<Op>, e: Expr, lay: List<Slot>, names: List<seq<string>>, stores: List<Store>,
      blocks: Blocks, vm: Vm)
    requires Posed(code, e, lay, names, stores, blocks, vm)
    requires e.Int? || e.True? || e.False? || e.Undef? || e.Var?
    ensures names.Cons? && Eval(e, names, stores).Some?
  {
    if e.Var? {
      assert At(code, vm.pc, GetCode(e.x, blocks)) && MissE(e.x, blocks) == 0 && Addr(e.x, blocks);
      hide Rel, At, GetCode;
      var vm' := GetRuns(code, e.x, lay, names, stores, blocks, vm);
    }
  }

  lemma MyHasValue(code: seq<Op>, x: string, lay: List<Slot>, names: List<seq<string>>, stores: List<Store>,
      blocks: Blocks, vm: Vm)
    requires Posed(code, My(x), lay, names, stores, blocks, vm)
    ensures names.Cons? && Eval(My(x), names, stores).Some?
  {
    AtSplit(code, vm.pc, [PushUndef], SetCode(x, DeclE(My(x), blocks)));
    hide Rel, Runs, At, Set, SetCode, DeclE;
    var vm1 := PushesOne(code, Undef, PushUndef, UndefValue, lay, names, stores, blocks, vm);
    var vm' := SimStore(code, My(x), Undef, x, lay, names, stores, blocks, vm, vm1, UndefValue, stores);
  }

  lemma RoomLess(lay: List<Slot>, names: List<seq<string>>, after: seq<string>, count: nat, before: seq<string>,
      less: nat)
    requires Room(lay, names, after, count) && before <= after && less <= count
    ensures Room(lay, names, before, less)
  {
  }

  /** The operand of an assignment. */
  lemma AssignPosed(code: seq<Op>, e: Expr, e1: Expr, x: string, lay: List<Slot>, names: List<seq<string>>,
      stores: List<Store>, blocks: Blocks, vm: Vm)
    requires Posed(code, e, lay, names, stores, blocks, vm) && (e == Assign(x, e1) || e == MyAssign(x, e1))
    ensures Posed(code, e1, lay, names, stores, blocks, vm) && blocks != [] && vm.pc >= 0
    ensures At(code, vm.pc + |GenE(e1, blocks, vm.pc)|, SetCode(x, DeclE(e, blocks)))
    ensures MissE(x, DeclE(e, blocks)) == 0 && Addr(x, DeclE(e, blocks)) && CountE(e1) <= CountE(e)
  {
    hide *;
    PosedIs(code, e, lay, names, stores, blocks, vm);
    AssignParts(e, e1, x, blocks, vm.pc, names.head);
    AtSplit(code, vm.pc, GenE(e1, blocks, vm.pc), SetCode(x, DeclE(e, blocks)));
    RoomLess(lay, names, NamesE(e, names.head), CountE(e), NamesE(e1, names.head), CountE(e1));
    NowPosed(code, e1, lay, names, stores, blocks, vm);
  }

  lemma AssignHasValue(code: seq<Op>, e: Expr, e1: Expr, x: string, lay: List<Slot>, names: List<seq<string>>,
      stores: List<Store>, blocks: Blocks, vm: Vm)
    requires Posed(code, e, lay, names, stores, blocks, vm) && (e == Assign(x, e1) || e == MyAssign(x, e1))
    requires names.Cons? && Eval(e1, names, stores).Some?
    ensures Eval(e, names, stores).Some?
  {
    hide *;
    PosedIs(code, e, lay, names, stores, blocks, vm);
    AssignPosed(code, e, e1, x, lay, names, stores, blocks, vm);
    PosedIs(code, e1, lay, names, stores, blocks, vm);
    var vm1 := SimE(code, e1, lay, names, stores, blocks, vm);
    ReadyIs(code, e1, lay, names, stores, blocks, vm);
    DoneIs(code, e1, lay, names, stores, blocks, vm, vm1);
    var (v, s1) := Eval(e1, names, stores).value;
    var vm' := SimStore(code, e, e1, x, lay, names, stores, blocks, vm, vm1, v, s1);
    StoredValue(e, e1, x, names, stores);
  }

  lemma StoredValue(e: Expr, e1: Expr, x: string, names: List<seq<string>>, stores: List<Store>)
    requires names.Cons? && Eval(e1, names, stores).Some? && (e == Assign(x, e1) || e == MyAssign(x, e1))
    requires var (v, s1) := Eval(e1, names, stores).value; Set(After(e, names), s1, x, v).Some?
    ensures Eval(e, names, stores).Some?
  {
    hide Set;
  }

  lemma PosedLeft(code: seq<Op>, e: Expr, l: Expr, r: Expr, lay: List<Slot>, names: List<seq<string>>,
      stores: List<Store>, blocks: Blocks, vm: Vm)
    requires Posed(code, e, lay, names, stores, blocks, vm) && IsPair(e, l, r)
    requires blocks != [] && vm.pc >= 0 && At(code, vm.pc, GenE(l, blocks, vm.pc))
    ensures Posed(code, l, lay, names, stores, blocks, vm)
  {
    hide *;
    PosedIs(code, e, lay, names, stores, blocks, vm);
    PairNamesE(e, l, r, names.head);
    PairErr(e, l, r, blocks);
    ReadyParts(code, l, r, lay, names, stores, blocks, vm, CountE(e));
    NowPosed(code, l, lay, names, stores, blocks, vm);
  }

  lemma PosedRight(code: seq<Op>, e: Expr, l: Expr, r: Expr, lay: List<Slot>, names: List<seq<string>>,
      stores: List<Store>, s1: List<Store>, blocks: Blocks, vm: Vm, vm1: Vm, vm2: Vm)
    requires Posed(code, e, lay, names, stores, blocks, vm) && IsPair(e, l, r) && names.Cons? && blocks != []
    requires Here(lay, After(l, names), s1, DeclE(l, blocks), vm1)
    requires vm2.frames == vm1.frames && vm2.pc >= 0 && At(code, vm2.pc, GenE(r, DeclE(l, blocks), vm2.pc))
    ensures Posed(code, r, lay, After(l, names), s1, DeclE(l, blocks), vm2)
  {
    hide *;
    PosedIs(code, e, lay, names, stores, blocks, vm);
    PairNamesE(e, l, r, names.head);
    PairErr(e, l, r, blocks);
    ReadyParts(code, l, r, lay, names, stores, blocks, vm, CountE(e));
    HereMoves(lay, After(l, names), s1, DeclE(l, blocks), vm1, vm2);
    AfterHead(l, names);
    NowPosed(code, r, lay, After(l, names), s1, DeclE(l, blocks), vm2);
  }

  /** Running an operand that has a value. */
  lemma OperandRuns(code: seq<Op>, e: Expr, lay: List<Slot>, names: List<seq<string>>, stores: List<Store>,
      blocks: Blocks, vm: Vm) returns (vm1: Vm)
    requires Posed(code, e, lay, names, stores, blocks, vm) && names.Cons? && Eval(e, names, stores).Some?
    ensures blocks != [] && vm.pc >= 0
    ensures var (v, s1) := Eval(e, names, stores).value;
      && Runs(code, vm, vm1) && vm1.pc == vm.pc + |GenE(e, blocks, vm.pc)| && vm1.stack == vm.stack + [v]
      && SameShape(vm.frames, vm1.frames) && Here(lay, After(e, names), s1, DeclE(e, blocks), vm1)
  {
    hide *;
    PosedIs(code, e, lay, names, stores, blocks, vm);
    vm1 := SimE(code, e, lay, names, stores, blocks, vm);
    ReadyIs(code, e, lay, names, stores, blocks, vm);
    DoneIs(code, e, lay, names, stores, blocks, vm, vm1);
  }

  lemma BinaryFails(op: BinOp, l: Expr, r: Expr, names: List<seq<string>>, stores: List<Store>)
    requires names.Cons? && Eval(Binary(op, l, r), names, stores).None? && Eval(l, names, stores).Some?
    ensures After(l, names).Cons?
    ensures var (x, s1) := Eval(l, names, stores).value;
      Eval(r, After(l, names), s1).Some? ==> BinResult(op, x, Eval(r, After(l, names), s1).value.0).None?
  {
    hide BinResult, After;
  }

  lemma BinaryStops(code: seq<Op>, op: BinOp, vm: Vm, stack: seq<Value>, x: Value, y: Value)
    requires vm.stack == (stack + [x]) + [y] && At(code, vm.pc, [Bin(op)]) && BinResult(op, x, y).None?
    ensures Step(code, vm).None? && !AtEnd(code, vm)
  {
    AtOne(code, vm.pc, Bin(op));
    hide BinResult;
  }

  lemma {:induction false} LostBinary(code: seq<Op>, op: BinOp, l: Expr, r: Expr, lay: List<Slot>,
      names: List<seq<string>>, stores: List<Store>, blocks: Blocks, vm: Vm, n: nat)
    requires Posed(code, Binary(op, l, r), lay, names, stores, blocks, vm) && names.Cons?
    requires Eval(Binary(op, l, r), names, stores).None?
    ensures Lost(code, vm, n)
    decreases Binary(op, l, r), 0
  {
    hide *;
    var e := Binary(op, l, r);
    BinaryPair(op, l, r);
    PosedIs(code, e, lay, names, stores, blocks, vm);
    BinaryCode(code, op, l, r, blocks, vm.pc);
    PosedLeft(code, e, l, r, lay, names, stores, blocks, vm);
    if Eval(l, names, stores).None? {
      LostE(code, l, lay, names, stores, blocks, vm, n);
    } else {
      BinaryFails(op, l, r, names, stores);
      var vm1 := OperandRuns(code, l, lay, names, stores, blocks, vm);
      var (x, s1) := Eval(l, names, stores).value;
      PosedRight(code, e, l, r, lay, names, stores, s1, blocks, vm, vm1, vm1);
      if Eval(r, After(l, names), s1).None? {
        LostE(code, r, lay, After(l, names), s1, DeclE(l, blocks), vm1, n);
      } else {
        var vm2 := OperandRuns(code, r, lay, After(l, names), s1, DeclE(l, blocks), vm1);
        var (y, s2) := Eval(r, After(l, names), s1).value;
        BinaryStops(code, op, vm2, vm.stack, x, y);
        Stopped(code, vm2, n);
        LostFrom(code, vm1, vm2, n);
      }
      LostFrom(code, vm, vm1, n);
    }
  }

  lemma LogicalFails(e: Expr, l: Expr, r: Expr, names: List<seq<string>>, stores: List<Store>)
    requires names.Cons? && (e == And(l, r) || e == Or(l, r)) && Eval(e, names, stores).None?
    ensures IsPair(e, l, r) && After(l, names).Cons?
    ensures Eval(l, names, stores).Some? ==> var (x, s1) := Eval(l, names, stores).value;
      e.And? == ToBool(x) && Eval(r, After(l, names), s1).None?
  {
    hide After;
  }

  lemma {:induction false} LostLogical(code: seq<Op>, e: Expr, l: Expr, r: Expr, lay: List<Slot>,
      names: List<seq<string>>, stores: List<Store>, blocks: Blocks, vm: Vm, n: nat)
    requires Posed(code, e, lay, names, stores, blocks, vm) && names.Cons? && (e == And(l, r) || e == Or(l, r))
    requires Eval(e, names, stores).None?
    ensures Lost(code, vm, n)
    decreases e, 0
  {
    hide *;
    PosedIs(code, e, lay, names, stores, blocks, vm);
    LogicalCode(code, e, l, r, blocks, vm.pc);
    LogicalFails(e, l, r, names, stores);
    PosedLeft(code, e, l, r, lay, names, stores, blocks, vm);
    if Eval(l, names, stores).None? {
      LostE(code, l, lay, names, stores, blocks, vm, n);
    } else {
      var vm1 := OperandRuns(code, l, lay, names, stores, blocks, vm);
      var (x, s1) := Eval(l, names, stores).value;
      var vm2 := vm1.(pc := vm1.pc + 2, stack := vm.stack);
      JumpPasses(code, e.And?, vm, vm1, x, vm.pc + |GenE(e, blocks, vm.pc)|);
      PosedRight(code, e, l, r, lay, names, stores, s1, blocks, vm, vm1, vm2);
      LostE(code, r, lay, After(l, names), s1, DeclE(l, blocks), vm2, n);
      LostFrom(code, vm, vm2, n);
    }
  }

  lemma {:induction false} LostAssign(code: seq<Op>, e: Expr, e1: Expr, x: string, lay: List<Slot>,
      names: List<seq<string>>, stores: List<Store>, blocks: Blocks, vm: Vm, n: nat)
    requires Posed(code, e, lay, names, stores, blocks, vm) && names.Cons?
    requires (e == Assign(x, e1) || e == MyAssign(x, e1))
    requires Eval(e, names, stores).None?
    ensures Lost(code, vm, n)
    decreases e, 0
  {
    hide *;
    if Eval(e1, names, stores).Some? {
      AssignHasValue(code, e, e1, x, lay, names, stores, blocks, vm);
      assert false;
    }
    AssignPosed(code, e, e1, x, lay, names, stores, blocks, vm);
    LostE(code, e1, lay, names, stores, blocks, vm, n);
  }

  lemma {:induction false} LostNegate(code: seq<Op>, e1: Expr, lay: List<Slot>, names: List<seq<string>>,
      stores: List<Store>, blocks: Blocks, vm: Vm, n: nat)
    requires Posed(code, Negate(e1), lay, names, stores, blocks, vm) && names.Cons?
    requires Eval(Negate(e1), names, stores).None?
    ensures Lost(code, vm, n)
    decreases Negate(e1), 0
  {
    AtSplit(code, vm.pc, GenE(e1, blocks, vm.pc), [Op.Not]);
    hide Here, At, Lost;
    LostE(code, e1, lay, names, stores, blocks, vm, n);
  }

  /** An exception stops the machine in the code of the expression. */
  lemma {:induction false} LostE(code: seq<Op>, e: Expr, lay: List<Slot>, names: List<seq<string>>,
      stores: List<Store>, blocks: Blocks, vm: Vm, n: nat)
    requires Posed(code, e, lay, names, stores, blocks, vm) && names.Cons? && Eval(e, names, stores).None?
    ensures Lost(code, vm, n)
    decreases e, 1
  {
    hide *;
    match e
    case Assign(x, e1) => LostAssign(code, e, e1, x, lay, names, stores, blocks, vm, n);
    case MyAssign(x, e1) => LostAssign(code, e, e1, x, lay, names, stores, blocks, vm, n);
    case My(x) =>
      MyHasValue(code, x, lay, names, stores, blocks, vm);
      assert false;
    case Binary(op, l, r) => LostBinary(code, op, l, r, lay, names, stores, blocks, vm, n);
    case Negate(e1) => LostNegate(code, e1, lay, names, stores, blocks, vm, n);
    case And(l, r) => LostLogical(code, e, l, r, lay, names, stores, blocks, vm, n);
    case Or(l, r) => LostLogical(code, e, l, r, lay, names, stores, blocks, vm, n);
    case _ =>
      LeafHasValue(code, e, lay, names, stores, blocks, vm);
      assert false;
  }

  // ----- as many scopes after a statement as before -----

  function Depth<T>(l: List<T>): nat {
    if l.Nil? then 0 else 1 + Depth(l.tail)
  }

  lemma {:induction false} SetKeepsDepth(names: List<seq<string>>, stores: List<Store>, x: string, v: Value)
    ensures Set(names, stores, x, v).Some? ==> Depth(Set(names, stores, x, v).value) == Depth(stores)
    decreases names
  {
    if names.Cons? && stores.Cons? && x !in names.head { SetKeepsDepth(names.tail, stores.tail, x, v); }
  }

  lemma {:induction false} EvalKeepsDepth(e: Expr, names: List<seq<string>>, stores: List<Store>)
    requires names.Cons?
    ensures Eval(e, names, stores).Some? ==> Depth(Eval(e, names, stores).value.1) == Depth(stores)
    decreases e, 1
  {
    hide Set, Get, BinResult, ToBool, Depth, After;
    match e
    case Assign(x, e1) =>
      EvalKeepsDepth(e1, names, stores);
      if Eval(e1, names, stores).Some? {
        var (v, s1) := Eval(e1, names, stores).value;
        SetKeepsDepth(After(e1, names), s1, x, v);
      }
    case MyAssign(x, e1) =>
      EvalKeepsDepth(e1, names, stores);
      if Eval(e1, names, stores).Some? {
        var (v, s1) := Eval(e1, names, stores).value;
        SetKeepsDepth(After(e, names), s1, x, v);
      }
    case My(x) => SetKeepsDepth(After(e, names), stores, x, UndefValue);
    case Binary(_, l, r) => PairKeepsDepth(e, l, r, names, stores);
    case Negate(e1) => EvalKeepsDepth(e1, names, stores);
    case And(l, r) => PairKeepsDepth(e, l, r, names, stores);
    case Or(l, r) => PairKeepsDepth(e, l, r, names, stores);
    case _ =>
  }

  lemma {:induction false} PairKeepsDepth(e: Expr, l: Expr, r: Expr, names: List<seq<string>>, stores: List<Store>)
    requires names.Cons? && l < e && r < e
    ensures After(l, names).Cons?
    ensures Eval(l, names, stores).Some? ==> Depth(Eval(l, names, stores).value.1) == Depth(stores)
    ensures Eval(l, names, stores).Some? ==> var s1 := Eval(l, names, stores).value.1;
      Eval(r, After(l, names), s1).Some? ==> Depth(Eval(r, After(l, names), s1).value.1) == Depth(stores)
    decreases e, 0
  {
    hide Eval, Depth, After;
    EvalKeepsDepth(l, names, stores);
    if Eval(l, names, stores).Some? { EvalKeepsDepth(r, After(l, names), Eval(l, names, stores).value.1); }
  }

  /** `n` scopes, if there is an outcome. */
  ghost predicate Deep(o: Outcome, n: nat) {
    !o.Stuck? ==> Depth(o.stores) == n
  }

  lemma {:induction false} ExecKeepsDepth(s: Stmt, names: List<seq<string>>, stores: List<Store>, fuel: nat)
    requires names.Cons?
    ensures Deep(Exec(s, names, stores, fuel), Depth(stores))
    decreases fuel, s, 1
  {
    hide Eval, ToBool, After, AfterS;
    match s
    case Do(e) => EvalKeepsDepth(e, names, stores);
    case Next(s1, rest) =>
      ExecKeepsDepth(s1, names, stores, fuel);
      var o := Exec(s1, names, stores, fuel);
      if o.Normal? { ExecKeepsDepth(rest, AfterS(s1, names), o.stores, fuel); }
    case Block(body) => ExecKeepsDepth(body, Cons([], names), Cons(map[], stores), fuel);
    case If(c, y, n) =>
      if OwnScope(c) { BranchKeepsDepth(c, y, n, Cons([], names), Cons(map[], stores), fuel); }
      else { BranchKeepsDepth(c, y, n, names, stores, fuel); }
    case While(c, body) => WhileKeepsDepth(c, body, names, stores, fuel);
    case For(i, c, p, body) =>
      EvalKeepsDepth(i, Cons([], names), Cons(map[], stores));
      var e := Eval(i, Cons([], names), Cons(map[], stores));
      if e.Some? { LoopKeepsDepth(c, p, body, After(i, Cons([], names)), e.value.1, fuel); }
    case _ =>
  }

  lemma {:induction false} WhileKeepsDepth(c: Expr, body: Stmt, names: List<seq<string>>, stores: List<Store>,
      fuel: nat)
    requires names.Cons?
    ensures Deep(Exec(While(c, body), names, stores, fuel), Depth(stores))
    decreases fuel, While(c, body), 0
  {
    hide Eval, ToBool, After;
    EvalKeepsDepth(c, names, stores);
    if fuel > 0 && Eval(c, names, stores).Some? {
      var (v, s1) := Eval(c, names, stores).value;
      ExecKeepsDepth(body, Cons([], After(c, names)), Cons(map[], s1), fuel);
      var o := ToraSyntax.Leave(Exec(body, Cons([], After(c, names)), Cons(map[], s1), fuel));
      if o.Normal? { ExecKeepsDepth(While(c, body), names, o.stores, fuel - 1); }
    }
  }

  lemma {:induction false} BranchKeepsDepth(c: Expr, y: Stmt, n: Stmt, names: List<seq<string>>, stores: List<Store>,
      fuel: nat)
    requires names.Cons?
    ensures Deep(Branch(c, y, n, names, stores, fuel), Depth(stores))
    decreases fuel, If(c, y, n), 0
  {
    hide Eval, ToBool, After, AfterS, Exec, Deep;
    EvalKeepsDepth(c, names, stores);
    if Eval(c, names, stores).Some? {
      var (v, s1) := Eval(c, names, stores).value;
      ExecKeepsDepth(y, After(c, names), s1, fuel);
      ExecKeepsDepth(n, AfterS(y, After(c, names)), s1, fuel);
    } else {
      StuckIsDeep(Depth(stores));
    }
  }

  lemma StuckIsDeep(n: nat)
    ensures Deep(Stuck, n)
  {
  }

  lemma DeepIs(o: Outcome, n: nat)
    ensures Deep(o, n) <==> (!o.Stuck? ==> Depth(o.stores) == n)
  {
    hide Depth;
  }

  /** One iteration: the condition, */
  lemma LoopOnce(c: Expr, p: Expr, body: Stmt, names: List<seq<string>>, stores: List<Store>, v: Value, s1: List<Store>,
      fuel: nat)
    requires names.Cons? && fuel > 0 && Eval(c, names, stores) == Some((v, s1))
    ensures !ToBool(v) ==> Loop(c, p, body, names, stores, fuel) == Normal(s1)
    ensures ToBool(v) && !Exec(body, After(c, names), s1, fuel).Normal? ==>
      Loop(c, p, body, names, stores, fuel) == Caught(Exec(body, After(c, names), s1, fuel))
  {
    hide Eval, ToBool, Exec, After, AfterS;
  }

  /** and the rest after a body that is through. */
  lemma LoopMore(c: Expr, p: Expr, body: Stmt, names: List<seq<string>>, stores: List<Store>, v: Value, s1: List<Store>,
      s2: List<Store>, fuel: nat)
    requires names.Cons? && fuel > 0 && Eval(c, names, stores) == Some((v, s1)) && ToBool(v)
    requires Exec(body, After(c, names), s1, fuel) == Normal(s2)
    ensures Loop(c, p, body, names, stores, fuel) ==
      match Eval(p, AfterS(body, After(c, names)), s2)
      case None => Stuck
      case Some((_, s3)) => Loop(c, p, body, names, s3, fuel - 1)
  {
    hide Eval, ToBool, Exec, After, AfterS;
  }

  lemma {:induction false} LoopKeepsDepth(c: Expr, p: Expr, body: Stmt, names: List<seq<string>>, stores: List<Store>,
      fuel: nat)
    requires names.Cons?
    ensures Deep(Loop(c, p, body, names, stores, fuel), Depth(stores))
    decreases fuel, body, 2
  {
    hide *;
    if fuel == 0 || Eval(c, names, stores).None? {
      NoLoop(c, p, body, names, stores, fuel);
      StuckIsDeep(Depth(stores));
    } else {
      var (v, s1) := Eval(c, names, stores).value;
      var o := Exec(body, After(c, names), s1, fuel);
      LoopOnce(c, p, body, names, stores, v, s1, fuel);
      EvalKeepsDepth(c, names, stores);
      ExecKeepsDepth(body, After(c, names), s1, fuel);
      if ToBool(v) && o.Normal? {
        LoopMoreDepth(c, p, body, names, stores, v, s1, o.stores, fuel);
      } else {
        CaughtIsDeep(o, s1);
      }
    }
  }

  lemma NoLoop(c: Expr, p: Expr, body: Stmt, names: List<seq<string>>, stores: List<Store>, fuel: nat)
    requires names.Cons? && (fuel == 0 || Eval(c, names, stores).None?)
    ensures Loop(c, p, body, names, stores, fuel) == Stuck
  {
  }

  lemma CaughtIsDeep(o: Outcome, stores: List<Store>)
    ensures Deep(Normal(stores), Depth(stores))
    ensures Deep(o, Depth(stores)) ==> Deep(Caught(o), Depth(stores))
  {
    hide Depth;
  }

  lemma {:induction false} LoopMoreDepth(c: Expr, p: Expr, body: Stmt, names: List<seq<string>>, stores: List<Store>,
      v: Value, s1: List<Store>, s2: List<Store>, fuel: nat)
    requires names.Cons? && fuel > 0 && Eval(c, names, stores) == Some((v, s1)) && ToBool(v)
    requires Exec(body, After(c, names), s1, fuel) == Normal(s2)
    requires Depth(s1) == Depth(stores) && Deep(Normal(s2), Depth(s1))
    ensures Deep(Loop(c, p, body, names, stores, fuel), Depth(stores))
    decreases fuel, body, 1
  {
    hide *;
    LoopMore(c, p, body, names, stores, v, s1, s2, fuel);
    DeepIs(Normal(s2), Depth(s1));
    var names2 := AfterS(body, After(c, names));
    EvalKeepsDepth(p, names2, s2);
    match Eval(p, names2, s2) {
      case None => StuckIsDeep(Depth(stores));
      case Some((_, s3)) => LoopKeepsDepth(c, p, body, names, s3, fuel - 1);
    }
  }

  /** Leaving a scope that was entered always works. */
  lemma LeftScope(o: Outcome, stores: List<Store>)
    requires Deep(o, Depth(Cons(map[], stores)))
    ensures o == Stuck || o.stores.Cons?
    ensures ToraSyntax.Leave(o) == Stuck <==> o == Stuck
  {
  }

  // ----- statements without an outcome -----

  lemma LostDo(code: seq<Op>, e: Expr, lay: List<Slot>, names: List<seq<string>>, stores: List<Store>, blocks: Blocks,
      vm: Vm, m: nat, brk: int, n: nat)
    requires names.Cons? && blocks != [] && ReadyS(code, Do(e), lay, names, stores, blocks, vm, m, brk)
    requires Eval(e, names, stores).None?
    ensures Lost(code, vm, n)
  {
    assert Posed(code, e, lay, names, stores, blocks, vm) by {
      hide Rel, At, GenE, ErrE, AddrE, NamesE, CountE, Eval, LoopAt, Tops, Lost;
    }
    hide *;
    LostE(code, e, lay, names, stores, blocks, vm, n);
  }

  lemma NextStuck(s1: Stmt, rest: Stmt, names: List<seq<string>>, stores: List<Store>, fuel: nat)
    requires names.Cons? && Exec(Next(s1, rest), names, stores, fuel) == Stuck
    ensures AfterS(s1, names).Cons?
    ensures match Exec(s1, names, stores, fuel)
      case Normal(st) => Exec(rest, AfterS(s1, names), st, fuel) == Stuck
      case Broken(st) => false
      case Stuck => true
  {
    hide AfterS;
  }

  lemma {:induction false} LostNext(code: seq<Op>, s1: Stmt, rest: Stmt, lay: List<Slot>, names: List<seq<string>>,
      stores: List<Store>, blocks: Blocks, vm: Vm, m: nat, brk: int, fuel: nat)
    requires names.Cons? && blocks != [] && ReadyS(code, Next(s1, rest), lay, names, stores, blocks, vm, m, brk)
    requires Exec(Next(s1, rest), names, stores, fuel) == Stuck
    ensures Lost(code, vm, fuel)
    decreases fuel, Next(s1, rest), 0
  {
    hide *;
    ReadySIs(code, Next(s1, rest), lay, names, stores, blocks, vm, m, brk);
    NextParts(s1, rest, lay, names, blocks, m > 0);
    NextCode(code, s1, rest, blocks, vm.pc, brk);
    NextStuck(s1, rest, names, stores, fuel);
    var vm1 := NextStateRuns(code, lay, names, stores, blocks, vm);
    ThroughIs(code, lay, names, stores, blocks, vm, vm1, 1);
    NowReadyS(code, s1, lay, names, stores, blocks, vm1, m, brk);
    match Exec(s1, names, stores, fuel) {
      case Normal(st) =>
        var vm2 := SimS(code, s1, lay, names, stores, blocks, vm1, m, brk, fuel);
        DoneNormal(code, s1, lay, names, st, blocks, vm1, vm2, m, brk);
        ThroughTrans(code, lay, names, stores, blocks, AfterS(s1, names), st, DeclS(s1, blocks), vm, vm1, vm2, 1,
            LenS(s1, blocks));
        RestReady(code, s1, rest, lay, names, stores, st, blocks, vm, vm2, m, brk);
        AfterSHead(s1, names);
        ThroughIs(code, lay, AfterS(s1, names), st, DeclS(s1, blocks), vm, vm2, 1 + LenS(s1, blocks));
        LostS(code, rest, lay, AfterS(s1, names), st, DeclS(s1, blocks), vm2, m, brk, fuel);
        LostFrom(code, vm, vm2, fuel);
      case Stuck =>
        LostS(code, s1, lay, names, stores, blocks, vm1, m, brk, fuel);
        LostFrom(code, vm, vm1, fuel);
    }
  }

  lemma BlockStuck(body: Stmt, names: List<seq<string>>, stores: List<Store>, fuel: nat)
    requires names.Cons? && Exec(Block(body), names, stores, fuel) == Stuck
    ensures Exec(body, Cons([], names), Cons(map[], stores), fuel) == Stuck
  {
    ExecKeepsDepth(body, Cons([], names), Cons(map[], stores), fuel);
    LeftScope(Exec(body, Cons([], names), Cons(map[], stores), fuel), stores);
    hide Deep, ToraSyntax.Leave;
  }

  lemma {:induction false} LostBlock(code: seq<Op>, body: Stmt, lay: List<Slot>, names: List<seq<string>>,
      stores: List<Store>, blocks: Blocks, vm: Vm, m: nat, brk: int, fuel: nat)
    requires names.Cons? && blocks != [] && ReadyS(code, Block(body), lay, names, stores, blocks, vm, m, brk)
    requires Exec(Block(body), names, stores, fuel) == Stuck
    ensures Lost(code, vm, fuel)
    decreases fuel, Block(body), 0
  {
    hide *;
    var m1 := if m > 0 then m + 1 else 0;
    BlockStuck(body, names, stores, fuel);
    ReadySIs(code, Block(body), lay, names, stores, blocks, vm, m, brk);
    BlockParts(body, lay, names, blocks, m > 0);
    BlockCode(code, body, blocks, vm.pc, brk);
    var (names1, stores1) := (Cons([], names), Cons(map[], stores));
    if CountS(body) > 0 {
      var full := NamesS(body, []);
      var vm1 := EnterScope(code, |full|, full, lay, names, stores, blocks, vm, m);
      EnteredIs(code, full, lay, names, stores, blocks, vm, vm1, m);
      EnteredRuns(code, full, lay, names, stores, blocks, vm, vm1, m);
      NowReadyS(code, body, Cons(Slot(true, full), lay), names1, stores1, Inner(blocks), vm1, m1, brk);
      LostS(code, body, Cons(Slot(true, full), lay), names1, stores1, Inner(blocks), vm1, m1, brk, fuel);
      LostFrom(code, vm, vm1, fuel);
    } else {
      var lay1 := Cons(Slot(false, []), lay);
      HereIs(lay, names, stores, blocks, vm);
      ElidedRel(lay, names, stores, blocks, vm.frames);
      HereIs(lay1, names1, stores1, blocks, vm);
      RealsElided(lay, m);
      NowReadyS(code, body, lay1, names1, stores1, blocks, vm, m1, brk);
      LostS(code, body, lay1, names1, stores1, blocks, vm, m1, brk, fuel);
    }
  }

  lemma EnteredRuns(code: seq<Op>, full: seq<string>, lay: List<Slot>, names: List<seq<string>>, stores: List<Store>,
      blocks: Blocks, vm: Vm, vm1: Vm, m: nat)
    requires Entered(code, full, lay, names, stores, blocks, vm, vm1, m)
    ensures Runs(code, vm, vm1)
  {
    hide Here, Sane, LoopAt, Reals, Runs;
  }

  lemma BranchStuck(c: Expr, y: Stmt, n: Stmt, names: List<seq<string>>, stores: List<Store>, fuel: nat)
    requires names.Cons? && Branch(c, y, n, names, stores, fuel) == Stuck
    ensures After(c, names).Cons? && AfterS(y, After(c, names)).Cons?
    ensures Eval(c, names, stores).Some? ==> var (v, s1) := Eval(c, names, stores).value;
      if ToBool(v) then Exec(y, After(c, names), s1, fuel) == Stuck
      else Exec(n, AfterS(y, After(c, names)), s1, fuel) == Stuck
  {
    hide Eval, ToBool, Exec;
  }

  lemma {:induction false} LostBranch(code: seq<Op>, c: Expr, y: Stmt, n: Stmt, lay: List<Slot>,
      names: List<seq<string>>, stores: List<Store>, blocks: Blocks, vm: Vm, m: nat, brk: int, fuel: nat)
    requires names.Cons? && blocks != [] && Here(lay, names, stores, blocks, vm) && Sane(vm) && vm.pc >= 0
    requires FineIf(c, y, n, lay, names, blocks, m > 0) && At(code, vm.pc, IfCode(c, y, n, blocks, vm.pc, brk, false))
    requires (m > 0 ==> LoopAt(vm.frames, Reals(lay, m))) && Branch(c, y, n, names, stores, fuel) == Stuck
    ensures Lost(code, vm, fuel)
    decreases fuel, If(c, y, n), 0
  {
    hide *;
    IfCodeAt(code, c, y, n, blocks, vm.pc, brk);
    IfLenIs(c, y, n, blocks);
    FineIfIs(c, y, n, lay, names, blocks, m > 0);
    BranchStuck(c, y, n, names, stores, fuel);
    NowPosed(code, c, lay, names, stores, blocks, vm);
    if Eval(c, names, stores).None? {
      LostE(code, c, lay, names, stores, blocks, vm, fuel);
    } else {
      NowFine(c, names, stores, blocks);
      NowReady(code, c, lay, names, stores, blocks, vm);
      var no := vm.pc + LenE(c, blocks) + 1 + LenS(y, DeclE(c, blocks)) + 1;
      var vm1 := CondRuns(code, c, lay, names, stores, blocks, vm, no);
      var (v, s1) := Eval(c, names, stores).value;
      var (names1, blocks1) := (After(c, names), DeclE(c, blocks));
      var (names2, blocks2) := (AfterS(y, names1), DeclS(y, blocks1));
      AfterHead(c, names);
      AfterSHead(y, names1);
      IfOutside(c, y, names, blocks);
      if m > 0 { ShapeLoop(vm.frames, vm1.frames, Reals(lay, m)); }
      if ToBool(v) {
        NowReadyS(code, y, lay, names1, s1, blocks1, vm1, m, brk);
        LostS(code, y, lay, names1, s1, blocks1, vm1, m, brk, fuel);
      } else {
        HereIs(lay, names1, s1, blocks1, vm1);
        DeclareS(y, lay, names1, s1, blocks1, vm1.frames);
        HereIs(lay, names2, s1, blocks2, vm1);
        NowReadyS(code, n, lay, names2, s1, blocks2, vm1, m, brk);
        LostS(code, n, lay, names2, s1, blocks2, vm1, m, brk, fuel);
      }
      LostFrom(code, vm, vm1, fuel);
    }
  }

  lemma IfStuck(c: Expr, y: Stmt, n: Stmt, names: List<seq<string>>, stores: List<Store>, fuel: nat)
    requires names.Cons? && Exec(If(c, y, n), names, stores, fuel) == Stuck
    ensures if OwnScope(c) then Branch(c, y, n, Cons([], names), Cons(map[], stores), fuel) == Stuck
            else Branch(c, y, n, names, stores, fuel) == Stuck
  {
    if OwnScope(c) {
      BranchKeepsDepth(c, y, n, Cons([], names), Cons(map[], stores), fuel);
      LeftScope(Branch(c, y, n, Cons([], names), Cons(map[], stores), fuel), stores);
    }
    hide Deep, ToraSyntax.Leave, Branch, OwnScope;
  }

  lemma {:induction false} LostIf(code: seq<Op>, c: Expr, y: Stmt, n: Stmt, lay: List<Slot>, names: List<seq<string>>,
      stores: List<Store>, blocks: Blocks, vm: Vm, m: nat, brk: int, fuel: nat)
    requires names.Cons? && blocks != [] && ReadyS(code, If(c, y, n), lay, names, stores, blocks, vm, m, brk)
    requires Exec(If(c, y, n), names, stores, fuel) == Stuck
    ensures Lost(code, vm, fuel)
    decreases fuel, If(c, y, n), 1
  {
    hide *;
    var s := If(c, y, n);
    IfStuck(c, y, n, names, stores, fuel);
    ReadySIs(code, s, lay, names, stores, blocks, vm, m, brk);
    if OwnScope(c) {
      var full := IfNames(c, y, n, []);
      IfOwnParts(c, y, n, lay, names, blocks, m > 0);
      IfOwnCode(code, c, y, n, blocks, vm.pc, brk);
      var vm1 := EnterScope(code, |full|, full, lay, names, stores, blocks, vm, m);
      EnteredIs(code, full, lay, names, stores, blocks, vm, vm1, m);
      EnteredRuns(code, full, lay, names, stores, blocks, vm, vm1, m);
      LostBranch(code, c, y, n, Cons(Slot(true, full), lay), Cons([], names), Cons(map[], stores), Inner(blocks), vm1,
          if m > 0 then m + 1 else 0, brk, fuel);
      LostFrom(code, vm, vm1, fuel);
    } else {
      IfSameCode(c, y, n, blocks, vm.pc, brk);
      IfSameParts(c, y, n, lay, names, blocks, m > 0);
      LostBranch(code, c, y, n, lay, names, stores, blocks, vm, m, brk, fuel);
    }
  }

  // ----- loops without an end -----

  lemma WhileStuck(c: Expr, body: Stmt, names: List<seq<string>>, stores: List<Store>, fuel: nat)
    requires names.Cons? && Exec(While(c, body), names, stores, fuel) == Stuck && fuel > 0
    ensures Eval(c, names, stores).Some? ==> var (v, s1) := Eval(c, names, stores).value;
      && ToBool(v) && After(c, names).Cons?
      && var o := Exec(body, Cons([], After(c, names)), Cons(map[], s1), fuel);
         o == Stuck || (o.Normal? && o.stores.Cons? && Exec(While(c, body), names, o.stores.tail, fuel - 1) == Stuck)
  {
    hide Eval, ToBool, After;
    if Eval(c, names, stores).Some? {
      var (v, s1) := Eval(c, names, stores).value;
      ExecKeepsDepth(body, Cons([], After(c, names)), Cons(map[], s1), fuel);
      LeftScope(Exec(body, Cons([], After(c, names)), Cons(map[], s1), fuel), s1);
    }
    hide Deep;
  }

  lemma {:induction false} LostWhile(code: seq<Op>, c: Expr, body: Stmt, lay: List<Slot>, names: List<seq<string>>,
      stores: List<Store>, blocks: Blocks, vm: Vm, m: nat, brk: int, fuel: nat)
    requires names.Cons? && blocks != [] && ReadyS(code, While(c, body), lay, names, stores, blocks, vm, m, brk)
    requires Exec(While(c, body), names, stores, fuel) == Stuck && fuel > 0
    ensures Lost(code, vm, fuel)
    decreases fuel, While(c, body), 1
  {
    hide *;
    var s := While(c, body);
    ReadySIs(code, s, lay, names, stores, blocks, vm, m, brk);
    ToraStatements.WhileParts(c, body, lay, names, blocks, m > 0);
    WhileCodeAt(code, c, body, blocks, vm.pc, brk);
    WhileStuck(c, body, names, stores, fuel);
    NowPosed(code, c, lay, names, stores, blocks, vm);
    if Eval(c, names, stores).None? {
      LostE(code, c, lay, names, stores, blocks, vm, fuel);
    } else {
      NowFine(c, names, stores, blocks);
      NowReady(code, c, lay, names, stores, blocks, vm);
      var vm1 := CondRuns(code, c, lay, names, stores, blocks, vm, vm.pc + LenS(s, blocks));
      var (v, s1) := Eval(c, names, stores).value;
      var (names2, stores2) := (Cons([], After(c, names)), Cons(map[], s1));
      var o := Exec(body, names2, stores2, fuel);
      if o == Stuck {
        var vm2 := WhileEnter(code, c, body, lay, names, stores, s1, blocks, vm, vm1, m, brk);
        ReadySIs(code, body, Cons(Slot(true, NamesS(body, [])), lay), names2, stores2, Inner(DeclE(c, blocks)), vm2, 1,
            vm.pc + LenS(s, blocks) - 1);
        LostS(code, body, Cons(Slot(true, NamesS(body, [])), lay), names2, stores2, Inner(DeclE(c, blocks)), vm2, 1,
            vm.pc + LenS(s, blocks) - 1, fuel);
        LostFrom(code, vm1, vm2, fuel);
        LostFrom(code, vm, vm1, fuel);
      } else {
        var vm3 := WhileBody(code, c, body, lay, names, stores, s1, blocks, vm, vm1, m, brk, fuel);
        AgainReady(code, c, body, lay, names, stores, o.stores.tail, blocks, vm, vm3, m, brk);
        LostS(code, s, lay, names, o.stores.tail, blocks, vm3, m, brk, fuel - 1);
        LostFrom(code, vm1, vm3, fuel - 1);
        LostLonger(code, vm, vm1, fuel - 1);
      }
    }
  }

  lemma LoopSeen(c: Expr, p: Expr, body: Stmt, names: List<seq<string>>, stores: List<Store>, v: Value,
      s1: List<Store>, fuel: nat)
    requires names.Cons? && Loop(c, p, body, names, stores, fuel) == Stuck && fuel > 0
    requires Eval(c, names, stores) == Some((v, s1))
    ensures ToBool(v) && !Exec(body, After(c, names), s1, fuel).Broken?
  {
    LoopOnce(c, p, body, names, stores, v, s1, fuel);
    hide Eval, ToBool, Exec, After, AfterS, Loop;
  }

  lemma {:induction false} LostLoop(code: seq<Op>, c: Expr, p: Expr, body: Stmt, lay: List<Slot>,
      names: List<seq<string>>, stores: List<Store>, blocks: Blocks, vm: Vm, end: int, fuel: nat)
    requires names.Cons? && blocks != [] && FineLoop(c, p, body, lay, names, blocks)
    requires LoopCode(code, c, p, body, blocks, vm.pc, end)
    requires Here(lay, names, stores, blocks, vm) && Sane(vm) && LoopAt(vm.frames, 1)
    requires Loop(c, p, body, names, stores, fuel) == Stuck
    ensures Lost(code, vm, fuel)
    decreases fuel, body, 4
  {
    hide *;
    if fuel == 0 {
      LostNone(code, vm);
    } else {
      FineLoopIs(c, p, body, lay, names, blocks);
      LoopCodeIs(code, c, p, body, blocks, vm.pc, end);
      NowPosed(code, c, lay, names, stores, blocks, vm);
      if Eval(c, names, stores).None? {
        LostE(code, c, lay, names, stores, blocks, vm, fuel);
      } else {
        NowFine(c, names, stores, blocks);
        NowReady(code, c, lay, names, stores, blocks, vm);
        var vm1 := CondRuns(code, c, lay, names, stores, blocks, vm, end);
        var (v, s1) := Eval(c, names, stores).value;
        LoopSeen(c, p, body, names, stores, v, s1, fuel);
        LostIteration(code, c, p, body, lay, names, stores, blocks, vm, vm1, end, fuel);
      }
    }
  }

  lemma LostNone(code: seq<Op>, vm: Vm)
    ensures Lost(code, vm, 0)
  {
  }

  /** The true condition has been seen. */
  lemma {:induction false} LostIteration(code: seq<Op>, c: Expr, p: Expr, body: Stmt, lay: List<Slot>,
      names: List<seq<string>>, stores: List<Store>, blocks: Blocks, vm: Vm, vm1: Vm, end: int, fuel: nat)
    requires names.Cons? && blocks != [] && FineLoop(c, p, body, lay, names, blocks)
    requires LoopCode(code, c, p, body, blocks, vm.pc, end)
    requires Here(lay, names, stores, blocks, vm) && Sane(vm) && LoopAt(vm.frames, 1)
    requires Loop(c, p, body, names, stores, fuel) == Stuck && fuel > 0 && Eval(c, names, stores).Some?
    requires Runs(code, vm, vm1) && vm1.pc == vm.pc + LenE(c, blocks) + 1 && SameShape(vm.frames, vm1.frames)
    requires Kept(vm, vm1) && Sane(vm1)
    requires Here(lay, After(c, names), Eval(c, names, stores).value.1, DeclE(c, blocks), vm1)
    ensures Lost(code, vm, fuel)
    decreases fuel, body, 3
  {
    hide *;
    FineLoopIs(c, p, body, lay, names, blocks);
    LoopCodeIs(code, c, p, body, blocks, vm.pc, end);
    var (v, s1) := Eval(c, names, stores).value;
    LoopSeen(c, p, body, names, stores, v, s1, fuel);
    var (names1, blocks1) := (After(c, names), DeclE(c, blocks));
    var (names2, blocks2) := (AfterS(body, names1), DeclS(body, blocks1));
    AfterHead(c, names);
    AfterSHead(body, names1);
    LoopOutside(c, body, p, names, blocks);
    ShapeLoop(vm.frames, vm1.frames, 1);
    NowReadyS(code, body, lay, names1, s1, blocks1, vm1, 1, end);
    var o := Exec(body, names1, s1, fuel);
    if o == Stuck {
      LostS(code, body, lay, names1, s1, blocks1, vm1, 1, end, fuel);
      LostFrom(code, vm, vm1, fuel);
    } else {
      var vm2 := SimS(code, body, lay, names1, s1, blocks1, vm1, 1, end, fuel);
      DoneNormal(code, body, lay, names1, o.stores, blocks1, vm1, vm2, 1, end);
      if Eval(p, names2, o.stores).None? {
        ThroughIs(code, lay, names2, o.stores, blocks2, vm1, vm2, LenS(body, blocks1));
        NowPosed(code, p, lay, names2, o.stores, blocks2, vm2);
        LostE(code, p, lay, names2, o.stores, blocks2, vm2, fuel);
        LostFrom(code, vm1, vm2, fuel);
        LostFrom(code, vm, vm1, fuel);
      } else {
        var (w, s3) := Eval(p, names2, o.stores).value;
        LoopMore(c, p, body, names, stores, v, s1, o.stores, fuel);
        var vm4 := LoopAgain(code, c, p, body, lay, names, stores, blocks, vm, vm1, vm2, o.stores, end);
        LostLoop(code, c, p, body, lay, names, s3, blocks, vm4, end, fuel - 1);
        LostFrom(code, vm1, vm4, fuel - 1);
        LostLonger(code, vm, vm1, fuel - 1);
      }
    }
  }

  lemma ForStuck(i: Expr, c: Expr, p: Expr, body: Stmt, names: List<seq<string>>, stores: List<Store>, fuel: nat)
    requires names.Cons? && Exec(For(i, c, p, body), names, stores, fuel) == Stuck
    ensures After(i, Cons([], names)).Cons?
    ensures var e := Eval(i, Cons([], names), Cons(map[], stores));
      e.Some? ==> Loop(c, p, body, After(i, Cons([], names)), e.value.1, fuel) == Stuck
  {
    var e := Eval(i, Cons([], names), Cons(map[], stores));
    if e.Some? {
      EvalKeepsDepth(i, Cons([], names), Cons(map[], stores));
      LoopKeepsDepth(c, p, body, After(i, Cons([], names)), e.value.1, fuel);
      LeftScope(Loop(c, p, body, After(i, Cons([], names)), e.value.1, fuel), stores);
    }
    hide Deep, ToraSyntax.Leave, Loop, Eval, Depth;
  }

  lemma {:induction false} LostFor(code: seq<Op>, i: Expr, c: Expr, p: Expr, body: Stmt, lay: List<Slot>,
      names: List<seq<string>>, stores: List<Store>, blocks: Blocks, vm: Vm, m: nat, brk: int, fuel: nat)
    requires names.Cons? && blocks != [] && ReadyS(code, For(i, c, p, body), lay, names, stores, blocks, vm, m, brk)
    requires Exec(For(i, c, p, body), names, stores, fuel) == Stuck
    ensures Lost(code, vm, fuel)
    decreases fuel, For(i, c, p, body), 0
  {
    hide *;
    var s := For(i, c, p, body);
    ReadySIs(code, s, lay, names, stores, blocks, vm, m, brk);
    ForFine(i, c, p, body, lay, names, blocks, m > 0);
    ForCodeAt(code, i, c, p, body, blocks, vm.pc, brk);
    ForStuck(i, c, p, body, names, stores, fuel);
    var full := NamesE(p, NamesS(body, NamesE(c, NamesE(i, []))));
    var slot := Slot(true, full);
    var (lay1, names1, stores1, blocks1) := (Cons(slot, lay), Cons([], names), Cons(map[], stores), Inner(blocks));
    var end := vm.pc + LenS(s, blocks) - 1;
    EnterExecutes(vm, |full|);
    var vm1 := EnterRuns(code, EnterFor(|full|), ForFrame, full, lay, names, stores, blocks, vm);
    NotLoop();
    LoopOne(vm, Frame(|vm.stack|, ForFrame, []), slot, lay);
    HereIs(lay1, names1, stores1, blocks1, vm1);
    NowPosed(code, i, lay1, names1, stores1, blocks1, vm1);
    if Eval(i, names1, stores1).None? {
      LostE(code, i, lay1, names1, stores1, blocks1, vm1, fuel);
    } else {
      var vm2 := OperandRuns(code, i, lay1, names1, stores1, blocks1, vm1);
      GenELen(i, blocks1, vm1.pc);
      var (v, s1) := Eval(i, names1, stores1).value;
      PushKept(vm1, vm2, v);
      ShapeSane(vm1, vm2);
      ShapeLoop(vm1.frames, vm2.frames, 1);
      HereIs(lay1, After(i, names1), s1, DeclE(i, blocks1), vm2);
      LostLoop(code, c, p, body, lay1, After(i, names1), s1, DeclE(i, blocks1), vm2, end, fuel);
      LostFrom(code, vm1, vm2, fuel);
    }
    LostFrom(code, vm, vm1, fuel);
  }

  lemma LeafEnds(s: Stmt, names: List<seq<string>>, stores: List<Store>, fuel: nat)
    requires names.Cons? && (s.Void? || s.Last?)
    ensures Exec(s, names, stores, fuel) != Stuck
  {
  }

  lemma DoStuck(e: Expr, names: List<seq<string>>, stores: List<Store>, fuel: nat)
    requires names.Cons? && Exec(Do(e), names, stores, fuel) == Stuck
    ensures Eval(e, names, stores).None?
  {
  }

  /** A statement without an outcome within `fuel` iterations keeps the machine from the end for that many steps. */
  lemma {:induction false} LostS(code: seq<Op>, s: Stmt, lay: List<Slot>, names: List<seq<string>>, stores: List<Store>,
      blocks: Blocks, vm: Vm, m: nat, brk: int, fuel: nat)
    requires names.Cons? && blocks != [] && ReadyS(code, s, lay, names, stores, blocks, vm, m, brk)
    requires Exec(s, names, stores, fuel) == Stuck
    ensures Lost(code, vm, fuel)
    decreases fuel, s, 2
  {
    hide *;
    match s
    case Do(e) =>
      DoStuck(e, names, stores, fuel);
      LostDo(code, e, lay, names, stores, blocks, vm, m, brk, fuel);
    case Next(s1, rest) => LostNext(code, s1, rest, lay, names, stores, blocks, vm, m, brk, fuel);
    case Block(body) => LostBlock(code, body, lay, names, stores, blocks, vm, m, brk, fuel);
    case If(c, y, n) => LostIf(code, c, y, n, lay, names, stores, blocks, vm, m, brk, fuel);
    case While(c, body) =>
      if fuel == 0 { LostNone(code, vm); }
      else { LostWhile(code, c, body, lay, names, stores, blocks, vm, m, brk, fuel); }
    case For(i, c, p, body) => LostFor(code, i, c, p, body, lay, names, stores, blocks, vm, m, brk, fuel);
    case _ =>
      LeafEnds(s, names, stores, fuel);
      assert false;
  }
}
