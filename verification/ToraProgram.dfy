/** Whole programs: compiled, run, and what they leave in their variables. */
module ToraProgram {
  import opened Basics
  import opened ToraMachine
  import opened ToraSyntax
  import opened ToraCompiler
  import opened ToraEmit
  import opened ToraCorrect
  import opened ToraStatements
  import opened ToraConverse

  function Top(): Blocks { [[], []] }

  function TopNames(): List<seq<string>> { Cons([], Cons([], Nil)) }

  function TopStores(): List<Store> { Cons(map[], Cons(map[], Nil)) }

  /** The program compiles without errors, and its variables can be addressed. */
  predicate Compiles(s: Stmt) {
    ErrS(s, Top(), false) == 0 && AddrS(s, Top())
  }

  /** The code in which every `last` leaves its own loop. */
  function Intended(s: Stmt): seq<Op> {
    [PackageEnter, Enter(|NamesS(s, [])|)] + Gen(s, Top(), 2, 2 + LenS(s, Top()), false) + [End, PackageLeave]
  }

  lemma {:induction false} NoLastOutside(s: Stmt, blocks: Blocks)
    requires blocks != [] && ErrS(s, blocks, false) == 0
    ensures !HasLast(s)
    decreases s
  {
    hide NamesE, ErrE, DeclE, DeclS, Inner, CountS, OwnScope;
    match s
    case Next(s1, rest) =>
      NoLastOutside(s1, blocks);
      NoLastOutside(rest, DeclS(s1, blocks));
    case Block(body) => NoLastOutside(body, if CountS(body) > 0 then Inner(blocks) else blocks);
    case If(c, y, n) =>
      var b := DeclE(c, IfBlocks(c, blocks));
      NoLastOutside(y, b);
      NoLastOutside(n, DeclS(y, b));
    case _ =>
  }

  /** The compiler emits the intended code exactly for the programs in which no `last` waits when another loop is
      compiled. */
  lemma CompiledAsIntended(s: Stmt)
    requires Compiles(s)
    ensures RootCode(s) == Intended(s) <==> Calm(s)
  {
    hide Gen, Calm, HasLast, LenS, NamesS, ErrS, AddrS;
    NoLastOutside(s, Top());
    LastsAgree(s, Top(), 2, 0, 2 + LenS(s, Top()));
    Framed([PackageEnter, Enter(|NamesS(s, [])|)], Gen(s, Top(), 2, 0, true),
        Gen(s, Top(), 2, 2 + LenS(s, Top()), false), [End, PackageLeave]);
  }

  // ----- running a program -----

  function Start(): Vm { Vm(0, [], []) }

  function Layout(s: Stmt): List<Slot> { Cons(Slot(true, NamesS(s, [])), Cons(Slot(true, []), Nil)) }

  /** The two frames of a program. */
  lemma Prologue(s: Stmt, code: seq<Op>) returns (vm: Vm)
    requires |code| >= 2 && code[0] == PackageEnter && code[1] == Enter(|NamesS(s, [])|)
    ensures Runs(code, Start(), vm) && vm == Vm(2, [], [Frame(0, PackageFrame, []), Frame(0, Lexical, [])])
    ensures Sane(vm) && Here(Layout(s), TopNames(), TopStores(), Top(), vm)
  {
    var vm1 := Vm(1, [], [Frame(0, PackageFrame, [])]);
    vm := Vm(2, [], [Frame(0, PackageFrame, []), Frame(0, Lexical, [])]);
    assert Start().frames + [Frame(0, PackageFrame, [])] == vm1.frames;
    assert vm1.frames + [Frame(0, Lexical, [])] == vm.frames;
    assert Execute(PackageEnter, Start()) == Some(vm1.(pc := 0)) && Execute(code[1], vm1) == Some(vm.(pc := 1));
    RunsNone(code, vm);
    RunsStep(code, vm1, vm, vm);
    RunsStep(code, Start(), vm1, vm);
    TopHere(s, vm);
  }

  lemma TopHere(s: Stmt, vm: Vm)
    requires vm.frames == [Frame(0, PackageFrame, []), Frame(0, Lexical, [])]
    ensures Here(Layout(s), TopNames(), TopStores(), Top(), vm)
  {
    NamesGrowS(s, []);
    assert Rel(Nil, Nil, Nil, [], []);
    var (f0, f1) := (Frame(0, PackageFrame, []), Frame(0, Lexical, []));
    assert Front(vm.frames) == [f0] && Back(vm.frames) == f1 && Front([f0]) == [] && Back([f0]) == f0;
    var one: Blocks := [[]];
    assert Front(Top()) == one && Back(Top()) == [] && Front(one) == [] && Back(one) == [];
    OwnRel(Slot(true, []), Nil, Cons([], Nil), Cons(map[], Nil), one, [f0]);
    OwnRel(Slot(true, NamesS(s, [])), Cons(Slot(true, []), Nil), TopNames(), TopStores(), Top(), vm.frames);
  }

  lemma CodeParts(s: Stmt)
    requires Compiles(s) && Calm(s)
    ensures var (code, end) := (RootCode(s), 2 + LenS(s, Top()));
      && |code| == end + 2 && code[0] == PackageEnter && code[1] == Enter(|NamesS(s, [])|) && code[end] == End
      && At(code, 2, Gen(s, Top(), 2, end, false))
  {
    hide *;
    CompiledAsIntended(s);
    TopIs();
    GenLength(s, Top(), 2, 2 + LenS(s, Top()), false);
    IntendedIs(s);
    CodeAround(Enter(|NamesS(s, [])|), Gen(s, Top(), 2, 2 + LenS(s, Top()), false));
  }

  lemma IntendedIs(s: Stmt)
    ensures Top() != []
    ensures Intended(s) == [PackageEnter, Enter(|NamesS(s, [])|)] + Gen(s, Top(), 2, 2 + LenS(s, Top()), false)
        + [End, PackageLeave]
  {
    hide Gen, LenS, NamesS;
  }

  lemma CodeAround(e: Op, g: seq<Op>)
    ensures var code := [PackageEnter, e] + g + [End, PackageLeave];
      |code| == |g| + 4 && code[0] == PackageEnter && code[1] == e && code[|g| + 2] == End && At(code, 2, g)
  {
  }

  /** A program that ends, ends at the final operation of its compiled code, with the values that it means in the
      slots of its variables and nothing left below the top of its frame. */
  lemma ProgramRuns(s: Stmt, fuel: nat) returns (vm: Vm)
    requires Compiles(s) && Calm(s) && Exec(s, TopNames(), TopStores(), fuel) != Stuck
    ensures Exec(s, TopNames(), TopStores(), fuel).Normal?
    ensures Runs(RootCode(s), Start(), vm) && 0 <= vm.pc < |RootCode(s)| && RootCode(s)[vm.pc] == End
    ensures |vm.frames| == 2
    ensures var st := Exec(s, TopNames(), TopStores(), fuel).stores;
      st.Cons? && forall i :: 0 <= i < |NamesS(s, [])| ==>
          PadGet(vm.frames[1].pad, i) == StoreGet(st.head, NamesS(s, [])[i])
  {
    hide *;
    CompilesIs(s);
    CodeParts(s);
    var code := RootCode(s);
    var end := 2 + LenS(s, Top());
    var vm0 := Prologue(s, code);
    TopIs();
    RoomOnTop(s);
    NowReadyS(code, s, Layout(s), TopNames(), TopStores(), Top(), vm0, 0, end);
    vm := SimS(code, s, Layout(s), TopNames(), TopStores(), Top(), vm0, 0, end, fuel);
    var o := Exec(s, TopNames(), TopStores(), fuel);
    match o {
      case Normal(st) =>
        DoneNormal(code, s, Layout(s), TopNames(), st, Top(), vm0, vm, 0, end);
        ThroughIs(code, Layout(s), AfterS(s, TopNames()), st, DeclS(s, Top()), vm0, vm, LenS(s, Top()));
        RunsOn(code, Start(), vm0, vm);
        Results(s, AfterS(s, TopNames()), st, DeclS(s, Top()), vm, vm0);
      case Broken(st) => DoneBroken(code, s, Layout(s), TopNames(), st, Top(), vm0, vm, 0, end);
    }
  }

  lemma CompilesIs(s: Stmt)
    requires Compiles(s)
    ensures Top() != [] && ErrS(s, Top(), false) == 0 && AddrS(s, Top())
  {
  }

  lemma TopIs()
    ensures TopNames().Cons? && TopNames().head == [] && Top() != []
  {
  }

  lemma RoomOnTop(s: Stmt)
    ensures Room(Layout(s), TopNames(), NamesS(s, []), CountS(s))
  {
  }

  lemma Results(s: Stmt, names: List<seq<string>>, stores: List<Store>, blocks: Blocks, vm: Vm, vm0: Vm)
    requires Here(Layout(s), names, stores, blocks, vm) && |vm0.frames| == 2 && SameShape(vm0.frames, vm.frames)
    ensures |vm.frames| == 2 && stores.Cons?
    ensures forall i :: 0 <= i < |NamesS(s, [])| ==>
        PadGet(vm.frames[1].pad, i) == StoreGet(stores.head, NamesS(s, [])[i])
  {
  }

  // ----- and no others end -----

  /** The machine has one way to stop. */
  lemma {:induction false} SameStop(code: seq<Op>, a: Vm, n: nat, b: Vm, k: nat, c: Vm)
    requires RunsIn(code, a, n, b) && RunsIn(code, a, k, c) && Step(code, b).None? && Step(code, c).None?
    ensures b == c
    decreases n
  {
    hide Step;
    if n > 0 && k > 0 { SameStop(code, Step(code, a).value, n - 1, b, k - 1, c); }
  }

  lemma OneEnd(code: seq<Op>, a: Vm, b: Vm, c: Vm)
    requires Runs(code, a, b) && Runs(code, a, c) && AtEnd(code, b) && AtEnd(code, c)
    ensures b == c
  {
    EndStops(code, b);
    EndStops(code, c);
    hide Step, AtEnd;
    var n: nat :| RunsIn(code, a, n, b);
    var k: nat :| RunsIn(code, a, k, c);
    SameStop(code, a, n, b, k, c);
  }

  /** A program without an outcome within `fuel` iterations keeps the machine running, or stopped elsewhere. */
  lemma StuckIsLost(s: Stmt, fuel: nat)
    requires Compiles(s) && Calm(s) && Exec(s, TopNames(), TopStores(), fuel) == Stuck
    ensures Lost(RootCode(s), Start(), fuel)
  {
    hide *;
    CompilesIs(s);
    CodeParts(s);
    var (code, end) := (RootCode(s), 2 + LenS(s, Top()));
    var vm0 := Prologue(s, code);
    TopIs();
    RoomOnTop(s);
    NowReadyS(code, s, Layout(s), TopNames(), TopStores(), Top(), vm0, 0, end);
    LostS(code, s, Layout(s), TopNames(), TopStores(), Top(), vm0, 0, end, fuel);
    LostFrom(code, Start(), vm0, fuel);
  }

  /** If the machine reaches the final operation, the program ends, and the slots hold the values that it means. */
  lemma ProgramEnds(s: Stmt, vm: Vm) returns (fuel: nat)
    requires Compiles(s) && Calm(s) && Runs(RootCode(s), Start(), vm) && AtEnd(RootCode(s), vm)
    ensures Exec(s, TopNames(), TopStores(), fuel).Normal? && |vm.frames| == 2
    ensures var st := Exec(s, TopNames(), TopStores(), fuel).stores;
      st.Cons? && forall i :: 0 <= i < |NamesS(s, [])| ==>
          PadGet(vm.frames[1].pad, i) == StoreGet(st.head, NamesS(s, [])[i])
  {
    hide *;
    fuel := EndsWithin(s, vm);
    var vm' := ProgramRuns(s, fuel);
    EndIs(RootCode(s), vm');
    OneEnd(RootCode(s), Start(), vm, vm');
  }

  lemma EndsWithin(s: Stmt, vm: Vm) returns (fuel: nat)
    requires Compiles(s) && Calm(s) && Runs(RootCode(s), Start(), vm) && AtEnd(RootCode(s), vm)
    ensures Exec(s, TopNames(), TopStores(), fuel) != Stuck
  {
    hide *;
    TopIs();
    var n := StepsTo(RootCode(s), Start(), vm);
    fuel := n + 1;
    if Exec(s, TopNames(), TopStores(), fuel) == Stuck {
      StuckIsLost(s, fuel);
      LostIsNotEnd(RootCode(s), Start(), n, vm);
      assert false;
    }
  }

  lemma StepsTo(code: seq<Op>, a: Vm, b: Vm) returns (n: nat)
    requires Runs(code, a, b)
    ensures RunsIn(code, a, n, b)
  {
    n :| RunsIn(code, a, n, b);
  }

  lemma EndIs(code: seq<Op>, vm: Vm)
    ensures AtEnd(code, vm) <==> 0 <= vm.pc < |code| && code[vm.pc] == End
  {
  }

  /** A program ends exactly if the machine gets to the end of its code. */
  lemma EndsExactly(s: Stmt)
    requires Compiles(s) && Calm(s)
    ensures (exists fuel: nat :: Exec(s, TopNames(), TopStores(), fuel) != Stuck)
      <==> (exists vm :: Runs(RootCode(s), Start(), vm) && AtEnd(RootCode(s), vm))
  {
    hide *;
    TopIs();
    if fuel: nat :| Exec(s, TopNames(), TopStores(), fuel) != Stuck {
      var vm := ProgramRuns(s, fuel);
      EndIs(RootCode(s), vm);
    }
    if vm :| Runs(RootCode(s), Start(), vm) && AtEnd(RootCode(s), vm) {
      var fuel := ProgramEnds(s, vm);
    }
  }

  // ----- a `last` that waits too long -----

  /** `while (true) { last; while (false) { } }` */
  function Hasty(): Stmt {
    While(True, Next(Last, Next(While(False, Void), Void)))
  }

  /** What is emitted for it: the operand of LAST, at 6, belongs to the inner loop. */
  function HastyCode(): seq<Op> {
    [PackageEnter, Enter(0),
     PushTrue, JumpIfFalse(15), EnterWhile(0),
     NextState, LastOp(12),
     NextState, PushFalse, JumpIfFalse(13), EnterWhile(0), Op.Leave, Jump(8),
     Op.Leave, Jump(2),
     End, PackageLeave]
  }

  lemma HastyBody(b: Blocks)
    requires b != []
    ensures LenS(Next(While(False, Void), Void), b) == 6 && LenS(Next(Last, Next(While(False, Void), Void)), b) == 8
    ensures DeclE(True, b) == b && DeclS(Last, b) == b && DeclE(False, b) == b
    ensures Gen(Next(While(False, Void), Void), b, 7, 14, true) ==
        [NextState, PushFalse, JumpIfFalse(13), EnterWhile(0), Op.Leave, Jump(8)]
    ensures FirstLabel(Next(While(False, Void), Void), b, 7) == 12
  {
    HastySizes(b);
    hide NamesE, NamesS, LenS, DeclE, DeclS, HasLoop, Inner, Find, CountS, OwnScope, Gen, GenE, LenE;
    WhileGen(False, Void, b, 8);
    var loop := While(False, Void);
    NextIsPair(loop, Void, b, 7, 14);
    PairCodeIs(loop, b, [], Void, b, 8, 14);
    NextLabel(loop, Void, b, 7);
    LoopCodeOf(b);
  }

  lemma HastySizes(b: Blocks)
    requires b != []
    ensures DeclE(True, b) == b && DeclS(Last, b) == b && DeclE(False, b) == b && DeclS(While(False, Void), b) == b
    ensures LenE(False, b) == 1 && LenS(Void, Inner(b)) == 0 && LenS(Void, b) == 0
    ensures LenS(While(False, Void), b) == 5 && LenS(Next(While(False, Void), Void), b) == 6
    ensures LenS(Next(Last, Next(While(False, Void), Void)), b) == 8
    ensures HasLoop(While(False, Void)) && !HasLoop(Void)
  {
    hide Gen, FirstLabel;
  }

  lemma LoopCodeOf(b: Blocks)
    requires b != []
    ensures GenE(False, b, 8) == [PushFalse] && NamesS(Void, []) == [] && Gen(Void, Inner(b), 11, 12, true) == []
    ensures Gen(Void, b, 13, 14, true) == []
  {
  }

  function HastyInner(): Stmt { Next(While(False, Void), Void) }

  lemma HastyInnerFine(b: Blocks)
    requires b != []
    ensures ErrS(HastyInner(), b, true) == 0 && AddrS(HastyInner(), b) && HasLoop(HastyInner())
  {
    assert ErrS(While(False, Void), b, true) == 0 && AddrS(While(False, Void), b);
  }

  lemma HastyBodyFine(b: Blocks)
    requires b != []
    ensures ErrS(Next(Last, HastyInner()), b, true) == 0 && AddrS(Next(Last, HastyInner()), b)
    ensures !Calm(Next(Last, HastyInner()))
  {
    HastyInnerFine(DeclS(Last, b));
    hide HastyInner, DeclS;
  }

  lemma HastyCompiles()
    ensures Compiles(Hasty()) && !Calm(Hasty())
  {
    hide *;
    HastyCodeIs();
    var b := Inner(DeclE(True, Top()));
    HastyBodyFine(b);
    LoopFine(Next(Last, HastyInner()), b);
    HastyPieces();
    TopErr(Hasty());
  }

  lemma TopErr(s: Stmt)
    ensures Compiles(s) <==> ErrS(s, Top(), false) == 0 && AddrS(s, Top())
  {
  }

  lemma LoopFine(body: Stmt, b: Blocks)
    requires b == Inner(DeclE(True, Top())) && ErrS(body, b, true) == 0 && AddrS(body, b) && !Calm(body)
    ensures ErrS(While(True, body), Top(), false) == 0 && AddrS(While(True, body), Top()) && !Calm(While(True, body))
  {
    hide Inner, DeclE;
  }

  lemma HastyBodyGen(b: Blocks)
    requires b != []
    ensures Gen(Next(Last, HastyInner()), b, 5, 14, true) ==
      [NextState, LastOp(12), NextState, PushFalse, JumpIfFalse(13), EnterWhile(0), Op.Leave, Jump(8)]
  {
    HastyBody(b);
    HastyInnerFine(b);
    assert LenS(Last, b) == 1 && Waiting(HastyInner(), b, 7, 14, true) == 12;
    assert Gen(Last, b, 6, 12, true) == [LastOp(12)];
    var inner := HastyInner();
    hide HastyInner, FirstLabel, HasLoop, Waiting;
    assert Gen(Next(Last, inner), b, 5, 14, true) == [NextState] + [LastOp(12)] + Gen(inner, b, 7, 14, true);
  }

  lemma HastyPieces()
    ensures LenE(True, Top()) == 1 && GenE(True, Top(), 2) == [PushTrue] && DeclE(True, Top()) == Top()
    ensures NamesS(Next(Last, HastyInner()), []) == [] && NamesS(Hasty(), []) == []
    ensures LenS(Next(Last, HastyInner()), Inner(Top())) == 8 && Hasty() == While(True, Next(Last, HastyInner()))
  {
    hide *;
    HastyIsWhile();
    HastyBody(Inner(Top()));
    TrueIs();
    HastyNames();
  }

  lemma HastyIsWhile()
    ensures Hasty() == While(True, Next(Last, HastyInner())) && HastyInner() == Next(While(False, Void), Void)
    ensures Top() != [] && Inner(Top()) != []
  {
  }

  lemma HastyNames()
    ensures NamesS(Next(Last, HastyInner()), []) == [] && NamesS(Hasty(), []) == []
  {
  }

  lemma TrueIs()
    ensures LenE(True, Top()) == 1 && GenE(True, Top(), 2) == [PushTrue] && DeclE(True, Top()) == Top()
  {
  }

  /** What is emitted lets the LAST of the outer loop jump behind the inner one. */
  lemma HastyIs()
    ensures RootCode(Hasty()) == HastyCode()
  {
    hide *;
    var body := Next(Last, HastyInner());
    var b := Inner(Top());
    HastyPieces();
    HastyBodyGen(b);
    WhileGen(True, body, Top(), 2);
    var loop := Hasty();
    HastyCodeIs();
    assert Gen(loop, Top(), 2, 0, true) == [PushTrue, JumpIfFalse(15), EnterWhile(0),
       NextState, LastOp(12), NextState, PushFalse, JumpIfFalse(13), EnterWhile(0), Op.Leave, Jump(8),
       Op.Leave, Jump(2)];
    RootOf(loop);
  }

  lemma HastyCodeIs()
    ensures Top() != []
    ensures HastyCode() == [PackageEnter, Enter(0)] + [PushTrue, JumpIfFalse(15), EnterWhile(0),
       NextState, LastOp(12), NextState, PushFalse, JumpIfFalse(13), EnterWhile(0), Op.Leave, Jump(8),
       Op.Leave, Jump(2)] + [End, PackageLeave]
  {
  }

  lemma RootOf(s: Stmt)
    ensures RootCode(s) == [PackageEnter, Enter(|NamesS(s, [])|)] + Gen(s, Top(), 2, 0, true) + [End, PackageLeave]
  {
    hide Gen, NamesS;
  }

  lemma HastyMeans()
    ensures Exec(Hasty(), TopNames(), TopStores(), 1) == Normal(TopStores())
  {
    var inner := Next(While(False, Void), Void);
    var names := Cons([], After(True, TopNames()));
    var stores := Cons(map[], TopStores());
    assert Exec(Last, names, stores, 1) == Broken(stores);
    assert Exec(Next(Last, inner), names, stores, 1) == Broken(stores);
  }

  lemma HastyOps()
    ensures |HastyCode()| == 17 && HastyCode()[0] == PackageEnter && HastyCode()[1] == Enter(0)
    ensures HastyCode()[2] == PushTrue && HastyCode()[3] == JumpIfFalse(15) && HastyCode()[4] == EnterWhile(0)
    ensures HastyCode()[5] == NextState && HastyCode()[6] == LastOp(12) && HastyCode()[13] == Op.Leave
    ensures HastyCode()[14] == Jump(2)
  {
  }

  /** One operation of the code. */
  lemma HastyStep(from: Vm, vm: Vm, op: Op, next: Vm)
    requires Runs(HastyCode(), from, vm) && 0 <= vm.pc < 17 && HastyCode()[vm.pc] == op && Execute(op, vm) == Some(next)
    ensures Runs(HastyCode(), from, next.(pc := next.pc + 1))
  {
    RunsStepLast(HastyCode(), from, vm, next.(pc := next.pc + 1));
  }

  /** From the condition to LAST. */
  lemma ToLast(frames: seq<Frame>)
    ensures Runs(HastyCode(), Vm(2, [], frames), Vm(6, [BoolValue(true)], frames + [Frame(1, WhileFrame, [])]))
  {
    hide *;
    HastyOps();
    var (start, t, inside) := (Vm(2, [], frames), [BoolValue(true)], frames + [Frame(1, WhileFrame, [])]);
    RunsNone(HastyCode(), start);
    HastyExecutes(frames);
    HastyStep(start, start, PushTrue, Vm(2, t, frames));
    HastyStep(start, Vm(3, t, frames), JumpIfFalse(15), Vm(3, t, frames));
    HastyStep(start, Vm(4, t, frames), EnterWhile(0), Vm(4, t, inside));
    HastyStep(start, Vm(5, t, inside), NextState, Vm(5, t, inside));
  }

  lemma HastyExecutes(frames: seq<Frame>)
    ensures
      var (t, inside) := ([BoolValue(true)], frames + [Frame(1, WhileFrame, [])]);
      && Execute(PushTrue, Vm(2, [], frames)) == Some(Vm(2, t, frames))
      && Execute(JumpIfFalse(15), Vm(3, t, frames)) == Some(Vm(3, t, frames))
      && Execute(EnterWhile(0), Vm(4, t, frames)) == Some(Vm(4, t, inside))
      && Execute(NextState, Vm(5, t, inside)) == Some(Vm(5, t, inside))
  {
    hide *;
    var (t, inside) := ([BoolValue(true)], frames + [Frame(1, WhileFrame, [])]);
    PushTrueExecutes(Vm(2, [], frames));
    JumpIfFalseExecutes(Vm(3, t, frames), 15);
    EnterExecutes(Vm(4, t, frames), 0);
    NextStateExecutes(Vm(5, t, inside), Frame(1, WhileFrame, []), frames);
    assert [] + [BoolValue(true)] == t && t[..1] == t;
  }

  lemma PushTrueExecutes(vm: Vm)
    ensures Execute(PushTrue, vm) == Some(vm.(stack := vm.stack + [BoolValue(true)]))
  {
  }

  lemma JumpIfFalseExecutes(vm: Vm, target: int)
    requires vm.stack == [BoolValue(true)]
    ensures Execute(JumpIfFalse(target), vm) == Some(vm)
  {
  }

  lemma NextStateExecutes(vm: Vm, f: Frame, frames: seq<Frame>)
    requires vm.frames == frames + [f] && f.top <= |vm.stack|
    ensures Execute(NextState, vm) == Some(vm.(stack := vm.stack[..f.top]))
  {
  }

  /** And to the operation that LAST jumps to, with the outer loop's frame gone. */
  lemma ToLeave(frames: seq<Frame>)
    ensures Runs(HastyCode(), Vm(2, [], frames), Vm(13, [BoolValue(true)], frames))
  {
    ToLast(frames);
    hide Runs, HastyCode, BinResult, SetAt, PadAt;
    HastyOps();
    var (t, inside) := ([BoolValue(true)], frames + [Frame(1, WhileFrame, [])]);
    assert t[..1] == t && Front(inside) == frames && Back(inside) == Frame(1, WhileFrame, []);
    HastyStep(Vm(2, [], frames), Vm(6, t, inside), LastOp(12), Vm(12, t, frames));
  }

  /** Then the frame around the loop is left in its place. */
  lemma Around(frames: seq<Frame>)
    requires frames != [] && Back(frames).top == 0
    ensures Runs(HastyCode(), Vm(2, [], frames), Vm(2, [], Front(frames)))
  {
    var t := [BoolValue(true)];
    ToLeave(frames);
    assert t[..0] == [];
    hide Runs, HastyCode, UnwindLoop, BinResult, SetAt, PadAt;
    HastyOps();
    HastyStep(Vm(2, [], frames), Vm(13, t, frames), Op.Leave, Vm(13, [], Front(frames)));
    HastyStep(Vm(2, [], frames), Vm(14, [], Front(frames)), Jump(2), Vm(1, [], Front(frames)));
  }

  /** The source ends at once; the machine runs out of frames in the middle of the code. */
  lemma HastyFails() returns (vm: Vm)
    ensures Exec(Hasty(), TopNames(), TopStores(), 1) == Normal(TopStores())
    ensures Runs(RootCode(Hasty()), Start(), vm) && Step(RootCode(Hasty()), vm) == None
    ensures 0 <= vm.pc < |RootCode(Hasty())|
    ensures RootCode(Hasty())[vm.pc] == Op.Leave && vm.frames == []
  {
    HastyIs();
    HastyMeans();
    HastyOps();
    HastyPieces();
    hide Hasty, HastyCode, RootCode, Exec, LenS, LenE, GenE, DeclE, NamesS, HastyInner, Gen;
    var (p, l) := (Frame(0, PackageFrame, []), Frame(0, Lexical, []));
    var code := HastyCode();
    var vm0 := Prologue(Hasty(), code);
    hide Runs;
    Around([p, l]);
    assert Front([p, l]) == [p] && Front([p]) == [];
    Around([p]);
    ToLeave([]);
    vm := Vm(13, [BoolValue(true)], []);
    RunsOn(code, Start(), vm0, Vm(2, [], [p]));
    RunsOn(code, Start(), Vm(2, [], [p]), Vm(2, [], []));
    RunsOn(code, Start(), Vm(2, [], []), vm);
  }
}
