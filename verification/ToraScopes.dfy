/** What the compiler accepts, said without its blocks: every name is declared before it is used and once in its scope,
    and every `last` is inside a loop. */
module ToraScopes {
  import opened Basics
  import opened ToraMachine
  import opened ToraSyntax
  import opened ToraCompiler
  import opened ToraCorrect
  import opened ToraProgram

  // ----- declarations -----

  /** The names that `e` declares, in the order in which it does. */
  function MyNames(e: Expr): seq<string> {
    match e
    case Assign(_, e1) => MyNames(e1)
    case MyAssign(x, e1) => MyNames(e1) + [x]
    case My(x) => [x]
    case Binary(_, l, r) => MyNames(l) + MyNames(r)
    case Negate(e1) => MyNames(e1)
    case And(l, r) => MyNames(l) + MyNames(r)
    case Or(l, r) => MyNames(l) + MyNames(r)
    case _ => []
  }

  /** The names that `s` leaves in the scope around it: not those of inner scopes, and those of an `if` only if its
      condition declares none. */
  function OwnNames(s: Stmt): seq<string> {
    match s
    case Do(e) => MyNames(e)
    case Next(s1, rest) => OwnNames(s1) + OwnNames(rest)
    case If(c, y, n) => if MyNames(c) == [] then OwnNames(y) + OwnNames(n) else []
    case While(c, _) => MyNames(c)
    case _ => []
  }

  /** All names declared anywhere in `s`. */
  function AllNames(s: Stmt): seq<string> {
    match s
    case Do(e) => MyNames(e)
    case Next(s1, rest) => AllNames(s1) + AllNames(rest)
    case Block(body) => AllNames(body)
    case If(c, y, n) => MyNames(c) + AllNames(y) + AllNames(n)
    case While(c, body) => MyNames(c) + AllNames(body)
    case For(i, c, p, body) => MyNames(i) + MyNames(c) + MyNames(p) + AllNames(body)
    case _ => []
  }

  function AddNames(names: seq<string>, more: seq<string>): seq<string>
    decreases |more|
  {
    if more == [] then names else AddNames(AddName(names, more[0]), more[1..])
  }

  lemma {:induction false} AddNamesOn(names: seq<string>, a: seq<string>, b: seq<string>)
    ensures AddNames(names, a + b) == AddNames(AddNames(names, a), b)
    decreases |a|
  {
    if a == [] {
      assert a + b == b;
    } else {
      assert (a + b)[1..] == a[1..] + b;
      AddNamesOn(AddName(names, a[0]), a[1..], b);
    }
  }

  lemma AddNamesOne(names: seq<string>, x: string)
    ensures AddNames(names, [x]) == AddName(names, x)
  {
    assert [x][1..] == [];
  }

  lemma {:induction false} AddedNames(names: seq<string>, more: seq<string>, x: string)
    ensures x in AddNames(names, more) <==> x in names || x in more
    decreases |more|
  {
    if more != [] {
      AddedNames(AddName(names, more[0]), more[1..], x);
      assert more == [more[0]] + more[1..];
    }
  }

  /** count_variable_declare counts the declarations, and the names of a scope grow by them. */
  lemma {:induction false} DeclarationsE(e: Expr, names: seq<string>)
    ensures CountE(e) == |MyNames(e)|
    ensures NamesE(e, names) == AddNames(names, MyNames(e))
    decreases e, 1
  {
    match e
    case Assign(_, e1) => DeclarationsE(e1, names);
    case MyAssign(x, e1) =>
      DeclarationsE(e1, names);
      AddNamesOn(names, MyNames(e1), [x]);
      AddNamesOne(NamesE(e1, names), x);
    case My(x) => AddNamesOne(names, x);
    case Negate(e1) => DeclarationsE(e1, names);
    case Binary(_, l, r) => DeclarationsPair(e, l, r, names);
    case And(l, r) => DeclarationsPair(e, l, r, names);
    case Or(l, r) => DeclarationsPair(e, l, r, names);
    case _ =>
  }

  lemma {:induction false} DeclarationsPair(e: Expr, l: Expr, r: Expr, names: seq<string>)
    requires IsPair(e, l, r)
    ensures CountE(l) + CountE(r) == |MyNames(l) + MyNames(r)|
    ensures NamesE(r, NamesE(l, names)) == AddNames(names, MyNames(l) + MyNames(r))
    decreases e, 0
  {
    DeclarationsE(l, names);
    DeclarationsE(r, NamesE(l, names));
    AddNamesOn(names, MyNames(l), MyNames(r));
  }

  lemma {:induction false} DeclarationsS(s: Stmt, names: seq<string>)
    ensures CountS(s) == |AllNames(s)|
    ensures NamesS(s, names) == AddNames(names, OwnNames(s))
    decreases s, 1
  {
    hide AddNames, AddName, NamesE, CountE, MyNames;
    NoneAdded(names);
    match s
    case Do(e) => DeclarationsE(e, names);
    case Next(s1, rest) =>
      DeclarationsS(s1, names);
      DeclarationsS(rest, NamesS(s1, names));
      AddNamesOn(names, OwnNames(s1), OwnNames(rest));
    case Block(body) => DeclarationsS(body, []);
    case If(c, y, n) =>
      DeclarationsE(c, names);
      DeclarationsS(y, NamesE(c, names));
      DeclarationsS(n, NamesS(y, NamesE(c, names)));
      AddNamesOn(names, OwnNames(y), OwnNames(n));
    case While(c, body) =>
      DeclarationsE(c, names);
      DeclarationsS(body, []);
    case For(i, c, p, body) =>
      DeclarationsE(i, []);
      DeclarationsE(c, []);
      DeclarationsE(p, []);
      DeclarationsS(body, []);
    case _ =>
  }

  lemma NoneAdded(names: seq<string>)
    ensures AddNames(names, []) == names
  {
  }

  // ----- scopes -----

  function SetOf(names: seq<string>): set<string> { set x | x in names }

  /** The names of all blocks. */
  function Visible(blocks: Blocks): set<string> {
    if blocks == [] then {} else Visible(Front(blocks)) + SetOf(Back(blocks))
  }

  /** `e` is in order where `own` are the names of its scope so far and `outer` those of the scopes around it. */
  predicate ScopedE(e: Expr, outer: set<string>, own: set<string>) {
    match e
    case Var(x) => x in outer || x in own
    case Assign(x, e1) => ScopedE(e1, outer, own) && (x in outer || x in own || x in MyNames(e1))
    case MyAssign(x, e1) => ScopedE(e1, outer, own) && x !in own && x !in MyNames(e1)
    case My(x) => x !in own
    case Binary(_, l, r) => ScopedE(l, outer, own) && ScopedE(r, outer, own + SetOf(MyNames(l)))
    case Negate(e1) => ScopedE(e1, outer, own)
    case And(l, r) => ScopedE(l, outer, own) && ScopedE(r, outer, own + SetOf(MyNames(l)))
    case Or(l, r) => ScopedE(l, outer, own) && ScopedE(r, outer, own + SetOf(MyNames(l)))
    case _ => true
  }

  /** So is `s`, where every block, every loop, and every `if` that declares something in its condition has a scope. */
  predicate ScopedS(s: Stmt, outer: set<string>, own: set<string>, inLoop: bool) {
    match s
    case Do(e) => ScopedE(e, outer, own)
    case Void => true
    case Next(s1, rest) => ScopedS(s1, outer, own, inLoop) && ScopedS(rest, outer, own + SetOf(OwnNames(s1)), inLoop)
    case Block(body) => ScopedS(body, outer + own, {}, inLoop)
    case If(c, y, n) =>
      var (o, w) := if MyNames(c) == [] then (outer, own) else (outer + own, {});
      var v := w + SetOf(MyNames(c));
      ScopedE(c, o, w) && ScopedS(y, o, v, inLoop) && ScopedS(n, o, v + SetOf(OwnNames(y)), inLoop)
    case While(c, body) =>
      ScopedE(c, outer, own) && ScopedS(body, outer + (own + SetOf(MyNames(c))), {}, true)
    case For(i, c, p, body) =>
      var (o, v) := (outer + own, SetOf(MyNames(i)));
      var w := v + SetOf(MyNames(c));
      ScopedE(i, o, {}) && ScopedE(c, o, v) && ScopedS(body, o, w, true) && ScopedE(p, o, w + SetOf(OwnNames(body)))
    case Last => inLoop
  }

  lemma {:induction false} FindSees(blocks: Blocks, x: string)
    ensures Find(blocks, x).Some? <==> x in Visible(blocks)
    decreases |blocks|
  {
    if blocks != [] { FindSees(Front(blocks), x); }
  }

  lemma DeclESees(e: Expr, blocks: Blocks)
    requires blocks != []
    ensures Front(DeclE(e, blocks)) == Front(blocks)
    ensures SetOf(Back(DeclE(e, blocks))) == SetOf(Back(blocks)) + SetOf(MyNames(e))
    ensures Visible(DeclE(e, blocks)) == Visible(Front(blocks)) + (SetOf(Back(blocks)) + SetOf(MyNames(e)))
  {
    hide NamesE, MyNames, AddNames;
    DeclarationsE(e, Back(blocks));
    forall x ensures x in Back(DeclE(e, blocks)) <==> x in Back(blocks) || x in MyNames(e) {
      AddedNames(Back(blocks), MyNames(e), x);
    }
  }

  lemma DeclSSees(s: Stmt, blocks: Blocks)
    requires blocks != []
    ensures Front(DeclS(s, blocks)) == Front(blocks)
    ensures SetOf(Back(DeclS(s, blocks))) == SetOf(Back(blocks)) + SetOf(OwnNames(s))
    ensures Visible(DeclS(s, blocks)) == Visible(Front(blocks)) + (SetOf(Back(blocks)) + SetOf(OwnNames(s)))
  {
    hide NamesS, OwnNames, AddNames;
    DeclarationsS(s, Back(blocks));
    forall x ensures x in Back(DeclS(s, blocks)) <==> x in Back(blocks) || x in OwnNames(s) {
      AddedNames(Back(blocks), OwnNames(s), x);
    }
  }

  lemma InnerSees(blocks: Blocks)
    ensures Front(Inner(blocks)) == blocks && Back(Inner(blocks)) == [] && SetOf([]) == {}
  {
  }

  // ----- the errors of the compiler -----

  lemma {:induction false} ErrorsE(e: Expr, blocks: Blocks)
    requires blocks != []
    ensures ErrE(e, blocks) == 0 <==> ScopedE(e, Visible(Front(blocks)), SetOf(Back(blocks)))
    decreases e, 1
  {
    hide Find, NamesE, DeclE, MyNames, Visible;
    assert Visible(blocks) == Visible(Front(blocks)) + SetOf(Back(blocks)) by { VisibleIs(blocks); }
    match e
    case Var(x) => FindSees(blocks, x);
    case Assign(x, e1) =>
      ErrorsE(e1, blocks);
      DeclESees(e, blocks);
      FindSees(DeclE(e, blocks), x);
      MyNamesOfAssign(x, e1);
    case MyAssign(x, e1) =>
      ErrorsE(e1, blocks);
      DeclESees(e, blocks);
      FindSees(DeclE(e, blocks), x);
      MyNamesOfAssign(x, e1);
      DeclarationsE(e1, Back(blocks));
      AddedNames(Back(blocks), MyNames(e1), x);
    case My(x) =>
      DeclESees(e, blocks);
      FindSees(DeclE(e, blocks), x);
      MyNamesOfMy(x);
    case Negate(e1) => ErrorsE(e1, blocks);
    case Binary(_, l, r) => ErrorsPair(e, l, r, blocks);
    case And(l, r) => ErrorsPair(e, l, r, blocks);
    case Or(l, r) => ErrorsPair(e, l, r, blocks);
    case _ =>
  }

  lemma {:induction false} ErrorsPair(e: Expr, l: Expr, r: Expr, blocks: Blocks)
    requires IsPair(e, l, r) && blocks != []
    ensures ErrE(l, blocks) + ErrE(r, DeclE(l, blocks)) == 0 <==>
      ScopedE(l, Visible(Front(blocks)), SetOf(Back(blocks)))
      && ScopedE(r, Visible(Front(blocks)), SetOf(Back(blocks)) + SetOf(MyNames(l)))
    decreases e, 0
  {
    hide ErrE, ScopedE, DeclE, MyNames, Visible;
    ErrorsE(l, blocks);
    DeclESees(l, blocks);
    ErrorsE(r, DeclE(l, blocks));
  }

  lemma VisibleIs(blocks: Blocks)
    requires blocks != []
    ensures Visible(blocks) == Visible(Front(blocks)) + SetOf(Back(blocks))
  {
  }

  lemma MyNamesOfAssign(x: string, e1: Expr)
    ensures MyNames(Assign(x, e1)) == MyNames(e1) && MyNames(MyAssign(x, e1)) == MyNames(e1) + [x]
  {
  }

  lemma MyNamesOfMy(x: string)
    ensures MyNames(My(x)) == [x]
  {
  }

  /** Without declarations it makes no difference which scope a name is in. */
  lemma {:induction false} AnyScopeE(e: Expr, outer: set<string>, own: set<string>, outer': set<string>,
      own': set<string>)
    requires MyNames(e) == [] && outer + own == outer' + own'
    ensures ScopedE(e, outer, own) <==> ScopedE(e, outer', own')
  {
    assert forall x :: x in outer || x in own <==> x in outer + own;
    assert forall x :: x in outer' || x in own' <==> x in outer' + own';
    assert own + SetOf([]) == own && own' + SetOf([]) == own';
    match e
    case Assign(_, e1) => AnyScopeE(e1, outer, own, outer', own');
    case Negate(e1) => AnyScopeE(e1, outer, own, outer', own');
    case Binary(_, l, r) => AnyScopeE(l, outer, own, outer', own'); AnyScopeE(r, outer, own, outer', own');
    case And(l, r) => AnyScopeE(l, outer, own, outer', own'); AnyScopeE(r, outer, own, outer', own');
    case Or(l, r) => AnyScopeE(l, outer, own, outer', own'); AnyScopeE(r, outer, own, outer', own');
    case _ =>
  }

  lemma {:induction false} AnyScopeS(s: Stmt, outer: set<string>, own: set<string>, outer': set<string>,
      own': set<string>, inLoop: bool)
    requires AllNames(s) == [] && outer + own == outer' + own'
    ensures ScopedS(s, outer, own, inLoop) <==> ScopedS(s, outer', own', inLoop)
  {
    NoneOwn(s);
    assert own + SetOf([]) == own && own' + SetOf([]) == own' && SetOf([]) + SetOf([]) == {};
    hide ScopedE, MyNames;
    match s
    case Do(e) => AnyScopeE(e, outer, own, outer', own');
    case Next(s1, rest) =>
      NoneOwn(s1);
      AnyScopeS(s1, outer, own, outer', own', inLoop);
      AnyScopeS(rest, outer, own, outer', own', inLoop);
    case If(c, y, n) =>
      NoneOwn(y);
      AnyScopeE(c, outer, own, outer', own');
      AnyScopeS(y, outer, own, outer', own', inLoop);
      AnyScopeS(n, outer, own, outer', own', inLoop);
    case While(c, body) => AnyScopeE(c, outer, own, outer', own');
    case _ =>
  }

  lemma {:induction false} NoneOwn(s: Stmt)
    requires AllNames(s) == []
    ensures OwnNames(s) == []
  {
    hide MyNames;
    match s
    case Next(s1, rest) => NoneOwn(s1); NoneOwn(rest);
    case If(c, y, n) => NoneOwn(y); NoneOwn(n);
    case _ =>
  }

  /** The compiler counts no error exactly for statements in scope: leaving out scopes without declarations does not
      change what it accepts. */
  lemma {:induction false} ErrorsS(s: Stmt, blocks: Blocks, inLoop: bool)
    requires blocks != []
    ensures ErrS(s, blocks, inLoop) == 0 <==> ScopedS(s, Visible(Front(blocks)), SetOf(Back(blocks)), inLoop)
    decreases s
  {
    hide ErrE, ScopedE, MyNames, OwnNames, AllNames, DeclE, DeclS, CountE, CountS, Visible, NamesE, NamesS, Inner;
    InnerSees(blocks);
    VisibleIs(blocks);
    match s
    case Do(e) => ErrorsE(e, blocks);
    case Next(s1, rest) =>
      ErrorsS(s1, blocks, inLoop);
      DeclSSees(s1, blocks);
      ErrorsS(rest, DeclS(s1, blocks), inLoop);
    case Block(body) =>
      DeclarationsS(body, []);
      if CountS(body) > 0 {
        ErrorsS(body, Inner(blocks), inLoop);
      } else {
        ErrorsS(body, blocks, inLoop);
        AnyScopeS(body, Visible(Front(blocks)), SetOf(Back(blocks)), Visible(blocks), {}, inLoop);
      }
    case If(c, y, n) =>
      DeclarationsE(c, []);
      var b := IfBlocks(c, blocks);
      ErrorsE(c, b);
      DeclESees(c, b);
      ErrorsS(y, DeclE(c, b), inLoop);
      DeclSSees(y, DeclE(c, b));
      ErrorsS(n, DeclS(y, DeclE(c, b)), inLoop);
    case While(c, body) =>
      ErrorsE(c, blocks);
      DeclESees(c, blocks);
      InnerSees(DeclE(c, blocks));
      ErrorsS(body, Inner(DeclE(c, blocks)), true);
    case For(i, c, p, body) =>
      var b0 := Inner(blocks);
      var b1 := DeclE(i, b0);
      var b2 := DeclE(c, b1);
      assert {} + SetOf(MyNames(i)) == SetOf(MyNames(i));
      ErrorsE(i, b0);
      DeclESees(i, b0);
      ErrorsE(c, b1);
      DeclESees(c, b1);
      ErrorsS(body, b2, true);
      DeclSSees(body, b2);
      ErrorsE(p, DeclS(body, b2));
    case _ =>
  }

  /** A program compiles if and only if it is in order and its variables can be addressed. */
  lemma CompilesExactly(s: Stmt)
    ensures Compiles(s) <==> ScopedS(s, {}, {}, false) && AddrS(s, Top())
  {
    hide ErrS, ScopedS, AddrS;
    ErrorsS(s, Top(), false);
    assert Visible(Front(Top())) == {} && SetOf(Back(Top())) == {};
  }

  // ----- addresses -----

  function Max(a: nat, b: nat): nat { if a > b then a else b }

  /** How many scopes of `s` are open at once. */
  function Nesting(s: Stmt): nat {
    match s
    case Next(s1, rest) => Max(Nesting(s1), Nesting(rest))
    case Block(body) => 1 + Nesting(body)
    case If(_, y, n) => 1 + Max(Nesting(y), Nesting(n))
    case While(_, body) => 1 + Nesting(body)
    case For(_, _, _, body) => 1 + Nesting(body)
    case _ => 0
  }

  /** No block has more than 2^16 names after `more` of them. */
  ghost predicate Narrow(blocks: Blocks, more: nat) {
    forall k :: 0 <= k < |blocks| ==> |blocks[k]| + more <= 0x1_0000
  }

  lemma {:induction false} FoundInside(blocks: Blocks, x: string)
    ensures Find(blocks, x).Some? ==>
      var (level, no) := Find(blocks, x).value;
      level < |blocks| && no < |blocks[|blocks| - 1 - level]|
    decreases |blocks|
  {
    if blocks != [] && x !in Back(blocks) { FoundInside(Front(blocks), x); }
  }

  lemma AddrInside(blocks: Blocks, x: string)
    requires |blocks| <= 0x1_0000 && Narrow(blocks, 0)
    ensures Addr(x, blocks)
  {
    FoundInside(blocks, x);
  }

  lemma {:induction false} AddedLength(names: seq<string>, more: seq<string>)
    ensures |AddNames(names, more)| <= |names| + |more|
    decreases |more|
  {
    if more != [] { AddedLength(AddName(names, more[0]), more[1..]); }
  }

  lemma DeclENarrow(e: Expr, blocks: Blocks, more: nat)
    requires blocks != [] && Narrow(blocks, |MyNames(e)| + more)
    ensures Narrow(DeclE(e, blocks), more) && |DeclE(e, blocks)| == |blocks|
  {
    hide NamesE, MyNames;
    DeclarationsE(e, Back(blocks));
    AddedLength(Back(blocks), MyNames(e));
    assert forall k :: 0 <= k < |blocks| - 1 ==> DeclE(e, blocks)[k] == blocks[k];
  }

  lemma DeclSNarrow(s: Stmt, blocks: Blocks, more: nat)
    requires blocks != [] && Narrow(blocks, |AllNames(s)| + more)
    ensures Narrow(DeclS(s, blocks), more) && |DeclS(s, blocks)| == |blocks|
  {
    OwnInAll(s);
    hide NamesS, OwnNames, AllNames;
    DeclarationsS(s, Back(blocks));
    AddedLength(Back(blocks), OwnNames(s));
    assert forall k :: 0 <= k < |blocks| - 1 ==> DeclS(s, blocks)[k] == blocks[k];
  }

  lemma {:induction false} OwnInAll(s: Stmt)
    ensures |OwnNames(s)| <= |AllNames(s)|
  {
    hide MyNames;
    match s
    case Next(s1, rest) => OwnInAll(s1); OwnInAll(rest);
    case If(c, y, n) => OwnInAll(y); OwnInAll(n);
    case _ =>
  }

  lemma {:induction false} SmallE(e: Expr, blocks: Blocks)
    requires blocks != [] && |blocks| <= 0x1_0000 && Narrow(blocks, |MyNames(e)|)
    ensures AddrE(e, blocks)
    decreases e, 1
  {
    DeclENarrow(e, blocks, 0);
    hide Addr, DeclE, NamesE;
    match e
    case Var(x) => AddrInside(blocks, x);
    case Assign(x, e1) => SmallE(e1, blocks); AddrInside(DeclE(e, blocks), x);
    case MyAssign(x, e1) => SmallE(e1, blocks); AddrInside(DeclE(e, blocks), x);
    case My(x) => AddrInside(DeclE(e, blocks), x);
    case Negate(e1) => SmallE(e1, blocks);
    case Binary(_, l, r) => SmallPair(e, l, r, blocks);
    case And(l, r) => SmallPair(e, l, r, blocks);
    case Or(l, r) => SmallPair(e, l, r, blocks);
    case _ =>
  }

  lemma {:induction false} SmallPair(e: Expr, l: Expr, r: Expr, blocks: Blocks)
    requires IsPair(e, l, r) && blocks != [] && |blocks| <= 0x1_0000 && Narrow(blocks, |MyNames(l) + MyNames(r)|)
    ensures AddrE(l, blocks) && AddrE(r, DeclE(l, blocks))
    decreases e, 0
  {
    hide AddrE, DeclE, MyNames;
    SmallE(l, blocks);
    DeclENarrow(l, blocks, |MyNames(r)|);
    SmallE(r, DeclE(l, blocks));
  }

  /** No more than 2^16 open scopes and declarations are enough for all addresses to fit. */
  lemma {:induction false} SmallS(s: Stmt, blocks: Blocks)
    requires blocks != [] && |blocks| + Nesting(s) <= 0x1_0000 && Narrow(blocks, |AllNames(s)|)
    requires |AllNames(s)| <= 0x1_0000
    ensures AddrS(s, blocks)
    decreases s
  {
    hide AddrE, MyNames, DeclE, DeclS, CountE, CountS, NamesE, NamesS;
    match s
    case Do(e) => SmallE(e, blocks);
    case Next(s1, rest) =>
      SmallS(s1, blocks);
      DeclSNarrow(s1, blocks, |AllNames(rest)|);
      SmallS(rest, DeclS(s1, blocks));
    case Block(body) =>
      InnerNarrow(blocks, |AllNames(body)|);
      if CountS(body) > 0 { SmallS(body, Inner(blocks)); } else { SmallS(body, blocks); }
    case If(c, y, n) =>
      InnerNarrow(blocks, |AllNames(s)|);
      var b := IfBlocks(c, blocks);
      SmallE(c, b);
      DeclENarrow(c, b, |AllNames(y)| + |AllNames(n)|);
      SmallS(y, DeclE(c, b));
      DeclSNarrow(y, DeclE(c, b), |AllNames(n)|);
      SmallS(n, DeclS(y, DeclE(c, b)));
    case While(c, body) =>
      SmallE(c, blocks);
      DeclENarrow(c, blocks, |AllNames(body)|);
      InnerNarrow(DeclE(c, blocks), |AllNames(body)|);
      SmallS(body, Inner(DeclE(c, blocks)));
    case For(i, c, p, body) =>
      InnerNarrow(blocks, |AllNames(s)|);
      var b1 := DeclE(i, Inner(blocks));
      var b2 := DeclE(c, b1);
      SmallE(i, Inner(blocks));
      DeclENarrow(i, Inner(blocks), |MyNames(c)| + |MyNames(p)| + |AllNames(body)|);
      SmallE(c, b1);
      DeclENarrow(c, b1, |MyNames(p)| + |AllNames(body)|);
      SmallS(body, b2);
      DeclSNarrow(body, b2, |MyNames(p)|);
      SmallE(p, DeclS(body, b2));
    case _ =>
  }

  lemma InnerNarrow(blocks: Blocks, more: nat)
    requires Narrow(blocks, more) && more <= 0x1_0000
    ensures Narrow(Inner(blocks), more) && |Inner(blocks)| == |blocks| + 1
  {
  }

  /** In a program with no more than 2^16 declarations and 2^16 - 2 scopes inside each other, every variable can be
      addressed, so it compiles if and only if it is in order. */
  lemma SmallCompiles(s: Stmt)
    requires |AllNames(s)| <= 0x1_0000 && Nesting(s) + 2 <= 0x1_0000
    ensures Compiles(s) <==> ScopedS(s, {}, {}, false)
  {
    CompilesExactly(s);
    hide ErrS, ScopedS, AllNames, AddrS;
    SmallS(s, Top());
  }
}
