/** The compiler: operations appended to a vector, operands filled in later, blocks of names. */
module ToraCompiler {
  import opened Basics
  import opened ToraMachine
  import opened ToraSyntax

  type Blocks = seq<seq<string>>

  // ----- names -----

  function IndexOf(names: seq<string>, x: string): (k: nat)
    requires x in names
    ensures k < |names| && names[k] == x
  {
    if names[0] == x then 0 else 1 + IndexOf(names[1..], x)
  }

  /** find_localvar: how many blocks up, and the place in that block. */
  function Find(blocks: Blocks, x: string): Option<(nat, nat)> {
    if blocks == [] then None
    else if x in Back(blocks) then Some((0, IndexOf(Back(blocks), x)))
    else match Find(Front(blocks), x)
      case Some((level, no)) => Some((level + 1, no))
      case None => None
  }

  function WithBack(blocks: Blocks, names: seq<string>): (r: Blocks)
    requires blocks != []
    ensures |r| == |blocks| && Front(r) == Front(blocks) && Back(r) == names
  {
    Front(blocks) + [names]
  }

  /** The blocks after the declarations of `e`. */
  function DeclE(e: Expr, blocks: Blocks): (r: Blocks)
    requires blocks != []
    ensures r != []
  {
    WithBack(blocks, NamesE(e, Back(blocks)))
  }

  function DeclS(s: Stmt, blocks: Blocks): (r: Blocks)
    requires blocks != []
    ensures r != []
  {
    WithBack(blocks, NamesS(s, Back(blocks)))
  }

  function Inner(blocks: Blocks): (r: Blocks)
    ensures r != []
  {
    blocks + [[]]
  }

  // ----- the code of expressions -----

  /** set_variable. */
  function SetCode(x: string, blocks: Blocks): seq<Op> {
    match Find(blocks, x)
    case None => []
    case Some((level, no)) => if level == 0 then [SetLocal(no)] else [SetDynamic(Pack(level, no))]
  }

  function GetCode(x: string, blocks: Blocks): seq<Op> {
    match Find(blocks, x)
    case None => []
    case Some((level, no)) => if level == 0 then [GetLocal(no)] else [GetDynamic(Pack(level, no))]
  }

  /** The code of `e` when it starts at position `base`. */
  function GenE(e: Expr, blocks: Blocks, base: nat): seq<Op>
    requires blocks != []
  {
    match e
    case Int(n) => [PushInt(n)]
    case True => [PushTrue]
    case False => [PushFalse]
    case Undef => [PushUndef]
    case Var(x) => GetCode(x, blocks)
    case Assign(x, e1) => GenE(e1, blocks, base) + SetCode(x, DeclE(e, blocks))
    case MyAssign(x, e1) => GenE(e1, blocks, base) + SetCode(x, DeclE(e, blocks))
    case My(x) => [PushUndef] + SetCode(x, DeclE(e, blocks))
    case Binary(op, l, r) =>
      var a := GenE(l, blocks, base);
      a + GenE(r, DeclE(l, blocks), base + |a|) + [Bin(op)]
    case Negate(e) => GenE(e, blocks, base) + [Op.Not]
    case And(l, r) =>
      var a := GenE(l, blocks, base);
      var b := GenE(r, DeclE(l, blocks), base + |a| + 2);
      a + [JumpIfFalse(base + |a| + 2 + |b|), PopTop] + b
    case Or(l, r) =>
      var a := GenE(l, blocks, base);
      var b := GenE(r, DeclE(l, blocks), base + |a| + 2);
      a + [JumpIfTrue(base + |a| + 2 + |b|), PopTop] + b
  }

  lemma AndCode(l: Expr, r: Expr, blocks: Blocks, base: nat)
    requires blocks != []
    ensures
      var a := GenE(l, blocks, base);
      var b := GenE(r, DeclE(l, blocks), base + |a| + 2);
      GenE(And(l, r), blocks, base) == a + [JumpIfFalse(base + |a| + 2 + |b|), PopTop] + b
  {
    hide NamesE, DeclE, SetCode, GetCode;
  }

  lemma OrCode(l: Expr, r: Expr, blocks: Blocks, base: nat)
    requires blocks != []
    ensures
      var a := GenE(l, blocks, base);
      var b := GenE(r, DeclE(l, blocks), base + |a| + 2);
      GenE(Or(l, r), blocks, base) == a + [JumpIfTrue(base + |a| + 2 + |b|), PopTop] + b
  {
    hide NamesE, DeclE, SetCode, GetCode;
  }

  lemma LogicalGen(e: Expr, l: Expr, r: Expr, blocks: Blocks, base: nat)
    requires blocks != [] && (e == And(l, r) || e == Or(l, r))
    ensures
      var a := GenE(l, blocks, base);
      var b := GenE(r, DeclE(l, blocks), base + |a| + 2);
      var end := base + |a| + 2 + |b|;
      GenE(e, blocks, base) == a + [if e.And? then JumpIfFalse(end) else JumpIfTrue(end), PopTop] + b
  {
    hide *;
    if e.And? { AndCode(l, r, blocks, base); } else { OrCode(l, r, blocks, base); }
  }

  lemma {:induction false} GenELength(e: Expr, blocks: Blocks, base: nat, base': nat)
    requires blocks != []
    ensures |GenE(e, blocks, base)| == |GenE(e, blocks, base')|
    decreases e, 1
  {
    hide NamesE, Find, SetCode, GetCode, DeclE;
    match e
    case Assign(x, e1) => GenELength(e1, blocks, base, base');
    case MyAssign(x, e1) => GenELength(e1, blocks, base, base');
    case Binary(op, l, r) =>
      GenELength(l, blocks, base, base');
      GenELength(r, DeclE(l, blocks), base + |GenE(l, blocks, base)|, base' + |GenE(l, blocks, base')|);
    case Negate(e) => GenELength(e, blocks, base, base');
    case And(l, r) => LogicalLength(e, l, r, blocks, base, base');
    case Or(l, r) => LogicalLength(e, l, r, blocks, base, base');
    case _ =>
  }

  lemma {:induction false} LogicalLength(e: Expr, l: Expr, r: Expr, blocks: Blocks, base: nat, base': nat)
    requires blocks != [] && (e == And(l, r) || e == Or(l, r))
    ensures |GenE(e, blocks, base)| == |GenE(e, blocks, base')|
    decreases e, 0
  {
    hide *;
    LogicalGen(e, l, r, blocks, base);
    LogicalGen(e, l, r, blocks, base');
    GenELength(l, blocks, base, base');
    GenELength(r, DeclE(l, blocks), base + |GenE(l, blocks, base)| + 2, base' + |GenE(l, blocks, base')| + 2);
  }

  function LenE(e: Expr, blocks: Blocks): nat
    requires blocks != []
  {
    |GenE(e, blocks, 0)|
  }

  /** Compile errors: unknown names, and names declared twice. */
  function MissE(x: string, blocks: Blocks): nat { if Find(blocks, x).None? then 1 else 0 }

  function ErrE(e: Expr, blocks: Blocks): nat
    requires blocks != []
  {
    match e
    case Var(x) => MissE(x, blocks)
    case Assign(x, e1) => ErrE(e1, blocks) + MissE(x, DeclE(e, blocks))
    case MyAssign(x, e1) =>
      ErrE(e1, blocks) + (if x in NamesE(e1, Back(blocks)) then 1 else 0) + MissE(x, DeclE(e, blocks))
    case My(x) => (if x in Back(blocks) then 1 else 0) + MissE(x, DeclE(e, blocks))
    case Binary(op, l, r) => ErrE(l, blocks) + ErrE(r, DeclE(l, blocks))
    case Negate(e) => ErrE(e, blocks)
    case And(l, r) => ErrE(l, blocks) + ErrE(r, DeclE(l, blocks))
    case Or(l, r) => ErrE(l, blocks) + ErrE(r, DeclE(l, blocks))
    case _ => 0
  }

  /** Level and slot of every variable access fit into 16 bits each. */
  predicate Addr(x: string, blocks: Blocks) {
    match Find(blocks, x)
    case Some((level, no)) => level < 0x1_0000 && no < 0x1_0000
    case None => true
  }

  predicate AddrE(e: Expr, blocks: Blocks)
    requires blocks != []
  {
    match e
    case Var(x) => Addr(x, blocks)
    case Assign(x, e1) => AddrE(e1, blocks) && Addr(x, DeclE(e, blocks))
    case MyAssign(x, e1) => AddrE(e1, blocks) && Addr(x, DeclE(e, blocks))
    case My(x) => Addr(x, DeclE(e, blocks))
    case Binary(op, l, r) => AddrE(l, blocks) && AddrE(r, DeclE(l, blocks))
    case Negate(e) => AddrE(e, blocks)
    case And(l, r) => AddrE(l, blocks) && AddrE(r, DeclE(l, blocks))
    case Or(l, r) => AddrE(l, blocks) && AddrE(r, DeclE(l, blocks))
    case _ => true
  }

  // ----- the code of statements -----

  /** The blocks in which the condition of an `if` is compiled. */
  function IfBlocks(c: Expr, blocks: Blocks): (r: Blocks)
    requires blocks != []
    ensures r != []
  {
    if OwnScope(c) then Inner(blocks) else blocks
  }

  function ErrS(s: Stmt, blocks: Blocks, inLoop: bool): nat
    requires blocks != []
  {
    match s
    case Do(e) => ErrE(e, blocks)
    case Void => 0
    case Next(s, rest) => ErrS(s, blocks, inLoop) + ErrS(rest, DeclS(s, blocks), inLoop)
    case Block(body) => ErrS(body, if CountS(body) > 0 then Inner(blocks) else blocks, inLoop)
    case If(c, y, n) =>
      var b := DeclE(c, IfBlocks(c, blocks));
      ErrE(c, IfBlocks(c, blocks)) + ErrS(y, b, inLoop) + ErrS(n, DeclS(y, b), inLoop)
    case While(c, body) => ErrE(c, blocks) + ErrS(body, Inner(DeclE(c, blocks)), true)
    case For(i, c, p, body) =>
      var b1 := DeclE(i, Inner(blocks));
      var b2 := DeclE(c, b1);
      ErrE(i, Inner(blocks)) + ErrE(c, b1) + ErrS(body, b2, true) + ErrE(p, DeclS(body, b2))
    case Last => if inLoop then 0 else 1
  }

  predicate AddrS(s: Stmt, blocks: Blocks)
    requires blocks != []
  {
    match s
    case Do(e) => AddrE(e, blocks)
    case Next(s, rest) => AddrS(s, blocks) && AddrS(rest, DeclS(s, blocks))
    case Block(body) => AddrS(body, if CountS(body) > 0 then Inner(blocks) else blocks)
    case If(c, y, n) =>
      var b := DeclE(c, IfBlocks(c, blocks));
      AddrE(c, IfBlocks(c, blocks)) && AddrS(y, b) && AddrS(n, DeclS(y, b))
    case While(c, body) => AddrE(c, blocks) && AddrS(body, Inner(DeclE(c, blocks)))
    case For(i, c, p, body) =>
      var b1 := DeclE(i, Inner(blocks));
      var b2 := DeclE(c, b1);
      AddrE(i, Inner(blocks)) && AddrE(c, b1) && AddrS(body, b2) && AddrE(p, DeclS(body, b2))
    case _ => true
  }

  function LenS(s: Stmt, blocks: Blocks): nat
    requires blocks != []
  {
    match s
    case Do(e) => LenE(e, blocks)
    case Void => 0
    case Next(s, rest) => 1 + LenS(s, blocks) + LenS(rest, DeclS(s, blocks))
    case Block(body) => if CountS(body) > 0 then 2 + LenS(body, Inner(blocks)) else LenS(body, blocks)
    case If(c, y, n) =>
      var b := if OwnScope(c) then Inner(blocks) else blocks;
      (if OwnScope(c) then 4 else 2) + LenE(c, b) + LenS(y, DeclE(c, b)) + LenS(n, DeclS(y, DeclE(c, b)))
    case While(c, body) => LenE(c, blocks) + LenS(body, Inner(DeclE(c, blocks))) + 4
    case For(i, c, p, body) =>
      var b1 := DeclE(i, Inner(blocks));
      var b2 := DeclE(c, b1);
      LenE(i, Inner(blocks)) + LenE(c, b1) + LenS(body, b2) + LenE(p, DeclS(body, b2)) + 4
    case Last => 1
  }

  // ----- where `last` jumps -----

  /** `s` has a `last` of the loop around it. */
  predicate HasLast(s: Stmt) {
    match s
    case Last => true
    case Next(s, rest) => HasLast(s) || HasLast(rest)
    case Block(body) => HasLast(body)
    case If(_, y, n) => HasLast(y) || HasLast(n)
    case _ => false
  }

  predicate HasLoop(s: Stmt) {
    match s
    case Next(s, rest) => HasLoop(s) || HasLoop(rest)
    case Block(body) => HasLoop(body)
    case If(_, y, n) => HasLoop(y) || HasLoop(n)
    case While(_, _) => true
    case For(_, _, _, _) => true
    case _ => false
  }

  /** The operand of `last` in a loop whose code is at `base`: execution goes on behind it. */
  function OwnLabel(s: Stmt, blocks: Blocks, base: nat): nat
    requires blocks != [] && (s.While? || s.For?)
  {
    base + LenS(s, blocks) - 1
  }

  /** The operand that the loop of `s` compiled first gives to all `last`s that are waiting for one. */
  function FirstLabel(s: Stmt, blocks: Blocks, base: nat): nat
    requires blocks != [] && HasLoop(s)
  {
    match s
    case Next(s, rest) =>
      if HasLoop(s) then FirstLabel(s, blocks, base + 1)
          else FirstLabel(rest, DeclS(s, blocks), base + 1 + LenS(s, blocks))
    case Block(body) =>
      if CountS(body) > 0 then FirstLabel(body, Inner(blocks), base + 1) else FirstLabel(body, blocks, base)
    case If(c, y, n) =>
      var b := DeclE(c, if OwnScope(c) then Inner(blocks) else blocks);
      var yes := base + (if OwnScope(c) then 1 else 0) + LenE(c, if OwnScope(c) then Inner(blocks) else blocks) + 1;
      if HasLoop(y) then FirstLabel(y, b, yes) else FirstLabel(n, DeclS(y, b), yes + LenS(y, b) + 1)
    case While(c, body) =>
      if HasLoop(body) then FirstLabel(body, Inner(DeclE(c, blocks)), base + LenE(c, blocks) + 2)
          else OwnLabel(s, blocks, base)
    case For(i, c, p, body) =>
      var b := DeclE(i, Inner(blocks));
      if HasLoop(body) then FirstLabel(body, DeclE(c, b), base + LenE(i, Inner(blocks)) + LenE(c, b) + 2)
          else OwnLabel(s, blocks, base)
  }

  /** The operand of a `last` that waits while `rest` is compiled.  As the compiler is written, the first loop in
      `rest` fills it in; it should be left for the loop around. */
  function Waiting(rest: Stmt, blocks: Blocks, base: nat, brk: int, written: bool): int
    requires blocks != []
  {
    if written && HasLoop(rest) then FirstLabel(rest, blocks, base) else brk
  }

  /** The code of `s` at position `base`, where `brk` is the operand for the `last`s of the loop around it: with
      `written`, what the compiler makes of it, and without, the code in which every `last` leaves its own loop. */
  function Gen(s: Stmt, blocks: Blocks, base: nat, brk: int, written: bool): (code: seq<Op>)
    requires blocks != []
    decreases s, 1
  {
    match s
    case Do(e) => GenE(e, blocks, base)
    case Void => []
    case Next(s, rest) =>
      var next := base + 1 + LenS(s, blocks);
      [NextState] + Gen(s, blocks, base + 1, Waiting(rest, DeclS(s, blocks), next, brk, written), written)
      + Gen(rest, DeclS(s, blocks), next, brk, written)
    case Block(body) =>
      if CountS(body) > 0 then
        [Enter(|NamesS(body, [])|)] + Gen(body, Inner(blocks), base + 1, brk, written) + [Op.Leave]
      else Gen(body, blocks, base, brk, written)
    case If(c, y, n) =>
      if OwnScope(c) then
        [Enter(|NamesS(n, NamesS(y, NamesE(c, [])))|)] + IfCode(c, y, n, Inner(blocks), base + 1, brk, written)
            + [Op.Leave]
      else IfCode(c, y, n, blocks, base, brk, written)
    case While(c, body) => WhileCode(c, body, blocks, base, base + LenS(s, blocks), written)
    case For(i, c, p, body) =>
      [EnterFor(|NamesE(p, NamesS(body, NamesE(c, NamesE(i, []))))|)]
      + ForCode(i, c, p, body, Inner(blocks), base + 1, OwnLabel(s, blocks, base), written) + [Op.Leave]
    case Last => [LastOp(brk)]
  }

  function IfCode(c: Expr, y: Stmt, n: Stmt, blocks: Blocks, base: nat, brk: int, written: bool): seq<Op>
    requires blocks != []
    decreases If(c, y, n), 0
  {
    var b := DeclE(c, blocks);
    var yes := base + LenE(c, blocks) + 1;
    var no := yes + LenS(y, b) + 1;
    GenE(c, blocks, base) + [JumpIfFalse(no)] + Gen(y, b, yes, Waiting(n, DeclS(y, b), no, brk, written), written)
    + [Jump(no + LenS(n, DeclS(y, b)))] + Gen(n, DeclS(y, b), no, brk, written)
  }

  /** The loop is left at `end`; a `last` jumps to `end - 1`, after which `pc` is incremented. */
  function WhileCode(c: Expr, body: Stmt, blocks: Blocks, base: nat, end: int, written: bool): seq<Op>
    requires blocks != []
    decreases While(c, body), 0
  {
    GenE(c, blocks, base) + [JumpIfFalse(end), EnterWhile(|NamesS(body, [])|)]
    + Gen(body, Inner(DeclE(c, blocks)), base + LenE(c, blocks) + 2, end - 1, written) + [Op.Leave, Jump(base)]
  }

  /** From the initialisation to the jump back; the loop is left at `end`, also by `last`. */
  function ForCode(i: Expr, c: Expr, p: Expr, body: Stmt, blocks: Blocks, base: nat, end: int, written: bool): seq<Op>
    requires blocks != []
    decreases For(i, c, p, body), 0
  {
    var b1 := DeclE(i, blocks);
    var b2 := DeclE(c, b1);
    var again := base + LenE(i, blocks);
    var start := again + LenE(c, b1) + 1;
    GenE(i, blocks, base) + GenE(c, b1, again) + [JumpIfFalse(end)] + Gen(body, b2, start, end, written)
    + GenE(p, DeclS(body, b2), start + LenS(body, b2)) + [Jump(again)]
  }

  lemma GenELen(e: Expr, blocks: Blocks, base: nat)
    requires blocks != []
    ensures |GenE(e, blocks, base)| == LenE(e, blocks)
  {
    GenELength(e, blocks, base, 0);
  }

  lemma {:induction false} GenLength(s: Stmt, blocks: Blocks, base: nat, brk: int, written: bool)
    requires blocks != []
    ensures |Gen(s, blocks, base, brk, written)| == LenS(s, blocks)
    decreases s, 1
  {
    hide GenE, NamesE, NamesS, CountS, FirstLabel, HasLoop, Waiting, LenE, DeclE, DeclS, Inner, IfCode, WhileCode;
    hide ForCode;
    match s
    case Do(e) => GenELen(e, blocks, base);
    case Next(s1, rest) =>
      var next := base + 1 + LenS(s1, blocks);
      GenLength(s1, blocks, base + 1, Waiting(rest, DeclS(s1, blocks), next, brk, written), written);
      GenLength(rest, DeclS(s1, blocks), next, brk, written);
    case Block(body) =>
      GenLength(body, Inner(blocks), base + 1, brk, written);
      GenLength(body, blocks, base, brk, written);
    case If(c, y, n) =>
      IfLength(c, y, n, Inner(blocks), base + 1, brk, written);
      IfLength(c, y, n, blocks, base, brk, written);
    case While(c, body) => WhileLength(c, body, blocks, base, base + LenS(s, blocks), written);
    case For(i, c, p, body) => ForLength(i, c, p, body, Inner(blocks), base + 1, OwnLabel(s, blocks, base), written);
    case _ =>
  }

  lemma {:induction false} IfLength(c: Expr, y: Stmt, n: Stmt, blocks: Blocks, base: nat, brk: int, written: bool)
    requires blocks != []
    ensures |IfCode(c, y, n, blocks, base, brk, written)| ==
        LenE(c, blocks) + LenS(y, DeclE(c, blocks)) + LenS(n, DeclS(y, DeclE(c, blocks))) + 2
    decreases If(c, y, n), 0
  {
    hide *;
    IfParts(c, y, n, blocks, base, brk, written);
    var b := DeclE(c, blocks);
    var yes := base + LenE(c, blocks) + 1;
    var no := yes + LenS(y, b) + 1;
    GenELen(c, blocks, base);
    GenLength(y, b, yes, Waiting(n, DeclS(y, b), no, brk, written), written);
    GenLength(n, DeclS(y, b), no, brk, written);
  }

  lemma {:induction false} WhileLength(c: Expr, body: Stmt, blocks: Blocks, base: nat, end: int, written: bool)
    requires blocks != []
    ensures |WhileCode(c, body, blocks, base, end, written)| ==
        LenE(c, blocks) + LenS(body, Inner(DeclE(c, blocks))) + 4
    decreases While(c, body), 0
  {
    hide *;
    WhileParts(c, body, blocks, base, end, written);
    GenELen(c, blocks, base);
    GenLength(body, Inner(DeclE(c, blocks)), base + LenE(c, blocks) + 2, end - 1, written);
  }

  lemma {:induction false} ForLength(i: Expr, c: Expr, p: Expr, body: Stmt, blocks: Blocks, base: nat, end: int,
      written: bool)
    requires blocks != []
    ensures
      var b1 := DeclE(i, blocks);
      var b2 := DeclE(c, b1);
      |ForCode(i, c, p, body, blocks, base, end, written)| ==
          LenE(i, blocks) + LenE(c, b1) + LenS(body, b2) + LenE(p, DeclS(body, b2)) + 2
    decreases For(i, c, p, body), 0
  {
    hide *;
    ForParts(i, c, p, body, blocks, base, end, written);
    var b1 := DeclE(i, blocks);
    var b2 := DeclE(c, b1);
    var again := base + LenE(i, blocks);
    var start := again + LenE(c, b1) + 1;
    GenELen(i, blocks, base);
    GenELen(c, b1, again);
    GenELen(p, DeclS(body, b2), start + LenS(body, b2));
    GenLength(body, b2, start, end, written);
  }

  // ----- one step of the functions on statements -----

  lemma NextLen(s1: Stmt, rest: Stmt, blocks: Blocks)
    requires blocks != []
    ensures LenS(Next(s1, rest), blocks) == 1 + LenS(s1, blocks) + LenS(rest, DeclS(s1, blocks))
  {
    hide DeclS, DeclE, LenE, Inner, NamesE, NamesS, CountS, OwnScope;
  }

  lemma NextLabel(s1: Stmt, rest: Stmt, blocks: Blocks, base: nat)
    requires blocks != []
    ensures HasLoop(Next(s1, rest)) == (HasLoop(s1) || HasLoop(rest))
    ensures HasLoop(s1) ==> FirstLabel(Next(s1, rest), blocks, base) == FirstLabel(s1, blocks, base + 1)
    ensures !HasLoop(s1) && HasLoop(rest) ==>
      FirstLabel(Next(s1, rest), blocks, base) == FirstLabel(rest, DeclS(s1, blocks), base + 1 + LenS(s1, blocks))
  {
    hide DeclS, LenS, DeclE, LenE, Inner, NamesE, NamesS, CountS, OwnScope;
  }

  lemma IfLabel(c: Expr, y: Stmt, n: Stmt, blocks: Blocks, base: nat)
    requires blocks != []
    ensures HasLoop(If(c, y, n)) == (HasLoop(y) || HasLoop(n))
    ensures HasLoop(If(c, y, n)) ==>
      var b0 := if OwnScope(c) then Inner(blocks) else blocks;
      var b := DeclE(c, b0);
      var yes := base + (if OwnScope(c) then 1 else 0) + LenE(c, b0) + 1;
      FirstLabel(If(c, y, n), blocks, base) ==
        if HasLoop(y) then FirstLabel(y, b, yes) else FirstLabel(n, DeclS(y, b), yes + LenS(y, b) + 1)
  {
    hide NamesE, NamesS, LenE, LenS, DeclE, DeclS, Inner, CountS, OwnScope;
  }

  lemma WhileLabel(c: Expr, body: Stmt, blocks: Blocks, base: nat)
    requires blocks != []
    ensures HasLoop(While(c, body))
    ensures FirstLabel(While(c, body), blocks, base) ==
      if HasLoop(body) then FirstLabel(body, Inner(DeclE(c, blocks)), base + LenE(c, blocks) + 2)
          else base + LenS(While(c, body), blocks) - 1
  {
    hide LenE, Inner, DeclE, DeclS, LenS, NamesE, NamesS, CountS, OwnScope;
  }

  lemma WhileLen(c: Expr, body: Stmt, blocks: Blocks)
    requires blocks != []
    ensures LenS(While(c, body), blocks) == LenE(c, blocks) + LenS(body, Inner(DeclE(c, blocks))) + 4
  {
    hide GenE, LenE, NamesE, NamesS, Inner, DeclE, DeclS, CountS, OwnScope;
  }

  lemma WhileUnfolds(c: Expr, body: Stmt, blocks: Blocks, base: nat, brk: int, written: bool)
    requires blocks != []
    ensures Gen(While(c, body), blocks, base, brk, written) ==
        WhileCode(c, body, blocks, base, base + LenS(While(c, body), blocks), written)
  {
    hide GenE, LenE, LenS, NamesE, NamesS, Inner, DeclE, DeclS, IfCode, WhileCode, ForCode, CountS, CountE, OwnScope;
    hide Waiting;
  }

  lemma ForLen(i: Expr, c: Expr, p: Expr, body: Stmt, blocks: Blocks)
    requires blocks != []
    ensures
      var b1 := DeclE(i, Inner(blocks));
      var b2 := DeclE(c, b1);
      LenS(For(i, c, p, body), blocks) ==
          LenE(i, Inner(blocks)) + LenE(c, b1) + LenS(body, b2) + LenE(p, DeclS(body, b2)) + 4
  {
    hide LenE, NamesE, NamesS, Inner, DeclE, DeclS, CountS, OwnScope;
  }

  lemma ForLabel(i: Expr, c: Expr, p: Expr, body: Stmt, blocks: Blocks, base: nat)
    requires blocks != []
    ensures HasLoop(For(i, c, p, body))
    ensures
      var b1 := DeclE(i, Inner(blocks));
      FirstLabel(For(i, c, p, body), blocks, base) ==
        if HasLoop(body) then FirstLabel(body, DeclE(c, b1), base + LenE(i, Inner(blocks)) + LenE(c, b1) + 2)
        else base + LenS(For(i, c, p, body), blocks) - 1
  {
    hide LenE, Inner, DeclE, LenS;
  }

  lemma BlockLabel(body: Stmt, blocks: Blocks, base: nat)
    requires blocks != []
    ensures HasLoop(Block(body)) == HasLoop(body)
    ensures CountS(body) > 0 ==>
      && LenS(Block(body), blocks) == 2 + LenS(body, Inner(blocks))
      && (HasLoop(body) ==> FirstLabel(Block(body), blocks, base) == FirstLabel(body, Inner(blocks), base + 1))
    ensures CountS(body) == 0 ==>
      && LenS(Block(body), blocks) == LenS(body, blocks)
      && (HasLoop(body) ==> FirstLabel(Block(body), blocks, base) == FirstLabel(body, blocks, base))
  {
    hide CountS, NamesS, Inner, LenE, DeclE, DeclS, OwnScope;
  }

  lemma IfSize(c: Expr, y: Stmt, n: Stmt, blocks: Blocks)
    requires blocks != []
    ensures
      var b := if OwnScope(c) then Inner(blocks) else blocks;
      LenS(If(c, y, n), blocks) == (if OwnScope(c) then 4 else 2) + LenE(c, b) + LenS(y, DeclE(c, b)) +
          LenS(n, DeclS(y, DeclE(c, b)))
  {
    hide DeclS, DeclE, LenE, Inner, NamesE, NamesS, CountS, OwnScope;
  }

  // ----- when `last` leaves its own loop -----

  /** No loop is compiled while a `last` of a loop around it is waiting. */
  predicate Calm(s: Stmt) {
    match s
    case Next(s, rest) => Calm(s) && Calm(rest) && !(HasLast(s) && HasLoop(rest))
    case Block(body) => Calm(body)
    case If(_, y, n) => Calm(y) && Calm(n) && !(HasLast(y) && HasLoop(n))
    case While(_, body) => Calm(body)
    case For(_, _, _, body) => Calm(body)
    case _ => true
  }

  /** The first label of a part is a place in the code of that part. */
  ghost predicate LabelInside(s: Stmt, blocks: Blocks, base: nat)
    requires blocks != []
  {
    HasLoop(s) ==> FirstLabel(s, blocks, base) < base + LenS(s, blocks)
  }

  lemma InsideIs(s: Stmt, blocks: Blocks, base: nat)
    requires blocks != []
    ensures LabelInside(s, blocks, base) <==> (HasLoop(s) ==> FirstLabel(s, blocks, base) < base + LenS(s, blocks))
  {
    hide HasLoop, FirstLabel, LenS;
  }

  lemma LabelInNext(s1: Stmt, rest: Stmt, blocks: Blocks, base: nat)
    requires blocks != [] && LabelInside(s1, blocks, base + 1)
    requires LabelInside(rest, DeclS(s1, blocks), base + 1 + LenS(s1, blocks))
    ensures LabelInside(Next(s1, rest), blocks, base)
  {
    hide *;
    InsideIs(s1, blocks, base + 1);
    InsideIs(rest, DeclS(s1, blocks), base + 1 + LenS(s1, blocks));
    InsideIs(Next(s1, rest), blocks, base);
    NextLen(s1, rest, blocks);
    NextLabel(s1, rest, blocks, base);
  }

  lemma LabelInBlock(body: Stmt, blocks: Blocks, base: nat)
    requires blocks != [] && LabelInside(body, Inner(blocks), base + 1) && LabelInside(body, blocks, base)
    ensures LabelInside(Block(body), blocks, base)
  {
    hide *;
    InsideIs(body, Inner(blocks), base + 1);
    InsideIs(body, blocks, base);
    InsideIs(Block(body), blocks, base);
    BlockLabel(body, blocks, base);
  }

  lemma LabelInIf(c: Expr, y: Stmt, n: Stmt, blocks: Blocks, base: nat, b: Blocks, yes: nat)
    requires blocks != [] && b == DeclE(c, if OwnScope(c) then Inner(blocks) else blocks)
    requires yes == base + (if OwnScope(c) then 1 else 0) + LenE(c, if OwnScope(c) then Inner(blocks) else blocks) + 1
    requires LabelInside(y, b, yes) && LabelInside(n, DeclS(y, b), yes + LenS(y, b) + 1)
    ensures LabelInside(If(c, y, n), blocks, base)
  {
    hide *;
    InsideIs(y, b, yes);
    InsideIs(n, DeclS(y, b), yes + LenS(y, b) + 1);
    InsideIs(If(c, y, n), blocks, base);
    IfSize(c, y, n, blocks);
    IfLabel(c, y, n, blocks, base);
  }

  lemma LabelInWhile(c: Expr, body: Stmt, blocks: Blocks, base: nat)
    requires blocks != [] && LabelInside(body, Inner(DeclE(c, blocks)), base + LenE(c, blocks) + 2)
    ensures LabelInside(While(c, body), blocks, base)
  {
    hide *;
    InsideIs(body, Inner(DeclE(c, blocks)), base + LenE(c, blocks) + 2);
    InsideIs(While(c, body), blocks, base);
    WhileLen(c, body, blocks);
    WhileLabel(c, body, blocks, base);
  }

  lemma LabelInFor(i: Expr, c: Expr, p: Expr, body: Stmt, blocks: Blocks, base: nat, b: Blocks)
    requires blocks != [] && b == DeclE(i, Inner(blocks))
    requires LabelInside(body, DeclE(c, b), base + LenE(i, Inner(blocks)) + LenE(c, b) + 2)
    ensures LabelInside(For(i, c, p, body), blocks, base)
  {
    hide *;
    InsideIs(body, DeclE(c, b), base + LenE(i, Inner(blocks)) + LenE(c, b) + 2);
    InsideIs(For(i, c, p, body), blocks, base);
    ForLen(i, c, p, body, blocks);
    ForLabel(i, c, p, body, blocks, base);
  }

  lemma NoLabel(s: Stmt, blocks: Blocks, base: nat)
    requires blocks != [] && (s.Do? || s.Void? || s.Last?)
    ensures LabelInside(s, blocks, base)
  {
  }

  lemma {:induction false} LabelsInside(s: Stmt, blocks: Blocks, base: nat)
    requires blocks != []
    ensures LabelInside(s, blocks, base)
    decreases s
  {
    hide *;
    match s
    case Next(s1, rest) =>
      LabelsInside(s1, blocks, base + 1);
      LabelsInside(rest, DeclS(s1, blocks), base + 1 + LenS(s1, blocks));
      LabelInNext(s1, rest, blocks, base);
    case Block(body) =>
      LabelsInside(body, Inner(blocks), base + 1);
      LabelsInside(body, blocks, base);
      LabelInBlock(body, blocks, base);
    case If(c, y, n) =>
      var b := DeclE(c, if OwnScope(c) then Inner(blocks) else blocks);
      var yes := base + (if OwnScope(c) then 1 else 0) + LenE(c, if OwnScope(c) then Inner(blocks) else blocks) + 1;
      LabelsInside(y, b, yes);
      LabelsInside(n, DeclS(y, b), yes + LenS(y, b) + 1);
      LabelInIf(c, y, n, blocks, base, b, yes);
    case While(c, body) =>
      LabelsInside(body, Inner(DeclE(c, blocks)), base + LenE(c, blocks) + 2);
      LabelInWhile(c, body, blocks, base);
    case For(i, c, p, body) =>
      var b := DeclE(i, Inner(blocks));
      LabelsInside(body, DeclE(c, b), base + LenE(i, Inner(blocks)) + LenE(c, b) + 2);
      LabelInFor(i, c, p, body, blocks, base, b);
    case _ => NoLabel(s, blocks, base);
  }

  lemma FirstLabelInside(s: Stmt, blocks: Blocks, base: nat)
    requires blocks != [] && HasLoop(s)
    ensures FirstLabel(s, blocks, base) < base + LenS(s, blocks)
  {
    LabelsInside(s, blocks, base);
    hide FirstLabel, LenS, HasLoop;
  }

  lemma SameParts<T>(a: seq<T>, b: seq<T>, a': seq<T>, b': seq<T>)
    requires |a| == |a'|
    ensures a + b == a' + b' <==> a == a' && b == b'
  {
    if a + b == a' + b' {
      assert a == (a + b)[..|a|] && a' == (a' + b')[..|a|];
      assert b == (a + b)[|a|..] && b' == (a' + b')[|a|..];
    }
  }

  /** Two codes of one statement agree exactly when it is calm and the `last`s that it leaves waiting get the right
      operand. */
  ghost predicate Agrees(s: Stmt, blocks: Blocks, base: nat, w: int, brk: int)
    requires blocks != []
  {
    Gen(s, blocks, base, w, true) == Gen(s, blocks, base, brk, false) <==> Calm(s) && (w == brk || !HasLast(s))
  }

  lemma NextAgrees(s1: Stmt, rest: Stmt, blocks: Blocks, base: nat, w: int, brk: int, b: Blocks, next: nat)
    requires blocks != [] && b == DeclS(s1, blocks) && next == base + 1 + LenS(s1, blocks)
    requires brk >= next + LenS(rest, b)
    requires Agrees(s1, blocks, base + 1, Waiting(rest, b, next, w, true), brk) && Agrees(rest, b, next, w, brk)
    ensures Agrees(Next(s1, rest), blocks, base, w, brk)
  {
    hide NamesE, NamesS, LenE, LenS, DeclE, DeclS, Inner, GenE, IfCode, WhileCode, ForCode, CountS, FirstLabel;
    var w1 := Waiting(rest, b, next, w, true);
    if HasLoop(rest) { FirstLabelInside(rest, b, next); }
    GenLength(s1, blocks, base + 1, w1, true);
    GenLength(s1, blocks, base + 1, brk, false);
    SameParts([NextState] + Gen(s1, blocks, base + 1, w1, true), Gen(rest, b, next, w, true),
              [NextState] + Gen(s1, blocks, base + 1, brk, false), Gen(rest, b, next, brk, false));
    SameParts([NextState], Gen(s1, blocks, base + 1, w1, true), [NextState], Gen(s1, blocks, base + 1, brk, false));
  }

  lemma BlockAgrees(body: Stmt, blocks: Blocks, base: nat, w: int, brk: int)
    requires blocks != []
    requires if CountS(body) > 0 then Agrees(body, Inner(blocks), base + 1, w, brk)
             else Agrees(body, blocks, base, w, brk)
    ensures Agrees(Block(body), blocks, base, w, brk)
  {
    hide NamesE, NamesS, LenE, LenS, DeclE, DeclS, Inner, GenE, IfCode, WhileCode, ForCode, CountS, FirstLabel;
    if CountS(body) > 0 {
      Framed([Enter(|NamesS(body, [])|)], Gen(body, Inner(blocks), base + 1, w, true),
          Gen(body, Inner(blocks), base + 1, brk, false), [Op.Leave]);
    }
  }

  lemma {:induction false} LastsAgree(s: Stmt, blocks: Blocks, base: nat, w: int, brk: int)
    requires blocks != [] && brk >= base + LenS(s, blocks)
    ensures Agrees(s, blocks, base, w, brk)
    decreases s, 1
  {
    hide NamesE, NamesS, LenE, DeclE, DeclS, Inner, GenE, IfCode, WhileCode, ForCode, CountS, FirstLabel;
    match s
    case Next(s1, rest) =>
      var (b, next) := (DeclS(s1, blocks), base + 1 + LenS(s1, blocks));
      LastsAgree(s1, blocks, base + 1, Waiting(rest, b, next, w, true), brk);
      LastsAgree(rest, b, next, w, brk);
      NextAgrees(s1, rest, blocks, base, w, brk, b, next);
    case Block(body) =>
      if CountS(body) > 0 { LastsAgree(body, Inner(blocks), base + 1, w, brk); }
      else { LastsAgree(body, blocks, base, w, brk); }
      BlockAgrees(body, blocks, base, w, brk);
    case If(c, y, n) =>
      if OwnScope(c) {
        IfAgree(c, y, n, Inner(blocks), base + 1, w, brk);
        Framed([Enter(|NamesS(n, NamesS(y, NamesE(c, [])))|)], IfCode(c, y, n, Inner(blocks), base + 1, w, true),
               IfCode(c, y, n, Inner(blocks), base + 1, brk, false), [Op.Leave]);
      } else {
        IfAgree(c, y, n, blocks, base, w, brk);
      }
    case While(c, body) => WhileAgree(c, body, blocks, base, base + LenS(s, blocks));
    case For(i, c, p, body) =>
      var own := OwnLabel(s, blocks, base);
      ForAgree(i, c, p, body, Inner(blocks), base + 1, own);
      Framed([EnterFor(|NamesE(p, NamesS(body, NamesE(c, NamesE(i, []))))|)],
             ForCode(i, c, p, body, Inner(blocks), base + 1, own, true), ForCode(i, c, p, body, Inner(blocks), base + 1,
                 own, false), [Op.Leave]);
    case Last => assert (w == brk) == ([LastOp(w)][0] == [LastOp(brk)][0]);
    case _ =>
  }

  lemma Framed(a: seq<Op>, x: seq<Op>, y: seq<Op>, c: seq<Op>)
    ensures a + x + c == a + y + c <==> x == y
  {
    if a + x + c == a + y + c {
      assert |x| == |y|;
      assert x == (a + x + c)[|a|..|a| + |x|] && y == (a + y + c)[|a|..|a| + |x|];
    }
  }

  /** The parts of the code of an `if` without its scope: condition, then-branch, jump, else-branch. */
  lemma IfParts(c: Expr, y: Stmt, n: Stmt, blocks: Blocks, base: nat, brk: int, written: bool)
    requires blocks != []
    ensures
      var b := DeclE(c, blocks);
      var yes := base + LenE(c, blocks) + 1;
      var no := yes + LenS(y, b) + 1;
      IfCode(c, y, n, blocks, base, brk, written) ==
        (GenE(c, blocks, base) + [JumpIfFalse(no)]) + Gen(y, b, yes, Waiting(n, DeclS(y, b), no, brk, written), written)
        + [Jump(no + LenS(n, DeclS(y, b)))] + Gen(n, DeclS(y, b), no, brk, written)
  {
    hide NamesE, NamesS, LenE, DeclE, DeclS, Inner, GenE, Gen, LenS, Waiting;
  }

  lemma {:induction false} IfAgree(c: Expr, y: Stmt, n: Stmt, blocks: Blocks, base: nat, w: int, brk: int)
    requires blocks != []
    requires brk >= base + LenE(c, blocks) + LenS(y, DeclE(c, blocks)) + LenS(n, DeclS(y, DeclE(c, blocks))) + 2
    ensures IfCode(c, y, n, blocks, base, w, true) == IfCode(c, y, n, blocks, base, brk, false) <==>
      Calm(y) && Calm(n) && !(HasLast(y) && HasLoop(n)) && (w == brk || !(HasLast(y) || HasLast(n)))
    decreases If(c, y, n), 0
  {
    hide *;
    var b := DeclE(c, blocks);
    var yes := base + LenE(c, blocks) + 1;
    var no := yes + LenS(y, b) + 1;
    var (w1, w2) := (Waiting(n, DeclS(y, b), no, w, true), Waiting(n, DeclS(y, b), no, brk, false));
    WaitingIs(n, DeclS(y, b), no, w, brk);
    LastsAgree(y, b, yes, w1, brk);
    LastsAgree(n, DeclS(y, b), no, w, brk);
    AgreesIs(y, b, yes, w1, brk);
    AgreesIs(n, DeclS(y, b), no, w, brk);
    GenLength(y, b, yes, w1, true);
    GenLength(y, b, yes, brk, false);
    var (pre, mid) := (GenE(c, blocks, base) + [JumpIfFalse(no)], [Jump(no + LenS(n, DeclS(y, b)))]);
    IfParts(c, y, n, blocks, base, w, true);
    IfParts(c, y, n, blocks, base, brk, false);
    SameParts(pre + Gen(y, b, yes, w1, true) + mid, Gen(n, DeclS(y, b), no, w, true),
              pre + Gen(y, b, yes, w2, false) + mid, Gen(n, DeclS(y, b), no, brk, false));
    Framed(pre, Gen(y, b, yes, w1, true), Gen(y, b, yes, w2, false), mid);
  }

  lemma AgreesIs(s: Stmt, blocks: Blocks, base: nat, w: int, brk: int)
    requires blocks != [] && Agrees(s, blocks, base, w, brk)
    ensures Gen(s, blocks, base, w, true) == Gen(s, blocks, base, brk, false) <==> Calm(s) && (w == brk || !HasLast(s))
  {
  }

  lemma WaitingIs(n: Stmt, blocks: Blocks, base: nat, w: int, brk: int)
    requires blocks != [] && brk >= base + LenS(n, blocks)
    ensures if HasLoop(n) then Waiting(n, blocks, base, w, true) < brk else Waiting(n, blocks, base, w, true) == w
    ensures Waiting(n, blocks, base, brk, false) == brk
  {
    if HasLoop(n) { FirstLabelInside(n, blocks, base); }
  }

  lemma WhileParts(c: Expr, body: Stmt, blocks: Blocks, base: nat, end: int, written: bool)
    requires blocks != []
    ensures WhileCode(c, body, blocks, base, end, written) ==
      (GenE(c, blocks, base) + [JumpIfFalse(end), EnterWhile(|NamesS(body, [])|)])
      + Gen(body, Inner(DeclE(c, blocks)), base + LenE(c, blocks) + 2, end - 1, written) + [Op.Leave, Jump(base)]
  {
    hide NamesE, NamesS, LenE, DeclE, DeclS, Inner, GenE, Gen, LenS;
  }

  lemma {:induction false} WhileAgree(c: Expr, body: Stmt, blocks: Blocks, base: nat, end: int)
    requires blocks != [] && end >= base + LenE(c, blocks) + LenS(body, Inner(DeclE(c, blocks))) + 3
    ensures WhileCode(c, body, blocks, base, end, true) == WhileCode(c, body, blocks, base, end, false) <==> Calm(body)
    decreases While(c, body), 0
  {
    hide *;
    var (b, at) := (Inner(DeclE(c, blocks)), base + LenE(c, blocks) + 2);
    LastsAgree(body, b, at, end - 1, end - 1);
    AgreesIs(body, b, at, end - 1, end - 1);
    WhileParts(c, body, blocks, base, end, true);
    WhileParts(c, body, blocks, base, end, false);
    Framed(GenE(c, blocks, base) + [JumpIfFalse(end), EnterWhile(|NamesS(body, [])|)],
           Gen(body, b, at, end - 1, true), Gen(body, b, at, end - 1, false), [Op.Leave, Jump(base)]);
  }

  /** The parts of the code of a `for` without its scope. */
  lemma ForParts(i: Expr, c: Expr, p: Expr, body: Stmt, blocks: Blocks, base: nat, end: int, written: bool)
    requires blocks != []
    ensures
      var b1 := DeclE(i, blocks);
      var b2 := DeclE(c, b1);
      var again := base + LenE(i, blocks);
      var start := again + LenE(c, b1) + 1;
      ForCode(i, c, p, body, blocks, base, end, written) ==
        (GenE(i, blocks, base) + GenE(c, b1, again) + [JumpIfFalse(end)]) + Gen(body, b2, start, end, written)
        + (GenE(p, DeclS(body, b2), start + LenS(body, b2)) + [Jump(again)])
  {
    hide NamesE, NamesS, LenE, DeclE, DeclS, Inner, GenE, Gen, LenS;
  }

  lemma {:induction false} ForAgree(i: Expr, c: Expr, p: Expr, body: Stmt, blocks: Blocks, base: nat, end: int)
    requires blocks != []
    requires var b1 := DeclE(i, blocks); var b2 :=
        DeclE(c, b1); end >= base + LenE(i, blocks) + LenE(c, b1) + 1 + LenS(body, b2)
    ensures ForCode(i, c, p, body, blocks, base, end, true) == ForCode(i, c, p, body, blocks, base, end, false) <==>
      Calm(body)
    decreases For(i, c, p, body), 0
  {
    hide *;
    var b1 := DeclE(i, blocks);
    var b2 := DeclE(c, b1);
    var again := base + LenE(i, blocks);
    var start := again + LenE(c, b1) + 1;
    LastsAgree(body, b2, start, end, end);
    AgreesIs(body, b2, start, end, end);
    ForParts(i, c, p, body, blocks, base, end, true);
    ForParts(i, c, p, body, blocks, base, end, false);
    Framed(GenE(i, blocks, base) + GenE(c, b1, again) + [JumpIfFalse(end)],
           Gen(body, b2, start, end, true), Gen(body, b2, start, end, false),
           GenE(p, DeclS(body, b2), start + LenS(body, b2)) + [Jump(again)]);
  }
}
