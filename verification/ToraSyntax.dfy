/** A structured part of the Tora language and what its programs mean. */
module ToraSyntax {
  import opened Basics
  import opened ToraMachine

  /** Expressions.  `Binary` stands for the node types; the lexer gives the node GT to the character `<` and
      the node LT to `>`, and so on, because comparisons take their operands in reverse. */
  datatype Expr =
    | Int(n: int) | True | False | Undef
    | Var(x: string) | Assign(x: string, e: Expr) | MyAssign(x: string, e: Expr) | My(x: string)
    | Binary(op: BinOp, l: Expr, r: Expr) | Negate(e: Expr)
    | And(l: Expr, r: Expr) | Or(l: Expr, r: Expr)

  /** Statements.  `Next(s, rest)` is one element of a statement list and what follows it;
      an absent branch of an `if` is `Void`. */
  datatype Stmt =
    | Do(e: Expr) | Void | Next(s: Stmt, rest: Stmt)
    | Block(body: Stmt) | If(cond: Expr, yes: Stmt, no: Stmt)
    | While(cond: Expr, body: Stmt) | For(init: Expr, cond: Expr, post: Expr, body: Stmt)
    | Last

  datatype List<T> = Nil | Cons(head: T, tail: List<T>)

  /** The node types that the lexer gives to the comparison signs. */
  datatype Sign = Less | Greater | LessEqual | GreaterEqual | Equal | NotEqual

  function NodeOf(s: Sign): BinOp {
    match s
    case Less => Gt
    case Greater => Lt
    case LessEqual => Ge
    case GreaterEqual => Le
    case Equal => Eq
    case NotEqual => Ne
  }

  predicate Compares(s: Sign, a: int, b: int) {
    match s
    case Less => a < b
    case Greater => a > b
    case LessEqual => a <= b
    case GreaterEqual => a >= b
    case Equal => a == b
    case NotEqual => a != b
  }

  /** The two reversals, of the signs in the lexer and of the operands in the machine, cancel out for integers. */
  lemma SignsMeanWhatTheySay(s: Sign, a: int, b: int)
    ensures BinResult(NodeOf(s), IntValue(a), IntValue(b)) == Some(BoolValue(Compares(s, a, b)))
  {
  }

  /** Sums and differences of integers are what they are as long as they fit into 32 bits; there are none otherwise, nor
      of anything else. */
  lemma SumsAndDifferences(x: Value, y: Value)
    ensures
      var (sum, diff) := (BinResult(Add, x, y), BinResult(Sub, x, y));
      match (x, y)
      case (IntValue(a), IntValue(b)) =>
        && sum == (if -0x8000_0000 <= a + b <= 0x7fff_ffff then Some(IntValue(a + b)) else None)
        && diff == (if -0x8000_0000 <= a - b <= 0x7fff_ffff then Some(IntValue(a - b)) else None)
      case _ => sum == None && diff == None
  {
  }

  /** Only `undef` and false are false. */
  lemma FalseValues(v: Value)
    ensures !ToBool(v) <==> v == UndefValue || v == BoolValue(false)
  {
  }

  /** Comparisons whose right operand is no integer do not look at the sign: against a truth value they tell whether the
      left operand has it, against `undef` whether it is `undef` too.  An integer on the right takes integers only. */
  lemma MixedComparisons(s: Sign, x: Value, y: Value)
    ensures y == BoolValue(true) ==>
      BinResult(NodeOf(s), x, y) == Some(BoolValue(x != UndefValue && x != BoolValue(false)))
    ensures y == BoolValue(false) ==>
      BinResult(NodeOf(s), x, y) == Some(BoolValue(x == UndefValue || x == BoolValue(false)))
    ensures y == UndefValue ==> BinResult(NodeOf(s), x, y) == Some(BoolValue(x == UndefValue))
    ensures y.IntValue? && !x.IntValue? ==> BinResult(NodeOf(s), x, y) == None
  {
  }

  // ----- declarations -----

  /** The names of a scope after one more declaration; a second one of the same name is an error and adds nothing. */
  function AddName(names: seq<string>, x: string): seq<string> {
    if x in names then names else names + [x]
  }

  /** The names of the current scope after `e`. */
  function NamesE(e: Expr, names: seq<string>): seq<string> {
    match e
    case Assign(_, e) => NamesE(e, names)
    case MyAssign(x, e) => AddName(NamesE(e, names), x)
    case My(x) => AddName(names, x)
    case Binary(_, l, r) => NamesE(r, NamesE(l, names))
    case Negate(e) => NamesE(e, names)
    case And(l, r) => NamesE(r, NamesE(l, names))
    case Or(l, r) => NamesE(r, NamesE(l, names))
    case _ => names
  }

  /** count_variable_declare: all declarations inside. */
  function CountE(e: Expr): nat {
    match e
    case Assign(_, e) => CountE(e)
    case MyAssign(_, e) => 1 + CountE(e)
    case My(_) => 1
    case Binary(_, l, r) => CountE(l) + CountE(r)
    case Negate(e) => CountE(e)
    case And(l, r) => CountE(l) + CountE(r)
    case Or(l, r) => CountE(l) + CountE(r)
    case _ => 0
  }

  function CountS(s: Stmt): nat {
    match s
    case Do(e) => CountE(e)
    case Next(s, rest) => CountS(s) + CountS(rest)
    case Block(body) => CountS(body)
    case If(c, y, n) => CountE(c) + CountS(y) + CountS(n)
    case While(c, body) => CountE(c) + CountS(body)
    case For(i, c, p, body) => CountE(i) + CountE(c) + CountE(p) + CountS(body)
    case _ => 0
  }

  /** Only a condition with declarations in it gives an `if` a scope of its own. */
  predicate OwnScope(cond: Expr) { CountE(cond) > 0 }

  /** The names of the current scope after `s`. */
  function NamesS(s: Stmt, names: seq<string>): seq<string> {
    match s
    case Do(e) => NamesE(e, names)
    case Next(s, rest) => NamesS(rest, NamesS(s, names))
    case If(c, y, n) => if OwnScope(c) then names else NamesS(n, NamesS(y, NamesE(c, names)))
    case While(c, _) => NamesE(c, names)
    case _ => names
  }

  lemma {:induction false} NoDeclE(e: Expr, names: seq<string>)
    requires CountE(e) == 0
    ensures NamesE(e, names) == names
  {
    match e
    case Assign(_, e) => NoDeclE(e, names);
    case Binary(_, l, r) => NoDeclE(l, names); NoDeclE(r, names);
    case Negate(e) => NoDeclE(e, names);
    case And(l, r) => NoDeclE(l, names); NoDeclE(r, names);
    case Or(l, r) => NoDeclE(l, names); NoDeclE(r, names);
    case _ =>
  }

  lemma {:induction false} NoDeclS(s: Stmt, names: seq<string>)
    requires CountS(s) == 0
    ensures NamesS(s, names) == names
  {
    match s
    case Do(e) => NoDeclE(e, names);
    case Next(s, rest) => NoDeclS(s, names); NoDeclS(rest, names);
    case If(c, y, n) => NoDeclE(c, names); NoDeclS(y, names); NoDeclS(n, names);
    case While(c, _) => NoDeclE(c, names);
    case _ =>
  }

  // ----- scopes and stores -----

  /** The values of one scope, by name; a name without a value is `undef`. */
  type Store = map<string, Value>

  function StoreGet(store: Store, x: string): Value {
    if x in store then store[x] else UndefValue
  }

  /** The value of `x`: of the innermost declaration that is visible here. */
  function Get(names: List<seq<string>>, stores: List<Store>, x: string): Option<Value> {
    if names.Nil? || stores.Nil? then None
    else if x in names.head then Some(StoreGet(stores.head, x))
    else Get(names.tail, stores.tail, x)
  }

  function Set(names: List<seq<string>>, stores: List<Store>, x: string, v: Value): Option<List<Store>> {
    if names.Nil? || stores.Nil? then None
    else if x in names.head then Some(Cons(stores.head[x := v], stores.tail))
    else match Set(names.tail, stores.tail, x, v)
      case Some(rest) => Some(Cons(stores.head, rest))
      case None => None
  }

  function After(e: Expr, names: List<seq<string>>): (r: List<seq<string>>)
    requires names.Cons?
    ensures r.Cons?
  {
    Cons(NamesE(e, names.head), names.tail)
  }

  function AfterS(s: Stmt, names: List<seq<string>>): (r: List<seq<string>>)
    requires names.Cons?
    ensures r.Cons?
  {
    Cons(NamesS(s, names.head), names.tail)
  }

  // ----- meaning -----

  /** The value of an expression and the stores afterwards; `None` for an exception. */
  function Eval(e: Expr, names: List<seq<string>>, stores: List<Store>): Option<(Value, List<Store>)>
    requires names.Cons?
  {
    match e
    case Int(n) => Some((IntValue(n), stores))
    case True => Some((BoolValue(true), stores))
    case False => Some((BoolValue(false), stores))
    case Undef => Some((UndefValue, stores))
    case Var(x) =>
      (match Get(names, stores, x)
       case Some(v) => Some((v, stores))
       case None => None)
    case Assign(x, e) => Stored(x, Eval(e, names, stores), After(e, names))
    case MyAssign(x, e1) => Stored(x, Eval(e1, names, stores), After(e, names))
    case My(x) => Stored(x, Some((UndefValue, stores)), After(e, names))
    case Binary(op, l, r) =>
      (match Eval(l, names, stores)
       case None => None
       case Some((a, s1)) =>
         match Eval(r, After(l, names), s1)
         case None => None
         case Some((b, s2)) =>
           match BinResult(op, a, b)
           case None => None
           case Some(v) => Some((v, s2)))
    case Negate(e) =>
      (match Eval(e, names, stores)
       case None => None
       case Some((v, s1)) => Some((BoolValue(!ToBool(v)), s1)))
    case And(l, r) =>
      (match Eval(l, names, stores)
       case None => None
       case Some((a, s1)) => if ToBool(a) then Eval(r, After(l, names), s1) else Some((a, s1)))
    case Or(l, r) =>
      (match Eval(l, names, stores)
       case None => None
       case Some((a, s1)) => if ToBool(a) then Some((a, s1)) else Eval(r, After(l, names), s1))
  }

  /** The rest of an assignment, whose value is the value assigned. */
  function Stored(x: string, r: Option<(Value, List<Store>)>, names: List<seq<string>>): Option<(Value, List<Store>)> {
    match r
    case None => None
    case Some((v, s1)) =>
      match Set(names, s1, x, v)
      case None => None
      case Some(s2) => Some((v, s2))
  }

  /** How a statement ends: at its end, by `last`, or neither (an exception, or not within the fuel). */
  datatype Outcome = Normal(stores: List<Store>) | Broken(stores: List<Store>) | Stuck

  /** Leaving a scope. */
  function Leave(o: Outcome): Outcome {
    match o
    case Normal(s) => if s.Cons? then Normal(s.tail) else Stuck
    case Broken(s) => if s.Cons? then Broken(s.tail) else Stuck
    case Stuck => Stuck
  }

  /** `last` ends at the loop. */
  function Caught(o: Outcome): Outcome {
    match o
    case Broken(s) => Normal(s)
    case _ => o
  }

  /** Running a statement; `fuel` bounds the number of loop iterations in sequence. */
  function Exec(s: Stmt, names: List<seq<string>>, stores: List<Store>, fuel: nat): Outcome
    requires names.Cons?
    decreases fuel, s, 1
  {
    match s
    case Do(e) =>
      (match Eval(e, names, stores)
       case Some((_, s1)) => Normal(s1)
       case None => Stuck)
    case Void => Normal(stores)
    case Next(s, rest) =>
      (match Exec(s, names, stores, fuel)
       case Normal(s1) => Exec(rest, AfterS(s, names), s1, fuel)
       case o => o)
    case Block(body) => Leave(Exec(body, Cons([], names), Cons(map[], stores), fuel))
    case If(c, yes, no) =>
      if OwnScope(c) then Leave(Branch(c, yes, no, Cons([], names), Cons(map[], stores), fuel))
      else Branch(c, yes, no, names, stores, fuel)
    case While(c, body) =>
      if fuel == 0 then Stuck
      else
        (match Eval(c, names, stores)
         case None => Stuck
         case Some((v, s1)) =>
           if !ToBool(v) then Normal(s1)
           else match Leave(Exec(body, Cons([], After(c, names)), Cons(map[], s1), fuel))
             case Normal(s2) => Exec(s, names, s2, fuel - 1)
             case o => Caught(o))
    case For(i, c, p, body) =>
      (match Eval(i, Cons([], names), Cons(map[], stores))
       case None => Stuck
       case Some((_, s1)) => Leave(Loop(c, p, body, After(i, Cons([], names)), s1, fuel)))
    case Last => Broken(stores)
  }

  function Branch(c: Expr, yes: Stmt, no: Stmt, names: List<seq<string>>, stores: List<Store>, fuel: nat): Outcome
    requires names.Cons?
    decreases fuel, If(c, yes, no), 0
  {
    match Eval(c, names, stores)
    case None => Stuck
    case Some((v, s1)) =>
      if ToBool(v) then Exec(yes, After(c, names), s1, fuel)
      else Exec(no, AfterS(yes, After(c, names)), s1, fuel)
  }

  /** The iterations of a `for`. */
  function Loop(c: Expr, p: Expr, body: Stmt, names: List<seq<string>>, stores: List<Store>, fuel: nat): Outcome
    requires names.Cons?
    decreases fuel, body, 2
  {
    if fuel == 0 then Stuck
    else match Eval(c, names, stores)
      case None => Stuck
      case Some((v, s1)) =>
        if !ToBool(v) then Normal(s1)
        else match Exec(body, After(c, names), s1, fuel)
          case Normal(s2) =>
            (match Eval(p, AfterS(body, After(c, names)), s2)
             case None => Stuck
             case Some((_, s3)) => Loop(c, p, body, names, s3, fuel - 1))
          case o => Caught(o)
  }
}
