/** Parse trees: what a sentence has been built from. */
module LemonTrees {
  import opened LemonGrammar

  datatype Tree = Leaf(sym: nat) | Node(rule: nat, children: Forest)
  datatype Forest = Nil | Cons(head: Tree, tail: Forest)

  /** Inner nodes are rules, leaves are terminals. */
  ghost predicate Good(g: Grammar, f: Forest) {
    f.Cons? ==> GoodTree(g, f.head) && Good(g, f.tail)
  }

  ghost predicate GoodTree(g: Grammar, t: Tree) {
    match t
    case Leaf(x) => x < g.nterminal
    case Node(r, ch) => r < |g.rules| && Good(g, ch) && Roots(g, ch) == g.rules[r].rhs
  }

  ghost function Root(g: Grammar, t: Tree): nat {
    match t
    case Leaf(x) => x
    case Node(r, _) => if r < |g.rules| then g.rules[r].lhs else 0
  }

  ghost function Roots(g: Grammar, f: Forest): seq<nat> {
    if f.Nil? then [] else [Root(g, f.head)] + Roots(g, f.tail)
  }

  ghost function Yield(f: Forest): seq<nat> {
    if f.Nil? then [] else YieldTree(f.head) + Yield(f.tail)
  }

  ghost function YieldTree(t: Tree): seq<nat> {
    match t
    case Leaf(x) => [x]
    case Node(_, ch) => Yield(ch)
  }

  ghost function Size(f: Forest): nat {
    if f.Nil? then 0 else SizeTree(f.head) + Size(f.tail)
  }

  ghost function SizeTree(t: Tree): (n: nat)
    ensures n >= 1
  {
    match t
    case Leaf(_) => 1
    case Node(_, ch) => 1 + Size(ch)
  }

  /** The roots of trees derive their leaves. */
  lemma {:induction false} TreesDerive(g: Grammar, f: Forest)
    requires Good(g, f)
    ensures Derives(g, Roots(g, f), Yield(f))
    decreases f
  {
    hide Derives;
    if f.Nil? {
      DerivesRefl(g, []);
    } else {
      TreesDerive(g, f.tail);
      if f.head.Node? {
        var r := f.head.rule;
        TreesDerive(g, f.head.children);
        RuleStep(g, r, [], []);
        assert [] + [g.rules[r].lhs] + [] == [g.rules[r].lhs] && [] + g.rules[r].rhs + [] == g.rules[r].rhs;
        DerivesStep(g, [g.rules[r].lhs], g.rules[r].rhs, YieldTree(f.head));
      } else {
        DerivesRefl(g, [f.head.sym]);
      }
      DerivesConcat(g, [Root(g, f.head)], YieldTree(f.head), Roots(g, f.tail), Yield(f.tail));
    }
  }

  // ----- every derivation of terminals is a tree -----

  ghost function Leaves(w: seq<nat>): Forest {
    if w == [] then Nil else Cons(Leaf(w[0]), Leaves(w[1..]))
  }

  lemma {:induction false} LeavesAreGood(g: Grammar, w: seq<nat>)
    requires forall k :: 0 <= k < |w| ==> w[k] < g.nterminal
    ensures Good(g, Leaves(w)) && Roots(g, Leaves(w)) == w && Yield(Leaves(w)) == w
  {
    if w != [] { LeavesAreGood(g, w[1..]); }
  }

  ghost function Join(a: Forest, b: Forest): Forest {
    if a.Nil? then b else Cons(a.head, Join(a.tail, b))
  }

  lemma {:induction false} Joined(g: Grammar, a: Forest, b: Forest)
    requires Good(g, a) && Good(g, b)
    ensures Good(g, Join(a, b)) && Roots(g, Join(a, b)) == Roots(g, a) + Roots(g, b)
    ensures Yield(Join(a, b)) == Yield(a) + Yield(b)
  {
    if a.Cons? { Joined(g, a.tail, b); }
  }

  lemma {:induction false} Split(g: Grammar, f: Forest, i: nat) returns (a: Forest, b: Forest)
    requires Good(g, f) && i <= |Roots(g, f)|
    ensures Good(g, a) && Good(g, b) && Roots(g, a) == Roots(g, f)[..i] && Roots(g, b) == Roots(g, f)[i..]
    ensures Yield(a) + Yield(b) == Yield(f)
  {
    if i == 0 {
      a, b := Nil, f;
    } else {
      var a';
      a', b := Split(g, f.tail, i - 1);
      a := Cons(f.head, a');
      assert Roots(g, f)[1..] == Roots(g, f.tail);
      assert Roots(g, f)[..i] == [Root(g, f.head)] + Roots(g, f.tail)[..i - 1];
      assert Roots(g, f)[i..] == Roots(g, f.tail)[i - 1..];
      assert YieldTree(f.head) + (Yield(a') + Yield(b)) == (YieldTree(f.head) + Yield(a')) + Yield(b);
    }
  }

  lemma OneNode(g: Grammar, r: nat, b: Forest)
    requires r < |g.rules| && Good(g, b) && Roots(g, b) == g.rules[r].rhs
    ensures var t := Cons(Node(r, b), Nil); Good(g, t) && Roots(g, t) == [g.rules[r].lhs] && Yield(t) == Yield(b)
  {
    assert Roots(g, Nil) == [] && Root(g, Node(r, b)) == g.rules[r].lhs;
  }

  /** Undoing one step of a derivation puts a node on top of the trees of the right-hand side. */
  lemma FoldStep(g: Grammar, u: seq<nat>, i: nat, r: nat, v: seq<nat>, f: Forest) returns (f': Forest)
    requires StepAt(g, u, i, r, v) && Good(g, f) && Roots(g, f) == v
    ensures Good(g, f') && Roots(g, f') == u && Yield(f') == Yield(f)
  {
    hide Good, Roots, Yield, Join;
    SeqStep(u, i, g.rules[r].rhs, v);
    var a, bc := Split(g, f, i);
    var b, c := Split(g, bc, |g.rules[r].rhs|);
    OneNode(g, r, b);
    var t := Cons(Node(r, b), Nil);
    Joined(g, a, t);
    Joined(g, Join(a, t), c);
    f' := Join(Join(a, t), c);
    Associative(Yield(a), Yield(b), Yield(c));
  }

  lemma Associative(a: seq<nat>, b: seq<nat>, c: seq<nat>)
    ensures a + (b + c) == (a + b) + c
  {
  }

  lemma SeqStep(u: seq<nat>, i: nat, rhs: seq<nat>, v: seq<nat>)
    requires i < |u| && v == u[..i] + rhs + u[i + 1..]
    ensures i <= |v| && v[..i] == u[..i] && |rhs| <= |v[i..]| && v[i..][..|rhs|] == rhs && v[i..][|rhs|..] == u[i + 1..]
    ensures u == (u[..i] + [u[i]]) + u[i + 1..]
  {
    assert v[i..] == rhs + u[i + 1..];
  }

  lemma {:induction false} DerivationHasTrees(g: Grammar, u: seq<nat>, w: seq<nat>, n: nat) returns (f: Forest)
    requires DerivesIn(g, u, w, n) && forall k :: 0 <= k < |w| ==> w[k] < g.nterminal
    ensures Good(g, f) && Roots(g, f) == u && Yield(f) == w
    decreases n
  {
    if n == 0 {
      LeavesAreGood(g, w);
      f := Leaves(w);
    } else {
      var v :| Step(g, u, v) && DerivesIn(g, v, w, n - 1);
      var i: nat, r: nat :| StepAt(g, u, i, r, v);
      var f1 := DerivationHasTrees(g, v, w, n - 1);
      f := FoldStep(g, u, i, r, v, f1);
    }
  }
}
