/** FindFirstSets: which nonterminals derive the empty string, and which
    terminals can begin what a nonterminal derives. */
module LemonFirstSets {
  import opened LemonGrammar

  // ----- what the two sets have to satisfy -----

  /** Every symbol of `u` is marked as deriving the empty string. */
  predicate AllLambda(lambda: seq<bool>, u: seq<nat>) {
    forall k :: 0 <= k < |u| ==> u[k] < |lambda| && lambda[u[k]]
  }

  /** The terminals that the marks and sets say can begin `u`: the walk over a right-hand side. */
  function FirstOf(nterminal: nat, lambda: seq<bool>, first: seq<set<nat>>, u: seq<nat>): set<nat> {
    if u == [] then {}
    else if u[0] < nterminal then {u[0]}
    else if u[0] < |first| && u[0] < |lambda| then
      first[u[0]] + if lambda[u[0]] then FirstOf(nterminal, lambda, first, u[1..]) else {}
    else {}
  }

  ghost predicate LambdaClosed(g: Grammar, lambda: seq<bool>, n: nat) {
    |lambda| == g.nsymbol &&
    forall r :: 0 <= r < n && r < |g.rules| && AllLambda(lambda, g.rules[r].rhs) ==>
      g.rules[r].lhs < |lambda| && lambda[g.rules[r].lhs]
  }

  ghost predicate FirstClosed(g: Grammar, lambda: seq<bool>, first: seq<set<nat>>, n: nat) {
    |first| == g.nsymbol &&
    forall r :: 0 <= r < n && r < |g.rules| ==>
      g.rules[r].lhs < |first| && FirstOf(g.nterminal, lambda, first, g.rules[r].rhs) <= first[g.rules[r].lhs]
  }

  ghost predicate LambdaSound(g: Grammar, lambda: seq<bool>) {
    && |lambda| == g.nsymbol
    && (forall s :: 0 <= s < |lambda| && lambda[s] ==> !IsTerminal(g, s) && Nullable(g, [s]))
  }

  ghost predicate FirstSound(g: Grammar, first: seq<set<nat>>) {
    && |first| == g.nsymbol
    && (forall s, t :: 0 <= s < |first| && t in first[s] ==> g.nterminal <= s && t < g.nterminal && Begins(g, [s], t))
  }

  /** What the source says of the result: exactly the nonterminals that derive the
      empty string, and exactly the terminals that can begin a derived form. */
  ghost predicate Exact(g: Grammar, lambda: seq<bool>, first: seq<set<nat>>) {
    && |lambda| == |first| == g.nsymbol
    && (forall s: nat :: s < g.nsymbol ==> (lambda[s] <==> Nullable(g, [s])))
    && (forall s: nat :: s < g.nterminal && s < g.nsymbol ==> first[s] == {})
    && (forall s: nat, t: nat :: g.nterminal <= s < g.nsymbol ==>
          (t in first[s] <==> t < g.nterminal && Begins(g, [s], t)))
  }

  // ----- soundness: whatever is marked is derivable -----

  lemma {:induction false} AllLambdaNullable(g: Grammar, lambda: seq<bool>, u: seq<nat>)
    requires LambdaSound(g, lambda) && AllLambda(lambda, u)
    ensures Nullable(g, u)
  {
    if u == [] {
      DerivesRefl(g, u);
    } else {
      AllLambdaNullable(g, lambda, u[1..]);
      assert Nullable(g, [u[0]]);
      DerivesConcat(g, [u[0]], [], u[1..], []);
      assert [u[0]] + u[1..] == u;
      var none: seq<nat> := [];
      assert none + none == none;
    }
  }

  lemma RuleNullable(g: Grammar, lambda: seq<bool>, r: nat)
    requires r < |g.rules| && LambdaSound(g, lambda) && AllLambda(lambda, g.rules[r].rhs)
    ensures Nullable(g, [g.rules[r].lhs])
  {
    AllLambdaNullable(g, lambda, g.rules[r].rhs);
    RuleStep(g, r, [], []);
    assert [] + [g.rules[r].lhs] + [] == [g.rules[r].lhs] && [] + g.rules[r].rhs + [] == g.rules[r].rhs;
    DerivesStep(g, [g.rules[r].lhs], g.rules[r].rhs, []);
  }

  /** If `[x]` begins with `t` and everything before `x` derives nothing, the whole form begins with `t`. */
  lemma BeginsBehindNullable(g: Grammar, p: seq<nat>, x: nat, s: seq<nat>, t: nat)
    requires Nullable(g, p) && Begins(g, [x], t)
    ensures Begins(g, p + [x] + s, t)
  {
    var rest :| Derives(g, [x], [t] + rest);
    DerivesConcat(g, p, [], [x], [t] + rest);
    assert [] + ([t] + rest) == [t] + rest;
    DerivesInContext(g, [], p + [x], [t] + rest, s);
    assert [] + (p + [x]) + s == p + [x] + s && [] + ([t] + rest) + s == [t] + (rest + s);
    assert Derives(g, p + [x] + s, [t] + (rest + s));
  }

  lemma RuleBegins(g: Grammar, r: nat, t: nat)
    requires r < |g.rules| && Begins(g, g.rules[r].rhs, t)
    ensures Begins(g, [g.rules[r].lhs], t)
  {
    var rest :| Derives(g, g.rules[r].rhs, [t] + rest);
    RuleStep(g, r, [], []);
    assert [] + [g.rules[r].lhs] + [] == [g.rules[r].lhs] && [] + g.rules[r].rhs + [] == g.rules[r].rhs;
    DerivesStep(g, [g.rules[r].lhs], g.rules[r].rhs, [t] + rest);
  }

  lemma RuleBeginsAt(g: Grammar, lambda: seq<bool>, r: nat, i: nat, t: nat)
    requires r < |g.rules| && i < |g.rules[r].rhs|
    requires LambdaSound(g, lambda) && AllLambda(lambda, g.rules[r].rhs[..i])
    requires Begins(g, [g.rules[r].rhs[i]], t)
    ensures Begins(g, [g.rules[r].lhs], t)
  {
    var rhs := g.rules[r].rhs;
    AllLambdaNullable(g, lambda, rhs[..i]);
    BeginsBehindNullable(g, rhs[..i], rhs[i], rhs[i + 1..], t);
    assert rhs[..i] + [rhs[i]] + rhs[i + 1..] == rhs;
    RuleBegins(g, r, t);
  }

  lemma TerminalBegins(g: Grammar, t: nat)
    ensures Begins(g, [t], t)
  {
    DerivesRefl(g, [t]);
    assert [t] + [] == [t];
  }

  // ----- completeness: closed sets contain everything derivable -----

  lemma {:induction false} NullableIsMarked(g: Grammar, lambda: seq<bool>, u: seq<nat>, n: nat)
    requires WellFormed(g) && LambdaClosed(g, lambda, |g.rules|)
    requires DerivesIn(g, u, [], n)
    ensures AllLambda(lambda, u)
    decreases n
  {
    if n > 0 {
      var w :| Step(g, u, w) && DerivesIn(g, w, [], n - 1);
      NullableIsMarked(g, lambda, w, n - 1);
      var p, r, s := StepParts(g, u, w);
      AllLambdaConcat(lambda, p, g.rules[r].rhs + s);
      AllLambdaConcat(lambda, g.rules[r].rhs, s);
      AllLambdaConcat(lambda, p, [g.rules[r].lhs] + s);
      AllLambdaConcat(lambda, [g.rules[r].lhs], s);
    }
  }

  lemma AllLambdaConcat(lambda: seq<bool>, u: seq<nat>, v: seq<nat>)
    ensures AllLambda(lambda, u + v) <==> AllLambda(lambda, u) && AllLambda(lambda, v)
  {
    if AllLambda(lambda, u + v) {
      forall k | 0 <= k < |u| ensures u[k] < |lambda| && lambda[u[k]] { assert (u + v)[k] == u[k]; }
      forall k | 0 <= k < |v| ensures v[k] < |lambda| && lambda[v[k]] { assert (u + v)[|u| + k] == v[k]; }
    }
  }

  lemma {:induction false} FirstOfConcat(nt: nat, lambda: seq<bool>, first: seq<set<nat>>, u: seq<nat>, v: seq<nat>)
    requires |lambda| == |first|
    requires forall k :: 0 <= k < |u| ==> u[k] < |first|
    requires forall s :: 0 <= s < |lambda| && s < nt ==> !lambda[s]
    ensures FirstOf(nt, lambda, first, u + v) ==
            FirstOf(nt, lambda, first, u) + if AllLambda(lambda, u) then FirstOf(nt, lambda, first, v) else {}
  {
    if u == [] {
      assert u + v == v;
    } else {
      assert (u + v)[0] == u[0] && (u + v)[1..] == u[1..] + v;
      assert forall k :: 0 <= k < |u[1..]| ==> u[1..][k] == u[k + 1];
      FirstOfConcat(nt, lambda, first, u[1..], v);
      if lambda[u[0]] {
        assert AllLambda(lambda, u) <==> AllLambda(lambda, u[1..]) by {
          if AllLambda(lambda, u[1..]) {
            forall k | 0 <= k < |u| ensures u[k] < |lambda| && lambda[u[k]] {
              if k > 0 { assert u[1..][k - 1] == u[k]; }
            }
          }
        }
      }
    }
  }

  lemma FirstOfRule(g: Grammar, lambda: seq<bool>, first: seq<set<nat>>, r: nat, s: seq<nat>)
    requires WellFormed(g) && LambdaSound(g, lambda) && r < |g.rules|
    requires LambdaClosed(g, lambda, |g.rules|) && FirstClosed(g, lambda, first, |g.rules|)
    ensures FirstOf(g.nterminal, lambda, first, g.rules[r].rhs + s) <=
            FirstOf(g.nterminal, lambda, first, [g.rules[r].lhs] + s)
  {
    assert WellFormedRule(g, g.rules[r]);
    FirstOfConcat(g.nterminal, lambda, first, g.rules[r].rhs, s);
    assert ([g.rules[r].lhs] + s)[1..] == s;
  }

  /** Replacing a symbol by a right-hand side adds nothing to the set that closed sets give. */
  lemma FirstOfReplaced(g: Grammar, lambda: seq<bool>, first: seq<set<nat>>, p: seq<nat>, r: nat, s: seq<nat>)
    requires WellFormed(g) && LambdaSound(g, lambda) && r < |g.rules|
    requires LambdaClosed(g, lambda, |g.rules|) && FirstClosed(g, lambda, first, |g.rules|)
    requires forall k :: 0 <= k < |p| ==> p[k] < g.nsymbol
    ensures FirstOf(g.nterminal, lambda, first, p + (g.rules[r].rhs + s)) <=
            FirstOf(g.nterminal, lambda, first, p + ([g.rules[r].lhs] + s))
  {
    FirstOfRule(g, lambda, first, r, s);
    FirstOfConcat(g.nterminal, lambda, first, p, g.rules[r].rhs + s);
    FirstOfConcat(g.nterminal, lambda, first, p, [g.rules[r].lhs] + s);
  }

  lemma StepWithin(g: Grammar, u: seq<nat>, w: seq<nat>)
    requires WellFormed(g) && Step(g, u, w)
    requires forall k :: 0 <= k < |u| ==> u[k] < g.nsymbol
    ensures forall k :: 0 <= k < |w| ==> w[k] < g.nsymbol
  {
    var i: nat, r: nat :| StepAt(g, u, i, r, w);
    assert WellFormedRule(g, g.rules[r]);
  }

  lemma StepParts(g: Grammar, u: seq<nat>, w: seq<nat>) returns (p: seq<nat>, r: nat, s: seq<nat>)
    requires Step(g, u, w)
    ensures r < |g.rules| && w == p + (g.rules[r].rhs + s) && u == p + ([g.rules[r].lhs] + s)
  {
    var i: nat;
    i, r :| StepAt(g, u, i, r, w);
    p, s := u[..i], u[i + 1..];
  }

  lemma FirstOfStep(g: Grammar, lambda: seq<bool>, first: seq<set<nat>>, u: seq<nat>, w: seq<nat>)
    requires WellFormed(g) && LambdaSound(g, lambda)
    requires LambdaClosed(g, lambda, |g.rules|) && FirstClosed(g, lambda, first, |g.rules|)
    requires forall k :: 0 <= k < |u| ==> u[k] < g.nsymbol
    requires Step(g, u, w)
    ensures FirstOf(g.nterminal, lambda, first, w) <= FirstOf(g.nterminal, lambda, first, u)
  {
    var p, r, s := StepParts(g, u, w);
    forall k | 0 <= k < |p| ensures p[k] < g.nsymbol { assert p[k] == u[k]; }
    FirstOfReplaced(g, lambda, first, p, r, s);
  }

  lemma {:induction false} BeginsIsInFirst(g: Grammar, lambda: seq<bool>, first: seq<set<nat>>, u: seq<nat>, t: nat,
      rest: seq<nat>, n: nat)
    requires WellFormed(g) && LambdaSound(g, lambda)
    requires LambdaClosed(g, lambda, |g.rules|) && FirstClosed(g, lambda, first, |g.rules|)
    requires forall k :: 0 <= k < |u| ==> u[k] < g.nsymbol
    requires t < g.nterminal && DerivesIn(g, u, [t] + rest, n)
    ensures t in FirstOf(g.nterminal, lambda, first, u)
    decreases n
  {
    if n == 0 {
      assert u[0] == t;
    } else {
      var w :| Step(g, u, w) && DerivesIn(g, w, [t] + rest, n - 1);
      StepWithin(g, u, w);
      FirstOfStep(g, lambda, first, u, w);
      BeginsIsInFirst(g, lambda, first, w, t, rest, n - 1);
    }
  }

  /** A fixpoint that is sound is exact. */
  lemma FixpointIsExact(g: Grammar, lambda: seq<bool>, first: seq<set<nat>>)
    requires WellFormed(g) && LambdaSound(g, lambda) && FirstSound(g, first)
    requires LambdaClosed(g, lambda, |g.rules|) && FirstClosed(g, lambda, first, |g.rules|)
    ensures Exact(g, lambda, first)
  {
    forall s: nat | s < g.nsymbol && Nullable(g, [s]) ensures lambda[s] {
      var n: nat :| DerivesIn(g, [s], [], n);
      NullableIsMarked(g, lambda, [s], n);
      assert [s][0] == s;
    }
    forall s: nat, t: nat | g.nterminal <= s < g.nsymbol && t < g.nterminal && Begins(g, [s], t) ensures t in first[s] {
      var rest :| Derives(g, [s], [t] + rest);
      var n: nat :| DerivesIn(g, [s], [t] + rest, n);
      BeginsIsInFirst(g, lambda, first, [s], t, rest, n);
      assert [s][1..] == [];
    }
  }

  /** The walk over a right-hand side finds exactly the terminals that can begin it. */
  lemma {:induction false} FirstOfExact(g: Grammar, lambda: seq<bool>, first: seq<set<nat>>, u: seq<nat>, t: nat)
    requires WellFormed(g) && Exact(g, lambda, first)
    requires forall k :: 0 <= k < |u| ==> u[k] < g.nsymbol
    requires t < g.nterminal
    ensures t in FirstOf(g.nterminal, lambda, first, u) <==> Begins(g, u, t)
  {
    ExactIsFixpoint(g, lambda, first);
    if Begins(g, u, t) {
      var rest :| Derives(g, u, [t] + rest);
      var n: nat :| DerivesIn(g, u, [t] + rest, n);
      BeginsIsInFirst(g, lambda, first, u, t, rest, n);
    }
    if t in FirstOf(g.nterminal, lambda, first, u) {
      FirstOfBegins(g, lambda, first, u, t);
    }
  }

  lemma {:induction false} FirstOfBegins(g: Grammar, lambda: seq<bool>, first: seq<set<nat>>, u: seq<nat>, t: nat)
    requires LambdaSound(g, lambda) && FirstSound(g, first)
    requires t in FirstOf(g.nterminal, lambda, first, u)
    ensures Begins(g, u, t)
  {
    assert u == [] + [u[0]] + u[1..];
    if u[0] < g.nterminal {
      TerminalBegins(g, t);
      DerivesRefl(g, []);
      BeginsBehindNullable(g, [], u[0], u[1..], t);
    } else if t in first[u[0]] {
      DerivesRefl(g, []);
      BeginsBehindNullable(g, [], u[0], u[1..], t);
    } else {
      FirstOfBegins(g, lambda, first, u[1..], t);
      var rest :| Derives(g, u[1..], [t] + rest);
      DerivesConcat(g, [u[0]], [], u[1..], [t] + rest);
      assert [u[0]] + u[1..] == u && [] + ([t] + rest) == [t] + rest;
    }
  }

  lemma TerminalIsNotNullable(g: Grammar, s: nat)
    requires WellFormed(g) && s < g.nterminal
    ensures !Nullable(g, [s])
  {
    forall w ensures !Step(g, [s], w) {
      forall i: nat, r: nat ensures !StepAt(g, [s], i, r, w) {
        if r < |g.rules| { assert WellFormedRule(g, g.rules[r]); }
      }
    }
    forall n: nat ensures !DerivesIn(g, [s], [], n) {
      assert |[s]| == 1;
    }
  }

  lemma ExactIsFixpoint(g: Grammar, lambda: seq<bool>, first: seq<set<nat>>)
    requires WellFormed(g) && Exact(g, lambda, first)
    ensures LambdaSound(g, lambda) && LambdaClosed(g, lambda, |g.rules|)
    ensures FirstSound(g, first) && FirstClosed(g, lambda, first, |g.rules|)
  {
    forall s: nat | s < g.nterminal ensures !lambda[s] { TerminalIsNotNullable(g, s); }
    forall r: nat | r < |g.rules| && AllLambda(lambda, g.rules[r].rhs) ensures lambda[g.rules[r].lhs] {
      assert WellFormedRule(g, g.rules[r]);
      RuleNullable(g, lambda, r);
    }
    forall r: nat, t | r < |g.rules| && t in FirstOf(g.nterminal, lambda, first, g.rules[r].rhs)
      ensures t in first[g.rules[r].lhs]
    {
      assert WellFormedRule(g, g.rules[r]);
      FirstOfBegins(g, lambda, first, g.rules[r].rhs, t);
      RuleBegins(g, r, t);
      FirstOfBelow(g, lambda, first, g.rules[r].rhs, t);
    }
  }

  lemma {:induction false} FirstOfBelow(g: Grammar, lambda: seq<bool>, first: seq<set<nat>>, u: seq<nat>, t: nat)
    requires FirstSound(g, first) && t in FirstOf(g.nterminal, lambda, first, u)
    ensures t < g.nterminal
  {
    if u[0] >= g.nterminal && t !in first[u[0]] {
      FirstOfBelow(g, lambda, first, u[1..], t);
    }
  }

  lemma FirstOfAt(nt: nat, lambda: seq<bool>, first: seq<set<nat>>, u: seq<nat>, i: nat)
    requires i < |u| && u[i] < |first| == |lambda|
    ensures FirstOf(nt, lambda, first, u[i..]) ==
      if u[i] < nt then {u[i]}
      else first[u[i]] + if lambda[u[i]] then FirstOf(nt, lambda, first, u[i + 1..]) else {}
  {
    assert u[i..][1..] == u[i + 1..];
  }

  lemma FirstSoundAdd(g: Grammar, first: seq<set<nat>>, s: nat, more: set<nat>)
    requires FirstSound(g, first) && g.nterminal <= s < |first|
    requires forall t :: t in more ==> t < g.nterminal && Begins(g, [s], t)
    ensures FirstSound(g, first[s := first[s] + more])
  {
  }

  lemma RuleInRange(g: Grammar, lambda: seq<bool>, first: seq<set<nat>>, n: nat)
    requires WellFormed(g) && LambdaSound(g, lambda) && FirstSound(g, first) && n < |g.rules|
    ensures |lambda| == |first| == g.nsymbol && g.nterminal <= g.rules[n].lhs < g.nsymbol
    ensures forall i :: 0 <= i < |g.rules[n].rhs| ==> g.rules[n].rhs[i] < g.nsymbol
  {
    assert WellFormedRule(g, g.rules[n]);
  }

  lemma NothingWalked(g: Grammar, lambda: seq<bool>, first: seq<set<nat>>, rhs: seq<nat>)
    ensures AllLambda(lambda, rhs[..0]) && rhs[0..] == rhs
  {
  }

  lemma WholeWalked(g: Grammar, lambda: seq<bool>, first: seq<set<nat>>, rhs: seq<nat>)
    ensures FirstOf(g.nterminal, lambda, first, rhs[|rhs|..]) == {}
  {
  }

  lemma OneMoreLambda(lambda: seq<bool>, rhs: seq<nat>, i: nat)
    requires i < |rhs| && AllLambda(lambda, rhs[..i]) && rhs[i] < |lambda| && lambda[rhs[i]]
    ensures AllLambda(lambda, rhs[..i + 1])
  {
    assert rhs[..i + 1] == rhs[..i] + [rhs[i]];
  }

  /** A terminal behind symbols that can vanish begins the left-hand side. */
  lemma TerminalSound(g: Grammar, lambda: seq<bool>, first: seq<set<nat>>, n: nat, i: nat)
    requires WellFormed(g) && LambdaSound(g, lambda) && FirstSound(g, first) && n < |g.rules| && i < |g.rules[n].rhs|
    requires AllLambda(lambda, g.rules[n].rhs[..i]) && g.rules[n].rhs[i] < g.nterminal && g.rules[n].lhs < |first|
    ensures var (s1, s2) := (g.rules[n].lhs, g.rules[n].rhs[i]); FirstSound(g, first[s1 := first[s1] + {s2}])
  {
    hide LambdaSound, AllLambda, FirstSound, WellFormed;
    var (s1, s2) := (g.rules[n].lhs, g.rules[n].rhs[i]);
    RuleInRange(g, lambda, first, n);
    TerminalBegins(g, s2);
    RuleBeginsAt(g, lambda, n, i, s2);
    FirstSoundAdd(g, first, s1, {s2});
  }

  /** So does what begins a nonterminal there. */
  lemma NonterminalSound(g: Grammar, lambda: seq<bool>, first: seq<set<nat>>, n: nat, i: nat)
    requires WellFormed(g) && LambdaSound(g, lambda) && FirstSound(g, first) && n < |g.rules| && i < |g.rules[n].rhs|
    requires AllLambda(lambda, g.rules[n].rhs[..i]) && g.rules[n].lhs < |first| && g.rules[n].rhs[i] < |first|
    ensures var (s1, s2) := (g.rules[n].lhs, g.rules[n].rhs[i]); FirstSound(g, first[s1 := first[s1] + first[s2]])
    ensures forall t :: t in first[g.rules[n].rhs[i]] ==> t < g.nterminal
  {
    var (s1, s2) := (g.rules[n].lhs, g.rules[n].rhs[i]);
    assert forall t :: t in first[s2] ==> t < g.nterminal && Begins(g, [s2], t);
    hide LambdaSound, AllLambda, FirstSound, WellFormed, Begins;
    RuleInRange(g, lambda, first, n);
    forall t | t in first[s2] ensures Begins(g, [s1], t) { RuleBeginsAt(g, lambda, n, i, t); }
    FirstSoundAdd(g, first, s1, first[s2]);
  }

  // ----- the algorithm -----

  /** The fields of the symbols that FindFirstSets fills in. */
  class Symbols {
    const g: Grammar
    var lambda: seq<bool>
    var firstset: seq<set<nat>>

    constructor (g: Grammar)
      ensures this.g == g
    {
      this.g := g;
      lambda, firstset := [], [];
    }

    /** SetAdd: add one element, and say whether it is new. */
    method SetAdd(s: nat, e: nat) returns (added: bool)
      requires s < |firstset|
      modifies this`firstset
      ensures firstset == old(firstset)[s := old(firstset)[s] + {e}]
      ensures added <==> e !in old(firstset)[s]
      ensures !added ==> firstset == old(firstset)
      ensures added && s < g.nsymbol && e < g.nterminal ==> Missing(g, firstset) < Missing(g, old(firstset))
    {
      added := e !in firstset[s];
      if added {
        if e < g.nterminal { MissingShrinks(g, firstset, s, firstset[s] + {e}, e); }
      } else {
        assert firstset[s] + {e} == firstset[s];
      }
      firstset := firstset[s := firstset[s] + {e}];
    }

    /** SetUnion: add every element of the second set to the first, and say whether the first grew. */
    method SetUnion(s1: nat, s2: nat) returns (progress: bool)
      requires s1 < |firstset| && s2 < |firstset|
      modifies this`firstset
      ensures firstset == old(firstset)[s1 := old(firstset)[s1] + old(firstset)[s2]]
      ensures progress <==> !(old(firstset)[s2] <= old(firstset)[s1])
      ensures !progress ==> firstset == old(firstset)
      ensures progress && (forall t :: t in old(firstset)[s2] ==> t < g.nterminal) ==>
                Missing(g, firstset) < Missing(g, old(firstset))
    {
      progress := !(firstset[s2] <= firstset[s1]);
      if progress {
        var t :| t in firstset[s2] && t !in firstset[s1];
        if t < g.nterminal { MissingShrinks(g, firstset, s1, firstset[s1] + firstset[s2], t); }
      } else {
        assert firstset[s1] + firstset[s2] == firstset[s1];
      }
      firstset := firstset[s1 := firstset[s1] + firstset[s2]];
    }

    /** The first loop nest: mark every nonterminal that derives the empty string. */
    method FindLambdas()
      requires WellFormed(g)
      modifies this`lambda
      ensures LambdaSound(g, lambda) && LambdaClosed(g, lambda, |g.rules|)
    {
      lambda := seq(g.nsymbol, _ => false);
      var progress := true;
      while progress
        invariant LambdaSound(g, lambda)
        invariant !progress ==> LambdaClosed(g, lambda, |g.rules|)
        decreases Unmarked(lambda), progress
      {
        progress := false;
        ghost var before := lambda;
        for n := 0 to |g.rules|
          invariant LambdaSound(g, lambda)
          invariant if progress then Unmarked(lambda) < Unmarked(before) else lambda == before
          invariant !progress ==> LambdaClosed(g, lambda, n)
        {
          var rule := g.rules[n];
          assert WellFormedRule(g, rule);
          if lambda[rule.lhs] { continue; }
          var i := 0;
          while i < |rule.rhs| && lambda[rule.rhs[i]]
            invariant i <= |rule.rhs| && AllLambda(lambda, rule.rhs[..i])
          {
            i := i + 1;
          }
          if i == |rule.rhs| {
            assert rule.rhs[..i] == rule.rhs;
            RuleNullable(g, lambda, n);
            assert rule.lhs in Unmarked(lambda);
            lambda := lambda[rule.lhs := true];
            progress := true;
          }
        }
      }
    }

    /** The second loop nest: grow the first sets until a whole pass adds nothing. */
    method FindFirsts()
      requires WellFormed(g) && LambdaSound(g, lambda)
      modifies this`firstset
      ensures FirstSound(g, firstset) && FirstClosed(g, lambda, firstset, |g.rules|)
    {
      firstset := seq(g.nsymbol, _ => {});
      var progress := true;
      while progress
        invariant FirstSound(g, firstset)
        invariant !progress ==> FirstClosed(g, lambda, firstset, |g.rules|)
        decreases Missing(g, firstset), progress
      {
        progress := false;
        ghost var before := firstset;
        for n := 0 to |g.rules|
          invariant FirstSound(g, firstset)
          invariant if progress then Missing(g, firstset) < Missing(g, before) else firstset == before
          invariant !progress ==> FirstClosed(g, lambda, firstset, n)
        {
          var more := AddFirstOfRule(n);
          progress := progress || more;
        }
      }
    }

    /** The body of the second nest: walk one right-hand side as far as it can derive nothing. */
    method AddFirstOfRule(n: nat) returns (progress: bool)
      requires WellFormed(g) && LambdaSound(g, lambda) && FirstSound(g, firstset) && n < |g.rules|
      modifies this`firstset
      ensures FirstSound(g, firstset)
      ensures if progress then Missing(g, firstset) < Missing(g, old(firstset)) else firstset == old(firstset)
      ensures !progress ==> FirstOf(g.nterminal, lambda, firstset, g.rules[n].rhs) <= firstset[g.rules[n].lhs]
    {
      hide *;
      progress := false;
      var (s1, rhs) := (g.rules[n].lhs, g.rules[n].rhs);
      RuleInRange(g, lambda, firstset, n);
      NothingWalked(g, lambda, firstset, rhs);
      var i := 0;
      while i < |rhs|
        invariant i <= |rhs| && AllLambda(lambda, rhs[..i]) && FirstSound(g, firstset) && |firstset| == g.nsymbol
        invariant if progress then Missing(g, firstset) < Missing(g, old(firstset)) else firstset == old(firstset)
        invariant !progress ==>
          FirstOf(g.nterminal, lambda, firstset, rhs) <= firstset[s1] + FirstOf(g.nterminal, lambda, firstset, rhs[i..])
      {
        var s2 := rhs[i];
        FirstOfAt(g.nterminal, lambda, firstset, rhs, i);
        if s2 < g.nterminal {
          TerminalSound(g, lambda, firstset, n, i);
          var more := SetAdd(s1, s2);
          progress := progress || more;
          return;
        } else if s1 == s2 {
          if !lambda[s1] { return; }
        } else {
          NonterminalSound(g, lambda, firstset, n, i);
          var more := SetUnion(s1, s2);
          progress := progress || more;
          if !lambda[s2] { return; }
        }
        OneMoreLambda(lambda, rhs, i);
        i := i + 1;
      }
      WholeWalked(g, lambda, firstset, rhs);
    }

    /** FindFirstSets: the marks and the sets are exact. */
    method FindFirstSets()
      requires WellFormed(g)
      modifies this
      ensures Exact(g, lambda, firstset)
    {
      FindLambdas();
      FindFirsts();
      FixpointIsExact(g, lambda, firstset);
    }
  }

  ghost function Unmarked(lambda: seq<bool>): set<int> {
    set s | 0 <= s < |lambda| && !lambda[s]
  }

  ghost function Missing(g: Grammar, first: seq<set<nat>>): set<(int, int)> {
    set s, t | 0 <= s < |first| && 0 <= t < g.nterminal && t !in first[s] :: (s, t)
  }

  lemma MissingShrinks(g: Grammar, first: seq<set<nat>>, s: nat, more: set<nat>, t: nat)
    requires s < |first| && t < g.nterminal && t in more && t !in first[s] && first[s] <= more
    ensures Missing(g, first[s := more]) < Missing(g, first)
  {
    assert (s, t) in Missing(g, first) && (s, t) !in Missing(g, first[s := more]);
  }
}
