/** Context-free grammars as Lemon numbers them, and derivations over them.

    Symbols are indices: terminals are `0 .. nterminal-1`, where terminal 0 is
    the end marker `$`; nonterminals are `nterminal .. nsymbol-1`; the index
    `nsymbol` itself is the pseudo symbol `{default}`. */
module LemonGrammar {

  datatype Assoc = Left | Right | NonAssoc | Unknown

  /** A production.  `precsym` is the symbol that FindRulePrecedences left in the rule. */
  datatype Rule = Rule(lhs: nat, rhs: seq<nat>, precsym: PrecSym)

  datatype PrecSym = NoPrec | PrecOf(sym: nat)

  /** `prec[s]` is -1 when symbol `s` has no precedence. */
  datatype Grammar = Grammar(
    nterminal: nat, nsymbol: nat, rules: seq<Rule>, start: nat,
    prec: seq<int>, assoc: seq<Assoc>)

  ghost predicate WellFormedRule(g: Grammar, r: Rule) {
    && g.nterminal <= r.lhs < g.nsymbol
    && (forall k :: 0 <= k < |r.rhs| ==> 1 <= r.rhs[k] < g.nsymbol)
    && (r.precsym.PrecOf? ==> r.precsym.sym < g.nsymbol)
  }

  /** What reading a grammar file without errors establishes; the name `$` cannot be written in a rule. */
  ghost predicate WellFormed(g: Grammar) {
    && 1 <= g.nterminal <= g.start < g.nsymbol
    && |g.prec| == |g.assoc| == g.nsymbol
    && forall r :: 0 <= r < |g.rules| ==> WellFormedRule(g, g.rules[r])
  }

  predicate IsTerminal(g: Grammar, s: nat) { s < g.nterminal }

  /** `v` is `u` with its symbol at `i` replaced by the right-hand side of rule `r`. */
  ghost predicate StepAt(g: Grammar, u: seq<nat>, i: nat, r: nat, v: seq<nat>) {
    && i < |u| && r < |g.rules|
    && g.rules[r].lhs == u[i]
    && v == u[..i] + g.rules[r].rhs + u[i + 1..]
  }

  ghost predicate Step(g: Grammar, u: seq<nat>, v: seq<nat>) {
    exists i: nat, r: nat :: StepAt(g, u, i, r, v)
  }

  ghost predicate DerivesIn(g: Grammar, u: seq<nat>, v: seq<nat>, n: nat)
    decreases n
  {
    if n == 0 then u == v else exists w :: Step(g, u, w) && DerivesIn(g, w, v, n - 1)
  }

  /** The reflexive, transitive closure of `Step`. */
  ghost predicate Derives(g: Grammar, u: seq<nat>, v: seq<nat>) {
    exists n: nat :: DerivesIn(g, u, v, n)
  }

  lemma DerivesRefl(g: Grammar, u: seq<nat>)
    ensures Derives(g, u, u)
  {
    assert DerivesIn(g, u, u, 0);
  }

  lemma DerivesStep(g: Grammar, u: seq<nat>, w: seq<nat>, v: seq<nat>)
    requires Step(g, u, w) && Derives(g, w, v)
    ensures Derives(g, u, v)
  {
    var n: nat :| DerivesIn(g, w, v, n);
    assert DerivesIn(g, u, v, n + 1);
  }

  lemma {:induction false} DerivesTransIn(g: Grammar, u: seq<nat>, w: seq<nat>, v: seq<nat>, n: nat)
    requires DerivesIn(g, u, w, n) && Derives(g, w, v)
    ensures Derives(g, u, v)
    decreases n
  {
    if n > 0 {
      var x :| Step(g, u, x) && DerivesIn(g, x, w, n - 1);
      DerivesTransIn(g, x, w, v, n - 1);
      DerivesStep(g, u, x, v);
    }
  }

  lemma DerivesTrans(g: Grammar, u: seq<nat>, w: seq<nat>, v: seq<nat>)
    requires Derives(g, u, w) && Derives(g, w, v)
    ensures Derives(g, u, v)
  {
    var n: nat :| DerivesIn(g, u, w, n);
    DerivesTransIn(g, u, w, v, n);
  }

  lemma StepInContext(g: Grammar, p: seq<nat>, u: seq<nat>, v: seq<nat>, s: seq<nat>)
    requires Step(g, u, v)
    ensures Step(g, p + u + s, p + v + s)
  {
    var i: nat, r: nat :| StepAt(g, u, i, r, v);
    var rhs := g.rules[r].rhs;
    var x := p + u + s;
    assert x[..|p| + i] == p + u[..i];
    assert x[|p| + i + 1..] == u[i + 1..] + s;
    assert p + v + s == x[..|p| + i] + rhs + x[|p| + i + 1..];
    assert StepAt(g, x, |p| + i, r, p + v + s);
  }

  lemma {:induction false} DerivesInContextN(g: Grammar, p: seq<nat>, u: seq<nat>, v: seq<nat>, s: seq<nat>, n: nat)
    requires DerivesIn(g, u, v, n)
    ensures Derives(g, p + u + s, p + v + s)
    decreases n
  {
    if n == 0 {
      DerivesRefl(g, p + u + s);
    } else {
      var w :| Step(g, u, w) && DerivesIn(g, w, v, n - 1);
      StepInContext(g, p, u, w, s);
      DerivesInContextN(g, p, w, v, s, n - 1);
      DerivesStep(g, p + u + s, p + w + s, p + v + s);
    }
  }

  lemma DerivesInContext(g: Grammar, p: seq<nat>, u: seq<nat>, v: seq<nat>, s: seq<nat>)
    requires Derives(g, u, v)
    ensures Derives(g, p + u + s, p + v + s)
  {
    var n: nat :| DerivesIn(g, u, v, n);
    DerivesInContextN(g, p, u, v, s, n);
  }

  lemma DerivesConcat(g: Grammar, u: seq<nat>, u': seq<nat>, v: seq<nat>, v': seq<nat>)
    requires Derives(g, u, u') && Derives(g, v, v')
    ensures Derives(g, u + v, u' + v')
  {
    DerivesInContext(g, [], u, u', v);
    assert [] + u + v == u + v && [] + u' + v == u' + v;
    DerivesInContext(g, u', v, v', []);
    assert u' + v + [] == u' + v && u' + v' + [] == u' + v';
    DerivesTrans(g, u + v, u' + v, u' + v');
  }

  lemma RuleStep(g: Grammar, r: nat, p: seq<nat>, s: seq<nat>)
    requires r < |g.rules|
    ensures Step(g, p + [g.rules[r].lhs] + s, p + g.rules[r].rhs + s)
  {
    var u := p + [g.rules[r].lhs] + s;
    assert u[..|p|] == p && u[|p| + 1..] == s;
    assert StepAt(g, u, |p|, r, p + g.rules[r].rhs + s);
  }

  /** Terminal `t` begins some sentential form derived from `u`. */
  ghost predicate Begins(g: Grammar, u: seq<nat>, t: nat) {
    exists rest :: Derives(g, u, [t] + rest)
  }

  ghost predicate Nullable(g: Grammar, u: seq<nat>) { Derives(g, u, []) }
}
