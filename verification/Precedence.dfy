/** Who is left of the actions on one lookahead, said by precedence, associativity and rule number alone. */
module LemonPrecedence {
  import opened Basics
  import opened LemonGrammar
  import opened LemonMergeSort
  import opened LemonConflicts

  // ----- FindRulePrecedences -----

  /** A rule without a precedence symbol of its own gets the first symbol of its right-hand side that has a
      precedence. */
  ghost predicate RulePrec(g: Grammar, given: PrecSym, rhs: seq<nat>, found: PrecSym) {
    match given
    case PrecOf(_) => found == given
    case NoPrec =>
      match found
      case PrecOf(x) =>
        exists i :: 0 <= i < |rhs| && rhs[i] == x < |g.prec| && g.prec[x] >= 0
          && forall j :: 0 <= j < i ==> rhs[j] < |g.prec| && g.prec[rhs[j]] < 0
      case NoPrec => forall j :: 0 <= j < |rhs| ==> rhs[j] < |g.prec| && g.prec[rhs[j]] < 0
  }

  method RulePrecedence(g: Grammar, r: Rule) returns (found: PrecSym)
    requires WellFormed(g) && WellFormedRule(g, r)
    ensures RulePrec(g, r.precsym, r.rhs, found) && (found.PrecOf? ==> found.sym < g.nsymbol)
  {
    found := r.precsym;
    if found.NoPrec? {
      var i := 0;
      while i < |r.rhs| && found.NoPrec?
        invariant 0 <= i <= |r.rhs|
        invariant found.NoPrec? ==> forall j :: 0 <= j < i ==> g.prec[r.rhs[j]] < 0
        invariant found.PrecOf? ==> RulePrec(g, NoPrec, r.rhs, found)
      {
        if g.prec[r.rhs[i]] >= 0 { found := PrecOf(r.rhs[i]); }
        i := i + 1;
      }
    }
  }

  /** FindRulePrecedences, without multiterminals: nothing else changes. */
  method FindRulePrecedences(g: Grammar) returns (g': Grammar)
    requires WellFormed(g)
    ensures WellFormed(g') && g'.(rules := g.rules) == g && |g'.rules| == |g.rules|
    ensures forall r :: 0 <= r < |g.rules| ==>
      && g'.rules[r].(precsym := g.rules[r].precsym) == g.rules[r]
      && RulePrec(g, g.rules[r].precsym, g.rules[r].rhs, g'.rules[r].precsym)
  {
    var rules := [];
    for r := 0 to |g.rules|
      invariant |rules| == r
      invariant forall q :: 0 <= q < r ==>
        && WellFormedRule(g, rules[q]) && rules[q].(precsym := g.rules[q].precsym) == g.rules[q]
        && RulePrec(g, g.rules[q].precsym, g.rules[q].rhs, rules[q].precsym)
    {
      assert WellFormedRule(g, g.rules[r]);
      var found := RulePrecedence(g, g.rules[r]);
      rules := rules + [g.rules[r].(precsym := found)];
    }
    g' := g.(rules := rules);
    forall r | 0 <= r < |rules| ensures WellFormedRule(g', rules[r]) { assert WellFormedRule(g, rules[r]); }
  }

  // ----- precedence -----

  /** A shift has the precedence of its terminal, a reduce that of the precedence symbol of its rule. */
  ghost predicate HasPrec(g: Grammar, a: Action, p: int) {
    && p >= 0
    && match a.kind
       case Shift => a.sp < |g.prec| && g.prec[a.sp] == p
       case Reduce =>
         a.arg < |g.rules|
         && (match g.rules[a.arg].precsym
             case NoPrec => false
             case PrecOf(sym) => sym < |g.prec| && g.prec[sym] == p)
       case _ => false
  }

  ghost predicate Ranked(g: Grammar, a: Action) {
    exists p :: HasPrec(g, a, p)
  }

  /** On equal precedence a left-associative operator is reduced, any other is shifted; of two rules the one with the
      smaller number is preferred. */
  ghost predicate WinsTie(g: Grammar, a: Action, b: Action) {
    || (a.kind == Shift && b.kind == Reduce && a.sp < |g.assoc| && g.assoc[a.sp] != Left)
    || (a.kind == Reduce && b.kind == Shift && b.sp < |g.assoc| && g.assoc[b.sp] == Left)
    || (a.kind == Reduce && b.kind == Reduce && a.arg < b.arg)
  }

  ghost predicate Over(g: Grammar, a: Action, b: Action) {
    exists p, q :: HasPrec(g, a, p) && HasPrec(g, b, q) && (p > q || (p == q && WinsTie(g, a, b)))
  }

  // ----- one group of a sorted list -----

  /** A list as FindActions sorts it: by lookahead, shifts before reduces, the reduces by rule number; with one shift
      at most for each lookahead. */
  ghost predicate InOrder(ap: seq<Action>) {
    forall k, l :: 0 <= k < l < |ap| ==>
      && ap[k].sp <= ap[l].sp
      && (ap[k].sp == ap[l].sp ==>
            && !(ap[k].kind == Shift && ap[l].kind == Shift) && !(ap[k].kind == Reduce && ap[l].kind == Shift)
            && (ap[k].kind == Reduce && ap[l].kind == Reduce ==> ap[k].arg < ap[l].arg))
  }

  lemma PrecIs(g: Grammar, a: Action)
    requires WellFormed(g) && InRange(g, a)
    ensures a.kind == Shift ==> forall p :: HasPrec(g, a, p) <==> p == g.prec[a.sp] >= 0
    ensures a.kind == Reduce && g.rules[a.arg].precsym.PrecOf? ==> g.rules[a.arg].precsym.sym < |g.prec|
    ensures a.kind == Reduce ==> forall p :: HasPrec(g, a, p) <==> p == PrecOfSym(g, g.rules[a.arg].precsym) >= 0
  {
    if a.kind == Reduce { assert WellFormedRule(g, g.rules[a.arg]); }
  }

  /** When the challenger takes the place of the winner so far. */
  lemma BeatsIs(g: Grammar, x: Action, y: Action)
    requires WellFormed(g) && InRange(g, x) && InRange(g, y) && x.sp == y.sp
    requires (x.kind == Shift && y.kind == Reduce) || (x.kind == Reduce && y.kind == Reduce && x.arg < y.arg)
    ensures Beats(g, y, x) <==> Over(g, y, x)
    ensures !Beats(g, y, x) && Ranked(g, x) ==> !Ranked(g, y) || Over(g, x, y)
  {
    PrecIs(g, x);
    PrecIs(g, y);
    assert |g.assoc| == g.nsymbol;
    hide WellFormed, HasPrec;
    var px := if x.kind == Shift then g.prec[x.sp] else PrecOfSym(g, g.rules[x.arg].precsym);
    var py := PrecOfSym(g, g.rules[y.arg].precsym);
    hide PrecOfSym;
    if px >= 0 && py >= 0 {
      assert HasPrec(g, x, px) && HasPrec(g, y, py);
    }
  }

  lemma PrecIsOne(g: Grammar, a: Action, p: int, q: int)
    requires HasPrec(g, a, p) && HasPrec(g, a, q)
    ensures p == q
  {
  }

  /** A later action that is over the winner so far is over everything that this one is over. */
  lemma OverTrans(g: Grammar, y: Action, x: Action, k: Action)
    requires Over(g, y, x) && Over(g, x, k) && x.sp == y.sp == k.sp && y.kind == Reduce
    requires (x.kind == Reduce && x.arg < y.arg) || (x.kind == Shift && k.kind == Reduce)
    ensures Over(g, y, k)
  {
    var py, px :| HasPrec(g, y, py) && HasPrec(g, x, px) && (py > px || (py == px && WinsTie(g, y, x)));
    var qx, pk :| HasPrec(g, x, qx) && HasPrec(g, k, pk) && (qx > pk || (qx == pk && WinsTie(g, x, k)));
    PrecIsOne(g, x, px, qx);
    hide HasPrec;
    assert py > pk;
  }

  /** The champion of a group: the first action if it has no precedence, otherwise the one that is over all others
      with precedence. */
  ghost predicate Best(g: Grammar, ap: seq<Action>, lo: nat, hi: nat, c: nat)
    requires lo <= c < hi <= |ap|
  {
    if !Ranked(g, ap[lo]) then c == lo
    else Ranked(g, ap[c]) && forall k :: lo <= k < hi && k != c ==> !Ranked(g, ap[k]) || Over(g, ap[c], ap[k])
  }

  lemma {:induction false} ChampionIsBest(g: Grammar, ap: seq<Action>, lo: nat, hi: nat)
    requires WellFormed(g) && Fresh(g, ap) && InOrder(ap) && lo < hi <= |ap|
    requires forall k :: lo <= k < hi ==> ap[k].sp == ap[lo].sp
    ensures Best(g, ap, lo, hi, Champion(g, ap, lo, hi))
    decreases hi
  {
    if lo + 1 < hi {
      ChampionIsBest(g, ap, lo, hi - 1);
      var c := Champion(g, ap, lo, hi - 1);
      OneMore(g, ap, lo, hi, c);
    }
  }

  lemma OneMore(g: Grammar, ap: seq<Action>, lo: nat, hi: nat, c: nat)
    requires WellFormed(g) && Fresh(g, ap) && InOrder(ap) && lo <= c < hi - 1 < hi <= |ap|
    requires forall k :: lo <= k < hi ==> ap[k].sp == ap[lo].sp
    requires Best(g, ap, lo, hi - 1, c)
    ensures Best(g, ap, lo, hi, if Beats(g, ap[hi - 1], ap[c]) then hi - 1 else c)
  {
    var (x, y) := (ap[c], ap[hi - 1]);
    KindsOf(g, ap, c, hi - 1);
    BeatsIs(g, x, y);
    if Beats(g, y, x) {
      OverIsRanked(g, y, x);
      forall k | lo <= k < hi - 1 && Ranked(g, ap[k]) ensures Over(g, y, ap[k]) {
        if k != c {
          KindsOf(g, ap, k, hi - 1);
          OverTrans(g, y, x, ap[k]);
        }
      }
    }
  }

  lemma OverIsRanked(g: Grammar, a: Action, b: Action)
    requires Over(g, a, b)
    ensures Ranked(g, a) && Ranked(g, b)
  {
  }

  /** In a group of two or more everything is a shift or a reduce. */
  lemma KindsOf(g: Grammar, ap: seq<Action>, k: nat, l: nat)
    requires Fresh(g, ap) && InOrder(ap) && k < l < |ap| && ap[k].sp == ap[l].sp
    ensures InRange(g, ap[k]) && InRange(g, ap[l]) && ap[l].kind == Reduce
    ensures ap[k].kind == Shift || (ap[k].kind == Reduce && ap[k].arg < ap[l].arg)
  {
  }

  lemma NotBothOver(g: Grammar, a: Action, b: Action)
    requires Over(g, a, b)
    ensures !Over(g, b, a)
  {
    if Over(g, b, a) {
      var p, q :| HasPrec(g, a, p) && HasPrec(g, b, q) && (p > q || (p == q && WinsTie(g, a, b)));
      var q', p' :| HasPrec(g, b, q') && HasPrec(g, a, p') && (q' > p' || (q' == p' && WinsTie(g, b, a)));
      PrecIsOne(g, a, p, p');
      PrecIsOne(g, b, q, q');
      assert false;
    }
  }
}
