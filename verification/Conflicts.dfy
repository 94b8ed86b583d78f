/** resolve_conflict and the loops around it: of all actions of one state on one
    lookahead, one stays. */
module LemonConflicts {
  import opened LemonGrammar

  datatype Kind = Shift | Accept | Reduce | Error
                | SsConflict | SrConflict | RrConflict | ShResolved | RdResolved | NotUsed

  /** `arg` is the target state of a shift and the rule of a reduce. */
  datatype Action = Action(sp: nat, kind: Kind, arg: nat)

  /** compute_action has a number for it. */
  predicate Live(a: Action) {
    a.kind == Shift || a.kind == Accept || a.kind == Reduce || a.kind == Error
  }

  /** The order of the enumeration constants. */
  function Rank(k: Kind): int {
    match k
    case Shift => 0 case Accept => 1 case Reduce => 2 case Error => 3
    case SsConflict => 4 case SrConflict => 5 case RrConflict => 6
    case ShResolved => 7 case RdResolved => 8 case NotUsed => 9
  }

  /** actioncmp; its last resort, the order in memory, is no order between values. */
  function ActionCmp(x: Action, y: Action): int {
    if x.sp != y.sp then x.sp - y.sp
    else if x.kind != y.kind then Rank(x.kind) - Rank(y.kind)
    else if x.kind == Reduce then x.arg - y.arg
    else 0
  }

  ghost predicate InRange(g: Grammar, a: Action) {
    && a.sp < g.nsymbol
    && (a.kind == Reduce ==> a.arg < |g.rules|)
  }

  function PrecOfSym(g: Grammar, s: PrecSym): int
    requires s.PrecOf? ==> s.sym < |g.prec|
  {
    if s.NoPrec? then -1 else g.prec[s.sym]
  }

  /** resolve_conflict: what becomes of the two actions, and whether it is an unresolved conflict. */
  function Resolve(g: Grammar, x: Action, y: Action): (r: (Action, Action, nat))
    requires WellFormed(g) && InRange(g, x) && InRange(g, y)
  {
    if x.kind == Shift && y.kind == Shift then
      (x, y.(kind := SsConflict), 1)
    else if x.kind == Shift && y.kind == Reduce then
      assert WellFormedRule(g, g.rules[y.arg]);
      var (px, py) := (g.prec[x.sp], PrecOfSym(g, g.rules[y.arg].precsym));
      if px < 0 || py < 0 then (x, y.(kind := SrConflict), 1)
      else if px > py then (x, y.(kind := RdResolved), 0)
      else if px < py then (x.(kind := ShResolved), y, 0)
      else if g.assoc[x.sp] == Right then (x, y.(kind := RdResolved), 0)
      else if g.assoc[x.sp] == Left then (x.(kind := ShResolved), y, 0)
      else (x, y.(kind := SrConflict), 1)
    else if x.kind == Reduce && y.kind == Reduce then
      assert WellFormedRule(g, g.rules[x.arg]) && WellFormedRule(g, g.rules[y.arg]);
      var (px, py) := (PrecOfSym(g, g.rules[x.arg].precsym), PrecOfSym(g, g.rules[y.arg].precsym));
      if px < 0 || py < 0 || px == py then (x, y.(kind := RrConflict), 1)
      else if px > py then (x, y.(kind := RdResolved), 0)
      else (x.(kind := RdResolved), y, 0)
    else (x, y, 0)
  }

  // ----- a group of actions on one lookahead -----

  /** `lo..hi` is a longest stretch with one lookahead. */
  ghost predicate IsGroup(ap: seq<Action>, lo: nat, hi: nat) {
    && lo < hi <= |ap|
    && (forall k :: lo <= k < hi ==> ap[k].sp == ap[lo].sp)
    && (lo > 0 ==> ap[lo - 1].sp != ap[lo].sp)
    && (hi < |ap| ==> ap[hi].sp != ap[lo].sp)
  }

  /** What the list looks like before conflicts are resolved: no accept competes, and shifts come before reduces. */
  ghost predicate Fresh(g: Grammar, ap: seq<Action>) {
    && (forall k :: 0 <= k < |ap| ==>
        InRange(g, ap[k]) && (ap[k].kind == Shift || ap[k].kind == Accept || ap[k].kind == Reduce))
    && (forall k, l :: 0 <= k < l < |ap| && ap[k].sp == ap[l].sp ==>
          ap[k].kind != Accept && ap[l].kind != Accept && !(ap[k].kind == Reduce && ap[l].kind == Shift))
  }

  /** The challenger `y` takes the place of `x`. */
  ghost predicate Beats(g: Grammar, y: Action, x: Action)
    requires WellFormed(g) && InRange(g, x) && InRange(g, y)
  {
    !Live(Resolve(g, x, y).0)
  }

  /** The action that is left when each one in turn meets the winner so far. */
  ghost function Champion(g: Grammar, ap: seq<Action>, lo: nat, hi: nat): (c: nat)
    requires WellFormed(g) && Fresh(g, ap) && lo < hi <= |ap|
    ensures lo <= c < hi
  {
    if lo + 1 == hi then lo
    else
      var c := Champion(g, ap, lo, hi - 1);
      if Beats(g, ap[hi - 1], ap[c]) then hi - 1 else c
  }

  // ----- counting what cannot be decided -----

  /** Two shifts; a precedence that is missing; equal precedences of two rules, or of a shift and a rule without left or
      right associativity. */
  predicate Unsettled(g: Grammar, x: Action, y: Action)
    requires WellFormed(g) && InRange(g, x) && InRange(g, y)
  {
    || (x.kind == Shift && y.kind == Shift)
    || (y.kind == Reduce && (x.kind == Shift || x.kind == Reduce)
        && (assert WellFormedRule(g, g.rules[y.arg]) && (x.kind == Reduce ==> WellFormedRule(g, g.rules[x.arg]));
            var px := if x.kind == Shift then g.prec[x.sp] else PrecOfSym(g, g.rules[x.arg].precsym);
            var py := PrecOfSym(g, g.rules[y.arg].precsym);
            px < 0 || py < 0 || (px == py && (x.kind == Reduce || (g.assoc[x.sp] != Left && g.assoc[x.sp] != Right)))))
  }

  /** Where the group of position `k` begins. */
  function GroupStart(ap: seq<Action>, k: nat): (lo: nat)
    requires k < |ap|
    ensures lo <= k && forall j :: lo <= j <= k ==> ap[j].sp == ap[k].sp
    ensures lo > 0 ==> ap[lo - 1].sp != ap[k].sp
  {
    if k == 0 || ap[k - 1].sp != ap[k].sp then k else GroupStart(ap, k - 1)
  }

  /** How many of the first `n` actions meet a winner so far that precedence cannot decide about. */
  ghost function Clashes(g: Grammar, ap: seq<Action>, n: nat): nat
    requires WellFormed(g) && Fresh(g, ap) && n <= |ap|
  {
    if n == 0 then 0 else Clashes(g, ap, n - 1) + if ClashAt(g, ap, n - 1) then 1 else 0
  }

  ghost predicate ClashAt(g: Grammar, ap: seq<Action>, k: nat)
    requires WellFormed(g) && Fresh(g, ap) && k < |ap|
  {
    GroupStart(ap, k) < k && Unsettled(g, ap[Champion(g, ap, GroupStart(ap, k), k)], ap[k])
  }

  /** How far the meetings of a group have come. */
  ghost function MetUpTo(hi: nat, i: nat, c: nat): nat { if c < i then hi else c + 1 }

  ghost function MetInRow(hi: nat, i: nat, j: nat, c: nat): nat {
    if c < i then hi else if c == i then j else c + 1
  }

  lemma MeetingCounts(g: Grammar, ap0: seq<Action>, now: seq<Action>, lo: nat, hi: nat, i: nat, j: nat, c: nat)
    requires WellFormed(g) && Fresh(g, ap0) && IsGroup(ap0, lo, hi) && j < hi && |now| == |ap0|
    requires InRow(g, ap0, now, lo, hi, i, j, c) && InRange(g, now[i]) && InRange(g, now[j])
    requires InRange(g, ap0[i]) && InRange(g, ap0[j])
    ensures MetInRow(hi, i, j, c) <= |ap0| && MetInRow(hi, i, j + 1, NewWinner(g, ap0, i, j, c)) <= |ap0|
    ensures Clashes(g, ap0, MetInRow(hi, i, j + 1, NewWinner(g, ap0, i, j, c)))
         == Clashes(g, ap0, MetInRow(hi, i, j, c)) + Resolve(g, now[i], now[j]).2
  {
    hide Clashes, Champion, Resolve, WellFormed, Fresh, Beats;
    if c == i {
      OneMoreCounted(g, ap0, lo, hi, i, j);
      assert now[i] == ap0[i] && now[j] == ap0[j];
    } else {
      DeadCountsNothing(g, now[i], now[j]);
    }
  }

  lemma OneMoreCounted(g: Grammar, ap0: seq<Action>, lo: nat, hi: nat, i: nat, j: nat)
    requires WellFormed(g) && Fresh(g, ap0) && IsGroup(ap0, lo, hi) && lo <= i < j < hi
    requires Champion(g, ap0, lo, j) == i && InRange(g, ap0[i]) && InRange(g, ap0[j])
    ensures Clashes(g, ap0, j + 1) == Clashes(g, ap0, j) + Resolve(g, ap0[i], ap0[j]).2
  {
    GroupStartIs(ap0, lo, hi, j);
    CountIsOne(g, ap0[i], ap0[j]);
    hide Champion, Resolve, Unsettled, WellFormed, Fresh, IsGroup;
  }

  lemma DeadCountsNothing(g: Grammar, x: Action, y: Action)
    requires WellFormed(g) && InRange(g, x) && InRange(g, y) && !Live(x)
    ensures Resolve(g, x, y).2 == 0
  {
  }

  lemma GroupStartIs(ap: seq<Action>, lo: nat, hi: nat, k: nat)
    requires IsGroup(ap, lo, hi) && lo <= k < hi
    ensures GroupStart(ap, k) == lo
  {
  }

  lemma CountIsOne(g: Grammar, x: Action, y: Action)
    requires WellFormed(g) && InRange(g, x) && InRange(g, y)
    ensures Resolve(g, x, y).2 == if Unsettled(g, x, y) then 1 else 0
  {
  }

  /** Of two competing actions exactly one survives, unchanged. */
  lemma OneSurvives(g: Grammar, x: Action, y: Action)
    requires WellFormed(g) && InRange(g, x) && InRange(g, y) && x.sp == y.sp
    requires (x.kind == Shift || x.kind == Reduce) && (y.kind == Shift || y.kind == Reduce)
    requires !(x.kind == Reduce && y.kind == Shift)
    ensures var (x', y', _) := Resolve(g, x, y);
      && x'.sp == y'.sp == x.sp && x'.arg == x.arg && y'.arg == y.arg
      && (if Beats(g, y, x) then !Live(x') && y' == y else x' == x && !Live(y'))
  {
  }

  /** Same list, with some actions out of the race. */
  ghost predicate Thinned(ap0: seq<Action>, ap: seq<Action>) {
    && |ap| == |ap0|
    && forall k :: 0 <= k < |ap| ==> ap[k].sp == ap0[k].sp && ap[k].arg == ap0[k].arg && (Live(ap[k]) ==>
        ap[k] == ap0[k])
  }

  /** The group before the turn of action `i`: either `c` has beaten everybody, or it has
      beaten everybody before it and has still to meet the rest. */
  ghost predicate Underway(g: Grammar, ap0: seq<Action>, ap: seq<Action>, lo: nat, hi: nat, i: nat, c: nat)
    requires WellFormed(g) && Fresh(g, ap0) && lo < hi <= |ap0| == |ap|
  {
    && lo <= c < hi && lo <= i <= hi
    && (forall k :: lo <= k < c ==> !Live(ap[k]))
    && ap[c] == ap0[c]
    && if c < i then Champion(g, ap0, lo, hi) == c && forall k :: c < k < hi ==> !Live(ap[k])
       else Champion(g, ap0, lo, c + 1) == c && forall k :: c < k < hi ==> ap[k] == ap0[k]
  }

  /** In the middle of the turn of action `i`, before it meets action `j`. */
  ghost predicate InRow(g: Grammar, ap0: seq<Action>, ap: seq<Action>, lo: nat, hi: nat, i: nat, j: nat, c: nat)
    requires WellFormed(g) && Fresh(g, ap0) && lo < hi <= |ap0| == |ap|
  {
    && lo <= c < hi && lo <= i < j <= hi
    && (forall k :: lo <= k < c ==> !Live(ap[k]))
    && ap[c] == ap0[c]
    && (if c < i then Champion(g, ap0, lo, hi) == c && forall k :: c < k < hi ==> !Live(ap[k])
        else if c == i then
          && Champion(g, ap0, lo, j) == c
          && (forall k :: c < k < j ==> !Live(ap[k])) && (forall k :: j <= k < hi ==> ap[k] == ap0[k])
        else Champion(g, ap0, lo, c + 1) == c && forall k :: c < k < hi ==> ap[k] == ap0[k])
  }

  /** The list after actions `i` and `j` have met. */
  function Meet(g: Grammar, ap: seq<Action>, i: nat, j: nat): seq<Action>
    requires WellFormed(g) && i < j < |ap| && InRange(g, ap[i]) && InRange(g, ap[j])
  {
    var (x, y, _) := Resolve(g, ap[i], ap[j]);
    ap[i := x][j := y]
  }

  ghost function NewWinner(g: Grammar, ap0: seq<Action>, i: nat, j: nat, c: nat): nat
    requires WellFormed(g) && i < j < |ap0| && InRange(g, ap0[i]) && InRange(g, ap0[j])
  {
    if c == i && Beats(g, ap0[j], ap0[i]) then j else c
  }

  lemma MetByTheDead(g: Grammar, ap: seq<Action>, i: nat, j: nat)
    requires WellFormed(g) && i < j < |ap| && InRange(g, ap[i]) && InRange(g, ap[j])
    requires !Live(ap[i])
    ensures Meet(g, ap, i, j) == ap
  {
  }

  lemma MetByTheWinner(g: Grammar, ap0: seq<Action>, ap: seq<Action>, lo: nat, hi: nat, i: nat, j: nat)
    requires WellFormed(g) && Fresh(g, ap0) && lo < hi <= |ap0| == |ap| && j < hi
    requires InRow(g, ap0, ap, lo, hi, i, j, i) && InRange(g, ap[i]) && InRange(g, ap[j]) && ap0[i].sp == ap0[j].sp
    ensures Meet(g, ap, i, j)[i].sp == ap[i].sp && Meet(g, ap, i, j)[j].sp == ap[j].sp
    ensures Meet(g, ap, i, j)[i].arg == ap[i].arg && Meet(g, ap, i, j)[j].arg == ap[j].arg
    ensures if Beats(g, ap0[j], ap0[i]) then !Live(Meet(g, ap, i, j)[i]) && Meet(g, ap, i, j)[j] == ap0[j]
            else Meet(g, ap, i, j)[i] == ap0[i] && !Live(Meet(g, ap, i, j)[j])
    ensures InRow(g, ap0, Meet(g, ap, i, j), lo, hi, i, j + 1, NewWinner(g, ap0, i, j, i))
  {
    assert ap[j] == ap0[j] && ap[i] == ap0[i];
    OneSurvives(g, ap0[i], ap0[j]);
  }

  lemma Met(g: Grammar, ap0: seq<Action>, ap: seq<Action>, lo: nat, hi: nat, i: nat, j: nat, c: nat)
    requires WellFormed(g) && Fresh(g, ap0) && Thinned(ap0, ap) && IsGroup(ap0, lo, hi)
    requires InRow(g, ap0, ap, lo, hi, i, j, c) && j < hi
    ensures InRange(g, ap[i]) && InRange(g, ap[j]) && InRange(g, ap0[i]) && InRange(g, ap0[j])
    ensures Thinned(ap0, Meet(g, ap, i, j))
    ensures InRow(g, ap0, Meet(g, ap, i, j), lo, hi, i, j + 1, NewWinner(g, ap0, i, j, c))
    ensures forall k :: 0 <= k < |ap| && k != i && k != j ==> Meet(g, ap, i, j)[k] == ap[k]
  {
    assert InRange(g, ap0[i]) && InRange(g, ap0[j]) && ap0[i].sp == ap0[j].sp;
    Demoted(g, ap0[i], ap[i]);
    Demoted(g, ap0[j], ap[j]);
    hide WellFormed, IsGroup, Fresh;
    if c == i {
      hide Champion, Resolve;
      MetByTheWinner(g, ap0, ap, lo, hi, i, j);
      WinnerThins(g, ap0, ap, i, j);
    } else {
      hide Champion;
      assert !Live(ap[i]);
      MetByTheDead(g, ap, i, j);
      hide Meet;
    }
  }

  lemma WinnerThins(g: Grammar, ap0: seq<Action>, ap: seq<Action>, i: nat, j: nat)
    requires WellFormed(g) && Thinned(ap0, ap) && i < j < |ap| && InRange(g, ap[i]) && InRange(g, ap[j])
    requires InRange(g, ap0[i]) && InRange(g, ap0[j])
    requires forall k :: k == i || k == j ==>
      Meet(g, ap, i, j)[k].sp == ap[k].sp && Meet(g, ap, i, j)[k].arg == ap[k].arg
      && (Live(Meet(g, ap, i, j)[k]) ==> Meet(g, ap, i, j)[k] == ap0[k])
    ensures Thinned(ap0, Meet(g, ap, i, j))
    ensures forall k :: 0 <= k < |ap| && k != i && k != j ==> Meet(g, ap, i, j)[k] == ap[k]
  {
    hide WellFormed, Resolve, Live, InRange;
  }

  lemma Demoted(g: Grammar, a0: Action, a: Action)
    requires InRange(g, a0) && a.sp == a0.sp && a.arg == a0.arg && (Live(a) ==> a == a0)
    ensures InRange(g, a)
  {
  }

  /** The turn of action `i` has taken list `ap` to `now`. */
  ghost predicate Turn(g: Grammar, ap0: seq<Action>, ap: seq<Action>, now: seq<Action>, lo: nat, hi: nat, i: nat,
      j: nat, c: nat)
    requires WellFormed(g) && Fresh(g, ap0)
  {
    && IsGroup(ap0, lo, hi) && |ap| == |ap0|
    && Thinned(ap0, now) && InRow(g, ap0, now, lo, hi, i, j, c)
    && forall k :: 0 <= k < |ap| && !(lo <= k < hi) ==> now[k] == ap[k]
  }

  lemma TurnStarts(g: Grammar, ap0: seq<Action>, ap: seq<Action>, lo: nat, hi: nat, i: nat, c: nat)
    requires WellFormed(g) && Fresh(g, ap0) && Thinned(ap0, ap) && IsGroup(ap0, lo, hi) && i < hi
    requires Underway(g, ap0, ap, lo, hi, i, c)
    ensures i + 1 <= |ap| == |ap0|
    ensures Turn(g, ap0, ap, ap, lo, hi, i, i + 1, c)
    ensures MetInRow(hi, i, i + 1, c) == MetUpTo(hi, i, c) <= |ap0|
  {
  }

  lemma TurnMeets(g: Grammar, ap0: seq<Action>, ap: seq<Action>, now: seq<Action>, lo: nat, hi: nat, i: nat, j: nat,
      c: nat)
    requires WellFormed(g) && Fresh(g, ap0) && Turn(g, ap0, ap, now, lo, hi, i, j, c)
    requires j < |now| && now[j].sp == now[i].sp
    ensures |now| == |ap0| && InRange(g, now[i]) && InRange(g, now[j]) && InRange(g, ap0[i]) && InRange(g, ap0[j])
    ensures |Meet(g, now, i, j)| == |now|
    ensures Turn(g, ap0, ap, Meet(g, now, i, j), lo, hi, i, j + 1, NewWinner(g, ap0, i, j, c))
    ensures MetInRow(hi, i, j, c) <= |ap0| && MetInRow(hi, i, j + 1, NewWinner(g, ap0, i, j, c)) <= |ap0|
    ensures Clashes(g, ap0, MetInRow(hi, i, j + 1, NewWinner(g, ap0, i, j, c)))
         == Clashes(g, ap0, MetInRow(hi, i, j, c)) + Resolve(g, now[i], now[j]).2
  {
    hide WellFormed, Fresh, Meet, Clashes, Resolve, NewWinner, MetInRow;
    assert ap0[j].sp == ap0[i].sp && j < hi;
    Met(g, ap0, now, lo, hi, i, j, c);
    MeetingCounts(g, ap0, now, lo, hi, i, j, c);
  }

  lemma TurnEnds(g: Grammar, ap0: seq<Action>, ap: seq<Action>, now: seq<Action>, lo: nat, hi: nat, i: nat, j: nat,
      c: nat)
    requires WellFormed(g) && Fresh(g, ap0) && Turn(g, ap0, ap, now, lo, hi, i, j, c)
    requires j == |now| || now[j].sp != now[i].sp
    ensures |now| == |ap0| && Thinned(ap0, now) && lo < hi <= |ap0| && Underway(g, ap0, now, lo, hi, i + 1, c)
    ensures MetInRow(hi, i, j, c) == MetUpTo(hi, i + 1, c) <= |ap0|
    ensures forall k :: 0 <= k < |ap| && !(lo <= k < hi) ==> now[k] == ap[k]
  {
    assert j == hi;
  }

  /** One turn of the outer loop: action `i` meets all that follow on the same lookahead. */
  method Row(g: Grammar, ap: seq<Action>, i: nat, ghost ap0: seq<Action>, ghost lo: nat, ghost hi: nat, ghost c0: nat)
    returns (ap': seq<Action>, nconflict: nat, ghost c: nat)
    requires WellFormed(g) && Fresh(g, ap0) && Thinned(ap0, ap) && IsGroup(ap0, lo, hi) && i < hi
    requires Underway(g, ap0, ap, lo, hi, i, c0)
    ensures Thinned(ap0, ap') && Underway(g, ap0, ap', lo, hi, i + 1, c)
    ensures forall k :: 0 <= k < |ap| && !(lo <= k < hi) ==> ap'[k] == ap[k]
    ensures MetUpTo(hi, i, c0) <= |ap0| && MetUpTo(hi, i + 1, c) <= |ap0|
    ensures Clashes(g, ap0, MetUpTo(hi, i + 1, c)) == Clashes(g, ap0, MetUpTo(hi, i, c0)) + nconflict
  {
    hide *;
    TurnStarts(g, ap0, ap, lo, hi, i, c0);
    ap', nconflict, c := ap, 0, c0;
    var j := i + 1;
    while j < |ap'| && ap'[j].sp == ap'[i].sp
      invariant i < j <= |ap'| == |ap0| && Turn(g, ap0, ap, ap', lo, hi, i, j, c)
      invariant MetInRow(hi, i, j, c) <= |ap0|
      invariant Clashes(g, ap0, MetInRow(hi, i, j, c)) == Clashes(g, ap0, MetUpTo(hi, i, c0)) + nconflict
    {
      TurnMeets(g, ap0, ap, ap', lo, hi, i, j, c);
      nconflict := nconflict + Resolve(g, ap'[i], ap'[j]).2;
      c := NewWinner(g, ap0, i, j, c);
      ap' := Meet(g, ap', i, j);
      j := j + 1;
    }
    TurnEnds(g, ap0, ap, ap', lo, hi, i, j, c);
  }

  // ----- all groups -----

  /** All groups that end at or before `n` are decided for their champions. */
  ghost predicate Decided(g: Grammar, ap0: seq<Action>, ap: seq<Action>, n: nat)
    requires WellFormed(g) && Fresh(g, ap0)
  {
    && Thinned(ap0, ap)
    && forall lo: nat, hi: nat, k: nat :: IsGroup(ap0, lo, hi) && hi <= n && lo <= k < hi ==>
        (Live(ap[k]) <==> k == Champion(g, ap0, lo, hi))
  }

  function GroupEnd(ap: seq<Action>, lo: nat, hi: nat): (r: nat)
    requires lo < hi <= |ap|
    ensures hi <= r <= |ap|
    ensures forall k :: hi <= k < r ==> ap[k].sp == ap[lo].sp
    ensures r < |ap| ==> ap[r].sp != ap[lo].sp
    decreases |ap| - hi
  {
    if hi == |ap| || ap[hi].sp != ap[lo].sp then hi else GroupEnd(ap, lo, hi + 1)
  }

  lemma GroupsDoNotOverlap(ap: seq<Action>, lo: nat, hi: nat, lo': nat, hi': nat)
    requires IsGroup(ap, lo, hi) && IsGroup(ap, lo', hi') && lo < hi' && lo' < hi
    ensures lo == lo' && hi == hi'
  {
  }

  /** Before the turn of action `i`: the groups up to `lo` are decided, that from `lo` to `hi` is underway, the rest
      is as
      it was; and all meetings so far are counted. */
  ghost predicate Resolving(g: Grammar, ap0: seq<Action>, ap: seq<Action>, lo: nat, hi: nat, i: nat, c: nat,
      nconflict: nat)
    requires WellFormed(g) && Fresh(g, ap0)
  {
    && lo <= i <= hi <= |ap| == |ap0| && Thinned(ap0, ap) && Decided(g, ap0, ap, lo)
    && (lo == hi == 0 || (IsGroup(ap0, lo, hi) && Underway(g, ap0, ap, lo, hi, i, c)))
    && (forall k :: hi <= k < |ap| ==> ap[k] == ap0[k])
    && (lo < hi ==> MetUpTo(hi, i, c) <= |ap0|)
    && nconflict == if lo == hi then 0 else Clashes(g, ap0, MetUpTo(hi, i, c))
  }

  /** The loops of FindActions that resolve the conflicts of one state. */
  method ResolveConflicts(g: Grammar, ap0: seq<Action>) returns (ap: seq<Action>, nconflict: nat)
    requires WellFormed(g) && Fresh(g, ap0)
    ensures Decided(g, ap0, ap, |ap0|) && nconflict == Clashes(g, ap0, |ap0|)
  {
    hide *;
    ap, nconflict := ap0, 0;
    ghost var lo: nat, hi: nat, c: nat := 0, 0, 0;
    NothingResolved(g, ap0);
    for i := 0 to |ap|
      invariant |ap| == |ap0| && i <= hi && Resolving(g, ap0, ap, lo, hi, i, c, nconflict)
    {
      if i == hi {
        ghost var end := GroupEnd(ap0, i, i + 1);
        NextResolving(g, ap0, ap, lo, i, c, nconflict);
        lo, hi, c := i, end, i;
      }
      ghost var (before, c0) := (ap, c);
      ResolvingParts(g, ap0, ap, lo, hi, i, c, nconflict);
      var n;
      ap, n, c := Row(g, ap, i, ap0, lo, hi, c);
      ThinnedSize(ap0, ap);
      RowResolved(g, ap0, before, ap, lo, hi, i, c0, c, nconflict, n);
      nconflict := nconflict + n;
    }
    AllResolved(g, ap0, ap, lo, hi, c, nconflict);
  }

  lemma NothingResolved(g: Grammar, ap: seq<Action>)
    requires WellFormed(g) && Fresh(g, ap)
    ensures Resolving(g, ap, ap, 0, 0, 0, 0, 0)
  {
    NothingDecided(g, ap);
    hide Fresh, WellFormed, Decided;
  }

  lemma NextResolving(g: Grammar, ap0: seq<Action>, ap: seq<Action>, lo: nat, i: nat, c: nat, nconflict: nat)
    requires WellFormed(g) && Fresh(g, ap0) && Resolving(g, ap0, ap, lo, i, i, c, nconflict) && i < |ap0|
    ensures var end := GroupEnd(ap0, i, i + 1);
      i < end <= |ap0| && Resolving(g, ap0, ap, i, end, i, i, nconflict)
  {
    hide Fresh, WellFormed, Underway, Champion, Decided, Clashes, Thinned;
    CountAtStart(g, ap0, ap, lo, i, c);
    NextGroup(g, ap0, ap, lo, i, c, GroupEnd(ap0, i, i + 1));
    hide IsGroup;
  }

  lemma ResolvingParts(g: Grammar, ap0: seq<Action>, ap: seq<Action>, lo: nat, hi: nat, i: nat, c: nat, nconflict: nat)
    requires WellFormed(g) && Fresh(g, ap0) && Resolving(g, ap0, ap, lo, hi, i, c, nconflict) && i < hi
    ensures |ap| == |ap0| && Thinned(ap0, ap) && lo < hi <= |ap0|
    ensures IsGroup(ap0, lo, hi) && Underway(g, ap0, ap, lo, hi, i, c)
  {
    hide Fresh, WellFormed, Underway, Champion, Decided, Clashes, Thinned, IsGroup;
  }

  lemma ThinnedSize(ap0: seq<Action>, ap: seq<Action>)
    requires Thinned(ap0, ap)
    ensures |ap| == |ap0|
  {
  }

  lemma RowResolved(g: Grammar, ap0: seq<Action>, before: seq<Action>, ap: seq<Action>, lo: nat, hi: nat, i: nat,
      c0: nat, c: nat, nconflict: nat, n: nat)
    requires WellFormed(g) && Fresh(g, ap0) && Resolving(g, ap0, before, lo, hi, i, c0, nconflict) && i < hi
    requires Thinned(ap0, ap) && |ap| == |ap0| && lo < hi <= |ap0| && Underway(g, ap0, ap, lo, hi, i + 1, c)
    requires forall k :: 0 <= k < |before| && !(lo <= k < hi) ==> ap[k] == before[k]
    requires MetUpTo(hi, i, c0) <= |ap0| && MetUpTo(hi, i + 1, c) <= |ap0|
    requires Clashes(g, ap0, MetUpTo(hi, i + 1, c)) == Clashes(g, ap0, MetUpTo(hi, i, c0)) + n
    ensures Resolving(g, ap0, ap, lo, hi, i + 1, c, nconflict + n)
  {
    hide Fresh, WellFormed, Underway, Champion, Decided, Clashes, Thinned, IsGroup, MetUpTo;
    StillDecided(g, ap0, before, ap, lo, hi);
  }

  lemma AllResolved(g: Grammar, ap0: seq<Action>, ap: seq<Action>, lo: nat, hi: nat, c: nat, nconflict: nat)
    requires WellFormed(g) && Fresh(g, ap0) && Resolving(g, ap0, ap, lo, hi, |ap0|, c, nconflict)
    ensures Decided(g, ap0, ap, |ap0|) && nconflict == Clashes(g, ap0, |ap0|)
  {
    hide Fresh, WellFormed, Underway, Champion, Decided, Clashes, Thinned, IsGroup;
    CountAtEnd(g, ap0, ap, lo, hi, c);
    if |ap| > 0 { GroupDecided(g, ap0, ap, lo, hi, c); }
  }

  /** When a group is finished all its meetings are counted, and the first action of the next one meets nobody. */
  lemma CountAtStart(g: Grammar, ap0: seq<Action>, ap: seq<Action>, lo: nat, hi: nat, c: nat)
    requires WellFormed(g) && Fresh(g, ap0) && hi < |ap0| == |ap|
    requires lo == hi == 0 || (IsGroup(ap0, lo, hi) && Underway(g, ap0, ap, lo, hi, hi, c))
    ensures lo < hi ==> MetUpTo(hi, hi, c) == hi
    ensures Clashes(g, ap0, hi + 1) == if lo == hi then 0 else Clashes(g, ap0, hi)
  {
    hide Fresh, WellFormed, Champion, Unsettled;
  }

  lemma CountAtEnd(g: Grammar, ap0: seq<Action>, ap: seq<Action>, lo: nat, hi: nat, c: nat)
    requires WellFormed(g) && Fresh(g, ap0) && hi == |ap0| == |ap|
    requires lo == hi == 0 || (IsGroup(ap0, lo, hi) && Underway(g, ap0, ap, lo, hi, hi, c))
    ensures lo < hi ==> MetUpTo(hi, hi, c) == hi
    ensures lo == hi ==> Clashes(g, ap0, hi) == 0
  {
    hide Fresh, WellFormed, Champion, Unsettled;
  }

  lemma NothingDecided(g: Grammar, ap: seq<Action>)
    requires WellFormed(g) && Fresh(g, ap)
    ensures Decided(g, ap, ap, 0)
  {
  }

  lemma GroupDecided(g: Grammar, ap0: seq<Action>, ap: seq<Action>, lo: nat, hi: nat, c: nat)
    requires WellFormed(g) && Fresh(g, ap0) && Decided(g, ap0, ap, lo) && IsGroup(ap0, lo, hi)
    requires Underway(g, ap0, ap, lo, hi, hi, c)
    ensures Decided(g, ap0, ap, hi)
  {
    hide Fresh, WellFormed, Champion;
    assert Live(ap[c]) by { StillLive(g, ap0, c); }
    forall lo': nat, hi': nat, k: nat | IsGroup(ap0, lo', hi') && hi' <= hi && lo' <= k < hi'
      ensures Live(ap[k]) <==> k == Champion(g, ap0, lo', hi')
    {
      if hi' > lo { GroupsDoNotOverlap(ap0, lo, hi, lo', hi'); }
    }
  }

  lemma StillLive(g: Grammar, ap0: seq<Action>, c: nat)
    requires Fresh(g, ap0) && c < |ap0|
    ensures Live(ap0[c])
  {
  }

  lemma NextGroup(g: Grammar, ap0: seq<Action>, ap: seq<Action>, lo: nat, i: nat, c: nat, end: nat)
    requires WellFormed(g) && Fresh(g, ap0) && Decided(g, ap0, ap, lo) && lo <= i < |ap0|
    requires lo == i == 0 || (IsGroup(ap0, lo, i) && Underway(g, ap0, ap, lo, i, i, c))
    requires forall k :: i <= k < |ap| ==> ap[k] == ap0[k]
    requires end == GroupEnd(ap0, i, i + 1)
    ensures Decided(g, ap0, ap, i) && IsGroup(ap0, i, end) && Underway(g, ap0, ap, i, end, i, i)
  {
    if i > 0 { GroupDecided(g, ap0, ap, lo, i, c); }
  }

  lemma StillDecided(g: Grammar, ap0: seq<Action>, before: seq<Action>, ap: seq<Action>, lo: nat, hi: nat)
    requires WellFormed(g) && Fresh(g, ap0) && Decided(g, ap0, before, lo) && Thinned(ap0, ap)
    requires forall k :: 0 <= k < |ap| && !(lo <= k < hi) ==> ap[k] == before[k]
    ensures Decided(g, ap0, ap, lo)
  {
  }
}
