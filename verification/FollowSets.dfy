/** FindLinks and FindFollowSets: the propagation of follow sets along the links. */
module LemonFollowSets {
  import opened LemonAutomaton

  type Family = map<Config, set<nat>>

  /** `f` gives every target of a link at least what its source has. */
  ghost predicate ClosedUnder(fplp: map<Config, seq<Config>>, f: Family) {
    f.Keys == fplp.Keys &&
    forall c, d :: c in fplp && d in fplp[c] ==> d in f && f[c] <= f[d]
  }

  ghost predicate Above(f: Family, low: Family) {
    f.Keys == low.Keys && forall c :: c in f ==> low[c] <= f[c]
  }

  /** `f` is the least family that contains `low` and is closed under the links. */
  ghost predicate IsLeast(fplp: map<Config, seq<Config>>, low: Family, f: Family) {
    && ClosedUnder(fplp, f) && Above(f, low)
    && forall h :: ClosedUnder(fplp, h) && Above(h, low) ==> Above(h, f)
  }

  ghost function MissingIn(f: Family, n: nat): set<(Config, int)> {
    set c, t | c in f && 0 <= t < n && t !in f[c] :: (c, t)
  }

  lemma UnionShrinksMissing(f: Family, n: nat, d: Config, more: set<nat>, t: nat)
    requires d in f && t in more && t !in f[d] && t < n
    ensures MissingIn(f[d := f[d] + more], n) < MissingIn(f, n)
  {
    var f' := f[d := f[d] + more];
    assert (d, t) in MissingIn(f, n) && (d, t) !in MissingIn(f', n);
    forall p | p in MissingIn(f', n) ensures p in MissingIn(f, n) { }
  }

  /** Nothing is in `f` that does not have to be there. */
  ghost predicate Below(low: Family, fplp: map<Config, seq<Config>>, f: Family) {
    Above(f, low) && forall h :: ClosedUnder(fplp, h) && Above(h, low) ==> Above(h, f)
  }

  lemma UnionStaysBelow(low: Family, fplp: map<Config, seq<Config>>, f: Family, c: Config, d: Config)
    requires Below(low, fplp, f) && c in f && d in f && c in fplp && d in fplp[c]
    ensures Below(low, fplp, f[d := f[d] + f[c]])
  {
    forall h | ClosedUnder(fplp, h) && Above(h, low) ensures Above(h, f[d := f[d] + f[c]]) {
      assert Above(h, f) && h[c] <= h[d];
    }
  }

  /** The configurations of all states with their forward links, follow sets and status. */
  class Propagation {
    const nterminal: nat
    const configs: seq<Config>
    const fplp: map<Config, seq<Config>>
    var fws: Family
    var incomplete: set<Config>

    ghost predicate Shape()
      reads this
    {
      && fplp.Keys == fws.Keys == (set c | c in configs) && incomplete <= fplp.Keys
      && (forall c, d :: c in fplp && d in fplp[c] ==> d in fplp)
      && (forall c, t :: c in fws && t in fws[c] ==> t < nterminal)
    }

    constructor (nterminal: nat, configs: seq<Config>, fplp: map<Config, seq<Config>>, fws: Family)
      requires fplp.Keys == fws.Keys == set c | c in configs
      requires forall c, d :: c in fplp && d in fplp[c] ==> d in fplp
      requires forall c, t :: c in fws && t in fws[c] ==> t < nterminal
      ensures Shape() && this.fws == fws && this.fplp == fplp && this.configs == configs && this.nterminal == nterminal
    {
      this.nterminal, this.configs, this.fplp, this.fws := nterminal, configs, fplp, fws;
      incomplete := {};
    }

    /** A configuration that is not due again has passed on everything it has. */
    ghost predicate PassedOn()
      reads this
      requires Shape()
    {
      forall c, d :: c in fplp && c !in incomplete && d in fplp[c] ==> fws[c] <= fws[d]
    }

    /** The body of the innermost loop: SetUnion along one link, and its target is due again if it grew. */
    method GiveTo(c: Config, d: Config, ghost low: Family) returns (change: bool)
      requires Shape() && c in fplp && d in fplp[c] && Below(low, fplp, fws)
      modifies this
      ensures Shape() && Below(low, fplp, fws)
      ensures fws == old(fws)[d := old(fws)[d] + old(fws)[c]]
      ensures incomplete == old(incomplete) + if change then {d} else {}
      ensures if change then MissingIn(fws, nterminal) < MissingIn(old(fws), nterminal) else fws == old(fws)
    {
      change := !(fws[c] <= fws[d]);
      if change {
        ghost var t :| t in fws[c] && t !in fws[d];
        UnionShrinksMissing(fws, nterminal, d, fws[c], t);
        incomplete := incomplete + {d};
      }
      UnionStaysBelow(low, fplp, fws, c, d);
      assert !change ==> fws[d] + fws[c] == fws[d];
      fws := fws[d := fws[d] + fws[c]];
    }

    /** The loop over the links of `c`: everything that `c` has goes to their targets. */
    method PassOn(c: Config, ghost low: Family) returns (progress: bool)
      requires Shape() && PassedOn() && Below(low, fplp, fws) && c in fplp && c in incomplete
      modifies this
      ensures Shape() && PassedOn() && Below(low, fplp, fws) && c !in incomplete
      ensures if progress then MissingIn(fws, nterminal) < MissingIn(old(fws), nterminal)
              else fws == old(fws) && incomplete == old(incomplete) - {c}
    {
      hide Below;
      progress := false;
      for k := 0 to |fplp[c]|
        invariant Shape() && PassedOn() && Below(low, fplp, fws) && c in incomplete
        invariant forall j :: 0 <= j < k ==> fws[c] <= fws[fplp[c][j]]
        invariant if progress then MissingIn(fws, nterminal) < MissingIn(old(fws), nterminal)
                  else fws == old(fws) && incomplete == old(incomplete)
      {
        var change := GiveTo(c, fplp[c][k], low);
        progress := progress || change;
      }
      incomplete := incomplete - {c};
    }

    /** FindFollowSets, although it skips every configuration that has not changed since its last turn. */
    method FindFollowSets()
      requires Shape()
      modifies this
      ensures Shape() && IsLeast(fplp, old(fws), fws)
    {
      incomplete := set c | c in configs;
      var progress := true;
      while progress
        invariant Shape() && PassedOn() && Below(old(fws), fplp, fws)
        invariant !progress ==> incomplete == {}
        decreases MissingIn(fws, nterminal), progress
      {
        progress := false;
        ghost var before := fws;
        for i := 0 to |configs|
          invariant Shape() && PassedOn() && Below(old(fws), fplp, fws)
          invariant if progress then MissingIn(fws, nterminal) < MissingIn(before, nterminal) else fws == before
          invariant !progress ==> forall j :: 0 <= j < i ==> configs[j] !in incomplete
        {
          if configs[i] in incomplete {
            assert configs[i] in set c | c in configs;
            var change := PassOn(configs[i], old(fws));
            progress := progress || change;
          }
        }
      }
    }
  }
}
