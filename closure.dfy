/** What the traversal keeps true of its state: the kept names are those
    of installed packages the traversal kept, every recorded provider is
    kept, and everything a finished package points to through a followed
    edge is kept or finished too. */
module Closure {
  import opened PackageGraph
  import opened Traversal

  /** `t` will not be walked again: its name is kept, or `hold_pkg` has
      already been through it. */
  ghost predicate Covered(g: Graph, s: State, t: PkgId)
  {
    t < |g.packages| && (g.packages[t].name in s.keeps || t in s.trace.visited)
  }

  /** The kept names are exactly the keys of `keptBy`, each naming the
      installed package that put it there; finished packages belong to the
      cache, and a finished installed package was expanded. */
  ghost predicate Consistent(g: Graph, s: State)
  {
    && s.keeps == s.trace.keptBy.Keys
    && (forall n :: n in s.trace.keptBy ==>
          Installed(g, s.trace.keptBy[n]) && g.packages[s.trace.keptBy[n]].name == n)
    && (forall e :: e in s.trace.expanded ==> e < |g.packages| && g.packages[e].name in s.keeps)
    && (forall v :: v in s.trace.visited ==> v < |g.packages| && (Installed(g, v) ==> v in s.trace.expanded))
  }

  /** Every held dependency of an expanded package is covered. */
  ghost predicate DepsClosed(g: Graph, cfg: Config, s: State)
  {
    forall e, t :: e in s.trace.expanded && HeldDep(g, cfg, e, t) && !Excluded(g, cfg, t) ==> Covered(g, s, t)
  }

  /** Every provider listed by a visited package is covered. */
  ghost predicate ProvidesClosed(g: Graph, cfg: Config, s: State)
  {
    forall v, t :: v in s.trace.visited && Provider(g, v, t) && !Excluded(g, cfg, t) ==> Covered(g, s, t)
  }

  ghost predicate Closed(g: Graph, cfg: Config, s: State)
  {
    Consistent(g, s) && DepsClosed(g, cfg, s) && ProvidesClosed(g, cfg, s)
  }

  /** Every provider name recorded in `virtuals` is kept. */
  ghost predicate Recorded(s: State)
  {
    forall v, n :: v in s.virtuals && n in s.virtuals[v] ==> n in s.keeps
  }

  /** As Recorded, except that the name of an installed `q` may be
      recorded already (`hold_provides` flags a provider just before
      holding it). */
  ghost predicate RecordedBut(g: Graph, s: State, q: PkgId)
  {
    forall v, n :: v in s.virtuals && n in s.virtuals[v] ==>
      n in s.keeps || (Installed(g, q) && n == g.packages[q].name)
  }

  /** The non-excluded alternatives of OR-group `j` of kind `i` of `p`,
      from alternative `k` on, are covered. */
  ghost predicate AlternativesCovered(g: Graph, cfg: Config, s: State, p: PkgId, i: nat, j: nat, k: nat)
    requires Installed(g, p) && i < |Deps(g, p)| && j < |Deps(g, p)[i].groups|
  {
    var alts := Deps(g, p)[i].groups[j];
    forall c :: k <= c < |alts| && !Excluded(g, cfg, alts[c]) ==> Covered(g, s, alts[c])
  }

  /** The same for every OR-group of kind `i` from group `j` on. */
  ghost predicate GroupsCovered(g: Graph, cfg: Config, s: State, p: PkgId, i: nat, j: nat)
    requires Installed(g, p) && i < |Deps(g, p)|
  {
    var groups := Deps(g, p)[i].groups;
    forall b, c :: j <= b < |groups| && 0 <= c < |groups[b]| && !Excluded(g, cfg, groups[b][c]) ==>
      Covered(g, s, groups[b][c])
  }

  /** The same for every kind in `holds` from kind `i` on. */
  ghost predicate KindsCovered(g: Graph, cfg: Config, s: State, p: PkgId, i: nat)
    requires Installed(g, p)
  {
    var ds := Deps(g, p);
    forall a, b, c ::
      (i <= a < |ds| && ds[a].kind in cfg.holds && 0 <= b < |ds[a].groups| &&
       0 <= c < |ds[a].groups[b]| && !Excluded(g, cfg, ds[a].groups[b][c])) ==>
        Covered(g, s, ds[a].groups[b][c])
  }

  /** The non-excluded providers listed by `p` from entry `i` on are covered. */
  ghost predicate ProvidersCovered(g: Graph, cfg: Config, s: State, p: PkgId, i: nat)
    requires p < |g.packages|
  {
    var list := g.packages[p].providedBy;
    forall i' :: i <= i' < |list| && !Excluded(g, cfg, list[i'].provider) ==> Covered(g, s, list[i'].provider)
  }

  /** Covering all kinds covers every held dependency. */
  lemma KindsCoverHeldDeps(g: Graph, cfg: Config, s: State, p: PkgId)
    requires Installed(g, p) && KindsCovered(g, cfg, s, p, 0)
    ensures forall t :: HeldDep(g, cfg, p, t) && !Excluded(g, cfg, t) ==> Covered(g, s, t)
  {
    forall t | HeldDep(g, cfg, p, t) && !Excluded(g, cfg, t)
      ensures Covered(g, s, t)
    {
      var ds := Deps(g, p);
      var a, b, c :| 0 <= a < |ds| && ds[a].kind in cfg.holds &&
        0 <= b < |ds[a].groups| && 0 <= c < |ds[a].groups[b]| && ds[a].groups[b][c] == t;
    }
  }

  /** Keeping an installed package whose name was not kept. */
  lemma KeepClosed(g: Graph, cfg: Config, s: State, p: PkgId)
    requires Installed(g, p) && g.packages[p].name !in s.keeps
    requires Closed(g, cfg, s) && RecordedBut(g, s, p)
    ensures Closed(g, cfg, Keep(g, s, p)) && Recorded(Keep(g, s, p))
  {
  }

  /** Marking a kept package expanded once its held dependencies are covered. */
  lemma ExpandClosed(g: Graph, cfg: Config, s: State, p: PkgId)
    requires Installed(g, p) && g.packages[p].name in s.keeps && Closed(g, cfg, s)
    requires forall t :: HeldDep(g, cfg, p, t) && !Excluded(g, cfg, t) ==> Covered(g, s, t)
    ensures Closed(g, cfg, Expand(s, p))
  {
  }

  /** Marking a package visited once its providers are covered. */
  lemma VisitClosed(g: Graph, cfg: Config, s: State, p: PkgId)
    requires p < |g.packages| && Closed(g, cfg, s) && ProvidersCovered(g, cfg, s, p, 0)
    requires Installed(g, p) ==> p in s.trace.expanded
    ensures Closed(g, cfg, Visit(s, p)) && Covered(g, Visit(s, p), p)
  {
    forall v, t | v in Visit(s, p).trace.visited && Provider(g, v, t) && !Excluded(g, cfg, t)
      ensures Covered(g, Visit(s, p), t)
    {
      if v == p {
        var i :| 0 <= i < |g.packages[p].providedBy| && g.packages[p].providedBy[i].provider == t;
      }
    }
  }

  /** `hold_pkg` keeps the state closed, records only kept providers once
      done, and leaves `p` covered. */
  lemma {:induction false} HoldPkgClosed(g: Graph, cfg: Config, rank: seq<nat>, s: State, p: PkgId)
    requires Setup(g, cfg, rank) && p < |g.packages|
    requires Closed(g, cfg, s) && RecordedBut(g, s, p)
    decreases Unkept(g.packages, s.keeps), rank[p], 3, 0
    ensures var r := AfterHoldPkg(g, cfg, rank, s, p); Closed(g, cfg, r) && Recorded(r) && Covered(g, r, p)
  {
    var name := g.packages[p].name;
    var s1 := Touch(s, p);
    assert Closed(g, cfg, s1);
    if name !in s.keeps {
      var s2 := s1;
      if Installed(g, p) {
        UnkeptAdd(g.packages, s.keeps, p);
        var k := Keep(g, s1, p);
        KeepClosed(g, cfg, s1, p);
        HoldKindsClosed(g, cfg, rank, k, p, 0);
        var d := AfterHoldKinds(g, cfg, rank, k, p, 0);
        KindsCoverHeldDeps(g, cfg, d, p);
        ExpandClosed(g, cfg, d, p);
        s2 := Expand(d, p);
      }
      assert Recorded(s2);
      var s3 := s2;
      if |g.packages[p].providedBy| > 0 {
        SelfFlagClosed(g, cfg, rank, s2, p);
        s3 := AfterHoldProvides(g, cfg, rank, AfterFlagProvides(g, s2, name, p), p, 0);
      }
      VisitClosed(g, cfg, s3, p);
      assert AfterHoldPkg(g, cfg, rank, s, p) == Visit(s3, p);
    }
  }

  /** The second half of `hold_pkg(p)`, once an installed `p` is kept:
      flagging `p` under its own name records a kept name, and walking its
      provides list covers every provider. */
  lemma {:induction false} SelfFlagClosed(g: Graph, cfg: Config, rank: seq<nat>, s: State, p: PkgId)
    requires Setup(g, cfg, rank) && p < |g.packages| && Closed(g, cfg, s) && Recorded(s)
    requires Installed(g, p) ==> g.packages[p].name in s.keeps
    decreases (if Installed(g, p) then Unkept(g.packages, s.keeps) + 1 else Unkept(g.packages, s.keeps)),
              (if Installed(g, p) then 0 else rank[p]), 2, |g.packages[p].providedBy| + 1
    ensures var r := AfterHoldProvides(g, cfg, rank, AfterFlagProvides(g, s, g.packages[p].name, p), p, 0);
      Closed(g, cfg, r) && Recorded(r) && ProvidersCovered(g, cfg, r, p, 0)
  {
    var f := AfterFlagProvides(g, s, g.packages[p].name, p);
    assert Closed(g, cfg, f) && Recorded(f);
    HoldProvidesClosed(g, cfg, rank, f, p, 0);
  }

  lemma {:induction false} HoldProvidesClosed(g: Graph, cfg: Config, rank: seq<nat>, s: State, p: PkgId, i: nat)
    requires Setup(g, cfg, rank) && p < |g.packages| && i <= |g.packages[p].providedBy|
    requires Closed(g, cfg, s) && Recorded(s)
    decreases (if Installed(g, p) then Unkept(g.packages, s.keeps) + 1 else Unkept(g.packages, s.keeps)),
              (if Installed(g, p) then 0 else rank[p]), 2, |g.packages[p].providedBy| - i
    ensures var r := AfterHoldProvides(g, cfg, rank, s, p, i);
      Closed(g, cfg, r) && Recorded(r) && ProvidersCovered(g, cfg, r, p, i)
  {
    var list := g.packages[p].providedBy;
    if i < |list| {
      var q := list[i].provider;
      var s' := s;
      if g.packages[q].arch !in cfg.excludeArchs {
        var f := AfterFlagProvides(g, s, list[i].name, q);
        HoldPkgClosed(g, cfg, rank, f, q);
        s' := AfterHoldPkg(g, cfg, rank, f, q);
      }
      HoldProvidesClosed(g, cfg, rank, s', p, i + 1);
    }
  }

  lemma {:induction false} HoldKindsClosed(g: Graph, cfg: Config, rank: seq<nat>, s: State, p: PkgId, i: nat)
    requires Setup(g, cfg, rank) && Installed(g, p) && i <= |Deps(g, p)|
    requires Closed(g, cfg, s) && Recorded(s)
    decreases Unkept(g.packages, s.keeps) + 1, 0, 2, |Deps(g, p)| - i
    ensures var r := AfterHoldKinds(g, cfg, rank, s, p, i);
      Closed(g, cfg, r) && Recorded(r) && KindsCovered(g, cfg, r, p, i)
  {
    var ds := Deps(g, p);
    if i < |ds| {
      var s' := s;
      if ds[i].kind in cfg.holds {
        HoldGroupsClosed(g, cfg, rank, s, p, i, 0);
        s' := AfterHoldGroups(g, cfg, rank, s, p, i, 0);
      }
      HoldKindsClosed(g, cfg, rank, s', p, i + 1);
    }
  }

  lemma {:induction false} HoldGroupsClosed(g: Graph, cfg: Config, rank: seq<nat>, s: State, p: PkgId, i: nat, j: nat)
    requires Setup(g, cfg, rank) && Installed(g, p) && i < |Deps(g, p)| && j <= |Deps(g, p)[i].groups|
    requires Closed(g, cfg, s) && Recorded(s)
    decreases Unkept(g.packages, s.keeps) + 1, 0, 1, |Deps(g, p)[i].groups| - j
    ensures var r := AfterHoldGroups(g, cfg, rank, s, p, i, j);
      Closed(g, cfg, r) && Recorded(r) && GroupsCovered(g, cfg, r, p, i, j)
  {
    if j < |Deps(g, p)[i].groups| {
      HoldAlternativesClosed(g, cfg, rank, s, p, i, j, 0);
      var s' := AfterHoldAlternatives(g, cfg, rank, s, p, i, j, 0);
      HoldGroupsClosed(g, cfg, rank, s', p, i, j + 1);
    }
  }

  lemma {:induction false} HoldAlternativesClosed(g: Graph, cfg: Config, rank: seq<nat>, s: State, p: PkgId, i: nat, j: nat, k: nat)
    requires Setup(g, cfg, rank) && Installed(g, p) && i < |Deps(g, p)| && j < |Deps(g, p)[i].groups|
    requires k <= |Deps(g, p)[i].groups[j]|
    requires Closed(g, cfg, s) && Recorded(s)
    decreases Unkept(g.packages, s.keeps) + 1, 0, 0, |Deps(g, p)[i].groups[j]| - k
    ensures var r := AfterHoldAlternatives(g, cfg, rank, s, p, i, j, k);
      Closed(g, cfg, r) && Recorded(r) && AlternativesCovered(g, cfg, r, p, i, j, k)
  {
    var alts := Deps(g, p)[i].groups[j];
    if k < |alts| {
      var t := alts[k];
      var s' := s;
      if g.packages[t].arch !in cfg.excludeArchs {
        HoldPkgClosed(g, cfg, rank, s, t);
        s' := AfterHoldPkg(g, cfg, rank, s, t);
      }
      HoldAlternativesClosed(g, cfg, rank, s', p, i, j, k + 1);
    }
  }
}
