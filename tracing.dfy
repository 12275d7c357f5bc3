/** Where the traversal goes: every package a call passes to `hold_pkg`
    or `flag_provides` is reached from the package the call started at by
    followed edges only (held dependency kinds, provides entries, never an
    excluded architecture); kept names keep their package, and recorded
    providers are never dropped. */
module Tracing {
  import opened PackageGraph
  import opened Traversal

  /** Every entry of `m` is still there in `m'`, with at least the same providers. */
  ghost predicate EntriesGrow(m: map<string, set<string>>, m': map<string, set<string>>)
  {
    forall v :: v in m ==> v in m' && m[v] <= m'[v]
  }

  /** Old kept names keep their package; a newly kept name names a package
      that has been expanded; recorded providers stay recorded. */
  ghost predicate KeptGrows(s: State, r: State)
  {
    && (forall n :: n in s.trace.keptBy ==> n in r.trace.keptBy && r.trace.keptBy[n] == s.trace.keptBy[n])
    && (forall n :: n in r.trace.keptBy && n !in s.trace.keptBy ==> r.trace.keptBy[n] in r.trace.expanded)
    && EntriesGrow(s.virtuals, r.virtuals)
  }

  /** Every package touched or newly kept between `s` and `r` is reached
      from `p`. */
  ghost predicate ReachedFrom(g: Graph, cfg: Config, s: State, r: State, p: PkgId)
  {
    && (forall x :: x in r.trace.touched && x !in s.trace.touched ==> Reach(g, cfg, p, x))
    && (forall n :: n in r.trace.keptBy && n !in s.trace.keptBy ==> Reach(g, cfg, p, r.trace.keptBy[n]))
  }

  /** Every package whose name was newly kept between `s` and `r` has
      been through the whole of `hold_pkg`, providers included. */
  ghost predicate KeptVisited(s: State, r: State)
  {
    forall n :: n in r.trace.keptBy && n !in s.trace.keptBy ==> r.trace.keptBy[n] in r.trace.visited
  }

  ghost predicate KeyedByName(s: State)
  {
    s.keeps == s.trace.keptBy.Keys
  }

  lemma KeptGrowsTrans(g: Graph, a: State, b: State, c: State)
    requires KeptGrows(a, b) && KeptGrows(b, c) && Extends(g, b, c)
    ensures KeptGrows(a, c)
  {
  }

  lemma KeptVisitedTrans(g: Graph, a: State, b: State, c: State)
    requires KeptVisited(a, b) && KeptVisited(b, c) && KeptGrows(b, c) && Extends(g, b, c)
    ensures KeptVisited(a, c)
  {
  }

  /** A step from `p` to `q` followed by what `q` reaches. */
  lemma ReachedThrough(g: Graph, cfg: Config, s: State, r: State, p: PkgId, q: PkgId)
    requires p < |g.packages| && Step(g, cfg, p, q) && ReachedFrom(g, cfg, s, r, q)
    ensures ReachedFrom(g, cfg, s, r, p)
  {
    forall x | x in r.trace.touched && x !in s.trace.touched
      ensures Reach(g, cfg, p, x)
    {
      ReachPrepend(g, cfg, p, q, x);
    }
    forall n | n in r.trace.keptBy && n !in s.trace.keptBy
      ensures Reach(g, cfg, p, r.trace.keptBy[n])
    {
      ReachPrepend(g, cfg, p, q, r.trace.keptBy[n]);
    }
  }

  /** `hold_pkg(p)` touches only what `p` reaches. */
  lemma {:induction false} HoldPkgTraced(g: Graph, cfg: Config, rank: seq<nat>, s: State, p: PkgId)
    requires Setup(g, cfg, rank) && p < |g.packages| && KeyedByName(s)
    decreases Unkept(g.packages, s.keeps), rank[p], 3, 0
    ensures var r := AfterHoldPkg(g, cfg, rank, s, p);
      KeyedByName(r) && KeptGrows(s, r) && KeptVisited(s, r) && ReachedFrom(g, cfg, s, r, p)
  {
    ReachSelf(g, cfg, p);
    var name := g.packages[p].name;
    var s1 := Touch(s, p);
    if name !in s.keeps {
      var s2 := s1;
      if Installed(g, p) {
        UnkeptAdd(g.packages, s.keeps, p);
        var k := Keep(g, s1, p);
        HoldKindsTraced(g, cfg, rank, k, p, 0);
        var d := AfterHoldKinds(g, cfg, rank, k, p, 0);
        s2 := Expand(d, p);
        assert KeptGrows(s1, s2) by {
          assert d.trace.keptBy[name] == p;
        }
      }
      assert KeptGrows(s, s2) && ReachedFrom(g, cfg, s, s2, p);
      var s3 := s2;
      if |g.packages[p].providedBy| > 0 {
        var f := AfterFlagProvides(g, s2, name, p);
        HoldProvidesTraced(g, cfg, rank, f, p, 0);
        s3 := AfterHoldProvides(g, cfg, rank, f, p, 0);
        KeptGrowsTrans(g, s2, f, s3);
        KeptGrowsTrans(g, s, s2, s3);
      }
      assert AfterHoldPkg(g, cfg, rank, s, p) == Visit(s3, p);
    }
  }

  /** One iteration of `hold_provides`: flagging entry `e` and holding its
      provider reaches only what the provider reaches. */
  lemma {:induction false} FlagHoldTraced(g: Graph, cfg: Config, rank: seq<nat>, s: State, e: Provide)
    requires Setup(g, cfg, rank) && e.provider < |g.packages| && !Excluded(g, cfg, e.provider) && KeyedByName(s)
    decreases Unkept(g.packages, s.keeps), rank[e.provider], 4, 0
    ensures var r := AfterHoldPkg(g, cfg, rank, AfterFlagProvides(g, s, e.name, e.provider), e.provider);
      KeyedByName(r) && KeptGrows(s, r) && KeptVisited(s, r) && ReachedFrom(g, cfg, s, r, e.provider)
  {
    var q := e.provider;
    var f := AfterFlagProvides(g, s, e.name, q);
    HoldPkgTraced(g, cfg, rank, f, q);
    var r := AfterHoldPkg(g, cfg, rank, f, q);
    assert KeptGrows(s, f) && Extends(g, f, r);
    KeptGrowsTrans(g, s, f, r);
    ReachSelf(g, cfg, q);
  }

  lemma {:induction false} HoldProvidesTraced(g: Graph, cfg: Config, rank: seq<nat>, s: State, p: PkgId, i: nat)
    requires Setup(g, cfg, rank) && p < |g.packages| && i <= |g.packages[p].providedBy| && KeyedByName(s)
    decreases (if Installed(g, p) then Unkept(g.packages, s.keeps) + 1 else Unkept(g.packages, s.keeps)),
              (if Installed(g, p) then 0 else rank[p]), 2, |g.packages[p].providedBy| - i
    ensures var r := AfterHoldProvides(g, cfg, rank, s, p, i);
      KeyedByName(r) && KeptGrows(s, r) && KeptVisited(s, r) && ReachedFrom(g, cfg, s, r, p)
  {
    var list := g.packages[p].providedBy;
    if i < |list| {
      var q := list[i].provider;
      var s' := s;
      if g.packages[q].arch !in cfg.excludeArchs {
        assert Step(g, cfg, p, q) by {
          assert list[i].provider == q;
        }
        FlagHoldTraced(g, cfg, rank, s, list[i]);
        s' := AfterHoldPkg(g, cfg, rank, AfterFlagProvides(g, s, list[i].name, q), q);
        ReachedThrough(g, cfg, s, s', p, q);
      }
      HoldProvidesTraced(g, cfg, rank, s', p, i + 1);
      KeptGrowsTrans(g, s, s', AfterHoldProvides(g, cfg, rank, s', p, i + 1));
      KeptVisitedTrans(g, s, s', AfterHoldProvides(g, cfg, rank, s', p, i + 1));
    }
  }

  lemma {:induction false} HoldKindsTraced(g: Graph, cfg: Config, rank: seq<nat>, s: State, p: PkgId, i: nat)
    requires Setup(g, cfg, rank) && Installed(g, p) && i <= |Deps(g, p)| && KeyedByName(s)
    decreases Unkept(g.packages, s.keeps) + 1, 0, 2, |Deps(g, p)| - i
    ensures var r := AfterHoldKinds(g, cfg, rank, s, p, i);
      KeyedByName(r) && KeptGrows(s, r) && KeptVisited(s, r) && ReachedFrom(g, cfg, s, r, p)
  {
    var ds := Deps(g, p);
    if i < |ds| {
      var s' := s;
      if ds[i].kind in cfg.holds {
        HoldGroupsTraced(g, cfg, rank, s, p, i, 0);
        s' := AfterHoldGroups(g, cfg, rank, s, p, i, 0);
      }
      HoldKindsTraced(g, cfg, rank, s', p, i + 1);
      KeptGrowsTrans(g, s, s', AfterHoldKinds(g, cfg, rank, s', p, i + 1));
      KeptVisitedTrans(g, s, s', AfterHoldKinds(g, cfg, rank, s', p, i + 1));
    }
  }

  lemma {:induction false} HoldGroupsTraced(g: Graph, cfg: Config, rank: seq<nat>, s: State, p: PkgId, i: nat, j: nat)
    requires Setup(g, cfg, rank) && Installed(g, p) && i < |Deps(g, p)| && j <= |Deps(g, p)[i].groups|
    requires Deps(g, p)[i].kind in cfg.holds && KeyedByName(s)
    decreases Unkept(g.packages, s.keeps) + 1, 0, 1, |Deps(g, p)[i].groups| - j
    ensures var r := AfterHoldGroups(g, cfg, rank, s, p, i, j);
      KeyedByName(r) && KeptGrows(s, r) && KeptVisited(s, r) && ReachedFrom(g, cfg, s, r, p)
  {
    if j < |Deps(g, p)[i].groups| {
      HoldAlternativesTraced(g, cfg, rank, s, p, i, j, 0);
      var s' := AfterHoldAlternatives(g, cfg, rank, s, p, i, j, 0);
      HoldGroupsTraced(g, cfg, rank, s', p, i, j + 1);
      KeptGrowsTrans(g, s, s', AfterHoldGroups(g, cfg, rank, s', p, i, j + 1));
      KeptVisitedTrans(g, s, s', AfterHoldGroups(g, cfg, rank, s', p, i, j + 1));
    }
  }

  lemma {:induction false} HoldAlternativesTraced(g: Graph, cfg: Config, rank: seq<nat>, s: State, p: PkgId, i: nat, j: nat, k: nat)
    requires Setup(g, cfg, rank) && Installed(g, p) && i < |Deps(g, p)| && j < |Deps(g, p)[i].groups|
    requires k <= |Deps(g, p)[i].groups[j]| && Deps(g, p)[i].kind in cfg.holds && KeyedByName(s)
    decreases Unkept(g.packages, s.keeps) + 1, 0, 0, |Deps(g, p)[i].groups[j]| - k
    ensures var r := AfterHoldAlternatives(g, cfg, rank, s, p, i, j, k);
      KeyedByName(r) && KeptGrows(s, r) && KeptVisited(s, r) && ReachedFrom(g, cfg, s, r, p)
  {
    var alts := Deps(g, p)[i].groups[j];
    if k < |alts| {
      var t := alts[k];
      var s' := s;
      if g.packages[t].arch !in cfg.excludeArchs {
        assert Step(g, cfg, p, t) by {
          assert Deps(g, p)[i].groups[j][k] == t;
        }
        HoldPkgTraced(g, cfg, rank, s, t);
        s' := AfterHoldPkg(g, cfg, rank, s, t);
        ReachedThrough(g, cfg, s, s', p, t);
      }
      HoldAlternativesTraced(g, cfg, rank, s', p, i, j, k + 1);
      KeptGrowsTrans(g, s, s', AfterHoldAlternatives(g, cfg, rank, s', p, i, j, k + 1));
      KeptVisitedTrans(g, s, s', AfterHoldAlternatives(g, cfg, rank, s', p, i, j, k + 1));
    }
  }
}
