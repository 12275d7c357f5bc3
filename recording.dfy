/** What `virtuals` records: once `hold_pkg` is through with a package, it
    has flagged the package under its own name (when installed and
    providing) and every installed provider of a non-excluded architecture
    under the name that provider provides; recorded entries only grow. */
module Recording {
  import opened PackageGraph
  import opened Traversal
  import opened Tracing

  /** The provides list of `v` is recorded in `m`: `v` itself under its own
      name when it is installed and has providers, and every installed,
      non-excluded provider under the provided name. */
  ghost predicate ProvidersRecorded(g: Graph, cfg: Config, m: map<string, set<string>>, v: PkgId)
    requires v < |g.packages|
  {
    var list := g.packages[v].providedBy;
    && (|list| > 0 && Installed(g, v) ==> g.packages[v].name in m && g.packages[v].name in m[g.packages[v].name])
    && EntriesRecorded(g, cfg, m, v, 0)
  }

  /** The entries `i` on of the provides list of `p` are recorded in `m`. */
  ghost predicate EntriesRecorded(g: Graph, cfg: Config, m: map<string, set<string>>, p: PkgId, i: nat)
    requires p < |g.packages|
  {
    var list := g.packages[p].providedBy;
    forall i' :: i <= i' < |list| ==> EntryRecorded(g, cfg, m, list[i'])
  }

  /** One provides entry is recorded, if its provider is installed and of a
      non-excluded architecture. */
  ghost predicate EntryRecorded(g: Graph, cfg: Config, m: map<string, set<string>>, e: Provide)
  {
    e.provider < |g.packages| && Installed(g, e.provider) && !Excluded(g, cfg, e.provider) ==>
      e.name in m && g.packages[e.provider].name in m[e.name]
  }

  /** Every package finished between `s` and `r` has its provides list
      recorded in `r`. */
  ghost predicate VisitedRecorded(g: Graph, cfg: Config, s: State, r: State)
  {
    forall v :: v in r.trace.visited && v !in s.trace.visited && v < |g.packages| ==>
      ProvidersRecorded(g, cfg, r.virtuals, v)
  }

  /** Entry `i` recorded in `m`, and entries `i + 1` on in a grown `m'`,
      give entries `i` on in `m'`. */
  lemma EntriesRecordedStep(g: Graph, cfg: Config, m: map<string, set<string>>, m': map<string, set<string>>, p: PkgId, i: nat)
    requires p < |g.packages| && i < |g.packages[p].providedBy|
    requires EntryRecorded(g, cfg, m, g.packages[p].providedBy[i]) && EntriesGrow(m, m')
    requires EntriesRecorded(g, cfg, m', p, i + 1)
    ensures EntriesRecorded(g, cfg, m', p, i)
  {
  }

  /** Finishing a package whose provides list is recorded. */
  lemma VisitRecords(g: Graph, cfg: Config, s: State, r: State, p: PkgId)
    requires p < |g.packages| && VisitedRecorded(g, cfg, s, r) && ProvidersRecorded(g, cfg, r.virtuals, p)
    ensures VisitedRecorded(g, cfg, s, Visit(r, p))
  {
  }

  lemma RecordedGrows(g: Graph, cfg: Config, m: map<string, set<string>>, m': map<string, set<string>>, v: PkgId)
    requires v < |g.packages| && ProvidersRecorded(g, cfg, m, v) && EntriesGrow(m, m')
    ensures ProvidersRecorded(g, cfg, m', v)
  {
  }

  lemma VisitedRecordedTrans(g: Graph, cfg: Config, a: State, b: State, c: State)
    requires VisitedRecorded(g, cfg, a, b) && VisitedRecorded(g, cfg, b, c)
    requires EntriesGrow(b.virtuals, c.virtuals)
    ensures VisitedRecorded(g, cfg, a, c)
  {
    forall v | v in c.trace.visited && v !in a.trace.visited && v < |g.packages|
      ensures ProvidersRecorded(g, cfg, c.virtuals, v)
    {
      if v in b.trace.visited {
        RecordedGrows(g, cfg, b.virtuals, c.virtuals, v);
      }
    }
  }

  /** Flagging entry `e` and holding its provider records the entry, and
      recorded entries only grow. */
  lemma {:induction false} FlagHoldRecords(g: Graph, cfg: Config, rank: seq<nat>, s: State, e: Provide)
    requires Setup(g, cfg, rank) && e.provider < |g.packages| && !Excluded(g, cfg, e.provider) && KeyedByName(s)
    decreases Unkept(g.packages, s.keeps), rank[e.provider], 4, 0
    ensures var r := AfterHoldPkg(g, cfg, rank, AfterFlagProvides(g, s, e.name, e.provider), e.provider);
      EntryRecorded(g, cfg, r.virtuals, e) && EntriesGrow(s.virtuals, r.virtuals) && KeyedByName(r) &&
      VisitedRecorded(g, cfg, s, r)
  {
    var f := AfterFlagProvides(g, s, e.name, e.provider);
    HoldPkgRecords(g, cfg, rank, f, e.provider);
    HoldPkgTraced(g, cfg, rank, f, e.provider);
  }

  /** `hold_pkg(p)` records the provides list of every package it finishes,
      `p` included. */
  lemma {:induction false} HoldPkgRecords(g: Graph, cfg: Config, rank: seq<nat>, s: State, p: PkgId)
    requires Setup(g, cfg, rank) && p < |g.packages| && KeyedByName(s)
    decreases Unkept(g.packages, s.keeps), rank[p], 3, 0
    ensures VisitedRecorded(g, cfg, s, AfterHoldPkg(g, cfg, rank, s, p))
  {
    var name := g.packages[p].name;
    var s1 := Touch(s, p);
    if name !in s.keeps {
      var s2 := s1;
      if Installed(g, p) {
        UnkeptAdd(g.packages, s.keeps, p);
        var k := Keep(g, s1, p);
        HoldKindsRecords(g, cfg, rank, k, p, 0);
        HoldKindsTraced(g, cfg, rank, k, p, 0);
        s2 := Expand(AfterHoldKinds(g, cfg, rank, k, p, 0), p);
      }
      assert VisitedRecorded(g, cfg, s, s2);
      var s3 := s2;
      if |g.packages[p].providedBy| > 0 {
        SelfFlagRecords(g, cfg, rank, s2, p);
        s3 := AfterHoldProvides(g, cfg, rank, AfterFlagProvides(g, s2, name, p), p, 0);
        VisitedRecordedTrans(g, cfg, s, s2, s3);
      }
      VisitRecords(g, cfg, s, s3, p);
      assert AfterHoldPkg(g, cfg, rank, s, p) == Visit(s3, p);
    }
  }

  /** The second half of `hold_pkg(p)`: flag `p` under its own name, then
      walk its provides list, which records all of it. */
  lemma {:induction false} SelfFlagRecords(g: Graph, cfg: Config, rank: seq<nat>, s: State, p: PkgId)
    requires Setup(g, cfg, rank) && p < |g.packages| && KeyedByName(s)
    decreases (if Installed(g, p) then Unkept(g.packages, s.keeps) + 1 else Unkept(g.packages, s.keeps)),
              (if Installed(g, p) then 0 else rank[p]), 2, |g.packages[p].providedBy| + 1
    ensures var r := AfterHoldProvides(g, cfg, rank, AfterFlagProvides(g, s, g.packages[p].name, p), p, 0);
      VisitedRecorded(g, cfg, s, r) && EntriesGrow(s.virtuals, r.virtuals) &&
      (|g.packages[p].providedBy| > 0 ==> ProvidersRecorded(g, cfg, r.virtuals, p))
  {
    var name := g.packages[p].name;
    var f := AfterFlagProvides(g, s, name, p);
    HoldProvidesRecords(g, cfg, rank, f, p, 0);
    HoldProvidesTraced(g, cfg, rank, f, p, 0);
    var r := AfterHoldProvides(g, cfg, rank, f, p, 0);
    assert Installed(g, p) ==> name in f.virtuals && name in f.virtuals[name];
  }

  lemma {:induction false} HoldProvidesRecords(g: Graph, cfg: Config, rank: seq<nat>, s: State, p: PkgId, i: nat)
    requires Setup(g, cfg, rank) && p < |g.packages| && i <= |g.packages[p].providedBy| && KeyedByName(s)
    decreases (if Installed(g, p) then Unkept(g.packages, s.keeps) + 1 else Unkept(g.packages, s.keeps)),
              (if Installed(g, p) then 0 else rank[p]), 2, |g.packages[p].providedBy| - i
    ensures var r := AfterHoldProvides(g, cfg, rank, s, p, i);
      VisitedRecorded(g, cfg, s, r) && EntriesRecorded(g, cfg, r.virtuals, p, i)
  {
    var list := g.packages[p].providedBy;
    if i < |list| {
      var q := list[i].provider;
      var s' := s;
      if g.packages[q].arch !in cfg.excludeArchs {
        FlagHoldRecords(g, cfg, rank, s, list[i]);
        s' := AfterHoldPkg(g, cfg, rank, AfterFlagProvides(g, s, list[i].name, q), q);
      }
      assert EntryRecorded(g, cfg, s'.virtuals, list[i]);
      HoldProvidesRecords(g, cfg, rank, s', p, i + 1);
      HoldProvidesTraced(g, cfg, rank, s', p, i + 1);
      var r := AfterHoldProvides(g, cfg, rank, s', p, i + 1);
      VisitedRecordedTrans(g, cfg, s, s', r);
      EntriesRecordedStep(g, cfg, s'.virtuals, r.virtuals, p, i);
    }
  }

  lemma {:induction false} HoldKindsRecords(g: Graph, cfg: Config, rank: seq<nat>, s: State, p: PkgId, i: nat)
    requires Setup(g, cfg, rank) && Installed(g, p) && i <= |Deps(g, p)| && KeyedByName(s)
    decreases Unkept(g.packages, s.keeps) + 1, 0, 2, |Deps(g, p)| - i
    ensures VisitedRecorded(g, cfg, s, AfterHoldKinds(g, cfg, rank, s, p, i))
  {
    var ds := Deps(g, p);
    if i < |ds| {
      var s' := s;
      if ds[i].kind in cfg.holds {
        HoldGroupsRecords(g, cfg, rank, s, p, i, 0);
        HoldGroupsTraced(g, cfg, rank, s, p, i, 0);
        s' := AfterHoldGroups(g, cfg, rank, s, p, i, 0);
      }
      HoldKindsRecords(g, cfg, rank, s', p, i + 1);
      HoldKindsTraced(g, cfg, rank, s', p, i + 1);
      VisitedRecordedTrans(g, cfg, s, s', AfterHoldKinds(g, cfg, rank, s', p, i + 1));
    }
  }

  lemma {:induction false} HoldGroupsRecords(g: Graph, cfg: Config, rank: seq<nat>, s: State, p: PkgId, i: nat, j: nat)
    requires Setup(g, cfg, rank) && Installed(g, p) && i < |Deps(g, p)| && j <= |Deps(g, p)[i].groups|
    requires Deps(g, p)[i].kind in cfg.holds && KeyedByName(s)
    decreases Unkept(g.packages, s.keeps) + 1, 0, 1, |Deps(g, p)[i].groups| - j
    ensures VisitedRecorded(g, cfg, s, AfterHoldGroups(g, cfg, rank, s, p, i, j))
  {
    if j < |Deps(g, p)[i].groups| {
      HoldAlternativesRecords(g, cfg, rank, s, p, i, j, 0);
      HoldAlternativesTraced(g, cfg, rank, s, p, i, j, 0);
      var s' := AfterHoldAlternatives(g, cfg, rank, s, p, i, j, 0);
      HoldGroupsRecords(g, cfg, rank, s', p, i, j + 1);
      HoldGroupsTraced(g, cfg, rank, s', p, i, j + 1);
      VisitedRecordedTrans(g, cfg, s, s', AfterHoldGroups(g, cfg, rank, s', p, i, j + 1));
    }
  }

  lemma {:induction false} HoldAlternativesRecords(g: Graph, cfg: Config, rank: seq<nat>, s: State, p: PkgId, i: nat, j: nat, k: nat)
    requires Setup(g, cfg, rank) && Installed(g, p) && i < |Deps(g, p)| && j < |Deps(g, p)[i].groups|
    requires k <= |Deps(g, p)[i].groups[j]| && Deps(g, p)[i].kind in cfg.holds && KeyedByName(s)
    decreases Unkept(g.packages, s.keeps) + 1, 0, 0, |Deps(g, p)[i].groups[j]| - k
    ensures VisitedRecorded(g, cfg, s, AfterHoldAlternatives(g, cfg, rank, s, p, i, j, k))
  {
    var alts := Deps(g, p)[i].groups[j];
    if k < |alts| {
      var t := alts[k];
      var s' := s;
      if g.packages[t].arch !in cfg.excludeArchs {
        HoldPkgRecords(g, cfg, rank, s, t);
        HoldPkgTraced(g, cfg, rank, s, t);
        s' := AfterHoldPkg(g, cfg, rank, s, t);
      }
      HoldAlternativesRecords(g, cfg, rank, s', p, i, j, k + 1);
      HoldAlternativesTraced(g, cfg, rank, s', p, i, j, k + 1);
      VisitedRecordedTrans(g, cfg, s, s', AfterHoldAlternatives(g, cfg, rank, s', p, i, j, k + 1));
    }
  }
}
