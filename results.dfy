/** What the root loop leaves behind: every manually installed package is
    held; every held name belongs to an installed package reached from one
    by followed edges; with one package per name, everything such a package
    reaches through held dependencies of installed packages and providers of
    packages that are auto-installed or not installed is held too; every
    held name belongs to a package whose installed held dependencies, and
    for an auto-installed one whose installed providers, are all held;
    every recorded provider is held; no package of an excluded architecture
    was ever passed to `hold_pkg` or `flag_provides`. */
module Results {
  import opened PackageGraph
  import opened Traversal
  import opened Closure
  import opened Tracing
  import opened Recording

  /** Every kept package has been expanded: no call is in progress. */
  ghost predicate Settled(s: State)
  {
    forall n :: n in s.trace.keptBy ==> s.trace.keptBy[n] in s.trace.expanded
  }

  /** Every package touched or kept is of a non-excluded architecture and
      reached from a manually installed package. */
  ghost predicate Rootward(g: Graph, cfg: Config, s: State)
  {
    && (forall x :: x in s.trace.touched ==> !Excluded(g, cfg, x) && Rooted(g, cfg, x))
    && (forall n :: n in s.trace.keptBy ==>
          !Excluded(g, cfg, s.trace.keptBy[n]) && Rooted(g, cfg, s.trace.keptBy[n]))
  }

  /** A kept auto-installed package was kept by `hold_pkg`, which has
      also walked its providers. */
  ghost predicate AutoVisited(g: Graph, s: State)
  {
    forall n :: n in s.trace.keptBy && s.trace.keptBy[n] < |g.packages| && g.packages[s.trace.keptBy[n]].auto ==>
      s.trace.keptBy[n] in s.trace.visited
  }

  /** Every visited package has its provides list recorded in `virtuals`. */
  ghost predicate AllRecorded(g: Graph, cfg: Config, s: State)
  {
    forall v :: v in s.trace.visited && v < |g.packages| ==> ProvidersRecorded(g, cfg, s.virtuals, v)
  }

  /** What holds between two iterations of the root loop. */
  ghost predicate ScanInv(g: Graph, cfg: Config, s: State)
  {
    Closed(g, cfg, s) && Recorded(s) && Settled(s) && AutoVisited(g, s) && Rootward(g, cfg, s) && AllRecorded(g, cfg, s)
  }

  /** Reached from a root means rooted, and not excluded. */
  lemma RootedFrom(g: Graph, cfg: Config, r: PkgId, x: PkgId)
    requires IsRoot(g, cfg, r) && Reach(g, cfg, r, x)
    ensures !Excluded(g, cfg, x) && Rooted(g, cfg, x)
  {
    ReachNotExcluded(g, cfg, r, x);
  }

  /** `check_pkg` on a package of a non-excluded architecture keeps the
      root-loop invariant. */
  lemma CheckPkgScan(g: Graph, cfg: Config, rank: seq<nat>, s: State, p: PkgId)
    requires Setup(g, cfg, rank) && p < |g.packages| && !Excluded(g, cfg, p) && ScanInv(g, cfg, s)
    ensures ScanInv(g, cfg, AfterCheckPkg(g, cfg, rank, s, p))
  {
    var pkg := g.packages[p];
    if pkg.current.Some? && pkg.name !in s.keeps && !pkg.auto {
      var s1 := s.(pkgs := s.pkgs + {pkg.name});
      var k := Keep(g, s1, p);
      KeepClosed(g, cfg, s1, p);
      HoldKindsClosed(g, cfg, rank, k, p, 0);
      HoldKindsTraced(g, cfg, rank, k, p, 0);
      var d := AfterHoldKinds(g, cfg, rank, k, p, 0);
      KindsCoverHeldDeps(g, cfg, d, p);
      ExpandClosed(g, cfg, d, p);
      var e := Expand(d, p);
      assert AfterCheckPkg(g, cfg, rank, s, p) == e;
      CheckPkgSettled(g, cfg, rank, s, p);
      CheckPkgRootward(g, cfg, rank, s, p);
      CheckPkgRecords(g, cfg, rank, s, p);
    }
  }

  /** `check_pkg` leaves every package it visits with its provides list
      recorded, and keeps what was recorded before. */
  lemma CheckPkgRecords(g: Graph, cfg: Config, rank: seq<nat>, s: State, p: PkgId)
    requires Setup(g, cfg, rank) && Installed(g, p) && !g.packages[p].auto && g.packages[p].name !in s.keeps
    requires AllRecorded(g, cfg, s) && KeyedByName(s)
    ensures AllRecorded(g, cfg, AfterCheckPkg(g, cfg, rank, s, p))
  {
    var k := Keep(g, s.(pkgs := s.pkgs + {g.packages[p].name}), p);
    HoldKindsRecords(g, cfg, rank, k, p, 0);
    HoldKindsTraced(g, cfg, rank, k, p, 0);
    var e := Expand(AfterHoldKinds(g, cfg, rank, k, p, 0), p);
    assert AfterCheckPkg(g, cfg, rank, s, p) == e;
    forall v | v in e.trace.visited && v < |g.packages|
      ensures ProvidersRecorded(g, cfg, e.virtuals, v)
    {
      if v in s.trace.visited {
        RecordedGrows(g, cfg, s.virtuals, e.virtuals, v);
      }
    }
  }

  /** After `check_pkg` every kept package is expanded, and every kept
      auto-installed package visited. */
  lemma CheckPkgSettled(g: Graph, cfg: Config, rank: seq<nat>, s: State, p: PkgId)
    requires Setup(g, cfg, rank) && Installed(g, p) && !g.packages[p].auto && g.packages[p].name !in s.keeps
    requires Settled(s) && AutoVisited(g, s) && KeyedByName(s)
    ensures var e := AfterCheckPkg(g, cfg, rank, s, p); Settled(e) && AutoVisited(g, e)
  {
    var pkg := g.packages[p];
    var k := Keep(g, s.(pkgs := s.pkgs + {pkg.name}), p);
    HoldKindsTraced(g, cfg, rank, k, p, 0);
    var d := AfterHoldKinds(g, cfg, rank, k, p, 0);
    assert AfterCheckPkg(g, cfg, rank, s, p) == Expand(d, p);
    assert d.trace.keptBy[pkg.name] == p;
  }

  /** Everything `check_pkg` touches or keeps is reached from the root it
      starts at. */
  lemma CheckPkgRootward(g: Graph, cfg: Config, rank: seq<nat>, s: State, p: PkgId)
    requires Setup(g, cfg, rank) && IsRoot(g, cfg, p) && g.packages[p].name !in s.keeps
    requires Rootward(g, cfg, s) && KeyedByName(s)
    ensures Rootward(g, cfg, AfterCheckPkg(g, cfg, rank, s, p))
  {
    var pkg := g.packages[p];
    var s1 := s.(pkgs := s.pkgs + {pkg.name});
    var k := Keep(g, s1, p);
    HoldKindsTraced(g, cfg, rank, k, p, 0);
    var e := Expand(AfterHoldKinds(g, cfg, rank, k, p, 0), p);
    assert AfterCheckPkg(g, cfg, rank, s, p) == e;
    forall x | x in e.trace.touched
      ensures !Excluded(g, cfg, x) && Rooted(g, cfg, x)
    {
      if x !in s.trace.touched {
        RootedFrom(g, cfg, p, x);
      }
    }
    forall n | n in e.trace.keptBy
      ensures !Excluded(g, cfg, e.trace.keptBy[n]) && Rooted(g, cfg, e.trace.keptBy[n])
    {
      if n == pkg.name {
        ReachSelf(g, cfg, p);
        assert e.trace.keptBy[n] == p;
        RootedFrom(g, cfg, p, p);
      } else if n !in s.trace.keptBy {
        RootedFrom(g, cfg, p, e.trace.keptBy[n]);
      }
    }
  }

  lemma {:induction false} RootLoopScan(g: Graph, cfg: Config, rank: seq<nat>, s: State, i: nat)
    requires Setup(g, cfg, rank) && i <= |g.packages| && ScanInv(g, cfg, s)
    decreases |g.packages| - i
    ensures ScanInv(g, cfg, AfterRootLoop(g, cfg, rank, s, i))
  {
    if i < |g.packages| {
      var s' := s;
      if g.packages[i].arch !in cfg.excludeArchs {
        CheckPkgScan(g, cfg, rank, s, i);
        s' := AfterCheckPkg(g, cfg, rank, s, i);
      }
      RootLoopScan(g, cfg, rank, s', i + 1);
    }
  }

  /** `hold_pkg(p)` adds to `keeps` only names of installed packages that
      `p` reaches through followed edges. */
  lemma HoldPkgKeepsInstalled(g: Graph, cfg: Config, rank: seq<nat>, s: State, p: PkgId)
    requires Setup(g, cfg, rank) && p < |g.packages| && Closed(g, cfg, s) && RecordedBut(g, s, p)
    ensures var r := AfterHoldPkg(g, cfg, rank, s, p);
      forall n :: n in r.keeps && n !in s.keeps ==>
        exists x :: 0 <= x < |g.packages| && Installed(g, x) && g.packages[x].name == n && Reach(g, cfg, p, x)
  {
    HoldPkgClosed(g, cfg, rank, s, p);
    HoldPkgTraced(g, cfg, rank, s, p);
    var r := AfterHoldPkg(g, cfg, rank, s, p);
    forall n | n in r.keeps && n !in s.keeps
      ensures exists x :: 0 <= x < |g.packages| && Installed(g, x) && g.packages[x].name == n && Reach(g, cfg, p, x)
    {
      var x := r.trace.keptBy[n];
    }
  }

  /** Where the traversal has been, per package: an installed package was
      expanded, and visited too when auto-installed; one that is not
      installed was visited. */
  ghost predicate Handled(g: Graph, s: State, x: PkgId)
  {
    x < |g.packages| &&
    (if Installed(g, x) then x in s.trace.expanded && (g.packages[x].auto ==> x in s.trace.visited)
     else x in s.trace.visited)
  }

  /** With one package per name, a covered package is handled. */
  lemma CoveredHandled(g: Graph, cfg: Config, s: State, x: PkgId)
    requires NamesUnique(g) && Closed(g, cfg, s) && Settled(s) && AutoVisited(g, s) && Covered(g, s, x)
    ensures Handled(g, s, x)
  {
    var name := g.packages[x].name;
    if name in s.keeps {
      assert s.trace.keptBy[name] == x;
    }
  }

  /** With one package per name and the closure facts of a settled state,
      every package on a walk from a kept package is handled. */
  lemma {:induction false} CoreWalkHandled(g: Graph, cfg: Config, s: State, path: seq<PkgId>)
    requires NamesUnique(g) && Closed(g, cfg, s) && Settled(s) && AutoVisited(g, s)
    requires CoreWalk(g, cfg, path) && g.packages[path[0]].name in s.keeps
    ensures Handled(g, s, path[|path| - 1])
  {
    var x := path[|path| - 1];
    if |path| == 1 {
      CoveredHandled(g, cfg, s, x);
    } else {
      var prefix := path[..|path| - 1];
      assert CoreWalk(g, cfg, prefix) by {
        forall i | 0 <= i < |prefix| - 1
          ensures CoreStep(g, cfg, prefix[i], prefix[i + 1])
        {
          assert prefix[i] == path[i] && prefix[i + 1] == path[i + 1];
        }
      }
      CoreWalkHandled(g, cfg, s, prefix);
      assert CoreStep(g, cfg, prefix[|prefix| - 1], x);
      CoveredHandled(g, cfg, s, x);
    }
  }

  /** `n` is the name of an installed package of a non-excluded
      architecture reached from a manually installed package. */
  ghost predicate Justified(g: Graph, cfg: Config, n: string)
  {
    exists x :: 0 <= x < |g.packages| && g.packages[x].name == n && Installed(g, x) && !Excluded(g, cfg, x) && Rooted(g, cfg, x)
  }

  /** `x` is an installed package of a non-excluded architecture named
      `n`, and the scan has held through it: every installed package of a
      non-excluded architecture that a held dependency of `x` names is
      held, and so, when `x` is auto-installed, is every such package in its
      provides list. */
  ghost predicate HeldThrough(g: Graph, cfg: Config, keeps: set<string>, n: string, x: PkgId)
  {
    && x < |g.packages| && g.packages[x].name == n && Installed(g, x) && !Excluded(g, cfg, x)
    && (forall t: PkgId :: HeldDep(g, cfg, x, t) && Installed(g, t) && !Excluded(g, cfg, t) ==> g.packages[t].name in keeps)
    && (g.packages[x].auto ==>
          forall t: PkgId :: Provider(g, x, t) && Installed(g, t) && !Excluded(g, cfg, t) ==> g.packages[t].name in keeps)
  }

  /** Every held name belongs to a package the scan has held through. */
  ghost predicate KeptClosed(g: Graph, cfg: Config, keeps: set<string>)
  {
    forall n :: n in keeps ==> exists x: PkgId :: HeldThrough(g, cfg, keeps, n, x)
  }

  /** As KeptClosed, and the provides list of each auto-installed such
      package is recorded in `virtuals`. */
  ghost predicate KeptRecorded(g: Graph, cfg: Config, keeps: set<string>, virtuals: map<string, set<string>>)
  {
    forall n :: n in keeps ==> exists x: PkgId ::
      HeldThrough(g, cfg, keeps, n, x) && (g.packages[x].auto ==> ProvidersRecorded(g, cfg, virtuals, x))
  }

  /** The held dependencies of an expanded package that are installed
      and of a non-excluded architecture are held. */
  lemma ExpandedHoldsDeps(g: Graph, cfg: Config, s: State, x: PkgId)
    requires Consistent(g, s) && DepsClosed(g, cfg, s) && x in s.trace.expanded
    ensures forall t: PkgId :: HeldDep(g, cfg, x, t) && Installed(g, t) && !Excluded(g, cfg, t) ==> g.packages[t].name in s.keeps
  {
    forall t: PkgId | HeldDep(g, cfg, x, t) && Installed(g, t) && !Excluded(g, cfg, t)
      ensures g.packages[t].name in s.keeps
    {
      assert Covered(g, s, t);
    }
  }

  /** The providers of a visited package that are installed and of a
      non-excluded architecture are held. */
  lemma VisitedHoldsProviders(g: Graph, cfg: Config, s: State, x: PkgId)
    requires Consistent(g, s) && ProvidesClosed(g, cfg, s) && x in s.trace.visited
    ensures forall t: PkgId :: Provider(g, x, t) && Installed(g, t) && !Excluded(g, cfg, t) ==> g.packages[t].name in s.keeps
  {
    forall t: PkgId | Provider(g, x, t) && Installed(g, t) && !Excluded(g, cfg, t)
      ensures g.packages[t].name in s.keeps
    {
      assert Covered(g, s, t);
    }
  }

  /** Dropping what is recorded leaves the closure, over any listing of
      the held names. */
  lemma RecordedClosed(g: Graph, cfg: Config, keeps: set<string>, virtuals: map<string, set<string>>, held: seq<string>)
    requires KeptRecorded(g, cfg, keeps, virtuals) && (forall n :: n in held <==> n in keeps)
    ensures KeptClosed(g, cfg, set n | n in held)
  {
    assert (set n | n in held) == keeps;
    forall n | n in keeps
      ensures exists x: PkgId :: HeldThrough(g, cfg, keeps, n, x)
    {
      var x: PkgId :| HeldThrough(g, cfg, keeps, n, x) && (g.packages[x].auto ==> ProvidersRecorded(g, cfg, virtuals, x));
    }
  }

  /** Between iterations of the root loop, every held name belongs to a
      package the scan has held through: the one that kept it. */
  lemma ScanKeptRecorded(g: Graph, cfg: Config, s: State)
    requires ScanInv(g, cfg, s)
    ensures KeptRecorded(g, cfg, s.keeps, s.virtuals)
  {
    forall n | n in s.keeps
      ensures exists x: PkgId :: HeldThrough(g, cfg, s.keeps, n, x) && (g.packages[x].auto ==> ProvidersRecorded(g, cfg, s.virtuals, x))
    {
      var x := s.trace.keptBy[n];
      ExpandedHoldsDeps(g, cfg, s, x);
      if g.packages[x].auto {
        VisitedHoldsProviders(g, cfg, s, x);
      }
      assert HeldThrough(g, cfg, s.keeps, n, x);
    }
  }

  /** The state after the root loop, from the empty state. */
  ghost function Final(g: Graph, cfg: Config, rank: seq<nat>): State
    requires Setup(g, cfg, rank)
  {
    AfterRootLoop(g, cfg, rank, Start, 0)
  }

  /** The root loop records every installed package of a non-excluded
      architecture, holds every manually installed one, and holds only
      names of installed packages reached from those. */
  lemma RootLoopSound(g: Graph, cfg: Config, rank: seq<nat>)
    requires Setup(g, cfg, rank)
    ensures var r := Final(g, cfg, rank);
      && (forall n :: n in r.pkgs <==> exists p :: 0 <= p < |g.packages| && Installed(g, p) && !Excluded(g, cfg, p) && g.packages[p].name == n)
      && (forall p :: 0 <= p < |g.packages| && IsRoot(g, cfg, p) ==> g.packages[p].name in r.keeps)
      && (forall n :: n in r.keeps ==> Justified(g, cfg, n))
      && (forall x :: x in r.trace.touched ==> !Excluded(g, cfg, x) && Rooted(g, cfg, x))
      && (forall v, n :: v in r.virtuals && n in r.virtuals[v] ==> n in r.keeps)
      && KeptRecorded(g, cfg, r.keeps, r.virtuals)
  {
    RootLoopScan(g, cfg, rank, Start, 0);
    var r := Final(g, cfg, rank);
    forall n | n in r.keeps
      ensures Justified(g, cfg, n)
    {
      var x := r.trace.keptBy[n];
      assert Installed(g, x) && g.packages[x].name == n;
    }
    ScanKeptRecorded(g, cfg, r);
  }

  /** With one package per name, the root loop holds every installed
      package reached from a manually installed one through held
      dependencies of installed packages and providers of packages that are
      auto-installed or not installed. */
  lemma RootLoopComplete(g: Graph, cfg: Config, rank: seq<nat>, path: seq<PkgId>)
    requires Setup(g, cfg, rank) && NamesUnique(g)
    requires CoreWalk(g, cfg, path) && IsRoot(g, cfg, path[0]) && Installed(g, path[|path| - 1])
    ensures g.packages[path[|path| - 1]].name in Final(g, cfg, rank).keeps
  {
    RootLoopScan(g, cfg, rank, Start, 0);
    CoreWalkHandled(g, cfg, Final(g, cfg, rank), path);
  }

  /** RootLoopComplete for every walk at once. */
  lemma RootLoopCompleteAll(g: Graph, cfg: Config, rank: seq<nat>)
    requires Setup(g, cfg, rank)
    ensures NamesUnique(g) ==>
      forall path :: CoreWalk(g, cfg, path) && IsRoot(g, cfg, path[0]) && Installed(g, path[|path| - 1]) ==>
        g.packages[path[|path| - 1]].name in Final(g, cfg, rank).keeps
  {
    if NamesUnique(g) {
      forall path | CoreWalk(g, cfg, path) && IsRoot(g, cfg, path[0]) && Installed(g, path[|path| - 1])
        ensures g.packages[path[|path| - 1]].name in Final(g, cfg, rank).keeps
      {
        RootLoopComplete(g, cfg, rank, path);
      }
    }
  }

  /** With one package per name, every package that is not installed and
      is reached from a root through held dependencies of installed
      packages and providers of packages that are auto-installed or not
      installed has its provides list recorded: `hold_pkg` got past the
      `keeps` guard for it, and walked its providers. */
  lemma VirtualReachedRecorded(g: Graph, cfg: Config, rank: seq<nat>, path: seq<PkgId>)
    requires Setup(g, cfg, rank) && NamesUnique(g)
    requires CoreWalk(g, cfg, path) && IsRoot(g, cfg, path[0])
    requires path[|path| - 1] < |g.packages| && !Installed(g, path[|path| - 1])
    ensures ProvidersRecorded(g, cfg, Final(g, cfg, rank).virtuals, path[|path| - 1])
  {
    RootLoopScan(g, cfg, rank, Start, 0);
    CoreWalkHandled(g, cfg, Final(g, cfg, rank), path);
  }

  /** VirtualReachedRecorded for every walk at once. */
  lemma VirtualReachedRecordedAll(g: Graph, cfg: Config, rank: seq<nat>)
    requires Setup(g, cfg, rank)
    ensures NamesUnique(g) ==>
      forall path :: (CoreWalk(g, cfg, path) && IsRoot(g, cfg, path[0]) &&
                       path[|path| - 1] < |g.packages| && !Installed(g, path[|path| - 1])) ==>
        ProvidersRecorded(g, cfg, Final(g, cfg, rank).virtuals, path[|path| - 1])
  {
    if NamesUnique(g) {
      forall path | CoreWalk(g, cfg, path) && IsRoot(g, cfg, path[0]) &&
        path[|path| - 1] < |g.packages| && !Installed(g, path[|path| - 1])
        ensures ProvidersRecorded(g, cfg, Final(g, cfg, rank).virtuals, path[|path| - 1])
      {
        VirtualReachedRecorded(g, cfg, rank, path);
      }
    }
  }
}
