/** The cyclic-orphan scanner: starting from every manually installed
    package, hold (keep) everything it needs through held dependency kinds
    and provides entries; every other installed package is an orphan, even
    when its only users are other orphans in a dependency cycle. */
module Orphans {
  import opened PackageGraph
  import opened Strings
  import opened Reporting
  import opened Traversal
  import opened Results
  import opened Recording

  /** The module-level state of the scanner (`pkgs`, `keeps`, `virtuals`)
      and the procedures that update it in place. The ghost `trace` records
      where the traversal has been, for the proofs only. */
  class Scanner {
    const g: Graph
    const cfg: Config
    ghost const rank: seq<nat>

    /** Names of every installed package the root loop has seen. */
    var pkgs: set<string>
    /** Names of the held packages. */
    var keeps: set<string>
    /** Virtual name -> names of installed packages seen providing it. */
    var virtuals: map<string, set<string>>
    ghost var trace: Trace

    ghost function Current(): State
      reads this
    {
      State(pkgs, keeps, virtuals, trace)
    }

    constructor (g: Graph, cfg: Config, ghost rank: seq<nat>)
      requires Setup(g, cfg, rank)
      ensures this.g == g && this.cfg == cfg && this.rank == rank
      ensures Current() == Start
    {
      this.g, this.cfg, this.rank := g, cfg, rank;
      pkgs, keeps, virtuals := {}, {}, map[];
      trace := Start.trace;
    }

    /** `flag_provides(virtual, q)`. */
    method FlagProvides(virtual: string, q: PkgId)
      requires q < |g.packages|
      modifies this`virtuals, this`trace
      ensures Current() == AfterFlagProvides(g, old(Current()), virtual, q)
    {
      trace := trace.(touched := trace.touched + {q});
      if g.packages[q].current.Some? {
        var name := g.packages[q].name;
        if virtual !in virtuals {
          virtuals := virtuals[virtual := {}];
        }
        virtuals := virtuals[virtual := virtuals[virtual] + {name}];
      }
    }

    /** `hold_pkg(p)`. */
    method HoldPkg(p: PkgId)
      requires Setup(g, cfg, rank) && p < |g.packages|
      modifies this
      decreases Unkept(g.packages, keeps), rank[p], 3, 0
      ensures Current() == AfterHoldPkg(g, cfg, rank, old(Current()), p)
    {
      trace := trace.(touched := trace.touched + {p});
      var pkg := g.packages[p];
      if pkg.name in keeps {
        return;
      }
      if pkg.current.Some? {
        keeps := keeps + {pkg.name};
        trace := trace.(keptBy := trace.keptBy[pkg.name := p]);
        UnkeptAdd(g.packages, old(keeps), p);
        HoldDependencies(p);
        trace := trace.(expanded := trace.expanded + {p});
      }
      if |pkg.providedBy| > 0 {
        FlagProvides(pkg.name, p);
        HoldProvides(p);
      }
      trace := trace.(visited := trace.visited + {p});
    }

    /** `hold_provides(provides_list)` for the provides list of `p`. */
    method HoldProvides(p: PkgId)
      requires Setup(g, cfg, rank) && p < |g.packages|
      modifies this
      decreases (if Installed(g, p) then Unkept(g.packages, keeps) + 1 else Unkept(g.packages, keeps)),
                (if Installed(g, p) then 0 else rank[p]), 2, 0
      ensures Current() == AfterHoldProvides(g, cfg, rank, old(Current()), p, 0)
    {
      var list := g.packages[p].providedBy;
      ghost var goal := AfterHoldProvides(g, cfg, rank, Current(), p, 0);
      var i := 0;
      while i < |list|
        invariant 0 <= i <= |list|
        invariant AfterHoldProvides(g, cfg, rank, Current(), p, i) == goal
        invariant Unkept(g.packages, keeps) <= Unkept(g.packages, old(keeps))
      {
        var q := list[i].provider;
        if g.packages[q].arch !in cfg.excludeArchs {
          FlagProvides(list[i].name, q);
          HoldPkg(q);
        }
        i := i + 1;
      }
    }

    /** `hold_dependencies(depends_list)` for the installed version of `p`. */
    method HoldDependencies(p: PkgId)
      requires Setup(g, cfg, rank) && Installed(g, p)
      modifies this
      decreases Unkept(g.packages, keeps) + 1, 0, 2, 0
      ensures Current() == AfterHoldKinds(g, cfg, rank, old(Current()), p, 0)
    {
      var ds := g.packages[p].current.value.depends;
      ghost var goal := AfterHoldKinds(g, cfg, rank, Current(), p, 0);
      var i := 0;
      while i < |ds|
        invariant 0 <= i <= |ds|
        invariant AfterHoldKinds(g, cfg, rank, Current(), p, i) == goal
        invariant Unkept(g.packages, keeps) <= Unkept(g.packages, old(keeps))
      {
        if ds[i].kind in cfg.holds {
          var deps := ds[i].groups;
          ghost var kindGoal := AfterHoldGroups(g, cfg, rank, Current(), p, i, 0);
          assert AfterHoldKinds(g, cfg, rank, Current(), p, i) == AfterHoldKinds(g, cfg, rank, kindGoal, p, i + 1);
          var j := 0;
          while j < |deps|
            invariant 0 <= j <= |deps|
            invariant AfterHoldGroups(g, cfg, rank, Current(), p, i, j) == kindGoal
            invariant Unkept(g.packages, keeps) <= Unkept(g.packages, old(keeps))
          {
            var dep := deps[j];
            ghost var groupGoal := AfterHoldAlternatives(g, cfg, rank, Current(), p, i, j, 0);
            assert AfterHoldGroups(g, cfg, rank, Current(), p, i, j) == AfterHoldGroups(g, cfg, rank, groupGoal, p, i, j + 1);
            var k := 0;
            while k < |dep|
              invariant 0 <= k <= |dep|
              invariant AfterHoldAlternatives(g, cfg, rank, Current(), p, i, j, k) == groupGoal
              invariant Unkept(g.packages, keeps) <= Unkept(g.packages, old(keeps))
            {
              var t := dep[k];
              if g.packages[t].arch !in cfg.excludeArchs {
                HoldPkg(t);
              }
              k := k + 1;
            }
            j := j + 1;
          }
        }
        i := i + 1;
      }
    }

    /** `check_pkg(p)`; `auto` stands for `dep_cache.is_auto_installed`. */
    method CheckPkg(p: PkgId)
      requires Setup(g, cfg, rank) && p < |g.packages|
      modifies this
      ensures Current() == AfterCheckPkg(g, cfg, rank, old(Current()), p)
    {
      var pkg := g.packages[p];
      if pkg.current.None? {
        return;
      }
      pkgs := pkgs + {pkg.name};
      if pkg.name in keeps {
        return;
      }
      if pkg.auto {
        return;
      }
      keeps := keeps + {pkg.name};
      trace := trace.(keptBy := trace.keptBy[pkg.name := p]);
      HoldDependencies(p);
      trace := trace.(expanded := trace.expanded + {p});
    }

    /** The root loop over `cache.packages`. */
    method RootLoop()
      requires Setup(g, cfg, rank)
      modifies this
      ensures Current() == AfterRootLoop(g, cfg, rank, old(Current()), 0)
    {
      var i := 0;
      while i < |g.packages|
        invariant 0 <= i <= |g.packages|
        invariant AfterRootLoop(g, cfg, rank, Current(), i) == AfterRootLoop(g, cfg, rank, old(Current()), 0)
      {
        if g.packages[i].arch !in cfg.excludeArchs {
          CheckPkg(i);
        }
        i := i + 1;
      }
    }
  }

  /** Run the root loop over the whole cache and return the three
      accumulators. */
  method ScanCache(g: Graph, cfg: Config, ghost rank: seq<nat>)
    returns (pkgs: set<string>, keeps: set<string>, virtuals: map<string, set<string>>)
    requires Setup(g, cfg, rank)
    ensures forall n :: n in pkgs <==>
      exists p :: 0 <= p < |g.packages| && Installed(g, p) && !Excluded(g, cfg, p) && g.packages[p].name == n
    ensures forall p :: 0 <= p < |g.packages| && IsRoot(g, cfg, p) ==> g.packages[p].name in keeps
    ensures forall n :: n in keeps ==> Justified(g, cfg, n)
    ensures NamesUnique(g) ==>
      forall path :: CoreWalk(g, cfg, path) && IsRoot(g, cfg, path[0]) && Installed(g, path[|path| - 1]) ==>
        g.packages[path[|path| - 1]].name in keeps
    ensures forall v, n :: v in virtuals && n in virtuals[v] ==> n in keeps
    ensures KeptRecorded(g, cfg, keeps, virtuals)
    ensures NamesUnique(g) ==>
      forall path :: (CoreWalk(g, cfg, path) && IsRoot(g, cfg, path[0]) &&
                       path[|path| - 1] < |g.packages| && !Installed(g, path[|path| - 1])) ==>
        ProvidersRecorded(g, cfg, virtuals, path[|path| - 1])
  {
    var scanner := new Scanner(g, cfg, rank);
    scanner.RootLoop();
    pkgs, keeps, virtuals := scanner.pkgs, scanner.keeps, scanner.virtuals;
    ghost var r := Final(g, cfg, rank);
    assert keeps == r.keeps && pkgs == r.pkgs && virtuals == r.virtuals by {
      assert scanner.Current() == r;
    }
    RootLoopSound(g, cfg, rank);
    RootLoopCompleteAll(g, cfg, rank);
    VirtualReachedRecordedAll(g, cfg, rank);
  }

  /** The whole program: scan the cache, then report the held names, the
      orphans (installed packages of a non-excluded architecture whose name
      is not held) and the virtual names with more than one provider, each
      sorted. */
  method FindOrphans(g: Graph, cfg: Config, ghost rank: seq<nat>) returns (report: Report)
    requires Setup(g, cfg, rank)
    ensures StrictlySorted(report.held) && StrictlySorted(report.orphans)
    ensures forall n :: n in report.orphans <==>
      n !in report.held &&
      exists p :: 0 <= p < |g.packages| && Installed(g, p) && !Excluded(g, cfg, p) && g.packages[p].name == n
    ensures forall p :: 0 <= p < |g.packages| && IsRoot(g, cfg, p) ==> g.packages[p].name in report.held
    ensures forall n :: n in report.held ==> Justified(g, cfg, n)
    ensures NamesUnique(g) ==>
      forall path :: CoreWalk(g, cfg, path) && IsRoot(g, cfg, path[0]) && Installed(g, path[|path| - 1]) ==>
        g.packages[path[|path| - 1]].name in report.held
    ensures forall a, b :: 0 <= a < b < |report.ambiguous| ==> Below(report.ambiguous[a].name, report.ambiguous[b].name)
    ensures forall a :: 0 <= a < |report.ambiguous| ==>
      |report.ambiguous[a].providers| > 1 && StrictlySorted(report.ambiguous[a].providers) &&
      forall n :: n in report.ambiguous[a].providers ==> n in report.held
    ensures KeptClosed(g, cfg, set n | n in report.held)
  {
    var pkgs, keeps, virtuals := ScanCache(g, cfg, rank);
    report := BuildReport(keeps, pkgs, virtuals);
    RecordedClosed(g, cfg, keeps, virtuals, report.held);
  }
}
