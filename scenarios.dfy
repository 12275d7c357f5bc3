/** Two worked caches. In the first, a manually installed `app` only
    suggests `libx`, and the auto-installed `libx` and `liby` depend on
    each other: with the default held kinds nothing held reaches the
    cycle, so both are orphans although each has a reverse dependency. In
    the second, `app` depends on `libb`, and `libb` and `libc` depend on
    each other: the whole cycle is held and nothing is an orphan. In the
    third, `app` depends on the virtual `libfoo`, which is not installed
    and is provided by the auto-installed `p1` and `p2`: both providers are
    recorded under `libfoo`, which is then reported as ambiguous. */
module Scenarios {
  import opened PackageGraph
  import opened Results
  import opened Recording

  const Cycle := Graph([
    Package("app", "amd64", false, Some(Version([DependsEntry("Suggests", [[1]])])), []),
    Package("libx", "amd64", true, Some(Version([DependsEntry("Depends", [[2]])])), []),
    Package("liby", "amd64", true, Some(Version([DependsEntry("Depends", [[1]])])), [])
  ])

  const Defaults := Config({}, DefaultHolds)

  /** `app` has no edge the scanner follows: its one dependency is of a
      kind that is not held, and nothing provides it. */
  lemma AppHasNoStep(w: PkgId)
    ensures !Step(Cycle, Defaults, 0, w)
  {
    assert "Suggests" !in DefaultHolds;
    assert |Cycle.packages[0].providedBy| == 0;
  }

  /** Every walk out of `app` stays at `app`. */
  lemma AppReachesOnlyItself(x: PkgId)
    requires Reach(Cycle, Defaults, 0, x)
    ensures x == 0
  {
    var path :| WalkFromTo(Cycle, Defaults, path, 0, x);
    if |path| > 1 {
      assert Step(Cycle, Defaults, path[0], path[1]);
      AppHasNoStep(path[1]);
    }
  }

  /** `libx` and `liby` are auto-installed: `app` is the only root. */
  lemma OnlyRootIsApp(r: PkgId)
    requires IsRoot(Cycle, Defaults, r)
    ensures r == 0
  {
  }

  /** No package of the cycle is reached from a root. */
  lemma CycleUnrooted(x: PkgId)
    requires 0 < x
    ensures !Rooted(Cycle, Defaults, x)
  {
    if Rooted(Cycle, Defaults, x) {
      var root :| IsRoot(Cycle, Defaults, root) && Reach(Cycle, Defaults, root, x);
      OnlyRootIsApp(root);
      AppReachesOnlyItself(x);
    }
  }

  lemma CycleNotJustified(n: string)
    requires n != "app"
    ensures !Justified(Cycle, Defaults, n)
  {
    forall x | 0 <= x < |Cycle.packages| && Cycle.packages[x].name == n
      ensures !Rooted(Cycle, Defaults, x)
    {
      assert Cycle.packages[0].name == "app";
      CycleUnrooted(x);
    }
  }

  /** Every package of the cache is installed, so any rank is a
      termination witness. */
  lemma CycleSetup(rank: seq<nat>)
    requires |rank| == 3
    ensures Setup(Cycle, Defaults, rank)
  {
    assert RefsWithin(Cycle.packages[0], 3);
    assert RefsWithin(Cycle.packages[1], 3);
    assert RefsWithin(Cycle.packages[2], 3);
  }

  /** `app` is held, while `libx` and `liby` are recorded as installed and
      not held: both are reported as orphans. */
  lemma CycleIsOrphaned(rank: seq<nat>)
    requires |rank| == 3
    ensures Setup(Cycle, Defaults, rank)
    ensures var r := Final(Cycle, Defaults, rank);
      "app" in r.keeps && "libx" in r.pkgs - r.keeps && "liby" in r.pkgs - r.keeps
  {
    CycleSetup(rank);
    RootLoopSound(Cycle, Defaults, rank);
    var r := Final(Cycle, Defaults, rank);
    assert "app" in r.keeps by {
      assert IsRoot(Cycle, Defaults, 0);
    }
    assert "libx" in r.pkgs && "liby" in r.pkgs by {
      assert Installed(Cycle, 1) && !Excluded(Cycle, Defaults, 1) && Cycle.packages[1].name == "libx";
      assert Installed(Cycle, 2) && !Excluded(Cycle, Defaults, 2) && Cycle.packages[2].name == "liby";
    }
    CycleNotJustified("libx");
    CycleNotJustified("liby");
  }

  const Chain := Graph([
    Package("app", "amd64", false, Some(Version([DependsEntry("Depends", [[1]])])), []),
    Package("libb", "amd64", true, Some(Version([DependsEntry("Depends", [[2]])])), []),
    Package("libc", "amd64", true, Some(Version([DependsEntry("Depends", [[1]])])), [])
  ])

  lemma ChainSetup(rank: seq<nat>)
    requires |rank| == 3
    ensures Setup(Chain, Defaults, rank)
  {
    assert RefsWithin(Chain.packages[0], 3);
    assert RefsWithin(Chain.packages[1], 3);
    assert RefsWithin(Chain.packages[2], 3);
  }

  /** The three names differ, so `keeps` stands for the packages. */
  lemma ChainNamesUnique()
    ensures NamesUnique(Chain)
  {
    assert Chain.packages[0].name[0] == 'a' && Chain.packages[1].name[0] == 'l' && Chain.packages[2].name[0] == 'l';
    assert Chain.packages[1].name[3] == 'b' && Chain.packages[2].name[3] == 'c';
  }

  /** `app` -> `libb` -> `libc` follows held `Depends` edges only. */
  lemma ChainWalks()
    ensures CoreWalk(Chain, Defaults, [0, 1]) && CoreWalk(Chain, Defaults, [0, 1, 2])
  {
    assert "Depends" in DefaultHolds;
    assert HeldDep(Chain, Defaults, 0, 1) by {
      assert Deps(Chain, 0)[0].groups[0][0] == 1;
    }
    assert HeldDep(Chain, Defaults, 1, 2) by {
      assert Deps(Chain, 1)[0].groups[0][0] == 2;
    }
  }

  /** The root and, by completeness, both packages of the cycle are held. */
  lemma ChainIsHeld(rank: seq<nat>)
    requires |rank| == 3
    ensures Setup(Chain, Defaults, rank)
    ensures var r := Final(Chain, Defaults, rank);
      "app" in r.keeps && "libb" in r.keeps && "libc" in r.keeps
  {
    ChainSetup(rank);
    ChainNamesUnique();
    ChainWalks();
    assert IsRoot(Chain, Defaults, 0);
    RootLoopSound(Chain, Defaults, rank);
    RootLoopComplete(Chain, Defaults, rank, [0, 1]);
    RootLoopComplete(Chain, Defaults, rank, [0, 1, 2]);
  }

  /** When every installed package of a non-excluded architecture is
      held, there is no orphan. */
  lemma NoOrphansWhenAllHeld(g: Graph, cfg: Config, rank: seq<nat>)
    requires Setup(g, cfg, rank)
    requires forall x :: 0 <= x < |g.packages| && Installed(g, x) && !Excluded(g, cfg, x) ==>
      g.packages[x].name in Final(g, cfg, rank).keeps
    ensures var r := Final(g, cfg, rank); r.pkgs - r.keeps == {}
  {
    RootLoopSound(g, cfg, rank);
    var r := Final(g, cfg, rank);
    forall n | n in r.pkgs
      ensures n in r.keeps
    {
      var x :| 0 <= x < |g.packages| && Installed(g, x) && !Excluded(g, cfg, x) && g.packages[x].name == n;
    }
  }

  /** Nothing in the second cache is an orphan. */
  lemma ChainHasNoOrphans(rank: seq<nat>)
    requires |rank| == 3
    ensures Setup(Chain, Defaults, rank)
    ensures var r := Final(Chain, Defaults, rank); r.pkgs - r.keeps == {}
  {
    ChainIsHeld(rank);
    forall x | 0 <= x < |Chain.packages| && Installed(Chain, x) && !Excluded(Chain, Defaults, x)
      ensures Chain.packages[x].name in Final(Chain, Defaults, rank).keeps
    {
      assert x == 0 || x == 1 || x == 2;
    }
    NoOrphansWhenAllHeld(Chain, Defaults, rank);
  }

  const Virtual := Graph([
    Package("app", "amd64", false, Some(Version([DependsEntry("Depends", [[1]])])), []),
    Package("libfoo", "amd64", false, None, [Provide("libfoo", 2), Provide("libfoo", 3)]),
    Package("p1", "amd64", true, Some(Version([])), []),
    Package("p2", "amd64", true, Some(Version([])), [])
  ])

  /** `libfoo` is not installed, so the rank must fall from it to each of
      its providers. */
  lemma VirtualSetup(rank: seq<nat>)
    requires |rank| == 4 && rank[2] < rank[1] && rank[3] < rank[1]
    ensures Setup(Virtual, Defaults, rank)
  {
    assert RefsWithin(Virtual.packages[0], 4);
    assert RefsWithin(Virtual.packages[1], 4);
    assert RefsWithin(Virtual.packages[2], 4);
    assert RefsWithin(Virtual.packages[3], 4);
  }

  lemma VirtualNamesUnique()
    ensures NamesUnique(Virtual)
  {
    assert Virtual.packages[0].name[0] == 'a' && Virtual.packages[1].name[0] == 'l';
    assert Virtual.packages[2].name[0] == 'p' && Virtual.packages[3].name[0] == 'p';
    assert Virtual.packages[2].name[1] == '1' && Virtual.packages[3].name[1] == '2';
  }

  /** `app` -> `libfoo` follows a held `Depends` edge. */
  lemma VirtualWalk()
    ensures CoreWalk(Virtual, Defaults, [0, 1])
  {
    assert "Depends" in DefaultHolds;
    assert HeldDep(Virtual, Defaults, 0, 1) by {
      assert Deps(Virtual, 0)[0].groups[0][0] == 1;
    }
  }

  /** Two installed providers of a non-excluded architecture that give the
      same name, in a recorded provides list, are both recorded under it. */
  lemma TwoProvidersRecorded(g: Graph, cfg: Config, m: map<string, set<string>>, v: PkgId)
    requires v < |g.packages| && ProvidersRecorded(g, cfg, m, v)
    requires |g.packages[v].providedBy| >= 2
    requires var e0, e1 := g.packages[v].providedBy[0], g.packages[v].providedBy[1];
      && e0.name == e1.name
      && Installed(g, e0.provider) && !Excluded(g, cfg, e0.provider)
      && Installed(g, e1.provider) && !Excluded(g, cfg, e1.provider)
    ensures var e0, e1 := g.packages[v].providedBy[0], g.packages[v].providedBy[1];
      e0.name in m && g.packages[e0.provider].name in m[e0.name] && g.packages[e1.provider].name in m[e0.name]
  {
    var list := g.packages[v].providedBy;
    assert EntryRecorded(g, cfg, m, list[0]);
    assert EntryRecorded(g, cfg, m, list[1]);
  }

  /** A set holding two different names has more than one element. */
  lemma TwoMembers(s: set<string>, a: string, b: string)
    requires a in s && b in s && a != b
    ensures |s| > 1
  {
    var rest := s - {a, b};
    assert s == rest + {a, b};
    assert |{a, b}| == 2;
  }

  /** Both providers of `libfoo` are recorded under it, so `libfoo` has
      more than one provider and is listed as ambiguous. */
  lemma VirtualIsAmbiguous(rank: seq<nat>)
    requires |rank| == 4 && rank[2] < rank[1] && rank[3] < rank[1]
    ensures Setup(Virtual, Defaults, rank)
    ensures var r := Final(Virtual, Defaults, rank);
      "libfoo" in r.virtuals && "p1" in r.virtuals["libfoo"] && "p2" in r.virtuals["libfoo"] &&
      |r.virtuals["libfoo"]| > 1
  {
    VirtualSetup(rank);
    VirtualNamesUnique();
    VirtualWalk();
    assert IsRoot(Virtual, Defaults, 0);
    VirtualReachedRecorded(Virtual, Defaults, rank, [0, 1]);
    var m := Final(Virtual, Defaults, rank).virtuals;
    assert Installed(Virtual, 2) && Installed(Virtual, 3);
    TwoProvidersRecorded(Virtual, Defaults, m, 1);
    TwoMembers(m["libfoo"], "p1", "p2");
  }
}
