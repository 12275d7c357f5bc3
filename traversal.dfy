/** The scanner's procedures as functions of the scanner state: what
    `pkgs`, `keeps` and `virtuals` hold after each call, given what they
    held before. The trace records, for the proofs, where the traversal has
    been; it never influences the real state. The class in module Orphans
    is proved to update its fields exactly as these functions say. */
module Traversal {
  import opened PackageGraph

  /** `keptBy` maps each kept name to the package that put it into `keeps`;
      `expanded` holds the installed packages whose dependencies have all
      been walked; `visited` the packages `hold_pkg` finished with past its
      guard; `touched` every package passed to `hold_pkg` or
      `flag_provides`. */
  datatype Trace = Trace(keptBy: map<string, PkgId>, expanded: set<PkgId>, visited: set<PkgId>, touched: set<PkgId>)

  datatype State = State(pkgs: set<string>, keeps: set<string>, virtuals: map<string, set<string>>, trace: Trace)

  const Start := State({}, {}, map[], Trace(map[], {}, {}, {}))

  /** `virtuals[virtual].add(name)`, creating the entry when missing. */
  function AddProvider(m: map<string, set<string>>, virtual: string, name: string): (r: map<string, set<string>>)
    ensures r.Keys == m.Keys + {virtual}
    ensures forall v, n :: v in r && n in r[v] <==> (v in m && n in m[v]) || (v == virtual && n == name)
  {
    m[virtual := (if virtual in m then m[virtual] else {}) + {name}]
  }

  /** How many packages of the cache have a name that is not kept: the
      measure that falls each time `hold_pkg` keeps a new name. */
  function Unkept(ps: seq<Package>, keeps: set<string>): nat
  {
    if ps == [] then 0 else (if ps[0].name in keeps then 0 else 1) + Unkept(ps[1..], keeps)
  }

  lemma {:induction false} UnkeptMono(ps: seq<Package>, a: set<string>, b: set<string>)
    requires a <= b
    ensures Unkept(ps, b) <= Unkept(ps, a)
  {
    if ps != [] {
      UnkeptMono(ps[1..], a, b);
    }
  }

  /** Keeping the name of a package of the cache that was not kept lowers
      the measure. */
  lemma {:induction false} UnkeptAdd(ps: seq<Package>, keeps: set<string>, p: nat)
    requires p < |ps| && ps[p].name !in keeps
    ensures Unkept(ps, keeps + {ps[p].name}) < Unkept(ps, keeps)
  {
    if p == 0 {
      UnkeptMono(ps[1..], keeps, keeps + {ps[p].name});
    } else {
      UnkeptAdd(ps[1..], keeps, p - 1);
    }
  }

  /** A call below the root loop leaves `pkgs` alone and only adds to the
      rest of the state. */
  ghost predicate Extends(g: Graph, s: State, r: State)
  {
    && r.pkgs == s.pkgs && s.keeps <= r.keeps
    && Unkept(g.packages, r.keeps) <= Unkept(g.packages, s.keeps)
    && s.trace.expanded <= r.trace.expanded && s.trace.visited <= r.trace.visited
    && s.trace.touched <= r.trace.touched
  }

  function Touch(s: State, q: PkgId): State
  {
    s.(trace := s.trace.(touched := s.trace.touched + {q}))
  }

  /** `keeps.add(pkg.name)` for the package `p`. */
  function Keep(g: Graph, s: State, p: PkgId): State
    requires p < |g.packages|
  {
    s.(keeps := s.keeps + {g.packages[p].name},
       trace := s.trace.(keptBy := s.trace.keptBy[g.packages[p].name := p]))
  }

  function Expand(s: State, p: PkgId): State
  {
    s.(trace := s.trace.(expanded := s.trace.expanded + {p}))
  }

  function Visit(s: State, p: PkgId): State
  {
    s.(trace := s.trace.(visited := s.trace.visited + {p}))
  }

  /** `flag_provides(virtual, q)`: when `q` is installed, its name joins
      the providers recorded for `virtual`; nothing else changes. */
  ghost function AfterFlagProvides(g: Graph, s: State, virtual: string, q: PkgId): (r: State)
    requires q < |g.packages|
    ensures r.pkgs == s.pkgs && r.keeps == s.keeps && r.trace == s.trace.(touched := s.trace.touched + {q})
    ensures Installed(g, q) ==> r.virtuals.Keys == s.virtuals.Keys + {virtual}
    ensures !Installed(g, q) ==> r.virtuals == s.virtuals
    ensures forall v, n :: v in r.virtuals && n in r.virtuals[v] <==>
      (v in s.virtuals && n in s.virtuals[v]) || (Installed(g, q) && v == virtual && n == g.packages[q].name)
  {
    var t := Touch(s, q);
    if Installed(g, q) then t.(virtuals := AddProvider(s.virtuals, virtual, g.packages[q].name)) else t
  }

  /** `hold_pkg(p)`: nothing when the name of `p` is kept already;
      otherwise keep an installed `p` and walk its dependencies, then, when
      `p` has providers, flag `p` under its own name and walk its
      providers. */
  ghost function AfterHoldPkg(g: Graph, cfg: Config, rank: seq<nat>, s: State, p: PkgId): (r: State)
    requires Setup(g, cfg, rank) && p < |g.packages|
    decreases Unkept(g.packages, s.keeps), rank[p], 3, 0
    ensures Extends(g, s, r)
    ensures g.packages[p].name in s.keeps ==>
      r.keeps == s.keeps && r.virtuals == s.virtuals &&
      r.trace.expanded == s.trace.expanded && r.trace.visited == s.trace.visited
    ensures Installed(g, p) ==> g.packages[p].name in r.keeps
  {
    var name := g.packages[p].name;
    var s1 := Touch(s, p);
    if name in s.keeps then s1
    else
      var s2 :=
        if Installed(g, p) then
          UnkeptAdd(g.packages, s.keeps, p);
          Expand(AfterHoldKinds(g, cfg, rank, Keep(g, s1, p), p, 0), p)
        else s1;
      var s3 :=
        if |g.packages[p].providedBy| > 0 then
          AfterHoldProvides(g, cfg, rank, AfterFlagProvides(g, s2, name, p), p, 0)
        else s2;
      Visit(s3, p)
  }

  /** `hold_provides(provides_list)` from entry `i` on: flag and hold
      every provider whose architecture is not excluded. */
  ghost function AfterHoldProvides(g: Graph, cfg: Config, rank: seq<nat>, s: State, p: PkgId, i: nat): (r: State)
    requires Setup(g, cfg, rank) && p < |g.packages| && i <= |g.packages[p].providedBy|
    decreases (if Installed(g, p) then Unkept(g.packages, s.keeps) + 1 else Unkept(g.packages, s.keeps)),
              (if Installed(g, p) then 0 else rank[p]), 2, |g.packages[p].providedBy| - i
    ensures Extends(g, s, r)
  {
    var list := g.packages[p].providedBy;
    if i == |list| then s
    else
      var q := list[i].provider;
      var s' :=
        if g.packages[q].arch in cfg.excludeArchs then s
        else AfterHoldPkg(g, cfg, rank, AfterFlagProvides(g, s, list[i].name, q), q);
      AfterHoldProvides(g, cfg, rank, s', p, i + 1)
  }

  /** `hold_dependencies(depends_list)` from dependency kind `i` on: only
      kinds in `holds` are walked. */
  ghost function AfterHoldKinds(g: Graph, cfg: Config, rank: seq<nat>, s: State, p: PkgId, i: nat): (r: State)
    requires Setup(g, cfg, rank) && Installed(g, p) && i <= |Deps(g, p)|
    decreases Unkept(g.packages, s.keeps) + 1, 0, 2, |Deps(g, p)| - i
    ensures Extends(g, s, r)
  {
    var ds := Deps(g, p);
    if i == |ds| then s
    else
      var s' := if ds[i].kind in cfg.holds then AfterHoldGroups(g, cfg, rank, s, p, i, 0) else s;
      AfterHoldKinds(g, cfg, rank, s', p, i + 1)
  }

  /** The OR-groups of dependency kind `i`, from group `j` on. */
  ghost function AfterHoldGroups(g: Graph, cfg: Config, rank: seq<nat>, s: State, p: PkgId, i: nat, j: nat): (r: State)
    requires Setup(g, cfg, rank) && Installed(g, p) && i < |Deps(g, p)| && j <= |Deps(g, p)[i].groups|
    decreases Unkept(g.packages, s.keeps) + 1, 0, 1, |Deps(g, p)[i].groups| - j
    ensures Extends(g, s, r)
  {
    var groups := Deps(g, p)[i].groups;
    if j == |groups| then s
    else AfterHoldGroups(g, cfg, rank, AfterHoldAlternatives(g, cfg, rank, s, p, i, j, 0), p, i, j + 1)
  }

  /** The alternatives of OR-group `j` of kind `i`, from alternative `k`
      on: every one whose architecture is not excluded is held. */
  ghost function AfterHoldAlternatives(g: Graph, cfg: Config, rank: seq<nat>, s: State, p: PkgId, i: nat, j: nat, k: nat): (r: State)
    requires Setup(g, cfg, rank) && Installed(g, p) && i < |Deps(g, p)| && j < |Deps(g, p)[i].groups|
    requires k <= |Deps(g, p)[i].groups[j]|
    decreases Unkept(g.packages, s.keeps) + 1, 0, 0, |Deps(g, p)[i].groups[j]| - k
    ensures Extends(g, s, r)
  {
    var alts := Deps(g, p)[i].groups[j];
    if k == |alts| then s
    else
      var t := alts[k];
      var s' := if g.packages[t].arch in cfg.excludeArchs then s else AfterHoldPkg(g, cfg, rank, s, t);
      AfterHoldAlternatives(g, cfg, rank, s', p, i, j, k + 1)
  }

  /** `check_pkg(p)`: an installed package is recorded in `pkgs`; when its
      name is not kept yet and it is not auto-installed, it is kept and its
      dependencies are walked (its providers are not). */
  ghost function AfterCheckPkg(g: Graph, cfg: Config, rank: seq<nat>, s: State, p: PkgId): (r: State)
    requires Setup(g, cfg, rank) && p < |g.packages|
    ensures r.pkgs == if Installed(g, p) then s.pkgs + {g.packages[p].name} else s.pkgs
    ensures s.keeps <= r.keeps
    ensures IsRoot(g, cfg, p) ==> g.packages[p].name in r.keeps
    ensures !Installed(g, p) || g.packages[p].auto || g.packages[p].name in s.keeps ==>
      r.keeps == s.keeps && r.virtuals == s.virtuals && r.trace == s.trace
  {
    var pkg := g.packages[p];
    if pkg.current.None? then s
    else
      var s1 := s.(pkgs := s.pkgs + {pkg.name});
      if pkg.name in s.keeps then s1
      else if pkg.auto then s1
      else Expand(AfterHoldKinds(g, cfg, rank, Keep(g, s1, p), p, 0), p)
  }

  /** The names of the installed packages of a non-excluded architecture
      among the packages from position `i` on. */
  ghost function ListedFrom(g: Graph, cfg: Config, i: nat): set<string>
  {
    set j | i <= j < |g.packages| && Installed(g, j) && !Excluded(g, cfg, j) :: g.packages[j].name
  }

  /** The root loop from package `i` on: every package of a non-excluded
      architecture is checked. */
  ghost function AfterRootLoop(g: Graph, cfg: Config, rank: seq<nat>, s: State, i: nat): (r: State)
    requires Setup(g, cfg, rank) && i <= |g.packages|
    decreases |g.packages| - i
    ensures r.pkgs == s.pkgs + ListedFrom(g, cfg, i)
    ensures s.keeps <= r.keeps
    ensures forall j :: i <= j < |g.packages| && IsRoot(g, cfg, j) ==> g.packages[j].name in r.keeps
  {
    if i == |g.packages| then s
    else
      var s' := if g.packages[i].arch in cfg.excludeArchs then s else AfterCheckPkg(g, cfg, rank, s, i);
      AfterRootLoop(g, cfg, rank, s', i + 1)
  }
}
