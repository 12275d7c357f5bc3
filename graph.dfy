/** The package cache as the scanner sees it: a finite list of packages
    (`cache.packages`), each with a name, an architecture, apt's
    auto-installed mark, an optional current (installed) version carrying
    its dependency lists, and the list of packages that provide it.
    Packages refer to each other by their position in the list. */
module PackageGraph {

  type PkgId = nat

  datatype Option<T> = None | Some(value: T)

  /** One entry of apt's `provides_list`: the provided (virtual) name and
      the package whose version provides it. */
  datatype Provide = Provide(name: string, provider: PkgId)

  /** One item of `current_ver.depends_list`: a dependency kind
      ("Depends", "Suggests", ...) and its OR-groups, each an ordered list
      of alternative target packages. */
  datatype DependsEntry = DependsEntry(kind: string, groups: seq<seq<PkgId>>)

  datatype Version = Version(depends: seq<DependsEntry>)

  datatype Package = Package(
    name: string,
    arch: string,
    auto: bool,
    current: Option<Version>,
    providedBy: seq<Provide>)

  datatype Graph = Graph(packages: seq<Package>)

  /** The two command-line options: `-x` (architectures to exclude) and
      `-f` (dependency kinds to hold). */
  datatype Config = Config(excludeArchs: set<string>, holds: set<string>)

  const DefaultHolds: set<string> := {"PreDepends", "Depends", "Recommends"}

  /** Every dependency target and every provider is a package of the graph. */
  ghost predicate WellFormed(g: Graph)
  {
    forall p :: 0 <= p < |g.packages| ==> RefsWithin(g.packages[p], |g.packages|)
  }

  ghost predicate RefsWithin(pk: Package, n: nat)
  {
    && (forall i :: 0 <= i < |pk.providedBy| ==> pk.providedBy[i].provider < n)
    && (pk.current.Some? ==>
          var ds := pk.current.value.depends;
          forall i, j, k :: 0 <= i < |ds| && 0 <= j < |ds[i].groups| && 0 <= k < |ds[i].groups[j]| ==>
            ds[i].groups[j][k] < n)
  }

  predicate Installed(g: Graph, p: PkgId)
  {
    p < |g.packages| && g.packages[p].current.Some?
  }

  predicate Excluded(g: Graph, cfg: Config, p: PkgId)
  {
    p < |g.packages| && g.packages[p].arch in cfg.excludeArchs
  }

  /** A manually installed package of an architecture that is not excluded:
      the packages the root loop keeps. */
  predicate IsRoot(g: Graph, cfg: Config, r: PkgId)
  {
    r < |g.packages| && Installed(g, r) && !g.packages[r].auto && !Excluded(g, cfg, r)
  }

  /** `w` is an alternative of some OR-group of a kind in `holds` of the
      installed version of `u`. */
  ghost predicate HeldDep(g: Graph, cfg: Config, u: PkgId, w: PkgId)
  {
    Installed(g, u) &&
    var ds := g.packages[u].current.value.depends;
    exists i, j, k :: 0 <= i < |ds| && ds[i].kind in cfg.holds &&
      0 <= j < |ds[i].groups| && 0 <= k < |ds[i].groups[j]| && ds[i].groups[j][k] == w
  }

  /** `w` appears as a provider in the provides list of `u`. */
  ghost predicate Provider(g: Graph, u: PkgId, w: PkgId)
  {
    u < |g.packages| &&
    exists i :: 0 <= i < |g.packages[u].providedBy| && g.packages[u].providedBy[i].provider == w
  }

  /** An edge the scanner may follow: to a package of a non-excluded
      architecture, by a held dependency or by a provides entry. */
  ghost predicate Step(g: Graph, cfg: Config, u: PkgId, w: PkgId)
  {
    w < |g.packages| && !Excluded(g, cfg, w) && (HeldDep(g, cfg, u, w) || Provider(g, u, w))
  }

  /** The edges the scanner always follows once it has reached `u`:
      held dependencies of an installed package, providers of a package
      that is not installed or is auto-installed. (An auto-installed
      package is only ever kept by `hold_pkg`, which then walks its
      providers as well.) */
  ghost predicate CoreStep(g: Graph, cfg: Config, u: PkgId, w: PkgId)
  {
    w < |g.packages| && !Excluded(g, cfg, w) &&
    (if Installed(g, u) then HeldDep(g, cfg, u, w) || (g.packages[u].auto && Provider(g, u, w))
     else Provider(g, u, w))
  }

  ghost predicate Walk(g: Graph, cfg: Config, path: seq<PkgId>)
  {
    |path| > 0 && path[0] < |g.packages| &&
    forall i :: 0 <= i < |path| - 1 ==> Step(g, cfg, path[i], path[i + 1])
  }

  ghost predicate WalkFromTo(g: Graph, cfg: Config, path: seq<PkgId>, a: PkgId, b: PkgId)
  {
    Walk(g, cfg, path) && path[0] == a && path[|path| - 1] == b
  }

  ghost predicate Reach(g: Graph, cfg: Config, a: PkgId, b: PkgId)
  {
    exists path :: WalkFromTo(g, cfg, path, a, b)
  }

  /** `x` can be reached from a manually installed package. */
  ghost predicate Rooted(g: Graph, cfg: Config, x: PkgId)
  {
    exists r :: IsRoot(g, cfg, r) && Reach(g, cfg, r, x)
  }

  ghost predicate CoreWalk(g: Graph, cfg: Config, path: seq<PkgId>)
  {
    |path| > 0 && path[0] < |g.packages| &&
    forall i :: 0 <= i < |path| - 1 ==> CoreStep(g, cfg, path[i], path[i + 1])
  }

  /** The dependency list of the current version of an installed package. */
  function Deps(g: Graph, p: PkgId): seq<DependsEntry>
    requires Installed(g, p)
  {
    g.packages[p].current.value.depends
  }

  /** A witness that the scanner's recursion terminates: following a
      provides entry out of a package that is not installed always lowers
      the rank. The `keeps` guard tests names, so it stops only at names of
      installed packages, and never at a name no installed package has. Such a rank
      exists exactly when no cycle of provides entries runs through packages
      that are not installed. */
  ghost predicate RankOk(g: Graph, cfg: Config, rank: seq<nat>)
  {
    |rank| == |g.packages| &&
    forall p, i ::
      (0 <= p < |g.packages| && !Installed(g, p) && 0 <= i < |g.packages[p].providedBy| &&
       !Excluded(g, cfg, g.packages[p].providedBy[i].provider)) ==>
        g.packages[p].providedBy[i].provider < |rank| && rank[g.packages[p].providedBy[i].provider] < rank[p]
  }

  /** What the cache and the options guarantee throughout a scan. */
  ghost predicate Setup(g: Graph, cfg: Config, rank: seq<nat>)
  {
    WellFormed(g) && RankOk(g, cfg, rank)
  }

  /** No two packages share a name: a single-architecture cache. */
  ghost predicate NamesUnique(g: Graph)
  {
    forall a, b :: 0 <= a < |g.packages| && 0 <= b < |g.packages| && g.packages[a].name == g.packages[b].name ==> a == b
  }

  lemma ReachSelf(g: Graph, cfg: Config, a: PkgId)
    requires a < |g.packages|
    ensures Reach(g, cfg, a, a)
  {
    assert WalkFromTo(g, cfg, [a], a, a);
  }

  /** A step followed by a walk is a walk. */
  lemma ReachPrepend(g: Graph, cfg: Config, a: PkgId, b: PkgId, c: PkgId)
    requires a < |g.packages| && Step(g, cfg, a, b) && Reach(g, cfg, b, c)
    ensures Reach(g, cfg, a, c)
  {
    var path :| WalkFromTo(g, cfg, path, b, c);
    var longer := [a] + path;
    forall i | 0 <= i < |longer| - 1
      ensures Step(g, cfg, longer[i], longer[i + 1])
    {
      if i > 0 {
        assert longer[i] == path[i - 1] && longer[i + 1] == path[i];
      }
    }
    assert WalkFromTo(g, cfg, longer, a, c);
  }

  /** Every package reached from a package of a non-excluded architecture
      is itself of a non-excluded architecture. */
  lemma ReachNotExcluded(g: Graph, cfg: Config, a: PkgId, b: PkgId)
    requires Reach(g, cfg, a, b) && !Excluded(g, cfg, a)
    ensures !Excluded(g, cfg, b)
  {
    var path :| WalkFromTo(g, cfg, path, a, b);
    if |path| > 1 {
      assert Step(g, cfg, path[|path| - 2], path[|path| - 1]);
    }
  }
}
