# Cyclic-orphan scanner for Debian package caches

This project models `find_deb_cyclic_orphans.py`, which checks for circular-dependency dpkg orphans. It reports the installed packages of non-excluded architectures that no manually installed package holds, through the dependency kinds it follows and through provides entries. A group of packages whose only reverse dependencies are each other, such as two auto-installed libraries that depend on each other, is reported too.

The scan works as follows:

- Every installed package of a non-excluded architecture is recorded in `pkgs`.
- Every manually installed package among them is a root. A root is kept, and its dependencies are held.
- Holding a package (`hold_pkg`) does this:
  1. It stops at once if the package's name is already in `keeps`.
  2. An installed package is kept, and the dependencies of its current version are walked. Only the kinds in `holds` are followed, and every alternative of every OR-group is held.
  3. A package with a provides list is then flagged under its own name, and each provider is flagged and held.
- Packages of an excluded architecture are never held or flagged.
- `flag_provides` records, per virtual name, the names of the installed providers.
- At the end the script prints three lists:
  - the sorted held names;
  - the sorted orphans, which are `pkgs - keeps`;
  - every virtual name with more than one recorded provider, together with its sorted providers.

The model has these parts:

- `PackageGraph` models the cache as a list of packages that refer to each other by position. The two command-line options become a `Config`.
- `Scanner`, a class in module `Orphans`, holds the script's module-level state: `pkgs`, `keeps` and `virtuals`. Its methods update that state in place, with the same loops and the same branches as the Python procedures.
- Each method is proved to leave exactly the state that a function of module `Traversal` computes from the old state. `Orphans.Scanner.HoldPkg` ensures `Current() == AfterHoldPkg(..., old(Current()), p)`.
- A ghost `trace` records for the proofs where the traversal has been. It never influences the real state.
- Four modules prove the properties of those functions. `Closure`, `Tracing` and `Recording` do it by mutual induction that follows the recursion of the scanner. `Results` does it by induction over the root loop and over walks:
  - `Closure`: everything a finished package points to is kept or finished.
  - `Tracing`: everything touched is reached by followed edges, and kept names keep their package.
  - `Recording`: every finished package has its provides list recorded in `virtuals`.
  - `Results`: the root-loop invariant, soundness, closure and completeness.
- `Reporting` and `Strings` model the printed lists, with Python's string order and `sort()`.
- `Scenarios` works through three caches:
  - In one, a dependency cycle reachable only through `Suggests` is reported as orphaned.
  - In the second, a cycle below a `Depends` edge is held, and nothing is an orphan.
  - In the third, a root depends on a virtual package that is not installed and has two installed providers. Both providers are recorded under the virtual name, which is then listed as ambiguous.

Termination rests on one sufficient condition, `RankOk`, which every procedure requires. The `keeps` guard tests the name, so it stops the recursion only at names of installed packages. It also stops at a package that is not installed but shares its name with a kept one. `RankOk` asks for a ranking of the whole cache that falls along every provides entry leaving a package that is not installed, towards a package of a non-excluded architecture. The script itself fails only when a `hold_pkg` call actually enters such a cycle without a kept name cutting it, so `RankOk` is not necessary: see "## Left out".

## Model

| member | source | states |
|---|---|---|
| Strings.BelowIrreflexive | FindDebCyclicOrphans/find_deb_cyclic_orphans.py:85 | No name sorts strictly before itself under Python's string order. |
| Strings.BelowTransitive | FindDebCyclicOrphans/find_deb_cyclic_orphans.py:85 | Python's string order is transitive. |
| Strings.BelowTotal | FindDebCyclicOrphans/find_deb_cyclic_orphans.py:85 | Any two different names are ordered one way or the other, so `sort()` has a unique result. |
| Strings.Least | FindDebCyclicOrphans/find_deb_cyclic_orphans.py:84-85 | Returns a member of a non-empty set that sorts before every other member. |
| Strings.SortedElements | FindDebCyclicOrphans/find_deb_cyclic_orphans.py:84-85 | `list(s)` then `sort()`: the result is strictly increasing, has `\|s\|` entries, and holds exactly the elements of `s`. |
| Reporting.ScanOrdered | FindDebCyclicOrphans/find_deb_cyclic_orphans.py:94-96 | Appending the entry for the next key in sorted order keeps the entries in increasing key order. |
| Reporting.ScanListed | FindDebCyclicOrphans/find_deb_cyclic_orphans.py:96-97 | Appending the entry for the next key lists that key and no other, so a scanned key is listed iff it has more than one provider. |
| Reporting.AmbiguousVirtuals | FindDebCyclicOrphans/find_deb_cyclic_orphans.py:93-100 | The entries are in increasing key order. Each entry is a recorded virtual name with exactly its providers, sorted. A recorded virtual name is listed iff it has more than one provider. |
| Reporting.BuildReport | FindDebCyclicOrphans/find_deb_cyclic_orphans.py:83-100 | Held names are exactly `keeps`, sorted. Orphans are exactly `pkgs - keeps`, sorted, and have as many entries as that set. The ambiguous virtual names are as in `AmbiguousVirtuals`. |
| Traversal.AddProvider | FindDebCyclicOrphans/find_deb_cyclic_orphans.py:29-31 | The entry for `virtual` exists afterwards. A (virtual, provider) pair is present iff it was present before or is the one added. |
| Traversal.UnkeptMono | FindDebCyclicOrphans/find_deb_cyclic_orphans.py:35-39 | Keeping more names never raises the count of packages whose name is not kept. |
| Traversal.UnkeptAdd | FindDebCyclicOrphans/find_deb_cyclic_orphans.py:35-39 | Passing the `keeps` guard and adding a package's name strictly lowers that count. This is why the recursion through installed packages ends. |
| Traversal.AfterFlagProvides | FindDebCyclicOrphans/find_deb_cyclic_orphans.py:27-31 | Only `virtuals` changes, and only when the package is installed. The pair (virtual, package name) is then added and nothing is dropped. A package that is not installed leaves `virtuals` as it was. |
| Traversal.AfterHoldPkg | FindDebCyclicOrphans/find_deb_cyclic_orphans.py:34-44 | `pkgs` is unchanged and `keeps` only grows. When the name is already kept, `keeps` and `virtuals` are unchanged. An installed package's name is kept afterwards. |
| Traversal.AfterHoldProvides | FindDebCyclicOrphans/find_deb_cyclic_orphans.py:47-51 | `pkgs` is unchanged; `keeps` only grows. |
| Traversal.AfterHoldKinds | FindDebCyclicOrphans/find_deb_cyclic_orphans.py:54-60 | `pkgs` is unchanged; `keeps` only grows. |
| Traversal.AfterHoldGroups | FindDebCyclicOrphans/find_deb_cyclic_orphans.py:57-60 | `pkgs` is unchanged; `keeps` only grows. |
| Traversal.AfterHoldAlternatives | FindDebCyclicOrphans/find_deb_cyclic_orphans.py:58-60 | `pkgs` is unchanged; `keeps` only grows. |
| Traversal.AfterCheckPkg | FindDebCyclicOrphans/find_deb_cyclic_orphans.py:63-76 | An installed package's name joins `pkgs`, and nothing else does. `keeps` only grows. A root's name is kept afterwards. A package that is not installed, is auto-installed or is already kept changes neither `keeps` nor `virtuals`. |
| Traversal.AfterRootLoop | FindDebCyclicOrphans/find_deb_cyclic_orphans.py:79-81 | `pkgs` gains exactly the names of installed packages of non-excluded architectures. `keeps` only grows. Every root from position `i` on is kept. |
| PackageGraph.ReachSelf | FindDebCyclicOrphans/find_deb_cyclic_orphans.py:34-44 | A package reaches itself by the empty walk. |
| PackageGraph.ReachPrepend | FindDebCyclicOrphans/find_deb_cyclic_orphans.py:47-60 | A followed edge (held dependency or provides entry, target not excluded) followed by a walk is a walk. |
| PackageGraph.ReachNotExcluded | FindDebCyclicOrphans/find_deb_cyclic_orphans.py:49-59 | Everything reached from a package of a non-excluded architecture is of a non-excluded architecture. |
| Closure.KindsCoverHeldDeps | FindDebCyclicOrphans/find_deb_cyclic_orphans.py:54-60 | Once every held kind is walked, every non-excluded held dependency target is kept or finished. |
| Closure.KeepClosed | FindDebCyclicOrphans/find_deb_cyclic_orphans.py:38-39 | Keeping an installed package whose name is not kept preserves the closure invariant. It also completes the provider record flagged just before. |
| Closure.ExpandClosed | FindDebCyclicOrphans/find_deb_cyclic_orphans.py:40 | A kept package whose held dependencies are all covered may be marked as expanded without breaking the invariant. |
| Closure.VisitClosed | FindDebCyclicOrphans/find_deb_cyclic_orphans.py:42-44 | A package whose providers are all covered, and which is expanded if installed, may be marked finished. It is then covered. |
| Closure.HoldPkgClosed | FindDebCyclicOrphans/find_deb_cyclic_orphans.py:34-44 | `hold_pkg` preserves the invariant. Every recorded provider is kept afterwards, and the package is covered afterwards. |
| Closure.SelfFlagClosed | FindDebCyclicOrphans/find_deb_cyclic_orphans.py:42-44 | Once an installed package is kept, flagging it under its own name and walking its provides list preserves the invariant, and every non-excluded provider is covered afterwards. |
| Closure.HoldProvidesClosed | FindDebCyclicOrphans/find_deb_cyclic_orphans.py:47-51 | `hold_provides` preserves the invariant, and every non-excluded provider is covered afterwards. |
| Closure.HoldKindsClosed | FindDebCyclicOrphans/find_deb_cyclic_orphans.py:54-60 | `hold_dependencies` preserves the invariant, and every non-excluded alternative of a held kind is covered afterwards. |
| Closure.HoldGroupsClosed | FindDebCyclicOrphans/find_deb_cyclic_orphans.py:57-60 | The same for the OR-groups of one held kind. |
| Closure.HoldAlternativesClosed | FindDebCyclicOrphans/find_deb_cyclic_orphans.py:58-60 | The same for the alternatives of one OR-group. |
| Tracing.KeptGrowsTrans | FindDebCyclicOrphans/find_deb_cyclic_orphans.py:34-60 | "Kept names keep their package and recorded providers stay" composes along a sequence of calls. |
| Tracing.KeptVisitedTrans | FindDebCyclicOrphans/find_deb_cyclic_orphans.py:34-60 | "Every newly kept package has been through the whole of `hold_pkg`" composes along a sequence of calls. |
| Tracing.ReachedThrough | FindDebCyclicOrphans/find_deb_cyclic_orphans.py:47-60 | What a nested call reaches from an edge target is reached from the caller's package. |
| Tracing.HoldPkgTraced | FindDebCyclicOrphans/find_deb_cyclic_orphans.py:34-44 | Every package `hold_pkg(p)` passes to `hold_pkg` or `flag_provides` is reached from `p`, and so is every package whose name it newly keeps. Every package whose name it newly keeps has been visited, providers included, by the end of the call. Old kept names keep their package. Recorded providers are never dropped. |
| Tracing.FlagHoldTraced | FindDebCyclicOrphans/find_deb_cyclic_orphans.py:49-51 | One iteration of `hold_provides` reaches only what its provider reaches. Kept names keep their package, and every newly kept package has been through the whole of `hold_pkg`. |
| Tracing.HoldProvidesTraced | FindDebCyclicOrphans/find_deb_cyclic_orphans.py:47-51 | The same for `hold_provides`; only providers of a non-excluded architecture are flagged and held. |
| Tracing.HoldKindsTraced | FindDebCyclicOrphans/find_deb_cyclic_orphans.py:54-60 | The same for `hold_dependencies`; only kinds in `holds` are followed. |
| Tracing.HoldGroupsTraced | FindDebCyclicOrphans/find_deb_cyclic_orphans.py:57-60 | The same for the OR-groups of one held kind. |
| Tracing.HoldAlternativesTraced | FindDebCyclicOrphans/find_deb_cyclic_orphans.py:58-60 | The same for the alternatives of one OR-group, holding only non-excluded targets. |
| Recording.EntriesRecordedStep | FindDebCyclicOrphans/find_deb_cyclic_orphans.py:48-51 | A recorded entry, followed by a grown map that records the rest of the list, records the list from that entry on. |
| Recording.VisitRecords | FindDebCyclicOrphans/find_deb_cyclic_orphans.py:42-44 | Finishing a package whose provides list is recorded keeps every finished package recorded. |
| Recording.RecordedGrows | FindDebCyclicOrphans/find_deb_cyclic_orphans.py:29-31 | A recorded provides list stays recorded, because `virtuals` entries only grow. |
| Recording.VisitedRecordedTrans | FindDebCyclicOrphans/find_deb_cyclic_orphans.py:34-60 | "Every package finished in between is recorded" composes along a sequence of calls. |
| Recording.FlagHoldRecords | FindDebCyclicOrphans/find_deb_cyclic_orphans.py:49-51 | One iteration of `hold_provides` records its provider under the provided name, if that provider is installed. The entries only grow, and every package finished on the way is recorded. |
| Recording.SelfFlagRecords | FindDebCyclicOrphans/find_deb_cyclic_orphans.py:42-44 | The last two lines of `hold_pkg` record an installed package under its own name, and record every installed, non-excluded provider in its list. |
| Recording.HoldPkgRecords | FindDebCyclicOrphans/find_deb_cyclic_orphans.py:34-44 | Every package `hold_pkg` finishes has its provides list recorded. |
| Recording.HoldProvidesRecords | FindDebCyclicOrphans/find_deb_cyclic_orphans.py:47-51 | `hold_provides` records every installed provider of a non-excluded architecture under the name it provides, and every package it finishes. |
| Recording.HoldKindsRecords | FindDebCyclicOrphans/find_deb_cyclic_orphans.py:54-60 | Every package `hold_dependencies` finishes has its provides list recorded. |
| Recording.HoldGroupsRecords | FindDebCyclicOrphans/find_deb_cyclic_orphans.py:57-60 | The same for the OR-groups of one held kind. |
| Recording.HoldAlternativesRecords | FindDebCyclicOrphans/find_deb_cyclic_orphans.py:58-60 | The same for the alternatives of one OR-group. |
| Results.RootedFrom | FindDebCyclicOrphans/find_deb_cyclic_orphans.py:72-76 | A package reached from a manually installed package is rooted and of a non-excluded architecture. |
| Results.CheckPkgScan | FindDebCyclicOrphans/find_deb_cyclic_orphans.py:63-76 | `check_pkg` preserves the root-loop invariant. The invariant covers closure, recorded providers being kept, every kept package being expanded, every kept auto-installed package being visited, and everything touched or kept being reached from a root and not excluded. |
| Results.CheckPkgSettled | FindDebCyclicOrphans/find_deb_cyclic_orphans.py:63-76 | After `check_pkg`, every kept package is expanded, and every kept auto-installed package is visited. `check_pkg` keeps only packages that are not auto-installed (lines 72-73), and the packages its walk keeps went through `hold_pkg`. |
| Results.CheckPkgRootward | FindDebCyclicOrphans/find_deb_cyclic_orphans.py:63-76 | Everything `check_pkg` on a root touches or keeps is reached from that root and is not excluded. |
| Results.RootLoopScan | FindDebCyclicOrphans/find_deb_cyclic_orphans.py:79-81 | The root loop preserves that invariant. |
| Results.HoldPkgKeepsInstalled | FindDebCyclicOrphans/find_deb_cyclic_orphans.py:34-44 | Every name `hold_pkg(p)` adds to `keeps` belongs to an installed package that `p` reaches. |
| Results.CoveredHandled | FindDebCyclicOrphans/find_deb_cyclic_orphans.py:35-44 | With one package per name, a covered package is handled: an installed one was expanded, and also visited when auto-installed; one that is not installed was visited. |
| Results.CoreWalkHandled | FindDebCyclicOrphans/find_deb_cyclic_orphans.py:34-60 | In a settled, closed state, with one package per name, every package on a walk from a kept package is handled. The walk follows held dependencies of installed packages, and providers of packages that are auto-installed or not installed. |
| Results.CheckPkgRecords | FindDebCyclicOrphans/find_deb_cyclic_orphans.py:63-76 | After `check_pkg`, every package visited so far, old or new, has its provides list recorded. |
| Results.ExpandedHoldsDeps | FindDebCyclicOrphans/find_deb_cyclic_orphans.py:38-40 | In a closed state, the name of every installed, non-excluded target of a held dependency of an expanded package is kept. |
| Results.VisitedHoldsProviders | FindDebCyclicOrphans/find_deb_cyclic_orphans.py:42-44 | In a closed state, the name of every installed, non-excluded provider of a visited package is kept. |
| Results.ScanKeptRecorded | FindDebCyclicOrphans/find_deb_cyclic_orphans.py:34-76 | Between iterations of the root loop, every kept name has a package the scan has held through, and that package's provides list is recorded when it is auto-installed. |
| Results.RecordedClosed | FindDebCyclicOrphans/find_deb_cyclic_orphans.py:83-85 | The closure survives when it is restated over the sorted list of held names. |
| Results.RootLoopSound | FindDebCyclicOrphans/find_deb_cyclic_orphans.py:34-81 | After the root loop, `pkgs` holds exactly the names of installed packages of non-excluded architectures, and every root is kept. Every kept name belongs to an installed, non-excluded package reached from a root. No excluded package was ever held or flagged. Every recorded provider is kept. Closure holds in witness form (`KeptRecorded`): every held name `n` belongs to an installed, non-excluded package `x` named `n`. Every installed, non-excluded target of a held dependency of `x` has its name held. When `x` is auto-installed, the same holds for its providers, and its provides list is recorded in `virtuals`. |
| Results.RootLoopComplete | FindDebCyclicOrphans/find_deb_cyclic_orphans.py:79-81 | With one package per name, every installed package reached from a root is kept. The route is held dependencies of installed packages, and providers of packages that are auto-installed or not installed. |
| Results.RootLoopCompleteAll | FindDebCyclicOrphans/find_deb_cyclic_orphans.py:79-81 | `RootLoopComplete` for every walk at once. |
| Results.VirtualReachedRecorded | FindDebCyclicOrphans/find_deb_cyclic_orphans.py:34-51 | With one package per name, a package that is not installed and is reached from a root along the route of `RootLoopComplete` has its provides list recorded in the final `virtuals`: every installed provider of a non-excluded architecture appears under the name it provides. |
| Results.VirtualReachedRecordedAll | FindDebCyclicOrphans/find_deb_cyclic_orphans.py:34-51 | `VirtualReachedRecorded` for every walk at once. |
| Orphans.Scanner.constructor | FindDebCyclicOrphans/find_deb_cyclic_orphans.py:6-8 | The three accumulators start empty. |
| Orphans.Scanner.FlagProvides | FindDebCyclicOrphans/find_deb_cyclic_orphans.py:27-31 | Updates `virtuals` in place exactly as `AfterFlagProvides` says. |
| Orphans.Scanner.HoldPkg | FindDebCyclicOrphans/find_deb_cyclic_orphans.py:34-44 | Updates the state exactly as `AfterHoldPkg` says. |
| Orphans.Scanner.HoldProvides | FindDebCyclicOrphans/find_deb_cyclic_orphans.py:47-51 | Its loop leaves exactly the state `AfterHoldProvides` computes. |
| Orphans.Scanner.HoldDependencies | FindDebCyclicOrphans/find_deb_cyclic_orphans.py:54-60 | Its three nested loops leave exactly the state `AfterHoldKinds` computes. |
| Orphans.Scanner.CheckPkg | FindDebCyclicOrphans/find_deb_cyclic_orphans.py:63-76 | Updates the state exactly as `AfterCheckPkg` says. |
| Orphans.Scanner.RootLoop | FindDebCyclicOrphans/find_deb_cyclic_orphans.py:79-81 | Its loop leaves exactly the state `AfterRootLoop` computes. |
| Orphans.ScanCache | FindDebCyclicOrphans/find_deb_cyclic_orphans.py:34-81 | `pkgs` holds exactly the names of installed, non-excluded packages. Every root is kept, and every kept name is justified by a root. Completeness holds as in `RootLoopComplete`. Every recorded provider is kept. Closure holds as in `RootLoopSound`: every held name belongs to an installed, non-excluded package whose held dependencies, and for an auto-installed package whose providers, are held when installed and non-excluded. The provides list of such an auto-installed package is recorded in `virtuals`. With one package per name, so is the provides list of every package that is not installed and is reached from a root as in `RootLoopComplete`. |
| Orphans.FindOrphans | FindDebCyclicOrphans/find_deb_cyclic_orphans.py:79-100 | Both lists are sorted. A name is an orphan iff it belongs to an installed, non-excluded package and is not held. Every root is held, and every held name is reached from a root. Completeness holds as above. The ambiguous virtual names are sorted, each with more than one sorted provider, all of them held. Closure holds over the held list as in `ScanCache`. |
| Scenarios.AppHasNoStep | FindDebCyclicOrphans/find_deb_cyclic_orphans.py:54-60 | In the worked cache, the root's only dependency is a `Suggests`. That kind is not held by default, so the scanner follows no edge out of the root. |
| Scenarios.AppReachesOnlyItself | FindDebCyclicOrphans/find_deb_cyclic_orphans.py:54-60 | The root reaches nothing but itself. |
| Scenarios.OnlyRootIsApp | FindDebCyclicOrphans/find_deb_cyclic_orphans.py:72-73 | The two auto-installed packages are not roots. |
| Scenarios.CycleUnrooted | FindDebCyclicOrphans/find_deb_cyclic_orphans.py:79-81 | No package of the dependency cycle is reached from a root. |
| Scenarios.CycleNotJustified | FindDebCyclicOrphans/find_deb_cyclic_orphans.py:79-81 | No name other than the root's can be held. |
| Scenarios.CycleSetup | FindDebCyclicOrphans/find_deb_cyclic_orphans.py:79-81 | The worked cache is well formed, and any ranking is a termination witness for it. |
| Scenarios.CycleIsOrphaned | FindDebCyclicOrphans/find_deb_cyclic_orphans.py:79-91 | The root is held. Both packages of the cycle are in `pkgs - keeps`, so both are reported as orphans, although each has a reverse dependency. |
| Scenarios.ChainSetup | FindDebCyclicOrphans/find_deb_cyclic_orphans.py:79-81 | The second worked cache is well formed, and any ranking is a termination witness for it. |
| Scenarios.ChainNamesUnique | FindDebCyclicOrphans/find_deb_cyclic_orphans.py:35-39 | Its three package names differ. |
| Scenarios.ChainWalks | FindDebCyclicOrphans/find_deb_cyclic_orphans.py:54-60 | `app` -> `libb` -> `libc` follows held `Depends` edges. |
| Scenarios.ChainIsHeld | FindDebCyclicOrphans/find_deb_cyclic_orphans.py:79-81 | By completeness, the root and both packages of the cycle below it are held. |
| Scenarios.NoOrphansWhenAllHeld | FindDebCyclicOrphans/find_deb_cyclic_orphans.py:88-89 | When every installed package of a non-excluded architecture is held, `pkgs - keeps` is empty. |
| Scenarios.ChainHasNoOrphans | FindDebCyclicOrphans/find_deb_cyclic_orphans.py:79-91 | The second worked cache has no orphan. |
| Scenarios.VirtualSetup | FindDebCyclicOrphans/find_deb_cyclic_orphans.py:47-51 | The third worked cache is well formed. A rank that falls from the virtual package to both its providers is a termination witness. |
| Scenarios.VirtualNamesUnique | FindDebCyclicOrphans/find_deb_cyclic_orphans.py:35-39 | Its four package names differ. |
| Scenarios.VirtualWalk | FindDebCyclicOrphans/find_deb_cyclic_orphans.py:54-60 | `app` -> `libfoo` follows a held `Depends` edge. |
| Scenarios.TwoProvidersRecorded | FindDebCyclicOrphans/find_deb_cyclic_orphans.py:48-51 | In a recorded provides list, two installed, non-excluded providers of the same name are both recorded under that name. |
| Scenarios.TwoMembers | FindDebCyclicOrphans/find_deb_cyclic_orphans.py:97 | A set holding two different names has more than one element. |
| Scenarios.VirtualIsAmbiguous | FindDebCyclicOrphans/find_deb_cyclic_orphans.py:42-51 | Both providers `p1` and `p2` are recorded under `libfoo`, so `libfoo` has more than one provider and is printed in the third list. |

## Left out

- Opening the apt cache and the dependency cache (`apt_pkg.init`, `Cache`, `DepCache`) is not modelled; the cache is the `Graph` value given to the scanner, and `is_auto_installed` is each package's `auto` flag.
- Argument parsing is not modelled; `-x` and `-f` are the two fields of `Config`, with `DefaultHolds` as the default of `-f`.
- The printing is not modelled, and neither are the two counts or the two `purge` command lines. The model returns the three sorted lists those lines print.
- `depends_list` is a dictionary keyed by dependency kind; the model takes it as a sequence of (kind, OR-groups) entries in iteration order, which admits every dictionary and more.
- Orphans.Scanner.HoldPkg: requires a rank witness (`RankOk`), which together with the `keeps` guard makes the recursion end. This condition is sufficient, not necessary. The other procedures, and through them `RootLoopSound`, `RootLoopComplete`, `ScanCache` and `FindOrphans`, carry the same precondition.
- Orphans.Scanner.HoldPkg: the model says nothing about any cache with a provides cycle of non-excluded packages that are not installed. This holds even when the script terminates on that cache, for two reasons. No `hold_pkg` call may reach the cycle: it may hang off packages that are not installed, which `check_pkg` skips at lines 64-65. Or a kept package with the same name as one on the cycle may cut it at line 35. Only when a call does enter an uncut cycle does the script fail: the recursion reaches Python's recursion limit, and the script aborts with `RecursionError`.
- Orphans.Scanner.HoldPkg: Python's recursion limit is not modelled. A deep but finite chain of `hold_pkg` calls can exceed it and abort the script, while the model runs every finite recursion to completion.
- Results.RootLoopComplete: completeness is proved only when no two packages share a name. `keeps` is keyed by name, so in a multi-architecture cache, keeping one package of a name stops `hold_pkg` at every other package with that name.
- Results.RootLoopComplete: the route it covers omits providers of manually installed packages. `check_pkg` keeps such a package without walking its providers (lines 75-76). Whether `hold_pkg` reaches it first, and walks them, depends on the order of the cache. Providers of auto-installed packages are covered, because only `hold_pkg` keeps those, and the same call walks their providers (lines 38-44).
- Orphans.FindOrphans: completeness is stated with the same two limits as `RootLoopComplete`.
- Orphans.FindOrphans: the lower bound on `virtuals` (the provides lists recorded for auto-installed held packages and for reached packages that are not installed) is stated by `ScanCache`, not here. The report keeps only the names with more than one provider, and `BuildReport` ties that list to `virtuals` exactly.
- Orphans.ScanCache: the recorded provides lists are stated for auto-installed held packages and, with one package per name, for packages that are not installed and lie on the route of `RootLoopComplete`. The lists of manually installed packages are not stated: whether they are walked depends on the order of the cache (lines 75-76). Nothing is stated for packages that share a name with another. The guard at line 35 tests the name, so such a package may be skipped because of another package, and its list may never be walked.
- Orphans.ScanCache: completeness, and the recorded lists of packages that are not installed, are stated with the same two limits as `RootLoopComplete`.
- Results.RootLoopCompleteAll: completeness is stated with the same two limits as `RootLoopComplete`: only when no two packages share a name, and not along providers of manually installed packages.
- Results.VirtualReachedRecorded: stated with the same two limits as `RootLoopComplete`, for the same reasons.
- Results.VirtualReachedRecordedAll: stated with the same two limits as `RootLoopComplete`, for the same reasons.
- The other tools of the repository (the format-string routing and the secret-storage extraction scripts) are not part of this model.
