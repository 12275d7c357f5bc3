/** What the scanner prints once the traversal is over: the held names,
    the orphaned names, and every virtual name recorded with more than one
    provider, each list in sorted order. */
module Reporting {
  import opened Strings

  /** A virtual name and its sorted provider names. */
  datatype Ambiguity = Ambiguity(name: string, providers: seq<string>)

  datatype Report = Report(held: seq<string>, orphans: seq<string>, ambiguous: seq<Ambiguity>)

  function Listed(entries: seq<Ambiguity>): set<string>
  {
    set e | e in entries :: e.name
  }

  lemma ListedAppend(entries: seq<Ambiguity>, e: Ambiguity)
    ensures Listed(entries + [e]) == Listed(entries) + {e.name}
  {
    assert forall x :: x in entries + [e] <==> x in entries || x == e;
  }

  /** One reported entry: a virtual name with more than one provider,
      and exactly those providers, sorted. */
  ghost predicate Reports(virtuals: map<string, set<string>>, e: Ambiguity)
  {
    && e.name in virtuals && |virtuals[e.name]| > 1
    && StrictlySorted(e.providers) && |e.providers| == |virtuals[e.name]|
    && (forall n :: n in e.providers <==> n in virtuals[e.name])
  }

  /** What the loop of AmbiguousVirtuals knows after scanning `keys[..i]`:
      `r` lists, in order, the scanned keys with more than one provider
      (`at` gives each entry's position in `keys`). */
  ghost predicate ScannedUpTo(virtuals: map<string, set<string>>, keys: seq<string>, i: nat, r: seq<Ambiguity>, at: seq<nat>)
  {
    && i <= |keys| && |at| == |r|
    && (forall a :: 0 <= a < |r| ==> at[a] < i && r[a].name == keys[at[a]])
    && (forall a, b :: 0 <= a < b < |r| ==> Below(r[a].name, r[b].name))
    && (forall a :: 0 <= a < |r| ==> Reports(virtuals, r[a]))
    && (forall y :: 0 <= y < i ==> keys[y] in virtuals && (keys[y] in Listed(r) <==> |virtuals[keys[y]]| > 1))
  }

  /** Appending the entry for `keys[i]` keeps the entries in order. */
  lemma ScanOrdered(keys: seq<string>, i: nat, r: seq<Ambiguity>, at: seq<nat>, e: Ambiguity)
    requires StrictlySorted(keys) && i < |keys| && e.name == keys[i] && |at| == |r|
    requires forall a :: 0 <= a < |r| ==> at[a] < i && r[a].name == keys[at[a]]
    requires forall a, b :: 0 <= a < b < |r| ==> Below(r[a].name, r[b].name)
    ensures forall a, b :: 0 <= a < b < |r + [e]| ==> Below((r + [e])[a].name, (r + [e])[b].name)
  {
    var r', at' := r + [e], at + [i];
    forall a, b | 0 <= a < b < |r'|
      ensures Below(r'[a].name, r'[b].name)
    {
      assert at'[a] < at'[b] || b < |r|;
    }
  }

  /** Appending the entry for `keys[i]` lists it, and lists no other key. */
  lemma ScanListed(virtuals: map<string, set<string>>, keys: seq<string>, i: nat, r: seq<Ambiguity>, e: Ambiguity)
    requires StrictlySorted(keys) && i < |keys| && e.name == keys[i] && Reports(virtuals, e)
    requires forall y :: 0 <= y < i ==> keys[y] in virtuals && (keys[y] in Listed(r) <==> |virtuals[keys[y]]| > 1)
    ensures forall y :: 0 <= y < i + 1 ==> keys[y] in virtuals && (keys[y] in Listed(r + [e]) <==> |virtuals[keys[y]]| > 1)
  {
    ListedAppend(r, e);
    BelowIrreflexive(e.name);
    forall y | 0 <= y < i + 1
      ensures keys[y] in virtuals && (keys[y] in Listed(r + [e]) <==> |virtuals[keys[y]]| > 1)
    {
      if y < i {
        assert Below(keys[y], keys[i]);
      }
    }
  }

  lemma ScanReported(virtuals: map<string, set<string>>, keys: seq<string>, i: nat, r: seq<Ambiguity>, at: seq<nat>, e: Ambiguity)
    requires StrictlySorted(keys) && ScannedUpTo(virtuals, keys, i, r, at)
    requires i < |keys| && e.name == keys[i] && Reports(virtuals, e)
    ensures ScannedUpTo(virtuals, keys, i + 1, r + [e], at + [i])
  {
    ScanOrdered(keys, i, r, at, e);
    ScanListed(virtuals, keys, i, r, e);
    var r', at' := r + [e], at + [i];
    assert forall a :: 0 <= a < |r'| ==> at'[a] < i + 1 && r'[a].name == keys[at'[a]];
    assert forall a :: 0 <= a < |r'| ==> Reports(virtuals, r'[a]);
  }

  lemma ScanSkipped(virtuals: map<string, set<string>>, keys: seq<string>, i: nat, r: seq<Ambiguity>, at: seq<nat>)
    requires StrictlySorted(keys) && ScannedUpTo(virtuals, keys, i, r, at)
    requires i < |keys| && keys[i] in virtuals && |virtuals[keys[i]]| <= 1
    ensures ScannedUpTo(virtuals, keys, i + 1, r, at)
  {
    BelowIrreflexive(keys[i]);
  }

  /** The virtual names with more than one provider, in sorted order. */
  method AmbiguousVirtuals(virtuals: map<string, set<string>>) returns (r: seq<Ambiguity>)
    ensures forall a, b :: 0 <= a < b < |r| ==> Below(r[a].name, r[b].name)
    ensures forall a :: 0 <= a < |r| ==> Reports(virtuals, r[a])
    ensures forall v :: v in virtuals ==> (v in Listed(r) <==> |virtuals[v]| > 1)
  {
    var keys := SortedElements(virtuals.Keys);
    r := [];
    ghost var at: seq<nat> := [];
    var i := 0;
    while i < |keys|
      invariant 0 <= i <= |keys|
      invariant ScannedUpTo(virtuals, keys, i, r, at)
    {
      var key := keys[i];
      if |virtuals[key]| > 1 {
        var vals := SortedElements(virtuals[key]);
        ScanReported(virtuals, keys, i, r, at, Ambiguity(key, vals));
        r := r + [Ambiguity(key, vals)];
        at := at + [i];
      } else {
        ScanSkipped(virtuals, keys, i, r, at);
      }
      i := i + 1;
    }
    forall v | v in virtuals
      ensures v in Listed(r) <==> |virtuals[v]| > 1
    {
      var y :| 0 <= y < |keys| && keys[y] == v;
    }
  }

  /** The orphans are `pkgs - keeps`; the three lists are sorted. */
  method BuildReport(keeps: set<string>, pkgs: set<string>, virtuals: map<string, set<string>>)
    returns (r: Report)
    ensures StrictlySorted(r.held) && (forall n :: n in r.held <==> n in keeps)
    ensures StrictlySorted(r.orphans) && (forall n :: n in r.orphans <==> n in pkgs && n !in keeps)
    ensures |r.held| == |keeps| && |r.orphans| == |pkgs - keeps|
    ensures forall a, b :: 0 <= a < b < |r.ambiguous| ==> Below(r.ambiguous[a].name, r.ambiguous[b].name)
    ensures forall a :: 0 <= a < |r.ambiguous| ==> Reports(virtuals, r.ambiguous[a])
    ensures forall v :: v in virtuals ==> (v in Listed(r.ambiguous) <==> |virtuals[v]| > 1)
  {
    var held := SortedElements(keeps);
    var orphans := SortedElements(pkgs - keeps);
    var ambiguous := AmbiguousVirtuals(virtuals);
    r := Report(held, orphans, ambiguous);
  }
}
