/** How annotations are merged into the annotations an object already has. */
module Annotations {
  import opened Kubernetes

  type Entries = map<string, string>

  /** A Go map: several holders may share it, and see each other's changes. */
  class Table {
    var entries: Entries

    constructor (entries: Entries)
      ensures this.entries == entries
    {
      this.entries := entries;
    }
  }

  predicate Contains(s: string, part: string) {
    |s| >= |part| && (part <= s || (s != [] && Contains(s[1..], part)))
  }

  predicate At(s: string, part: string, i: nat) {
    i + |part| <= |s| && s[i..i + |part|] == part
  }

  lemma {:induction false} ContainsMeans(s: string, part: string)
    ensures Contains(s, part) <==> exists i: nat :: At(s, part, i)
  {
    if |s| >= |part| {
      assert part <= s <==> At(s, part, 0);
      if s != [] {
        ContainsMeans(s[1..], part);
        forall i: nat ensures At(s[1..], part, i) <==> At(s, part, i + 1) {
          if i + 1 + |part| <= |s| {
            assert s[1..][i..i + |part|] == s[i + 1..i + 1 + |part|];
          }
        }
        if i: nat :| At(s, part, i) {
          assert i == 0 || At(s[1..], part, i - 1);
        }
      }
    }
  }

  predicate IsKubernetesAnnotation(k: string) {
    Contains(k, "kubernetes.io") || Contains(k, "k8s.io")
  }

  lemma AtMeans(s: string, part: string)
    ensures (exists i: nat :: At(s, part, i)) <==> exists a: string, b: string :: s == a + (part + b)
  {
    if i: nat :| At(s, part, i) {
      assert s == s[..i] + (part + s[i + |part|..]);
    }
    if a: string, b: string :| s == a + (part + b) {
      assert s[|a|..|a| + |part|] == part;
      assert At(s, part, |a|);
    }
  }

  /** An annotation is Kubernetes' own if one of two domains occurs anywhere in its name. */
  lemma KubernetesMeans(k: string)
    ensures IsKubernetesAnnotation(k) <==>
            (exists a: string, b: string :: k == a + ("kubernetes.io" + b)) || (exists a: string, b: string :: k == a + ("k8s.io" + b))
  {
    ContainsMeans(k, "kubernetes.io");
    ContainsMeans(k, "k8s.io");
    AtMeans(k, "kubernetes.io");
    AtMeans(k, "k8s.io");
  }

  const ALL: string -> bool := k => true
  const NOT_KUBERNETES: string -> bool := k => !IsKubernetesAnnotation(k)

  /** The entries of `m` that pass the filter replace those of `base`. */
  function Overlaid(filter: string -> bool, base: Entries, m: Entries): Entries {
    map k | k in base.Keys + m.Keys && (k in base || filter(k)) :: if k in m && filter(k) then m[k] else base[k]
  }

  function Merged(filter: string -> bool, base: Entries, maps: seq<Entries>): Entries
    decreases |maps|
  {
    if maps == [] then base else Merged(filter, Overlaid(filter, base, maps[0]), maps[1..])
  }

  /** The inner loop: the map is traversed in an order nobody controls. */
  method Overlay(filter: string -> bool, result: Table, m: Entries)
    modifies result
    ensures result.entries == Overlaid(filter, old(result.entries), m)
  {
    var rest := m.Keys;
    while rest != {}
      invariant rest <= m.Keys
      invariant forall k :: k in result.entries <==> k in old(result.entries) || (k in m && k !in rest && filter(k))
      invariant forall k <- result.entries ::
        result.entries[k] == if k in m && k !in rest && filter(k) then m[k] else old(result.entries)[k]
      decreases rest
    {
      var k :| k in rest;
      if filter(k) {
        result.entries := result.entries[k := m[k]];
      }
      rest := rest - {k};
    }
  }

  /** Merges the maps in order into the base itself, or into a new map if there is no base. */
  method MergeWithFilter(filter: string -> bool, base: Table?, maps: seq<Entries>) returns (result: Table)
    modifies base
    ensures if base != null then result == base else fresh(result)
    ensures result.entries == Merged(filter, if base != null then old(base.entries) else map[], maps)
  {
    if base != null {
      result := base;
    } else {
      result := new Table(map[]);
    }
    ghost var start := result.entries;
    for i := 0 to |maps|
      invariant if base != null then result == base else fresh(result)
      invariant Merged(filter, start, maps) == Merged(filter, result.entries, maps[i..])
    {
      Overlay(filter, result, maps[i]);
      assert maps[i..][0] == maps[i] && maps[i..][1..] == maps[i + 1..];
    }
  }

  /** What no map sets, or the filter holds back, stays as it was. */
  lemma {:induction false} UnsetStays(filter: string -> bool, base: Entries, maps: seq<Entries>, k: string)
    requires !filter(k) || forall m <- maps :: k !in m
    ensures k in Merged(filter, base, maps) <==> k in base
    ensures k in base ==> Merged(filter, base, maps)[k] == base[k]
    decreases |maps|
  {
    if maps != [] {
      assert maps[0] in maps && forall m <- maps[1..] :: m in maps;
      UnsetStays(filter, Overlaid(filter, base, maps[0]), maps[1..], k);
    }
  }

  /** Of several maps that set a key, the last one wins. */
  lemma {:induction false} LastWins(filter: string -> bool, base: Entries, maps: seq<Entries>, j: nat, k: string)
    requires j < |maps| && k in maps[j] && filter(k)
    requires forall i | j < i < |maps| :: k !in maps[i]
    ensures k in Merged(filter, base, maps) && Merged(filter, base, maps)[k] == maps[j][k]
    decreases |maps|
  {
    var first, rest := Overlaid(filter, base, maps[0]), maps[1..];
    if j > 0 {
      LastWins(filter, first, rest, j - 1, k);
    } else {
      forall m <- rest ensures k !in m {
        var i :| 0 <= i < |rest| && rest[i] == m;
        assert m == maps[i + 1];
      }
      UnsetStays(filter, first, rest, k);
    }
  }

  lemma {:induction false} LastSetting(maps: seq<Entries>, k: string) returns (j: nat)
    requires exists m <- maps :: k in m
    ensures j < |maps| && k in maps[j] && forall i | j < i < |maps| :: k !in maps[i]
  {
    var n := |maps| - 1;
    if k in maps[n] {
      j := n;
    } else {
      assert maps == maps[..n] + [maps[n]];
      j := LastSetting(maps[..n], k);
    }
  }

  lemma {:induction false} SameAt(filter: string -> bool, base: Entries, base': Entries, maps: seq<Entries>, k: string)
    requires (filter(k) && exists m <- maps :: k in m)
             || ((k in base <==> k in base') && (k in base ==> base[k] == base'[k]))
    ensures k in Merged(filter, base, maps) <==> k in Merged(filter, base', maps)
    ensures k in Merged(filter, base, maps) ==> Merged(filter, base, maps)[k] == Merged(filter, base', maps)[k]
  {
    if filter(k) && exists m <- maps :: k in m {
      var j := LastSetting(maps, k);
      LastWins(filter, base, maps, j, k);
      LastWins(filter, base', maps, j, k);
    } else {
      UnsetStays(filter, base, maps, k);
      UnsetStays(filter, base', maps, k);
    }
  }

  /** Merging the same maps again changes nothing, so a repeated pass does not write the object. */
  lemma MergingAgainChangesNothing(filter: string -> bool, base: Entries, maps: seq<Entries>)
    ensures Merged(filter, Merged(filter, base, maps), maps) == Merged(filter, base, maps)
  {
    var once := Merged(filter, base, maps);
    var twice := Merged(filter, once, maps);
    forall k: string
      ensures k in twice <==> k in once
      ensures k in once ==> twice[k] == once[k]
    {
      if !(filter(k) && exists m <- maps :: k in m) {
        UnsetStays(filter, base, maps, k);
      }
      SameAt(filter, base, once, maps, k);
    }
    assert twice.Keys == once.Keys;
  }

  // ---------- the callers ----------

  /** `ServiceBuilder.setAnnotations`: those of the cluster object, then those of spec.service. */
  method SetServiceAnnotations(service: Table?, cluster: Entries, spec: Option<Entries>) returns (result: Table)
    modifies service
    ensures result.entries == ServiceAnnotations(if service != null then old(service.entries) else map[], cluster, spec)
  {
    result := MergeWithFilter(NOT_KUBERNETES, service, [cluster]);
    if spec.Some? {
      result := MergeWithFilter(ALL, result, [spec.value]);
    }
  }

  function ServiceAnnotations(existing: Entries, cluster: Entries, spec: Option<Entries>): Entries {
    var merged := Merged(NOT_KUBERNETES, existing, [cluster]);
    if spec.Some? then Merged(ALL, merged, [spec.value]) else merged
  }

  /** Where each annotation of the Service comes from. */
  lemma ServiceAnnotationComesFrom(existing: Entries, cluster: Entries, spec: Option<Entries>, k: string)
    ensures var r := ServiceAnnotations(existing, cluster, spec);
            if spec.Some? && k in spec.value then k in r && r[k] == spec.value[k]
            else if k in cluster && !IsKubernetesAnnotation(k) then k in r && r[k] == cluster[k]
            else (k in r <==> k in existing) && (k in r ==> r[k] == existing[k])
  {
    var merged := Merged(NOT_KUBERNETES, existing, [cluster]);
    if k in cluster && !IsKubernetesAnnotation(k) {
      LastWins(NOT_KUBERNETES, existing, [cluster], 0, k);
    } else {
      UnsetStays(NOT_KUBERNETES, existing, [cluster], k);
    }
    if spec.Some? {
      if k in spec.value {
        LastWins(ALL, merged, [spec.value], 0, k);
      } else {
        UnsetStays(ALL, merged, [spec.value], k);
      }
    }
  }

  lemma ServiceAnnotationsAreFixed(existing: Entries, cluster: Entries, spec: Option<Entries>)
    ensures var once := ServiceAnnotations(existing, cluster, spec);
            ServiceAnnotations(once, cluster, spec) == once
  {
    var once := ServiceAnnotations(existing, cluster, spec);
    var twice := ServiceAnnotations(once, cluster, spec);
    forall k: string
      ensures k in twice <==> k in once
      ensures k in once ==> twice[k] == once[k]
    {
      ServiceAnnotationComesFrom(existing, cluster, spec, k);
      ServiceAnnotationComesFrom(once, cluster, spec, k);
    }
    assert twice.Keys == once.Keys;
  }

  const LAST_RESTART := "rabbitmq.com/lastRestartAt"

  /** An update of the StatefulSet hands the annotations of its pod template through; the restart
      annotation therefore stays, unless one of the default annotations has its name. */
  lemma {:induction false} RestartAnnotationStays(previous: Entries, defaults: Entries)
    requires LAST_RESTART !in defaults
    ensures LAST_RESTART in Merged(ALL, previous, [defaults]) <==> LAST_RESTART in previous
    ensures LAST_RESTART in previous ==> Merged(ALL, previous, [defaults])[LAST_RESTART] == previous[LAST_RESTART]
  {
    UnsetStays(ALL, previous, [defaults], LAST_RESTART);
  }
}
