/** Names the operator derives for the objects of one cluster. */
module Names {

  /** `strconv.Itoa` on a non-negative number. */
  function Itoa(n: nat): (s: string)
    ensures s != [] && (forall c <- s :: '0' <= c <= '9') && (s[0] == '0' ==> n == 0 && |s| == 1)
  {
    var last := [('0' as int + n % 10) as char];
    if n < 10 then last else Itoa(n / 10) + last
  }

  /** The number a digit string denotes: the independent reading that `Itoa` is checked against. */
  ghost function Atoi(s: string): (n: int)
  {
    if s == [] then 0 else 10 * Atoi(s[..|s| - 1]) + (s[|s| - 1] as int - '0' as int)
  }

  lemma {:induction false} AtoiOfItoa(n: nat)
    ensures Atoi(Itoa(n)) == n
  {
    var s := Itoa(n);
    if n < 10 {
      assert s[..|s| - 1] == [];
    } else {
      assert s[..|s| - 1] == Itoa(n / 10);
      AtoiOfItoa(n / 10);
    }
  }

  function TrimSuffix(s: string, suffix: string): string {
    if |suffix| <= |s| && s[|s| - |suffix|..] == suffix then s[..|s| - |suffix|] else s
  }

  function ChildResourceName(cluster: string, name: string): string {
    TrimSuffix(cluster + "-" + name, "-")
  }

  function PVCName(cluster: string, ordinal: nat): (s: string)
  {
    "persistence-" + cluster + "-server-" + Itoa(ordinal)
  }

  /** The StatefulSet controller joins template name, StatefulSet name and pod ordinal by dashes: these
      are the PVCs that the pods of the cluster use. */
  lemma PVCNameOfPod(cluster: string, ordinal: nat)
    ensures PVCName(cluster, ordinal) == "persistence" + "-" + (ChildResourceName(cluster, "server") + "-" + Itoa(ordinal))
  {
    var s := cluster + "-" + "server";
    assert s[|s| - 1] == 'r' && s[|s| - 1..][0] == 'r';
  }

  predicate IsDigit(c: char) {
    '0' <= c <= '9'
  }

  lemma SplitAt(p: string, d: string)
    requires d != []
    ensures var s, k := p + "-" + d, |p|;
            s[k] == '-' && s[..k] == p && s[k + 1..] == d && s[k + 1] == d[0] && |s| == k + 1 + |d|
            && forall i | k < i < |s| :: s[i] in d
  {
    var s, k := p + "-" + d, |p|;
    forall i | k < i < |s| ensures s[i] in d {
      assert s[i] == d[i - k - 1];
    }
  }

  /** After the last dash of a PVC name stands the ordinal, in decimal and without leading zeros; before
      it stand the template name and the name of the StatefulSet. */
  lemma PVCNameReadsBack(cluster: string, ordinal: nat) returns (k: nat)
    ensures var s := PVCName(cluster, ordinal);
            && k < |s| && s[k] == '-' && s[..k] == "persistence-" + cluster + "-server"
            && k + 1 < |s| && (forall i | k < i < |s| :: IsDigit(s[i])) && (s[k + 1] == '0' ==> |s| == k + 2)
            && Atoi(s[k + 1..]) == ordinal
  {
    var p, d := "persistence-" + cluster + "-server", Itoa(ordinal);
    assert PVCName(cluster, ordinal) == p + "-" + d;
    hide PVCName, Itoa;
    k := |p|;
    SplitAt(p, d);
    AtoiOfItoa(ordinal);
  }

  /** Two suffixes without a dash, each following a dash, are equal when the whole strings are. */
  lemma DashSplit(p: string, d: string, q: string, e: string)
    requires p + "-" + d == q + "-" + e
    requires '-' !in d && '-' !in e
    ensures p == q && d == e
  {
    var s := p + "-" + d;
    var t := q + "-" + e;
    assert s[|p|] == '-' && t[|q|] == '-';
    assert |d| == |e|;
    assert s[..|p|] == p && t[..|q|] == q;
    assert s[|p| + 1..] == d && t[|q| + 1..] == e;
  }

  /** A PVC name determines both the cluster and the ordinal, so the PVCs one cluster scales are
      never those of another cluster in the namespace, nor those of another of its own pods. */
  lemma PVCNameInjective(c1: string, i1: nat, c2: string, i2: nat)
    requires PVCName(c1, i1) == PVCName(c2, i2)
    ensures c1 == c2 && i1 == i2
  {
    var p1, p2 := "persistence-" + c1 + "-server", "persistence-" + c2 + "-server";
    assert PVCName(c1, i1) == p1 + "-" + Itoa(i1);
    assert PVCName(c2, i2) == p2 + "-" + Itoa(i2);
    DashSplit(p1, Itoa(i1), p2, Itoa(i2));
    AtoiOfItoa(i1);
    AtoiOfItoa(i2);
    assert |c1| == |c2|;
    assert c1 == p1[12..12 + |c1|] && c2 == p2[12..12 + |c2|];
  }
}
