/** The list of enabled plugins, and the texts in which nodes and commands receive it. */
module Plugins {
  import opened Kubernetes

  const PEER_DISCOVERY := "rabbitmq_peer_discovery_k8s"
  const PROMETHEUS := "rabbitmq_prometheus"
  const MANAGEMENT := "rabbitmq_management"

  const REQUIRED: seq<string> := [PEER_DISCOVERY, PROMETHEUS, MANAGEMENT]

  // ---------- the list ----------

  /** Each name where it first occurs. */
  function Dedup(names: seq<string>): seq<string> {
    if names == [] then []
    else
      var d, last := Dedup(names[..|names| - 1]), names[|names| - 1];
      if last in d then d else d + [last]
  }

  method DesiredPlugins(required: seq<string>, additional: seq<string>) returns (enabled: seq<string>)
    ensures enabled == Dedup(required + additional)
  {
    var all := required + additional;
    var check: map<string, bool> := map[];
    enabled := [];
    for i := 0 to |all|
      invariant enabled == Dedup(all[..i])
      invariant forall p :: p in check <==> p in enabled
    {
      assert all[..i + 1][..i] == all[..i];
      if all[i] !in check {
        check := check[all[i] := true];
        enabled := enabled + [all[i]];
      }
    }
    assert all[..|all|] == all;
  }

  ghost predicate Distinct(names: seq<string>) {
    forall i, j | 0 <= i < j < |names| :: names[i] != names[j]
  }

  /** Where a name first occurs. */
  ghost function First(names: seq<string>, p: string): (i: nat)
    requires p in names
    ensures i < |names| && names[i] == p && p !in names[..i]
  {
    if names[0] == p then 0 else 1 + First(names[1..], p)
  }

  lemma FirstUnique(names: seq<string>, p: string, i: nat)
    requires i < |names| && names[i] == p && p !in names[..i]
    ensures First(names, p) == i
  {
    var j := First(names, p);
    assert forall k | 0 <= k < i :: names[..i][k] == names[k];
    assert forall k | 0 <= k < j :: names[..j][k] == names[k];
  }

  lemma {:induction false} DedupSound(names: seq<string>)
    ensures Distinct(Dedup(names))
    ensures forall p :: p in Dedup(names) <==> p in names
    ensures forall i, j | 0 <= i < j < |Dedup(names)| :: First(names, Dedup(names)[i]) < First(names, Dedup(names)[j])
  {
    if names != [] {
      var init, last := names[..|names| - 1], names[|names| - 1];
      var d := Dedup(init);
      DedupSound(init);
      assert names == init + [last];
      forall p | p in init ensures First(names, p) == First(init, p) {
        FirstUnique(names, p, First(init, p));
      }
      if last !in d {
        FirstUnique(names, last, |init|);
      }
    }
  }

  lemma {:induction false} DedupPrefix(a: seq<string>, b: seq<string>)
    ensures Dedup(a) <= Dedup(a + b)
  {
    if b == [] {
      assert a + b == a;
    } else {
      assert (a + b)[..|a + b| - 1] == a + b[..|b| - 1];
      DedupPrefix(a, b[..|b| - 1]);
    }
  }

  lemma {:induction false} DedupDistinct(a: seq<string>)
    requires Distinct(a)
    ensures Dedup(a) == a
  {
    if a != [] {
      var init, last := a[..|a| - 1], a[|a| - 1];
      DedupDistinct(init);
      assert last !in init;
      assert a == init + [last];
    }
  }

  // ---------- the text ----------

  /** `strings.Join`, with a separator of one character. */
  function Join(names: seq<string>, sep: char): string {
    if names == [] then "" else if |names| == 1 then names[0] else names[0] + ([sep] + Join(names[1..], sep))
  }

  /** The pieces between the separators: the reading of a list that `Join` is checked against. */
  function Split(s: string, sep: char): (pieces: seq<string>)
    ensures pieces != []
  {
    if s == [] then [[]]
    else
      var rest := Split(s[1..], sep);
      if s[0] == sep then [[]] + rest else [[s[0]] + rest[0]] + rest[1..]
  }

  lemma {:induction false} SplitOne(a: string, sep: char)
    requires sep !in a
    ensures Split(a, sep) == [a]
  {
    if a != [] {
      SplitOne(a[1..], sep);
      assert [a[0]] + a[1..] == a;
    }
  }

  lemma {:induction false} SplitFirst(a: string, rest: string, sep: char)
    requires sep !in a
    ensures Split(a + ([sep] + rest), sep) == [a] + Split(rest, sep)
  {
    var s := a + ([sep] + rest);
    if a == [] {
      assert s[1..] == rest;
    } else {
      assert s[1..] == a[1..] + ([sep] + rest);
      SplitFirst(a[1..], rest, sep);
      assert [a[0]] + a[1..] == a;
    }
  }

  lemma {:induction false} SplitJoin(names: seq<string>, sep: char)
    requires names != [] && forall p <- names :: sep !in p
    ensures Split(Join(names, sep), sep) == names
  {
    if |names| == 1 {
      SplitOne(names[0], sep);
    } else {
      SplitJoin(names[1..], sep);
      SplitFirst(names[0], Join(names[1..], sep), sep);
      assert [names[0]] + names[1..] == names;
    }
  }

  /** The contents of the file enabled_plugins. */
  function FileText(names: seq<string>): string {
    "[" + Join(names, ',') + "]."
  }

  function ParseFile(text: string): Option<seq<string>> {
    if |text| < 3 || text[0] != '[' || text[|text| - 2..] != "]." then None
    else Some(Split(text[1..|text| - 2], ','))
  }

  function Desired(additional: seq<string>): seq<string> {
    Dedup(REQUIRED + additional)
  }

  /** Plugin names match `^\w+$`, so they contain neither commas nor spaces. */
  ghost predicate PlainNames(names: seq<string>) {
    forall p <- names :: PlainName(p)
  }

  predicate PlainName(p: string) {
    forall i | 0 <= i < |p| :: p[i] != ',' && p[i] != ' '
  }

  lemma PeerDiscoveryIsPlain()
    ensures PlainName(PEER_DISCOVERY)
  {
  }

  lemma PrometheusIsPlain()
    ensures PlainName(PROMETHEUS)
  {
  }

  lemma ManagementIsPlain()
    ensures PlainName(MANAGEMENT)
  {
  }

  lemma DesiredIsPlain(additional: seq<string>)
    requires PlainNames(additional)
    ensures PlainNames(Desired(additional)) && Desired(additional) != []
  {
    PeerDiscoveryIsPlain();
    PrometheusIsPlain();
    ManagementIsPlain();
    DedupSound(REQUIRED + additional);
    assert REQUIRED[0] in REQUIRED + additional;
  }

  /** The required plugins come first, then every additional one once, where it first occurs. */
  lemma DesiredPluginsSound(additional: seq<string>)
    ensures ["rabbitmq_peer_discovery_k8s", "rabbitmq_prometheus", "rabbitmq_management"] == REQUIRED <= Desired(additional)
    ensures Distinct(Desired(additional)) && forall p :: p in Desired(additional) <==> p in REQUIRED || p in additional
    ensures forall i, j | 0 <= i < j < |Desired(additional)| ::
      First(REQUIRED + additional, Desired(additional)[i]) < First(REQUIRED + additional, Desired(additional)[j])
  {
    DedupSound(REQUIRED + additional);
    assert |REQUIRED[0]| == 27 && |REQUIRED[1]| == 19 && |REQUIRED[2]| == 19 && REQUIRED[1][9] != REQUIRED[2][9];
    DedupDistinct(REQUIRED);
    DedupPrefix(REQUIRED, additional);
  }

  /** What a node reads from the file, and what the command receives as arguments, is the desired list. */
  lemma TextsParseBack(additional: seq<string>)
    requires PlainNames(additional)
    ensures ParseFile(FileText(Desired(additional))) == Some(Desired(additional))
    ensures Split(Join(Desired(additional), ' '), ' ') == Desired(additional)
  {
    DesiredIsPlain(additional);
    var names := Desired(additional);
    var text, joined := FileText(names), Join(names, ',');
    SplitJoin(names, ',');
    SplitJoin(names, ' ');
    assert text[1..|text| - 2] == joined;
    assert text[|text| - 2..] == "].";
  }

  /** The file changes, and so the plugins are set again on every node, exactly when the list changes. */
  lemma TextChangesIffListChanges(a: seq<string>, b: seq<string>)
    requires PlainNames(a) && PlainNames(b)
    ensures FileText(Desired(a)) == FileText(Desired(b)) <==> Desired(a) == Desired(b)
  {
    TextsParseBack(a);
    TextsParseBack(b);
  }
}
