/** A reconcile pass as the sequence of its steps, each of which may end the pass. */
module MarkerOperator {
  import opened Kubernetes
  import opened Timestamps
  import opened MarkerModel
  import opened MarkerStore
  import Plugins

  /** The values the operator process was configured with. */
  datatype Defaults = Defaults(image: string, pullSecrets: string, updaterImage: string)

  /** `Stop`: the pass ends here, with an error, a requeue, or because nothing more may be done.
      `Panic`: it dereferences nil. */
  datatype Outcome = Proceed | Stop | Panic

  datatype OperationResult = Created | Updated | Unchanged

  const ATTEMPTS: nat := 5

  /** The operator's copy of the cluster object, with the rebalance mark that is really set. */
  ghost predicate InHand(c: Cluster, s: Store)
    reads s
  {
    Held(c, s.world) && c.mark == Outstanding(s.log)
  }

  /** The status says that the pass failed; if not, somebody has changed the cluster object meanwhile. */
  ghost predicate FailureReported(c: Cluster, s: Store)
    reads s
  {
    s.world.cluster.status.success == Some(false) || s.world.cluster.version != c.version
  }

  // ---------- what an undisturbed pass makes of an object ----------

  function MapResult(was: Option<ConfigMap>, data: seq<string>): OperationResult {
    if was.None? then Created else if was.value.data == data then Unchanged else Updated
  }

  ghost predicate MapWritten(was: Option<ConfigMap>, now: Option<ConfigMap>, data: seq<string>) {
    && now.Some? && now.value.data == data
    && now.value.marker == if was.None? then None else was.value.marker
  }

  ghost predicate MapMarked(was: ConfigMap, now: Option<ConfigMap>, at: Timestamp) {
    now.Some? && now.value == was.(version := now.value.version, marker := Some(at))
  }

  /** The builder of a config map, and the marking that follows a change. */
  ghost predicate MapBuilt(was: Option<ConfigMap>, now: Option<ConfigMap>, data: seq<string>, clock: Timestamp) {
    && now.Some? && now.value.data == data
    && now.value.marker ==
       match MapResult(was, data)
       case Created => None
       case Unchanged => was.value.marker
       case Updated => Some(clock)
  }

  function StsResult(was: Option<StatefulSet>, replicas: nat): OperationResult {
    if was.None? then Created else if was.value.replicas == replicas then Unchanged else Updated
  }

  /** The controller of the StatefulSet has not acted on the change yet. */
  ghost predicate StsBuilt(was: Option<StatefulSet>, now: Option<StatefulSet>, replicas: nat) {
    && now.Some? && now.value.replicas == replicas
    && now.value.ready == (if was.None? then 0 else was.value.ready)
    && (now.value.rolling <==> was.Some? && was.value.rolling)
  }

  ghost predicate StsMarked(was: StatefulSet, now: Option<StatefulSet>, at: Timestamp) {
    now.Some? && now.value == was.(version := now.value.version, createdAt := Some(at))
  }

  predicate ScalesDown(sts: Option<StatefulSet>, spec: Spec) {
    sts.Some? && sts.value.replicas > spec.replicas
  }

  /** What the builders in `done` have made of the objects. */
  ghost predicate BuiltBy(w: World, w': World, spec: Spec, done: seq<Builder>) {
    && w'.cluster == w.cluster && w'.clock == w.clock
    && (if PluginsConfigMap in done then MapBuilt(w.plugins, w'.plugins, spec.plugins, w.clock) else w'.plugins == w.plugins)
    && (if ServerConfigMap in done then MapBuilt(w.conf, w'.conf, [spec.conf], w.clock) else w'.conf == w.conf)
    && (if StatefulSetBuilder in done then StsBuilt(w.sts, w'.sts, spec.replicas) else w'.sts == w.sts)
  }

  lemma BuiltThen(w: World, w': World, w'': World, spec: Spec, done: seq<Builder>, b: Builder)
    requires BuiltBy(w, w', spec, done) && BuiltBy(w', w'', spec, [b]) && b !in done
    ensures BuiltBy(w, w'', spec, done + [b])
  {
  }

  predicate AllReplicasReadyAndUpdated(sts: StatefulSet) {
    sts.ready == sts.replicas && !sts.rolling
  }

  /** All replicas are ready and updated, and the plugins have not just been changed. */
  ghost predicate CommandsMayRun(w: World) {
    && w.sts.Some? && w.sts.value.ready == w.sts.value.replicas && !w.sts.value.rolling
    && w.plugins.Some? && LongSet(w.plugins.value, w.clock)
  }

  /** The plugins were last changed two seconds ago or earlier. */
  ghost predicate LongSet(m: ConfigMap, now: Timestamp) {
    m.marker.Some? ==> Seconds(now) >= Seconds(m.marker.value) + 2
  }

  /** No marker asks for a command. */
  ghost predicate NothingMarked(w: World) {
    w.cluster.mark.None? && w.plugins.Some? && w.plugins.value.marker.None? && w.sts.Some? && w.sts.value.createdAt.None?
  }

  ghost predicate Reported(w: World) {
    w.cluster.status.observed == w.cluster.generation && w.cluster.status.success == Some(true)
  }

  /** When an undisturbed pass completes: its TLS setting is
      accepted, and it need not change the plugins, scale in, or wait for pods. */
  ghost predicate Finishes(w: World) {
    && (if w.sts.Some? then w.sts.value.replicas <= w.cluster.spec.replicas == w.sts.value.ready && !w.sts.value.rolling
        else w.cluster.spec.replicas == 0)
    && (w.plugins.Some? ==> w.plugins.value.data == w.cluster.spec.plugins && LongSet(w.plugins.value, w.clock))
    && (w.cluster.spec.disableNonTLS ==> w.cluster.spec.secretTLS || (w.cluster.spec.vault.Some? && w.cluster.spec.vault.value.tls))
  }

  // ---------- before the builders ----------

  /** Stores a spec with a default filled in. After a conflict the pass goes on with its own copy. */
  method SaveSpec(s: Store, c: Cluster, spec: Spec) returns (c': Cluster, o: Outcome)
    requires s.Ok() && InHand(c, s)
    modifies s
    ensures s.Ok() && s.Kept() && InHand(c', s) && s.log == old(s.log)
    ensures o.Proceed? ==> c' == c.(version := c'.version, generation := c'.generation, spec := spec)
    ensures o.Proceed? ==> s.world.cluster == c' || s.world.cluster.version != c.version
    ensures s.Reliable() && old(s.alive) ==> s.alive && o.Proceed?
    ensures old(s.Ready(c)) ==> o.Proceed? && s.OnlyClusterIs(c') && s.world.revision > old(s.world.revision)
  {
    var r := s.UpdateCluster(c, spec, c.finalizer);
    assert Held(c, s.world);
    match r
    case Success(stored) => return stored, Proceed;
    case Failure(Conflict) => return c.(spec := spec), Proceed;
    case Failure(_) => return c, Stop;
  }

  function NonEmpty(texts: seq<string>): seq<string> {
    if texts == [] then []
    else NonEmpty(texts[..|texts| - 1]) + if texts[|texts| - 1] == "" then [] else [texts[|texts| - 1]]
  }

  /** What appending the references in a text separated by commas makes of a nil list. */
  function References(text: string): Option<seq<string>> {
    var names := NonEmpty(Plugins.Split(text, ','));
    if names == [] then None else Some(names)
  }

  method DefaultPullSecrets(text: string) returns (secrets: Option<seq<string>>)
    ensures secrets == References(text)
  {
    var references := Plugins.Split(text, ',');
    secrets := None;
    for i := 0 to |references|
      invariant secrets == if NonEmpty(references[..i]) == [] then None else Some(NonEmpty(references[..i]))
    {
      assert references[..i + 1] == references[..i] + [references[i]];
      NonEmptyOf(references[..i], [references[i]]);
      NonEmptyOne(references[i]);
      ghost var before := NonEmpty(references[..i]);
      assert before + [] == before;
      if |references[i]| > 0 {
        secrets := Some((if secrets.Some? then secrets.value else []) + [references[i]]);
        assert secrets.value == before + [references[i]];
      }
    }
    assert references[..|references|] == references;
  }

  predicate MissingUpdaterImage(spec: Spec) {
    spec.vault.Some? && spec.vault.value.updaterImage.None?
  }

  /** A value is missing that has a default; the spec is then saved even if the default is empty. */
  predicate Missing(spec: Spec) {
    spec.image == "" || spec.pullSecrets.None? || MissingUpdaterImage(spec)
  }

  function WithImage(spec: Spec, d: Defaults): Spec {
    if spec.image == "" then spec.(image := d.image) else spec
  }

  function WithPullSecrets(spec: Spec, d: Defaults): Spec {
    if spec.pullSecrets.None? then spec.(pullSecrets := References(d.pullSecrets)) else spec
  }

  function WithUpdaterImage(spec: Spec, d: Defaults): Spec {
    if MissingUpdaterImage(spec) then spec.(vault := Some(spec.vault.value.(updaterImage := Some(d.updaterImage)))) else spec
  }

  /** No value is missing that has a non-empty default. */
  ghost predicate DefaultsSet(spec: Spec, d: Defaults) {
    && (spec.image == "" ==> d.image == "")
    && (spec.pullSecrets.None? ==> OnlyCommas(d.pullSecrets))
    && (spec.vault.Some? ==> spec.vault.value.updaterImage.Some?)
  }

  /** The spec with every value filled in that the operator has a default for. */
  function Defaulted(spec: Spec, d: Defaults): Spec {
    WithUpdaterImage(WithPullSecrets(WithImage(spec, d), d), d)
  }

  /** Each of the three values is as it was, or the default if it was missing; nothing else has changed. */
  ghost predicate FilledIn(spec: Spec, spec': Spec, d: Defaults) {
    && spec' == spec.(image := spec'.image, pullSecrets := spec'.pullSecrets, vault := spec'.vault)
    && spec'.image == (if spec.image == "" then d.image else spec.image)
    && spec'.pullSecrets == (if spec.pullSecrets.None? then References(d.pullSecrets) else spec.pullSecrets)
    && spec'.vault == (if spec.vault.Some? && spec.vault.value.updaterImage.None?
                       then Some(spec.vault.value.(updaterImage := Some(d.updaterImage))) else spec.vault)
  }

  lemma DefaultedMeans(spec: Spec, d: Defaults)
    ensures FilledIn(spec, Defaulted(spec, d), d) && DefaultsSet(Defaulted(spec, d), d)
  {
    NoReferences(d.pullSecrets);
    hide OnlyCommas, NonEmpty;
  }

  method SaveIf(s: Store, c: Cluster, missing: bool, spec: Spec) returns (c': Cluster, o: Outcome)
    requires s.Ok() && InHand(c, s)
    modifies s
    ensures s.Ok() && InHand(c', s) && s.log == old(s.log)
    ensures o.Proceed? ==> c' == c.(version := c'.version, generation := c'.generation, spec := if missing then spec else c.spec)
    ensures !missing ==> c' == c && o.Proceed? && s.world == old(s.world) && s.alive == old(s.alive)
    ensures s.Reliable() && old(s.alive) ==> s.alive && o.Proceed?
    ensures old(s.Ready(c)) ==> o.Proceed? && s.OnlyClusterIs(c') && (missing ==> s.world.revision > old(s.world.revision))
  {
    if missing {
      c', o := SaveSpec(s, c, spec);
    } else {
      c', o := c, Proceed;
    }
  }

  method DefaultPullSecretsIfNil(s: Store, c: Cluster, d: Defaults) returns (c': Cluster, o: Outcome)
    requires s.Ok() && InHand(c, s)
    modifies s
    ensures s.Ok() && InHand(c', s) && s.log == old(s.log)
    ensures o.Proceed? ==> c' == c.(version := c'.version, generation := c'.generation, spec := WithPullSecrets(c.spec, d))
    ensures c.spec.pullSecrets.Some? ==> c' == c && o.Proceed? && s.world == old(s.world) && s.alive == old(s.alive)
    ensures s.Reliable() && old(s.alive) ==> s.alive && o.Proceed?
    ensures old(s.Ready(c)) ==> o.Proceed? && s.OnlyClusterIs(c') && (c.spec.pullSecrets.None? ==> s.world.revision > old(s.world.revision))
  {
    hide Rules, Tie, References;
    var secrets := DefaultPullSecrets(d.pullSecrets);
    c', o := SaveIf(s, c, c.spec.pullSecrets.None?, c.spec.(pullSecrets := secrets));
  }

  method DefaultUpdaterImage(s: Store, c: Cluster, d: Defaults) returns (c': Cluster, o: Outcome)
    requires s.Ok() && InHand(c, s)
    modifies s
    ensures s.Ok() && InHand(c', s) && s.log == old(s.log)
    ensures o.Proceed? ==> c' == c.(version := c'.version, generation := c'.generation, spec := WithUpdaterImage(c.spec, d))
    ensures !MissingUpdaterImage(c.spec) ==> c' == c && o.Proceed? && s.world == old(s.world) && s.alive == old(s.alive)
    ensures s.Reliable() && old(s.alive) ==> s.alive && o.Proceed?
    ensures old(s.Ready(c)) ==> o.Proceed? && s.OnlyClusterIs(c') && (MissingUpdaterImage(c.spec) ==> s.world.revision > old(s.world.revision))
  {
    hide Rules, Tie;
    c', o := SaveIf(s, c, MissingUpdaterImage(c.spec), WithUpdaterImage(c.spec, d));
  }

  method ReconcileOperatorDefaults(s: Store, c: Cluster, d: Defaults) returns (c': Cluster, o: Outcome)
    requires s.Ok() && InHand(c, s)
    modifies s
    ensures s.Ok() && InHand(c', s) && s.log == old(s.log)
    ensures o.Proceed? ==> c'.spec == Defaulted(c.spec, d) && c'.finalizer == c.finalizer && c'.status == c.status
    ensures o.Proceed? ==> FilledIn(c.spec, c'.spec, d) && DefaultsSet(c'.spec, d)
    ensures c.spec.image != "" && c.spec.pullSecrets.Some? && (c.spec.vault.Some? ==> c.spec.vault.value.updaterImage.Some?) ==>
      c' == c && o.Proceed? && s.world == old(s.world)
    ensures s.Reliable() && old(s.alive) ==> s.alive && o.Proceed?
    ensures old(s.Ready(c)) ==> o.Proceed? && s.OnlyClusterIs(c') && (Missing(c.spec) ==> s.world.revision > old(s.world.revision))
  {
    hide Rules, Tie, Milestones, StageOf, Outstanding, Seen, SeenRestart, Observed, LastRestart, Less, Text, Seconds;
    hide References, FilledIn, DefaultsSet;
    c', o := SaveIf(s, c, c.spec.image == "", c.spec.(image := d.image));
    if !o.Proceed? {
      return;
    }
    assert c'.spec == WithImage(c.spec, d);
    c', o := DefaultPullSecretsIfNil(s, c', d);
    if !o.Proceed? {
      return;
    }
    c', o := DefaultUpdaterImage(s, c', d);
    DefaultedMeans(c.spec, d);
  }

  lemma NonEmptyOne(text: string)
    ensures NonEmpty([text]) == if text == "" then [] else [text]
  {
    assert [text][..0] == [];
  }

  lemma {:induction false} NonEmptyOf(a: seq<string>, b: seq<string>)
    ensures NonEmpty(a + b) == NonEmpty(a) + NonEmpty(b)
  {
    if b == [] {
      assert a + b == a;
    } else {
      assert (a + b)[..|a + b| - 1] == a + b[..|b| - 1];
      NonEmptyOf(a, b[..|b| - 1]);
    }
  }

  lemma {:induction false} NonEmptyNames(names: seq<string>)
    requires forall i | 0 <= i < |names| :: names[i] != ""
    ensures NonEmpty(names) == names
  {
    if names != [] {
      NonEmptyNames(names[..|names| - 1]);
      assert names == names[..|names| - 1] + [names[|names| - 1]];
    }
  }

  /** The names of the pull secrets, joined by commas, are the references again. */
  lemma ReferencesReadBack(names: seq<string>)
    requires names != [] && forall n <- names :: n != "" && ',' !in n
    ensures References(Plugins.Join(names, ',')) == Some(names)
  {
    Plugins.SplitJoin(names, ',');
    assert forall i | 0 <= i < |names| :: names[i] in names;
    NonEmptyNames(names);
  }

  ghost predicate OnlyCommas(text: string) {
    forall i | 0 <= i < |text| :: text[i] == ','
  }

  lemma LeadingComma(text: string)
    requires text != [] && text[0] == ','
    ensures NonEmpty(Plugins.Split(text, ',')) == NonEmpty(Plugins.Split(text[1..], ','))
  {
    var rest := Plugins.Split(text[1..], ',');
    assert Plugins.Split(text, ',') == [""] + rest;
    hide NonEmpty;
    NonEmptyOf([""], rest);
    NonEmptyOne("");
    assert [] + NonEmpty(rest) == NonEmpty(rest);
  }

  lemma LeadingName(text: string)
    requires text != [] && text[0] != ','
    ensures NonEmpty(Plugins.Split(text, ',')) != []
  {
    var rest := Plugins.Split(text[1..], ',');
    var first := [text[0]] + rest[0];
    assert Plugins.Split(text, ',') == [first] + rest[1..];
    hide NonEmpty;
    NonEmptyOf([first], rest[1..]);
    NonEmptyOne(first);
  }

  lemma {:induction false} NoReferences(text: string)
    ensures NonEmpty(Plugins.Split(text, ',')) == [] <==> OnlyCommas(text)
  {
    if text == [] {
      NonEmptyOne("");
    } else if text[0] != ',' {
      LeadingName(text);
    } else {
      hide NonEmpty;
      LeadingComma(text);
      NoReferences(text[1..]);
      assert forall i | 0 < i < |text| :: text[i] == text[1..][i - 1];
    }
  }

  /** When the defaults leave a value missing, so that the spec is saved again in the next pass. */
  lemma StillMissing(spec: Spec, d: Defaults)
    ensures Missing(Defaulted(spec, d)) <==>
              (spec.image == "" && d.image == "") || (spec.pullSecrets.None? && OnlyCommas(d.pullSecrets))
  {
    NoReferences(d.pullSecrets);
  }

  method AddFinalizerIfNeeded(s: Store, c: Cluster) returns (c': Cluster, o: Outcome)
    requires s.Ok() && InHand(c, s)
    modifies s
    ensures s.Ok() && InHand(c', s) && s.log == old(s.log)
    ensures o.Proceed? ==> c'.finalizer && c'.spec == c.spec && c'.status == c.status
    ensures c.finalizer ==> c' == c && s.world == old(s.world)
    ensures old(s.Ready(c)) ==> o.Proceed? && s.OnlyClusterIs(c')
  {
    if c.finalizer {
      return c, Proceed;
    }
    var r := s.UpdateCluster(c, c.spec, true);
    if r.Success? {
      return r.value, Proceed;
    }
    return c, Stop;
  }

  /** `setReconcileSuccess` with anything but success, as the last act of a pass. */
  method ReportFailure(s: Store, c: Cluster)
    requires s.Ok() && Held(c, s.world)
    modifies s
    ensures s.Ok() && s.Kept() && Quiet(old(s.log), s.log)
    ensures s.log == old(s.log) || s.log == old(s.log) + [StatusWritten(c.status, c.status.(success := Some(false)), c)]
    ensures s.alive ==> old(s.alive)
    ensures old(s.alive) && s.schedule(old(s.turn)).fate.Served? ==> s.alive && FailureReported(c, s)
    ensures old(s.Ready(c)) ==> s.alive && s.world.cluster.status == c.status.(success := Some(false))
  {
    var _ := s.UpdateStatus(c, c.status.(success := Some(false)));
  }

  /** The read of the StatefulSet that a step begins with, if it found one. */
  ghost function NextRead(before: seq<Event>, after: seq<Event>): Option<Event>
    ensures NextRead(before, after).Some? ==> NextRead(before, after).value.StsRead?
  {
    var k := |before|;
    if k < |after| && after[k].StsRead? then Some(after[k]) else None
  }

  /** The StatefulSet, if there is one; the Endpoints are read as well, but play no part here. */
  method GetChildResources(s: Store, c: Cluster) returns (r: Result<Option<StatefulSet>>)
    requires s.Ok() && InHand(c, s)
    modifies s
    ensures s.Ok() && Quiet(old(s.log), s.log) && InHand(c, s)
    ensures r.Success? ==> s.log == old(s.log) + if r.value.Some? then [ReadOf(r.value.value)] else []
    ensures r == Success(None) ==> s.world.sts.None?
    ensures r.Success? ==> s.Answered() && s.turn == old(s.turn) + 2
    ensures s.Calm() && old(s.alive) ==> s.alive && s.world == old(s.world) && r.Success?
  {
    var sts := s.GetSts();
    if IsOtherError(sts) {
      return Failure(sts.error);
    }
    var endpoints := s.CallOther();
    if !endpoints {
      return Failure(Unavailable);
    }
    r := Success(if sts.Success? then Some(sts.value) else None);
  }

  function ReadyCondition(sts: Option<StatefulSet>): Option<bool> {
    if sts.Some? then Some(sts.value.ready == sts.value.replicas) else None
  }

  method UpdateStatusConditions(s: Store, c: Cluster) returns (c': Cluster, o: Outcome, ghost sts: Option<StatefulSet>)
    requires s.Ok() && InHand(c, s)
    modifies s
    ensures s.Ok() && Quiet(old(s.log), s.log)
    ensures InHand(c', s)
    ensures o.Proceed? ==> NextRead(old(s.log), s.log) == if sts.Some? then Some(ReadOf(sts.value)) else None
    ensures o.Proceed? ==> c'.spec == c.spec && c'.finalizer == c.finalizer && c'.status == c.status.(ready := c'.status.ready)
    ensures o.Proceed? ==>
      && (c'.status.ready.None? <==> sts.None?)
      && (c'.status.ready == Some(true) <==> sts.Some? && sts.value.ready == sts.value.replicas)
    ensures o.Proceed? && c'.status == c.status ==> c' == c
    ensures old(s.Ready(c)) ==> o.Proceed? && s.OnlyClusterIs(c')
  {
    hide Rules, Tie, Milestones, StageOf, Outstanding, Seen, SeenRestart, Observed, LastRestart, Less, Text, Seconds;
    sts := None;
    var child := GetChildResources(s, c);
    if child.Failure? {
      return c, Stop, None;
    }
    sts := child.value;
    var ready := ReadyCondition(child.value);
    if c.status.ready == ready {
      return c, Proceed, sts;
    }
    var r := s.UpdateStatus(c, c.status.(ready := ready));
    c' := if r.Success? then r.value else c;
    o := if r.Success? then Proceed else Stop;
  }

  /** Plain listeners must not be disabled without TLS. Whether the secrets are there and hold the
      right keys is up to the schedule. */
  method ReconcileTLS(s: Store, c: Cluster) returns (o: Outcome)
    requires s.Ok() && InHand(c, s)
    modifies s
    ensures s.Ok() && Quiet(old(s.log), s.log) && InHand(c, s)
    ensures o.Proceed? && c.spec.disableNonTLS ==> c.spec.secretTLS || (c.spec.vault.Some? && c.spec.vault.value.tls)
    ensures !c.spec.secretTLS && (c.spec.disableNonTLS ==> c.spec.vault.Some? && c.spec.vault.value.tls) ==>
      o.Proceed? && s.world == old(s.world) && s.log == old(s.log)
    ensures old(s.Ready(c)) ==>
      && (o.Proceed? <==> (c.spec.disableNonTLS ==> c.spec.secretTLS || (c.spec.vault.Some? && c.spec.vault.value.tls)))
      && (if o.Proceed? then s.OnlyClusterIs(c) else s.world.cluster.status.success == Some(false))
    ensures o.Proceed? && c.spec.secretTLS ==> s.Answered() && s.turn == old(s.turn) + 1
    ensures !o.Proceed? && s.Reliable() && old(s.alive) ==> FailureReported(c, s)
    ensures !o.Proceed? && AcceptedTLS(c.spec) && s.alive && s.schedule(old(s.turn) + 1).fate.Served? ==> FailureReported(c, s)
  {
    if c.spec.disableNonTLS && !TLSEnabled(c.spec) {
      ReportFailure(s, c);
      return Stop;
    }
    if c.spec.secretTLS {
      var usable := s.CallOther();
      if !usable {
        ReportFailure(s, c);
        return Stop;
      }
    }
    o := Proceed;
  }

  predicate StatefulSetNeedsQueueRebalance(rolling: bool, spec: Spec) {
    rolling && !spec.skipPostDeploySteps && spec.replicas > 1
  }

  /** Sets the rebalance mark unless there is one already. */
  method MarkForQueueRebalance(s: Store, c: Cluster) returns (c': Cluster, o: Outcome)
    requires s.Ok() && InHand(c, s)
    requires s.log != [] && s.log[|s.log| - 1].StsRead? && s.log[|s.log| - 1].rolling && c.spec.replicas > 1 && !c.spec.skipPostDeploySteps
    modifies s
    ensures s.Ok() && OnlyBy(old(s.log), s.log, None)
    ensures o.Proceed? ==> InHand(c', s) && c' == c.(version := c'.version, mark := c'.mark)
    ensures o.Proceed? ==> c'.mark.Some? && (c.mark.Some? ==> c'.mark == c.mark)
    ensures old(s.Ready(c)) ==> o.Proceed? && s.OnlyClusterIs(c')
  {
    if c.mark.Some? {
      return c, Proceed;
    }
    var r := s.MarkCluster(c, s.world.clock);
    return if r.Success? then r.value else c, if r.Success? then Proceed else Stop;
  }

  method MarkForQueueRebalanceIfNeeded(s: Store, c: Cluster) returns (c': Cluster, o: Outcome)
    requires s.Ok() && InHand(c, s)
    modifies s
    ensures s.Ok() && OnlyBy(old(s.log), s.log, None)
    ensures o.Proceed? ==> InHand(c', s) && c' == c.(version := c'.version, mark := c'.mark)
    ensures o.Proceed? ==>
      var read := NextRead(old(s.log), s.log);
      && (c'.mark.Some? <==> c.mark.Some? || (read.Some? && read.value.rolling && c.spec.replicas > 1 && !c.spec.skipPostDeploySteps))
      && (c.mark.Some? ==> c'.mark == c.mark)
    ensures o.Proceed? && c.spec.replicas > 1 && !c.spec.skipPostDeploySteps ==>
      s.world.sts.Some? && (s.world.sts.value.rolling || Seen(s.log).rolling) ==> c'.mark.Some?
    ensures old(s.Ready(c)) ==> o.Proceed? && s.OnlyClusterIs(c')
  {
    hide Rules, Tie, Milestones, StageOf, Outstanding, Seen, SeenRestart, Observed, LastRestart, Less, Text, Seconds;
    var sts := s.GetSts();
    if IsOtherError(sts) {
      return c, Stop;
    }
    if sts.Success? && StatefulSetNeedsQueueRebalance(sts.value.rolling, c.spec) {
      assert NextRead(old(s.log), s.log) == Some(ReadOf(sts.value));
      c', o := MarkForQueueRebalance(s, c);
      assert NextRead(old(s.log), s.log) == Some(ReadOf(sts.value));
      return;
    }
    return c, Proceed;
  }

  // ---------- the builders ----------

  // `CreateOrUpdate` and `updateAnnotation` make several attempts; each attempt is a method of its own.

  method TryCreateOrUpdateMap(s: Store, kind: Kind, data: seq<string>) returns (r: Result<OperationResult>)
    requires s.Ok() && !StageOf(s.log, BuilderOf(kind)).Changed?
    modifies s
    ensures s.Ok() && s.CopiesHold() && QuietBut(old(s.log), s.log, BuilderOf(kind))
    ensures r == Failure(Conflict) ==> Quiet(old(s.log), s.log) && s.alive && s.turn == old(s.turn) + 2
    ensures r == Success(Updated) ==> s.Pending(BuilderOf(kind), Data(data))
    ensures r.Success? && r.value != Updated ==> StageOf(s.log, BuilderOf(kind)) == Settled(Data(data))
    ensures !s.schedule(old(s.turn)).fate.Served? ==> s.turn <= old(s.turn) + 1
    ensures s.Reliable() && old(s.alive) ==> s.alive
    ensures s.Calm() && old(s.alive) ==>
      && s.OnlyMap(kind) && MapWritten(MapOf(old(s.world), kind), MapOf(s.world, kind), data)
      && r == Success(MapResult(MapOf(old(s.world), kind), data))
  {
    hide InterfereAll, Rules, Tie, Milestones, StageOf, Outstanding, Seen, SeenRestart, Observed, LastRestart, Less, Text, Seconds;
    var current := s.GetMap(kind);
    if IsOtherError(current) {
      return Failure(current.error);
    }
    var written: Result<()>;
    if current.Failure? {
      written := s.CreateMap(kind, data);
      r := Success(Created);
    } else if current.value.data == data {
      s.Note(Found(BuilderOf(kind), Data(data)));
      return Success(Unchanged);
    } else {
      written := s.UpdateMap(current.value, kind, data);
      r := Success(Updated);
    }
    if written.Failure? {
      r := Failure(written.error);
    }
  }

  method CreateOrUpdateMap(s: Store, kind: Kind, data: seq<string>) returns (r: Result<OperationResult>)
    requires s.Ok() && !StageOf(s.log, BuilderOf(kind)).Changed?
    modifies s
    ensures s.Ok() && s.CopiesHold() && QuietBut(old(s.log), s.log, BuilderOf(kind))
    ensures r == Success(Updated) ==> s.Pending(BuilderOf(kind), Data(data))
    ensures r.Success? && r.value != Updated ==> StageOf(s.log, BuilderOf(kind)) == Settled(Data(data))
    ensures r == Failure(Conflict) ==> s.turn == old(s.turn) + 10
    ensures s.Reliable() && old(s.alive) ==> s.alive
    ensures s.Calm() && old(s.alive) ==>
      && s.OnlyMap(kind) && MapWritten(MapOf(old(s.world), kind), MapOf(s.world, kind), data)
      && r == Success(MapResult(MapOf(old(s.world), kind), data))
  {
    for attempt := 0 to ATTEMPTS
      invariant s.Ok() && s.CopiesHold() && Quiet(old(s.log), s.log)
      invariant s.turn == old(s.turn) + 2 * attempt && (s.Reliable() && old(s.alive) ==> s.alive)
      invariant s.Calm() && old(s.alive) ==> attempt == 0 && s.alive && s.world == old(s.world)
    {
      r := TryCreateOrUpdateMap(s, kind, data);
      if r != Failure(Conflict) {
        return;
      }
    }
    r := Failure(Conflict);
  }

  predicate IsConflictOrNotFound(e: ApiError) {
    e == Conflict || e == NotFound
  }

  method TryMarkMap(s: Store, kind: Kind, now: Timestamp, ghost content: Content) returns (r: Result<()>)
    requires s.Ok() && s.Pending(BuilderOf(kind), content)
    requires Seconds(StageOf(s.log, BuilderOf(kind)).at) <= Seconds(now) <= Seconds(s.world.clock)
    modifies s
    ensures s.Ok() && s.CopiesHold() && QuietBut(old(s.log), s.log, BuilderOf(kind))
    ensures r.Failure? && IsConflictOrNotFound(r.error) ==> Quiet(old(s.log), s.log)
    ensures s.Reliable() && old(s.alive) ==>
      s.alive && old(s.turn) < s.turn && (r.Failure? ==> IsConflictOrNotFound(r.error))
    ensures s.turn <= old(s.turn) + 2
    ensures r.Success? ==> StageOf(s.log, BuilderOf(kind)) == Settled(content)
    ensures s.Calm() && old(s.alive) && MapOf(old(s.world), kind).Some? ==>
      r.Success? && s.OnlyMap(kind) && MapMarked(MapOf(old(s.world), kind).value, MapOf(s.world, kind), now)
  {
    var current := s.GetMap(kind);
    if current.Failure? {
      return Failure(current.error);
    }
    r := s.MarkMap(current.value, kind, now);
  }

  method MarkMap(s: Store, kind: Kind, ghost content: Content) returns (ok: bool)
    requires s.Ok() && s.Pending(BuilderOf(kind), content)
    modifies s
    ensures s.Ok() && s.CopiesHold() && QuietBut(old(s.log), s.log, BuilderOf(kind))
    ensures ok ==> StageOf(s.log, BuilderOf(kind)) == Settled(content)
    ensures s.turn <= old(s.turn) + 10 && (!ok && s.Reliable() && old(s.alive) ==> s.turn >= old(s.turn) + 5)
    ensures s.Reliable() && old(s.alive) ==> s.alive && (!ok ==> Quiet(old(s.log), s.log))
    ensures s.Calm() && old(s.alive) && MapOf(old(s.world), kind).Some? ==>
      ok && s.OnlyMap(kind) && MapMarked(MapOf(old(s.world), kind).value, MapOf(s.world, kind), s.world.clock)
  {
    var now := s.world.clock;
    for attempt := 0 to ATTEMPTS
      invariant s.Ok() && s.CopiesHold() && Quiet(old(s.log), s.log)
      invariant s.turn <= old(s.turn) + 2 * attempt && (s.Reliable() && old(s.alive) ==> s.alive && s.turn >= old(s.turn) + attempt)
      invariant s.Calm() && old(s.alive) && MapOf(old(s.world), kind).Some? ==> attempt == 0 && s.alive && s.world == old(s.world)
    {
      var r := TryMarkMap(s, kind, now, content);
      if r.Success? || !IsConflictOrNotFound(r.error) {
        return r.Success?;
      }
    }
    ok := false;
  }

  method TryMarkCreated(s: Store, now: Timestamp, ghost content: Content) returns (r: Result<()>)
    requires s.Ok() && s.Pending(StatefulSetBuilder, content)
    requires Seconds(StageOf(s.log, StatefulSetBuilder).at) <= Seconds(now)
    modifies s
    ensures s.Ok() && s.CopiesHold() && QuietBut(old(s.log), s.log, StatefulSetBuilder)
    ensures r.Failure? && IsConflictOrNotFound(r.error) ==> Quiet(old(s.log), s.log)
    ensures s.Reliable() && old(s.alive) ==>
      s.alive && old(s.turn) < s.turn && (r.Failure? ==> IsConflictOrNotFound(r.error))
    ensures s.turn <= old(s.turn) + 2
    ensures r.Success? ==> StageOf(s.log, StatefulSetBuilder) == Settled(content)
    ensures s.Calm() && old(s.alive) && old(s.world.sts.Some?) ==>
      r.Success? && s.OnlySts() && StsMarked(old(s.world.sts).value, s.world.sts, now)
  {
    var current := s.GetSts();
    if current.Failure? {
      return Failure(current.error);
    }
    r := s.MarkSts(current.value, now);
  }

  method MarkCreated(s: Store, ghost content: Content) returns (ok: bool)
    requires s.Ok() && s.Pending(StatefulSetBuilder, content)
    modifies s
    ensures s.Ok() && s.CopiesHold() && QuietBut(old(s.log), s.log, StatefulSetBuilder)
    ensures ok ==> StageOf(s.log, StatefulSetBuilder) == Settled(content)
    ensures s.turn <= old(s.turn) + 10 && (!ok && s.Reliable() && old(s.alive) ==> s.turn >= old(s.turn) + 5)
    ensures s.Reliable() && old(s.alive) ==> s.alive && (!ok ==> Quiet(old(s.log), s.log))
    ensures s.Calm() && old(s.alive) && old(s.world.sts.Some?) ==>
      ok && s.OnlySts() && StsMarked(old(s.world.sts).value, s.world.sts, s.world.clock)
  {
    var now := s.world.clock;
    for attempt := 0 to ATTEMPTS
      invariant s.Ok() && s.CopiesHold() && Quiet(old(s.log), s.log)
      invariant s.turn <= old(s.turn) + 2 * attempt && (s.Reliable() && old(s.alive) ==> s.alive && s.turn >= old(s.turn) + attempt)
      invariant s.Calm() && old(s.alive) && old(s.world.sts.Some?) ==> attempt == 0 && s.alive && s.world == old(s.world)
    {
      var r := TryMarkCreated(s, now, content);
      if r.Success? || !IsConflictOrNotFound(r.error) {
        return r.Success?;
      }
    }
    ok := false;
  }

  /** An update keeps the annotations of the pod template. */
  method TryCreateOrUpdateSts(s: Store, replicas: nat) returns (r: Result<OperationResult>)
    requires s.Ok() && !StageOf(s.log, StatefulSetBuilder).Changed?
    modifies s
    ensures s.Ok() && s.CopiesHold() && QuietBut(old(s.log), s.log, StatefulSetBuilder)
    ensures r == Failure(Conflict) ==> Quiet(old(s.log), s.log) && s.alive && s.turn == old(s.turn) + 2
    ensures r == Success(Created) ==> s.Pending(StatefulSetBuilder, Replicas(replicas))
    ensures r.Success? && r.value != Created ==> StageOf(s.log, StatefulSetBuilder) == Settled(Replicas(replicas))
    ensures !s.schedule(old(s.turn)).fate.Served? ==> s.turn <= old(s.turn) + 1
    ensures s.Reliable() && old(s.alive) ==> s.alive
    ensures s.Calm() && old(s.alive) ==>
      && s.OnlySts() && StsBuilt(old(s.world.sts), s.world.sts, replicas)
      && r == Success(StsResult(old(s.world.sts), replicas))
  {
    hide InterfereAll, Rules, Tie, Milestones, StageOf, Outstanding, Seen, SeenRestart, Observed, LastRestart, Less, Text, Seconds;
    var current := s.GetSts();
    if IsOtherError(current) {
      return Failure(current.error);
    }
    var written: Result<()>;
    if current.Failure? {
      written := s.CreateSts(replicas);
      r := Success(Created);
    } else if current.value.replicas == replicas {
      s.Note(Found(StatefulSetBuilder, Replicas(replicas)));
      return Success(Unchanged);
    } else {
      written := s.UpdateSts(current.value, replicas);
      r := Success(Updated);
    }
    if written.Failure? {
      r := Failure(written.error);
    }
  }

  method CreateOrUpdateSts(s: Store, replicas: nat) returns (r: Result<OperationResult>)
    requires s.Ok() && !StageOf(s.log, StatefulSetBuilder).Changed?
    modifies s
    ensures s.Ok() && s.CopiesHold() && QuietBut(old(s.log), s.log, StatefulSetBuilder)
    ensures r == Success(Created) ==> s.Pending(StatefulSetBuilder, Replicas(replicas))
    ensures r.Success? && r.value != Created ==> StageOf(s.log, StatefulSetBuilder) == Settled(Replicas(replicas))
    ensures r == Failure(Conflict) ==> s.turn == old(s.turn) + 10
    ensures s.Reliable() && old(s.alive) ==> s.alive
    ensures s.Calm() && old(s.alive) ==>
      && s.OnlySts() && StsBuilt(old(s.world.sts), s.world.sts, replicas)
      && r == Success(StsResult(old(s.world.sts), replicas))
  {
    for attempt := 0 to ATTEMPTS
      invariant s.Ok() && s.CopiesHold() && Quiet(old(s.log), s.log)
      invariant s.turn == old(s.turn) + 2 * attempt && (s.Reliable() && old(s.alive) ==> s.alive)
      invariant s.Calm() && old(s.alive) ==> attempt == 0 && s.alive && s.world == old(s.world)
    {
      r := TryCreateOrUpdateSts(s, replicas);
      if r != Failure(Conflict) {
        return;
      }
    }
    r := Failure(Conflict);
  }

  method BuildMap(s: Store, c: Cluster, kind: Kind, data: seq<string>) returns (o: Outcome)
    requires s.Ok() && InHand(c, s) && !StageOf(s.log, BuilderOf(kind)).Changed?
    modifies s
    ensures s.Ok() && QuietBut(old(s.log), s.log, BuilderOf(kind)) && InHand(c, s)
    ensures o.Proceed? ==> StageOf(s.log, BuilderOf(kind)) == Settled(Data(data))
    ensures s.Reliable() && old(s.alive) ==> s.alive && (!o.Proceed? ==> StageOf(s.log, BuilderOf(kind)).Changed? || FailureReported(c, s))
    ensures old(s.Ready(c)) ==> o.Proceed? && s.OnlyMap(kind) && MapBuilt(MapOf(old(s.world), kind), MapOf(s.world, kind), data, s.world.clock)
  {
    var r := CreateOrUpdateMap(s, kind, data);
    if r.Failure? {
      ReportFailure(s, c);
      return Stop;
    }
    if r.value == Updated {
      var marked := MarkMap(s, kind, Data(data));
      return if marked then Proceed else Stop;
    }
    return Proceed;
  }

  /** Scaling down is refused. */
  method BuildSts(s: Store, c: Cluster) returns (o: Outcome)
    requires s.Ok() && InHand(c, s) && !StageOf(s.log, StatefulSetBuilder).Changed?
    modifies s
    ensures s.Ok() && QuietBut(old(s.log), s.log, StatefulSetBuilder) && InHand(c, s)
    ensures o.Proceed? ==> StageOf(s.log, StatefulSetBuilder) == Settled(Replicas(c.spec.replicas))
    ensures !s.schedule(old(s.turn)).fate.Served? ==> s.turn <= old(s.turn) + 1
    ensures s.Reliable() && old(s.alive) ==> s.alive && (!o.Proceed? ==> StageOf(s.log, StatefulSetBuilder).Changed? || FailureReported(c, s))
    ensures old(s.Ready(c)) ==>
      && (o.Proceed? <==> !ScalesDown(old(s.world.sts), c.spec))
      && (if o.Proceed? then s.OnlySts() && StsBuilt(old(s.world.sts), s.world.sts, c.spec.replicas)
          else s.world.cluster.status.success == Some(false))
  {
    hide Rules, Tie, Milestones, StageOf, Outstanding, Seen, SeenRestart, Observed, LastRestart, Less, Text, Seconds;
    var current := s.GetSts();
    if IsOtherError(current) {
      return Stop;
    }
    if current.Success? && current.value.replicas > c.spec.replicas {
      ReportFailure(s, c);
      return Stop;
    }
    o := ScaleAndBuildSts(s, c);
  }

  /** Scaling the storage may fail, and may remove the StatefulSet. */
  method ScaleAndBuildSts(s: Store, c: Cluster) returns (o: Outcome)
    requires s.Ok() && InHand(c, s) && !StageOf(s.log, StatefulSetBuilder).Changed?
    modifies s
    ensures s.Ok() && QuietBut(old(s.log), s.log, StatefulSetBuilder) && InHand(c, s)
    ensures o.Proceed? ==> StageOf(s.log, StatefulSetBuilder) == Settled(Replicas(c.spec.replicas))
    ensures o.Proceed? ==> s.schedule(old(s.turn)).fate.Served?
    ensures !s.schedule(old(s.turn)).fate.Served? && s.schedule(old(s.turn) + 1).fate.Served? && s.alive ==> FailureReported(c, s)
    ensures s.Reliable() && old(s.alive) ==> s.alive && (!o.Proceed? ==> StageOf(s.log, StatefulSetBuilder).Changed? || FailureReported(c, s))
    ensures old(s.Ready(c)) ==> o.Proceed? && s.OnlySts() && StsBuilt(old(s.world.sts), s.world.sts, c.spec.replicas)
  {
    var scaled := s.CallOther();
    if !scaled {
      ReportFailure(s, c);
      return Stop;
    }
    var r := CreateOrUpdateSts(s, c.spec.replicas);
    if r.Failure? {
      ReportFailure(s, c);
      return Stop;
    }
    if r.value == Created {
      var marked := MarkCreated(s, Replicas(c.spec.replicas));
      return if marked then Proceed else Stop;
    }
    return Proceed;
  }

  method BuildOther(s: Store, c: Cluster, b: Builder) returns (o: Outcome)
    requires s.Ok() && InHand(c, s) && !Marks(b) && !StageOf(s.log, b).Changed?
    modifies s
    ensures s.Ok() && QuietBut(old(s.log), s.log, b) && InHand(c, s)
    ensures o.Proceed? ==> StageOf(s.log, b) == Settled(MadeFrom(c.spec))
    ensures s.Reliable() && old(s.alive) ==> s.alive && o.Proceed?
    ensures !o.Proceed? && s.alive && s.schedule(old(s.turn) + 1).fate.Served? ==> FailureReported(c, s)
    ensures old(s.Ready(c)) ==> o.Proceed? && s.alive && s.world == old(s.world)
  {
    hide Rules, Tie, Milestones, StageOf, Outstanding, Seen, SeenRestart, Observed, LastRestart, Less, Text, Seconds;
    var applied := s.ApplyOther(b, c.spec);
    if applied {
      return Proceed;
    }
    ReportFailure(s, c);
    o := Stop;
  }

  method RunBuilder(s: Store, c: Cluster, b: Builder) returns (o: Outcome)
    requires s.Ok() && InHand(c, s) && NothingPending(s.log)
    modifies s
    ensures s.Ok() && QuietBut(old(s.log), s.log, b) && InHand(c, s)
    ensures o.Proceed? ==> NothingPending(s.log) && StageOf(s.log, b) == Settled(Wanted(b, c.spec))
    ensures s.Reliable() && old(s.alive) ==> s.alive && (!o.Proceed? ==> StageOf(s.log, b).Changed? || FailureReported(c, s))
    ensures old(s.Ready(c)) ==>
      && (o.Proceed? <==> !(b == StatefulSetBuilder && ScalesDown(old(s.world.sts), c.spec)))
      && (if o.Proceed? then s.alive && BuiltBy(old(s.world), s.world, c.spec, [b]) else s.world.cluster.status.success == Some(false))
  {
    hide Rules, Tie, Milestones, StageOf, Outstanding, Seen, SeenRestart, Observed, LastRestart, Less, Text, Seconds;
    match b
    case PluginsConfigMap => o := BuildMap(s, c, PluginsConf, c.spec.plugins);
    case ServerConfigMap => o := BuildMap(s, c, ServerConf, [c.spec.conf]);
    case StatefulSetBuilder => o := BuildSts(s, c);
    case _ => o := BuildOther(s, c, b);
  }

  lemma BuildersDoneStep(builders: seq<Builder>, i: nat, spec: Spec)
    requires i < |builders|
    ensures BuildersDone(builders[..i], spec) + [BuilderDone(builders[i], spec)] == BuildersDone(builders[..i + 1], spec)
  {
  }

  method RunBuilders(s: Store, c: Cluster, builders: seq<Builder>) returns (o: Outcome)
    requires s.Ok() && InHand(c, s) && Milestones(s.log) == [] && NothingPending(s.log)
    requires builders == ResourceBuilders(c.spec) && AcceptedTLS(c.spec)
    modifies s
    ensures s.Ok() && InHand(c, s)
    ensures Outstanding(s.log) == old(Outstanding(s.log))
    ensures o.Proceed? ==> Milestones(s.log) == BuildersDone(builders, c.spec)
    ensures !o.Proceed? && s.Reliable() && old(s.alive) ==> !NothingPending(s.log) || FailureReported(c, s)
    ensures old(s.Ready(c)) ==>
      && (o.Proceed? <==> !ScalesDown(old(s.world.sts), c.spec))
      && (if o.Proceed? then s.alive && BuiltBy(old(s.world), s.world, c.spec, builders) else s.world.cluster.status.success == Some(false))
  {
    hide Rules, Tie, Milestones, StageOf, Outstanding, Seen, SeenRestart, Observed, LastRestart, Less, Text, Seconds;
    EveryBuilderOnce(c.spec);
    for i := 0 to |builders|
      invariant s.Ok() && InHand(c, s) && NothingPending(s.log) && (s.Reliable() && old(s.alive) ==> s.alive)
      invariant old(s.Ready(c)) ==> s.alive && BuiltBy(old(s.world), s.world, c.spec, builders[..i])
      invariant old(s.Ready(c)) && StatefulSetBuilder in builders[..i] ==> !ScalesDown(old(s.world.sts), c.spec)
      invariant Milestones(s.log) == BuildersDone(builders[..i], c.spec) && Outstanding(s.log) == old(Outstanding(s.log))
    {
      ghost var w := s.world;
      assert builders[..i + 1] == builders[..i] + [builders[i]];
      o := RunBuilder(s, c, builders[i]);
      if !o.Proceed? {
        return;
      }
      if old(s.Ready(c)) {
        BuiltThen(old(s.world), w, s.world, c.spec, builders[..i], builders[i]);
      }
      s.Note(BuilderDone(builders[i], c.spec));
      BuildersDoneStep(builders, i, c.spec);
    }
    assert builders[..|builders|] == builders;
    o := Proceed;
  }

  // ---------- after the builders ----------

  ghost predicate RestartedAt(was: StatefulSet, now: Option<StatefulSet>, at: Timestamp) {
    now.Some? && now.value == was.(version := now.value.version, lastRestart := Some(at))
  }

  /** The two times are compared as strings. */
  predicate RestartedLater(last: Option<Timestamp>, changed: Timestamp) {
    last.Some? && Less(Text(changed, OFFSET), Text(last.value, OFFSET))
  }

  lemma RestartedLaterMeans(last: Option<Timestamp>, changed: Timestamp)
    ensures RestartedLater(last, changed) <==> last.Some? && Seconds(changed) < Seconds(last.value)
  {
    if last.Some? {
      Chronological(changed, last.value, OFFSET);
    }
  }

  /** What an undisturbed restart check does to the StatefulSet: nothing if server-conf has no marker, or
      if the last restart is strictly later; and otherwise it restarts the StatefulSet. */
  ghost predicate RestartedIfDue(conf: ConfigMap, was: StatefulSet, now: Option<StatefulSet>, at: Timestamp) {
    if conf.marker.None? || (was.lastRestart.Some? && Seconds(conf.marker.value) < Seconds(was.lastRestart.value)) then now == Some(was)
    else RestartedAt(was, now, at)
  }

  /** The log continues with a read of server-conf and one of the StatefulSet, and these show that a
      restart is due. */
  ghost predicate DueInReads(before: seq<Event>, after: seq<Event>) {
    var n := |before|;
    && before <= after && |after| >= n + 2
    && after[n].MapRead? && after[n].kind == ServerConf && after[n + 1].StsRead?
    && after[n].m.marker.Some? && !Later(after[n + 1].lastRestart, after[n].m.marker.value)
  }

  method TryRestart(s: Store, ghost changed: Timestamp, ghost last: Option<Timestamp>) returns (r: Result<()>)
    requires s.Ok() && Seconds(changed) <= Seconds(s.world.clock)
    requires s.world.conf.Some? ==> s.world.conf.value.marker == Some(changed)
    requires s.world.sts.Some? ==> s.world.sts.value.lastRestart == last
    requires SeenRestart(s.log).conf == Marked(changed) && !Later(last, changed)
    modifies s
    ensures s.Ok() && s.CopiesHold() && Quiet(old(s.log), s.log)
    ensures r.Success? ==> RestartedSince(s.world) && RestartDone(SeenRestart(s.log))
    ensures r == Failure(Conflict) ==> s.Waited() && SeenRestart(s.log).conf == Marked(changed)
    ensures r == Failure(Conflict) ==> s.turn == old(s.turn) + 2
    ensures s.Reliable() && old(s.alive) ==>
      s.alive && (r.Failure? ==> r.error == Conflict || s.world.sts.None?) && (s.world.sts.Some? ==> old(s.world.sts.Some?))
    ensures s.Calm() && old(s.alive) && old(s.world.sts.Some?) ==>
      r.Success? && s.OnlySts() && RestartedAt(old(s.world.sts).value, s.world.sts, s.world.clock)
  {
    hide Rules, Tie, Milestones, StageOf, Outstanding, Seen, SeenRestart, Observed, LastRestart, Less, Text, Seconds;
    var current := s.GetSts();
    if current.Failure? {
      return Failure(current.error);
    }
    r := s.RestartSts(current.value, changed, s.world.clock);
  }

  /** Writes the time of the restart, and tries again after a conflict: five times in all. */
  method RestartStatefulSet(s: Store, ghost changed: Timestamp, ghost last: Option<Timestamp>) returns (o: Outcome)
    requires s.Ok() && Seconds(changed) <= Seconds(s.world.clock)
    requires s.world.conf.Some? ==> s.world.conf.value.marker == Some(changed)
    requires s.world.sts.Some? ==> s.world.sts.value.lastRestart == last
    requires SeenRestart(s.log).conf == Marked(changed) && !Later(last, changed)
    modifies s
    ensures s.Ok() && s.CopiesHold() && Quiet(old(s.log), s.log)
    ensures o.Proceed? ==> RestartedSince(s.world) && RestartDone(SeenRestart(s.log))
    ensures !o.Proceed? && s.Reliable() && old(s.alive) && s.world.sts.Some? ==> s.turn == old(s.turn) + 10
    ensures s.Calm() && old(s.alive) && old(s.world.sts.Some?) ==>
      o.Proceed? && s.OnlySts() && RestartedAt(old(s.world.sts).value, s.world.sts, s.world.clock)
  {
    hide Rules, Tie, Milestones, StageOf, Outstanding, Seen, SeenRestart, Observed, LastRestart, Less, Text, Seconds;
    for attempt := 0 to ATTEMPTS
      invariant s.Ok() && s.CopiesHold() && Quiet(old(s.log), s.log)
      invariant s.world.conf.Some? ==> s.world.conf.value.marker == Some(changed)
      invariant Seconds(changed) <= Seconds(s.world.clock)
      invariant s.world.sts.Some? ==> s.world.sts.value.lastRestart == last
      invariant SeenRestart(s.log).conf == Marked(changed)
      invariant s.turn == old(s.turn) + 2 * attempt && (s.Reliable() && old(s.alive) ==> s.alive)
      invariant s.Calm() && old(s.alive) && old(s.world.sts.Some?) ==> attempt == 0 && s.alive && s.world == old(s.world)
    {
      var r := TryRestart(s, changed, last);
      if r.Success? {
        return Proceed;
      }
      if r.error != Conflict {
        return Stop;
      }
    }
    o := Stop;
  }

  /** Restarts the StatefulSet unless it was restarted after the last change of server-conf. */
  method RestartStatefulSetIfNeeded(s: Store) returns (o: Outcome)
    requires s.Ok()
    modifies s
    ensures s.Ok() && s.CopiesHold() && Quiet(old(s.log), s.log)
    ensures o.Proceed? ==> RestartedSince(s.world) && RestartDone(SeenRestart(s.log))
    ensures DueInReads(old(s.log), s.log)
            || forall i | |old(s.log)| <= i < |s.log| :: s.log[i].MapRead? || s.log[i].StsRead?
    ensures s.Calm() && old(s.alive) && old(s.world.conf.Some? && s.world.sts.Some?) ==>
      o.Proceed? && s.OnlySts() && RestartedIfDue(old(s.world.conf).value, old(s.world.sts).value, s.world.sts, s.world.clock)
  {
    hide Rules, Tie, Milestones, StageOf, Outstanding, Seen, SeenRestart, Observed, LastRestart, Less, Text, Seconds;
    var serverConf := s.GetMap(ServerConf);
    if serverConf.Failure? {
      return Stop;
    }
    if serverConf.value.marker.None? {
      return Proceed;
    }
    var changed := serverConf.value.marker.value;
    var sts := s.GetSts();
    if sts.Failure? {
      return Stop;
    }
    var last := sts.value.lastRestart;
    RestartedLaterMeans(last, changed);
    if RestartedLater(last, changed) {
      return Proceed;
    }
    o := RestartStatefulSet(s, changed, last);
  }

  method ReconcileStatus(s: Store, c: Cluster) returns (c': Cluster, o: Outcome)
    requires s.Ok() && InHand(c, s)
    modifies s
    ensures s.Ok() && s.Kept() && Quiet(old(s.log), s.log)
    ensures var user := DefaultUser(!(c.spec.vault.Some? && c.spec.vault.value.userSecret));
            && (o.Proceed? ==> InHand(c', s) && c'.spec == c.spec && c'.status == c.status.(defaultUser := Some(user)))
            && (c.status.defaultUser == Some(user) ==> c' == c && o.Proceed? && s.world == old(s.world))
    ensures old(s.Ready(c)) ==> o.Proceed? && s.OnlyClusterIs(c')
  {
    var user := DefaultUserOf(c.spec);
    if c.status.defaultUser == Some(user) {
      return c, Proceed;
    }
    var r := s.UpdateStatus(c, c.status.(defaultUser := Some(user)));
    if r.Failure? {
      return c, Stop;
    }
    return r.value, Proceed;
  }

  method SetPluginsOnAllPods(s: Store, c: Cluster, m: ConfigMap) returns (ok: bool)
    requires s.Ok() && PluginsSetEverywhere(s.log, m, 0, c.spec.plugins)
    requires Seen(s.log).ready && !Seen(s.log).recent && Seen(s.log).pluginsMarked
    modifies s
    ensures s.Ok() && s.Waited() && Quiet(old(s.log), s.log) && Seen(s.log) == Seen(old(s.log))
    ensures ok ==> PluginsSetEverywhere(s.log, m, c.spec.replicas, c.spec.plugins)
    ensures s.Reliable() && old(s.alive) ==> s.alive
    ensures s.Calm() && old(s.alive) ==> ok && s.alive && s.world == old(s.world)
  {
    ok := true;
    for i := 0 to c.spec.replicas
      invariant s.Ok() && s.Waited() && Quiet(old(s.log), s.log) && Seen(s.log) == Seen(old(s.log))
      invariant ok && PluginsSetEverywhere(s.log, m, i, c.spec.plugins)
      invariant s.Reliable() && old(s.alive) ==> s.alive
      invariant s.Calm() && old(s.alive) ==> s.alive && s.world == old(s.world)
    {
      PluginsSetOnNext(s.log, m, i, c.spec.plugins);
      ok := s.ExecSetPlugins(i, c.spec.plugins);
      if !ok {
        return;
      }
    }
  }

  method RunSetPluginsCommand(s: Store, c: Cluster, m: ConfigMap) returns (ok: bool)
    requires s.Ok() && HeldMap(m, PluginsConf, s.world) && PluginsSetEverywhere(s.log, m, 0, c.spec.plugins)
    requires BuiltFor(s.log, c.spec) && Seen(s.log).ready && !Seen(s.log).recent && Seen(s.log).pluginsMarked
    modifies s
    ensures s.Ok() && s.Kept() && Quiet(old(s.log), s.log)
    ensures ok ==> Seen(s.log) == Seen(old(s.log)).(pluginsMarked := false)
    ensures s.Reliable() && old(s.alive) ==> s.alive
    ensures s.Calm() && old(s.alive) && old(s.world.plugins) == Some(m) ==>
      ok && s.OnlyMap(PluginsConf) && s.world.plugins.Some? && s.world.plugins.value.marker.None?
  {
    ok := SetPluginsOnAllPods(s, c, m);
    if ok {
      var written := s.UnmarkPlugins(m, c.spec);
      ok := written.Success?;
    }
  }

  method RunEnableFeatureFlagsCommand(s: Store, sts: StatefulSet) returns (ok: bool)
    requires s.Ok() && HeldSts(sts, s.world) && Seen(s.log).ready && !Seen(s.log).recent && Seen(s.log).created
    modifies s
    ensures s.Ok() && s.Kept() && Quiet(old(s.log), s.log)
    ensures ok ==> Seen(s.log) == Seen(old(s.log)).(created := false)
    ensures s.Reliable() && old(s.alive) ==> s.alive
    ensures s.Calm() && old(s.alive) && old(s.world.sts) == Some(sts) ==>
      ok && s.OnlySts() && s.world.sts.Some? && s.world.sts.value.createdAt.None?
  {
    ok := s.ExecEnableFeatureFlags();
    if ok {
      var written := s.UnmarkSts(sts);
      ok := written.Success?;
    }
  }

  ghost predicate SameButMark(c: Cluster, c': Cluster) {
    c' == c.(version := c'.version, mark := c'.mark)
  }

  method RunQueueRebalanceCommand(s: Store, c: Cluster) returns (c': Cluster, ok: bool)
    requires s.Ok() && InHand(c, s) && c.mark.Some? && Seen(s.log).ready && !Seen(s.log).recent
    modifies s
    ensures s.Ok() && s.Kept() && OnlyBy(old(s.log), s.log, None) && Seen(s.log) == Seen(old(s.log))
    ensures Held(c', s.world) && SameButMark(c, c') && (ok ==> InHand(c', s) && c'.mark.None?)
    ensures s.Reliable() && old(s.alive) ==> s.alive
    ensures old(s.Ready(c)) ==> ok && s.OnlyClusterIs(c')
  {
    c' := c;
    ok := s.ExecRebalance();
    if ok {
      var written := s.UnmarkCluster(c);
      if written.Success? {
        c' := written.value;
      }
      ok := written.Success?;
    }
  }

  /** The commands in pods that a marker asks for, each marker being removed after its command. */
  method RunCommands(s: Store, c: Cluster, sts: StatefulSet, plugins: ConfigMap) returns (c': Cluster, ok: bool)
    requires s.Ok() && InHand(c, s) && HeldSts(sts, s.world) && HeldMap(plugins, PluginsConf, s.world)
    requires Seen(s.log) == Sight(true, false, sts.createdAt.Some?, plugins.marker.Some?, false)
    requires PluginsSetEverywhere(s.log, plugins, 0, c.spec.plugins) && BuiltFor(s.log, c.spec)
    modifies s
    ensures s.Ok() && s.Kept() && OnlyBy(old(s.log), s.log, None)
    ensures Held(c', s.world) && SameButMark(c, c')
    ensures ok ==> InHand(c', s) && c'.mark.None? && Seen(s.log) == NOTHING_LEFT
    ensures s.Reliable() && old(s.alive) ==> s.alive
    ensures old(s.Ready(c) && s.world.sts == Some(sts) && s.world.plugins == Some(plugins)) ==>
      ok && s.Ready(c') && NothingMarked(s.world)
  {
    hide Rules, Tie, Milestones, StageOf, Outstanding, Seen, SeenRestart, Observed, LastRestart, Less, Text, Seconds;
    c', ok := c, true;
    if plugins.marker.Some? {
      ok := RunSetPluginsCommand(s, c, plugins);
    }
    if ok && sts.createdAt.Some? {
      ok := RunEnableFeatureFlagsCommand(s, sts);
    }
    if ok && c.mark.Some? {
      c', ok := RunQueueRebalanceCommand(s, c);
    }
  }

  method RunCommandsOrReport(s: Store, c: Cluster, sts: StatefulSet, plugins: ConfigMap) returns (c': Cluster, o: Outcome)
    requires s.Ok() && InHand(c, s) && HeldSts(sts, s.world) && HeldMap(plugins, PluginsConf, s.world)
    requires Seen(s.log) == Sight(true, false, sts.createdAt.Some?, plugins.marker.Some?, false)
    requires PluginsSetEverywhere(s.log, plugins, 0, c.spec.plugins) && BuiltFor(s.log, c.spec)
    modifies s
    ensures !o.Panic?
    ensures s.Ok() && s.Kept() && OnlyBy(old(s.log), s.log, None)
    ensures o.Proceed? ==> InHand(c', s) && SameButMark(c, c') && c'.mark.None? && Seen(s.log) == NOTHING_LEFT
    ensures !o.Proceed? && s.Reliable() && old(s.alive) ==> FailureReported(c', s)
    ensures old(s.Ready(c) && s.world.sts == Some(sts) && s.world.plugins == Some(plugins)) ==>
      o.Proceed? && s.Ready(c') && NothingMarked(s.world)
  {
    hide Rules, Tie, Milestones, StageOf, Outstanding, Seen, SeenRestart, Observed, LastRestart, Less, Text, Seconds;
    var ok: bool;
    c', ok := RunCommands(s, c, sts, plugins);
    if !ok {
      ReportFailure(s, c');
    }
    o := if ok then Proceed else Stop;
  }

  /** The commands wait until a change of the plugins is two seconds old. The error for a
      missing plugins config map is ignored, but not the nil that comes with it. */
  method RunCommandsUnlessRecent(s: Store, c: Cluster, sts: StatefulSet) returns (c': Cluster, o: Outcome)
    requires s.Ok() && InHand(c, s) && HeldSts(sts, s.world)
    requires s.log != [] && s.log[|s.log| - 1] == ReadOf(sts) && AllReplicasReadyAndUpdated(sts)
    requires Seen(s.log).ready && !Seen(s.log).rolling && (Seen(s.log).created <==> sts.createdAt.Some?) && BuiltFor(s.log, c.spec)
    modifies s
    ensures s.Ok() && s.Kept() && OnlyBy(old(s.log), s.log, None)
    ensures o.Proceed? ==> InHand(c', s) && SameButMark(c, c') && c'.mark.None? && Seen(s.log) == NOTHING_LEFT
    ensures o.Panic? ==> s.world.plugins.None? && s.log == old(s.log)
    ensures o.Stop? && s.Reliable() && old(s.alive) ==> Seen(s.log).recent || FailureReported(c', s)
    ensures !s.schedule(old(s.turn)).fate.Served? && s.schedule(old(s.turn) + 1).fate.Served? && s.alive ==> FailureReported(c', s)
    ensures s.Reliable() && old(s.alive) && !o.Panic? ==>
      |s.log| > |old(s.log)| && s.log[|old(s.log)|].MapRead? && s.log[|old(s.log)|].kind == PluginsConf
    ensures old(s.Ready(c) && s.world.sts == Some(sts)) ==>
      && (o.Panic? <==> old(s.world.plugins.None?))
      && (o.Proceed? <==> old(s.world.plugins.Some? && LongSet(s.world.plugins.value, s.world.clock)))
      && (o.Proceed? ==> s.Ready(c') && NothingMarked(s.world))
      && (!o.Proceed? ==> Outstanding(s.log) == old(Outstanding(s.log)))
  {
    hide Rules, Tie, Milestones, StageOf, Outstanding, Seen, SeenRestart, Observed, LastRestart, Less, Text, Seconds;
    c', o := c, Stop;
    var plugins := s.GetMap(PluginsConf);
    if IsOtherError(plugins) {
      ReportFailure(s, c);
      return;
    }
    if plugins.Failure? {
      return c, Panic;
    }
    if UpdatedRecently(plugins.value, s.world.clock) {
      return;
    }
    assert s.log[|s.log| - 2] == ReadOf(sts);
    c', o := RunCommandsOrReport(s, c, sts, plugins.value);
  }

  /** They also wait until all replicas are ready and updated. */
  method RunRabbitmqCLICommandsIfAnnotated(s: Store, c: Cluster) returns (c': Cluster, o: Outcome)
    requires s.Ok() && InHand(c, s) && BuiltFor(s.log, c.spec)
    modifies s
    ensures s.Ok() && s.Kept() && OnlyBy(old(s.log), s.log, None)
    ensures o.Proceed? ==> InHand(c', s) && SameButMark(c, c') && c'.mark.None? && Seen(s.log) == NOTHING_LEFT
    ensures o.Panic? ==> s.world.plugins.None?
    ensures o.Stop? && s.Reliable() && old(s.alive) ==> !Seen(s.log).ready || Seen(s.log).recent || FailureReported(c', s)
    ensures old(s.Ready(c)) ==>
      var sts := old(s.world.sts);
      o.Panic? <==> sts.Some? && sts.value.ready == sts.value.replicas && !sts.value.rolling && old(s.world.plugins.None?)
    ensures old(s.Ready(c)) ==>
      && (o.Proceed? <==> CommandsMayRun(old(s.world)))
      && (o.Proceed? ==> s.Ready(c') && NothingMarked(s.world))
      && (!o.Proceed? ==> Outstanding(s.log) == old(Outstanding(s.log)))
  {
    hide Rules, Tie, Milestones, StageOf, Outstanding, Seen, SeenRestart, Observed, LastRestart, Less, Text, Seconds;
    c', o := c, Stop;
    var sts := s.GetSts();
    if sts.Failure? {
      ReportFailure(s, c);
    } else if AllReplicasReadyAndUpdated(sts.value) {
      c', o := RunCommandsUnlessRecent(s, c, sts.value);
    }
  }

  // ---------- the pass ----------

  method Prepare(s: Store, d: Defaults) returns (c: Cluster, o: Outcome)
    requires s.Ok()
    modifies s
    ensures s.Ok() && OnlyBy(old(s.log), s.log, None)
    ensures o.Proceed? ==> InHand(c, s) && AcceptedTLS(c.spec) && c.finalizer && DefaultsSet(c.spec, d)
    ensures o.Proceed? && c.spec.replicas > 1 && !c.spec.skipPostDeploySteps ==>
      s.world.sts.Some? && (s.world.sts.value.rolling || Seen(s.log).rolling) ==> c.mark.Some?
    ensures s.Calm() && old(s.alive) ==>
      && (o.Proceed? <==> AcceptedTLS(old(s.world.cluster.spec)))
      && (if o.Proceed? then s.OnlyClusterIs(c) && c.spec == Defaulted(old(s.world.cluster.spec), d)
          else s.world.cluster.status.success == Some(false))
  {
    hide Rules, Milestones, StageOf, Outstanding, References, DefaultsSet;
    var cluster := s.GetCluster();
    if cluster.Failure? {
      return s.world.cluster, Stop;
    }
    c, o := ReconcileOperatorDefaults(s, cluster.value, d);
    if !o.Proceed? {
      return;
    }
    c, o := AddFinalizerIfNeeded(s, c);
    if !o.Proceed? {
      return;
    }
    ghost var read;
    c, o, read := UpdateStatusConditions(s, c);
    if !o.Proceed? {
      return;
    }
    o := ReconcileTLS(s, c);
    if !o.Proceed? {
      return;
    }
    c, o := MarkForQueueRebalanceIfNeeded(s, c);
  }

  // Each step after the builders is logged as a milestone when the pass may go on.

  method RestartStep(s: Store, c: Cluster) returns (o: Outcome)
    requires s.Ok() && InHand(c, s)
    modifies s
    ensures s.Ok() && InHand(c, s) && Outstanding(s.log) == old(Outstanding(s.log))
    ensures o.Proceed? ==> RestartedSince(s.world) && Milestones(s.log) == old(Milestones(s.log)) + [RestartChecked(c.spec)]
    ensures old(s.Ready(c) && s.world.conf.Some? && s.world.sts.Some?) ==>
      o.Proceed? && s.OnlySts() && RestartedIfDue(old(s.world.conf).value, old(s.world.sts).value, s.world.sts, s.world.clock)
  {
    o := RestartStatefulSetIfNeeded(s);
    if o.Proceed? {
      s.Note(RestartChecked(c.spec));
    }
  }

  method StatusStep(s: Store, c: Cluster) returns (c': Cluster, o: Outcome)
    requires s.Ok() && InHand(c, s)
    modifies s
    ensures s.Ok() && s.Kept() && Outstanding(s.log) == old(Outstanding(s.log))
    ensures o.Proceed? ==> InHand(c', s) && c'.spec == c.spec && c'.status.defaultUser == Some(DefaultUserOf(c.spec))
                           && Milestones(s.log) == old(Milestones(s.log)) + [StatusDone(c.spec)]
    ensures old(s.Ready(c)) ==> o.Proceed? && s.OnlyClusterIs(c')
  {
    c', o := ReconcileStatus(s, c);
    if o.Proceed? {
      s.Note(StatusDone(c.spec));
    }
  }

  method CliStep(s: Store, c: Cluster) returns (c': Cluster, o: Outcome)
    requires s.Ok() && InHand(c, s) && BuiltFor(s.log, c.spec)
    modifies s
    ensures s.Ok() && s.Kept()
    ensures o.Proceed? ==> InHand(c', s) && SameButMark(c, c')
                           && Milestones(s.log) == old(Milestones(s.log)) + [CliDone(c.spec)]
    ensures old(s.Ready(c)) ==>
      && (o.Proceed? <==> CommandsMayRun(old(s.world)))
      && (o.Proceed? ==> s.Ready(c') && NothingMarked(s.world))
      && (!o.Proceed? ==> Outstanding(s.log) == old(Outstanding(s.log)))
  {
    c', o := RunRabbitmqCLICommandsIfAnnotated(s, c);
    if o.Proceed? {
      s.Note(CliDone(c.spec));
    }
  }

  lemma AllMilestones(done: seq<Event>, spec: Spec)
    requires done == BuildersDone(ResourceBuilders(spec), spec)
    ensures done + [RestartChecked(spec)] + [StatusDone(spec)] + [CliDone(spec)] == Complete(spec)
    ensures BuilderDone(StatefulSetBuilder, spec) in done
  {
    EveryBuilderOnce(spec);
    assert done[|ResourceBuilders(spec)| - 1] == BuilderDone(StatefulSetBuilder, spec);
  }

  /** The steps after the builders, and the report that the pass is over. */
  method Finish(s: Store, c: Cluster, ghost done: seq<Event>) returns (finished: bool)
    requires s.Ok() && InHand(c, s) && Milestones(s.log) == done
    requires done + [RestartChecked(c.spec)] + [StatusDone(c.spec)] + [CliDone(c.spec)] == Complete(c.spec)
    requires BuilderDone(StatefulSetBuilder, c.spec) in done
    modifies s
    ensures s.Ok()
    ensures finished ==> RestartedSince(s.world) && Milestones(s.log) == Complete(c.spec)
    ensures old(s.Ready(c) && s.world.conf.Some? && s.world.sts.Some? && s.world.plugins.Some?) ==>
      && (finished <==> CommandsMayRun(old(s.world)))
      && (finished ==> Reported(s.world) && NothingMarked(s.world))
      && (!finished ==> Outstanding(s.log) == old(Outstanding(s.log)))
  {
    var o := RestartStep(s, c);
    if !o.Proceed? {
      return false;
    }
    var c1, o1 := StatusStep(s, c);
    if !o1.Proceed? {
      return false;
    }
    assert BuiltFor(s.log, c.spec);
    var c2, o2 := CliStep(s, c1);
    if !o2.Proceed? {
      return false;
    }
    var _ := s.UpdateStatus(c2, c2.status.(observed := c2.generation, success := Some(true)));
    return true;
  }

  lemma DefaultsKeep(spec: Spec, d: Defaults)
    ensures var spec' := Defaulted(spec, d);
            && spec'.plugins == spec.plugins && spec'.replicas == spec.replicas && spec'.skipPostDeploySteps == spec.skipPostDeploySteps
            && (AcceptedTLS(spec') <==> AcceptedTLS(spec))
  {
  }

  lemma UndisturbedPass(w: World, prepared: World, built: World, d: Defaults)
    requires prepared == w.(revision := prepared.revision, cluster := prepared.cluster)
    requires prepared.cluster.spec == Defaulted(w.cluster.spec, d)
    requires BuiltBy(prepared, built, prepared.cluster.spec, ResourceBuilders(prepared.cluster.spec))
    requires !ScalesDown(w.sts, prepared.cluster.spec) && AcceptedTLS(w.cluster.spec)
    ensures CommandsMayRun(built) <==> Finishes(w)
    ensures built.plugins.Some? && built.conf.Some? && built.sts.Some?
  {
    DefaultsKeep(w.cluster.spec, d);
    hide Defaulted, Seconds;
    EveryBuilderOnce(prepared.cluster.spec);
  }

  method BuildAndFinish(s: Store, c: Cluster) returns (finished: bool)
    requires s.Ok() && InHand(c, s) && Milestones(s.log) == [] && NothingPending(s.log) && AcceptedTLS(c.spec)
    modifies s
    ensures s.Ok()
    ensures finished ==> RestartedSince(s.world) && Milestones(s.log) == Complete(c.spec)
    ensures finished && old(s.Ready(c)) ==> Reported(s.world) && NothingMarked(s.world)
    ensures old(s.Ready(c)) && !ScalesDown(old(s.world.sts), c.spec) ==>
      exists built :: BuiltBy(old(s.world), built, c.spec, ResourceBuilders(c.spec)) && (finished <==> CommandsMayRun(built))
    ensures old(s.Ready(c)) && ScalesDown(old(s.world.sts), c.spec) ==> !finished && s.world.cluster.status.success == Some(false)
    ensures old(s.Ready(c)) && !finished ==> Outstanding(s.log) == old(Outstanding(s.log))
  {
    EveryBuilderOnce(c.spec);
    var o := RunBuilders(s, c, ResourceBuilders(c.spec));
    if !o.Proceed? {
      return false;
    }
    ghost var built := s.world;
    ghost var done := Milestones(s.log);
    AllMilestones(done, c.spec);
    finished := Finish(s, c, done);
    assert old(s.Ready(c)) ==> BuiltBy(old(s.world), built, c.spec, ResourceBuilders(c.spec));
  }

  /** One pass. When it reports success, the StatefulSet has been restarted since server-conf was last
      changed. When it is not disturbed, the objects it finds decide whether it completes; if it
      does, that has been reported and nothing is left to do; and if the StatefulSet is rolling, the
      rebalance mark is set and stays. */
  method Reconcile(s: Store, d: Defaults) returns (finished: bool)
    requires s.Ok()
    modifies s
    ensures s.Ok()
    ensures finished ==> RestartedSince(s.world) && exists spec: Spec :: Milestones(s.log) == Complete(spec)
    ensures s.Calm() ==> (finished <==> Finishes(old(s.world)))
    ensures s.Calm() && finished ==> Reported(s.world) && NothingMarked(s.world)
    ensures var spec := old(s.world.cluster.spec);
            s.Calm() && AcceptedTLS(spec) && spec.replicas > 1 && !spec.skipPostDeploySteps ==>
            old(s.world.sts.Some? && s.world.sts.value.rolling) ==> s.world.cluster.mark.Some?
    ensures s.Calm() && (!AcceptedTLS(old(s.world.cluster.spec)) || ScalesDown(old(s.world.sts), old(s.world.cluster.spec))) ==>
      !finished && s.world.cluster.status.success == Some(false)
  {
    s.StartPass();
    var c, o := Prepare(s, d);
    if !o.Proceed? {
      return false;
    }
    ghost var prepared := s.world;
    DefaultsKeep(old(s.world.cluster.spec), d);
    finished := BuildAndFinish(s, c);
    if s.Calm() && !ScalesDown(prepared.sts, c.spec) {
      ghost var built :| BuiltBy(prepared, built, c.spec, ResourceBuilders(c.spec)) && (finished <==> CommandsMayRun(built));
      UndisturbedPass(old(s.world), prepared, built, d);
    }
  }

  /** Any number of passes under any schedule: the rules hold of everything the operator does. */
  method Run(s: Store, d: Defaults, passes: nat)
    requires s.Ok()
    modifies s
    ensures s.Ok()
    ensures forall uid: nat, conf: Timestamp :: Changes(s.log, uid, conf) <= 2
  {
    for pass := 0 to passes
      invariant s.Ok()
    {
      var _ := Reconcile(s, d);
    }
    forall uid: nat, conf: Timestamp ensures Changes(s.log, uid, conf) <= 2 {
      AtMostTwoRestarts(s.log, uid, conf);
    }
  }
}
