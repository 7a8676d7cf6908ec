/** The objects that carry the operator's time markers from one reconcile pass to the next, what
    others may do to them, and the rules every run of the operator obeys. */
module MarkerModel {
  import opened Kubernetes
  import opened Timestamps

  const OFFSET := "Z"

  // ---------- objects ----------

  datatype Vault = Vault(userSecret: bool, tls: bool, updaterImage: Option<string>)

  /** `pullSecrets` is None for a nil list. */
  datatype Spec = Spec(replicas: nat, skipPostDeploySteps: bool, plugins: seq<string>, conf: string,
                       image: string, pullSecrets: Option<seq<string>>, vault: Option<Vault>,
                       secretTLS: bool, disableNonTLS: bool)

  predicate TLSEnabled(spec: Spec) {
    spec.secretTLS || (spec.vault.Some? && spec.vault.value.tls)
  }

  predicate AcceptedTLS(spec: Spec) {
    spec.disableNonTLS ==> TLSEnabled(spec)
  }

  /** What the status says of the default user: a reference to the Service, and one to the secret, which
      is also the binding, unless Vault keeps the credentials. */
  datatype DefaultUser = DefaultUser(secret: bool)

  function DefaultUserOf(spec: Spec): DefaultUser {
    DefaultUser(!(spec.vault.Some? && spec.vault.value.userSecret))
  }

  /** `ready` and `success` are the AllReplicasReady and ReconcileSuccess conditions. */
  datatype Status = Status(ready: Option<bool>, success: Option<bool>, defaultUser: Option<DefaultUser>, observed: nat)

  /** `mark` is the annotation queueRebalanceNeededAt. */
  datatype Cluster = Cluster(version: nat, generation: nat, spec: Spec, finalizer: bool, mark: Option<Timestamp>, status: Status)

  datatype Kind = PluginsConf | ServerConf

  /** `marker` is the annotation pluginsUpdatedAt or serverConfUpdatedAt. */
  datatype ConfigMap = ConfigMap(version: nat, data: seq<string>, marker: Option<Timestamp>)

  /** `rolling`: the current revision is not the update revision. `createdAt` is an annotation of
      the StatefulSet, `lastRestart` one of its pod template. */
  datatype StatefulSet = StatefulSet(version: nat, uid: nat, replicas: nat, ready: nat, rolling: bool,
                                     createdAt: Option<Timestamp>, lastRestart: Option<Timestamp>)

  /** Every write takes the next revision as the version of the object. */
  datatype World = World(clock: Timestamp, revision: nat, nextUid: nat, cluster: Cluster,
                         plugins: Option<ConfigMap>, conf: Option<ConfigMap>, sts: Option<StatefulSet>)

  function MapOf(w: World, kind: Kind): Option<ConfigMap> {
    if kind == PluginsConf then w.plugins else w.conf
  }

  function WithMap(w: World, kind: Kind, m: Option<ConfigMap>): World {
    if kind == PluginsConf then w.(plugins := m) else w.(conf := m)
  }

  // ---------- what others do ----------

  /** Users edit specs and config maps, controllers report status, objects disappear, time passes.
      `Remark` is another writer setting pluginsUpdatedAt. Nobody else touches the other markers. */
  datatype Outside =
    | EditSpec(spec: Spec) | TouchCluster
    | EditMap(kind: Kind, data: seq<string>) | RemoveMap(kind: Kind) | Remark
    | Report(ready: nat, rolling: bool) | RemoveSts
    | Tick(now: Timestamp)

  function Interfere(w: World, a: Outside): World {
    var v := w.revision + 1;
    match a
    case EditSpec(spec) =>
      if spec == w.cluster.spec then w
      else w.(revision := v, cluster := w.cluster.(version := v, generation := w.cluster.generation + 1, spec := spec))
    case TouchCluster => w.(revision := v, cluster := w.cluster.(version := v))
    case EditMap(kind, data) =>
      var m := MapOf(w, kind);
      if m.None? then w else WithMap(w.(revision := v), kind, Some(m.value.(version := v, data := data)))
    case RemoveMap(kind) => WithMap(w, kind, None)
    case Remark =>
      if w.plugins.None? then w else w.(revision := v, plugins := Some(w.plugins.value.(version := v, marker := Some(w.clock))))
    case Report(ready, rolling) =>
      if w.sts.None? then w else w.(revision := v, sts := Some(w.sts.value.(version := v, ready := ready, rolling := rolling)))
    case RemoveSts => w.(sts := None)
    case Tick(now) => if Seconds(w.clock) <= Seconds(now) then w.(clock := now) else w
  }

  function InterfereAll(w: World, others: seq<Outside>): World {
    if others == [] then w else Interfere(InterfereAll(w, others[..|others| - 1]), others[|others| - 1])
  }

  lemma OneMoreInterferes(w: World, others: seq<Outside>, i: nat)
    requires i < |others|
    ensures InterfereAll(w, others[..i + 1]) == Interfere(InterfereAll(w, others[..i]), others[i])
  {
    assert others[..i + 1][..i] == others[..i];
  }

  /** What the operator can rely on between two of its calls. */
  ghost predicate Rely(w: World, w': World) {
    && Seconds(w.clock) <= Seconds(w'.clock) && w.revision <= w'.revision && w'.nextUid == w.nextUid
    && w.cluster.generation <= w'.cluster.generation
    && (w'.cluster == w.cluster
        || (w'.cluster.version > w.revision
            && w'.cluster == w.cluster.(version := w'.cluster.version, generation := w'.cluster.generation, spec := w'.cluster.spec)))
    && (w'.plugins == w.plugins || w'.plugins.None? || w'.plugins.value.version > w.revision)
    && (w'.conf == w.conf || w'.conf.None?
        || (w.conf.Some? && w'.conf.value.version > w.revision && w'.conf.value.marker == w.conf.value.marker))
    && (w'.sts == w.sts || w'.sts.None?
        || (w.sts.Some? && w'.sts.value.version > w.revision
            && w'.sts.value == w.sts.value.(version := w'.sts.value.version, ready := w'.sts.value.ready, rolling := w'.sts.value.rolling)))
  }

  lemma RelyTransitive(w: World, w': World, w'': World)
    requires Rely(w, w') && Rely(w', w'')
    ensures Rely(w, w'')
  {
  }

  /** What holds between any two states of a run: a version is never used for two contents. */
  ghost predicate Onward(w: World, w': World) {
    && Seconds(w.clock) <= Seconds(w'.clock) && w.revision <= w'.revision && w.nextUid <= w'.nextUid
    && w.cluster.generation <= w'.cluster.generation
    && (w'.cluster == w.cluster || w'.cluster.version > w.revision)
    && (w'.plugins == w.plugins || w'.plugins.None? || w'.plugins.value.version > w.revision)
    && (w'.conf == w.conf || w'.conf.None? || w'.conf.value.version > w.revision)
    && (w'.sts == w.sts || w'.sts.None? || w'.sts.value.version > w.revision)
  }

  /** A copy of the cluster object in the operator's hands: either outdated, or what is stored. */
  ghost predicate Held(c: Cluster, w: World) {
    c.version <= w.revision && (w.cluster.version == c.version ==> w.cluster == c)
  }

  ghost predicate HeldMap(m: ConfigMap, kind: Kind, w: World) {
    m.version <= w.revision && (MapOf(w, kind).Some? && MapOf(w, kind).value.version == m.version ==> MapOf(w, kind).value == m)
  }

  ghost predicate HeldSts(s: StatefulSet, w: World) {
    s.version <= w.revision && (w.sts.Some? && w.sts.value.version == s.version ==> w.sts.value == s)
  }

  // ---------- what the operator does, step by step ----------

  datatype Builder = HeadlessService | Service | ErlangCookie | DefaultUserSecret | PluginsConfigMap
                   | ServerConfigMap | ServiceAccount | Role | RoleBinding | StatefulSetBuilder

  function ResourceBuilders(spec: Spec): seq<Builder> {
    if spec.vault.Some? && spec.vault.value.userSecret then
      [HeadlessService, Service, ErlangCookie, PluginsConfigMap, ServerConfigMap, ServiceAccount, Role, RoleBinding, StatefulSetBuilder]
    else
      [HeadlessService, Service, ErlangCookie, DefaultUserSecret, PluginsConfigMap, ServerConfigMap, ServiceAccount, Role,
       RoleBinding, StatefulSetBuilder]
  }

  /** Every resource has its builder, but for the default user secret if Vault keeps the credentials; no
      builder comes twice, and that of the StatefulSet comes last. */
  lemma EveryBuilderOnce(spec: Spec)
    ensures forall b: Builder :: b in ResourceBuilders(spec) <==> b != DefaultUserSecret || !(spec.vault.Some? && spec.vault.value.userSecret)
    ensures forall i, j | 0 <= i < j < |ResourceBuilders(spec)| :: ResourceBuilders(spec)[i] != ResourceBuilders(spec)[j]
    ensures ResourceBuilders(spec) != [] && ResourceBuilders(spec)[|ResourceBuilders(spec)| - 1] == StatefulSetBuilder
  {
    var builders := ResourceBuilders(spec);
    var n := |builders|;
    assert builders[0] == HeadlessService && builders[1] == Service && builders[2] == ErlangCookie;
    assert n == 10 ==> builders[3] == DefaultUserSecret;
    assert builders[n - 6] == PluginsConfigMap && builders[n - 5] == ServerConfigMap && builders[n - 4] == ServiceAccount;
    assert builders[n - 3] == Role && builders[n - 2] == RoleBinding && builders[n - 1] == StatefulSetBuilder;
  }

  /** What a config map holds, or how many replicas a StatefulSet has; of the other objects no more is
      known than the spec they were made from. */
  datatype Content = Data(data: seq<string>) | Replicas(count: nat) | MadeFrom(spec: Spec)

  function BuilderOf(kind: Kind): Builder {
    if kind == PluginsConf then PluginsConfigMap else ServerConfigMap
  }

  /** The builders whose objects `annotateIfNeeded` may mark. */
  predicate Marks(b: Builder) {
    b.PluginsConfigMap? || b.ServerConfigMap? || b.StatefulSetBuilder?
  }

  function Wanted(b: Builder, spec: Spec): Content {
    match b
    case PluginsConfigMap => Data(spec.plugins)
    case ServerConfigMap => Data([spec.conf])
    case StatefulSetBuilder => Replicas(spec.replicas)
    case _ => MadeFrom(spec)
  }

  /** What one operator does and sees, in order; the effects of others are not in this log.
      Writes and commands are in it when they took effect, reads when they were answered. `Applied`
      is a builder writing its object, and `mark` says that a marker has to follow; `Found` is its
      finding nothing to write. */
  datatype Event =
    | PassStarted
    | BuilderDone(builder: Builder, spec: Spec) | RestartChecked(spec: Spec) | StatusDone(spec: Spec) | CliDone(spec: Spec)
    | StsRead(ready: nat, replicas: nat, rolling: bool, created: bool, lastRestart: Option<Timestamp>)
    | MapRead(kind: Kind, m: ConfigMap, at: Timestamp)
    | Found(builder: Builder, content: Content)
    | Applied(builder: Builder, content: Content, at: Timestamp, mark: bool)
    | Annotated(builder: Builder, at: Timestamp)
    | PluginsSet(ordinal: nat, plugins: seq<string>, ok: bool)
    | PluginsUnmarked(m: ConfigMap, spec: Spec)
    | FlagsEnabled(ok: bool) | StsUnmarked
    | RebalanceMarked(at: Timestamp, spec: Spec) | Rebalanced(ok: bool) | RebalanceUnmarked
    | Restarted(uid: nat, conf: Timestamp, before: Option<Timestamp>, after: Timestamp)
    | StatusWritten(was: Status, now: Status, cluster: Cluster)

  predicate IsMilestone(e: Event) {
    e.BuilderDone? || e.RestartChecked? || e.StatusDone? || e.CliDone?
  }

  /** The milestones of the current pass. */
  function Milestones(log: seq<Event>): seq<Event> {
    if log == [] then [] else
      var e := log[|log| - 1];
      if e.PassStarted? then []
      else if IsMilestone(e) then Milestones(log[..|log| - 1]) + [e]
      else Milestones(log[..|log| - 1])
  }

  function BuildersDone(builders: seq<Builder>, spec: Spec): (es: seq<Event>)
    ensures |es| == |builders|
    ensures forall i | 0 <= i < |es| :: es[i] == BuilderDone(builders[i], spec)
  {
    seq(|builders|, i requires 0 <= i < |builders| => BuilderDone(builders[i], spec))
  }

  /** The milestones of a pass that has done everything, on one spec. */
  function Complete(spec: Spec): seq<Event> {
    BuildersDone(ResourceBuilders(spec), spec) + [RestartChecked(spec), StatusDone(spec), CliDone(spec)]
  }

  /** The rebalance mark that the operator has set and not yet removed. */
  function Outstanding(log: seq<Event>): Option<Timestamp> {
    if log == [] then None else
      match log[|log| - 1]
      case RebalanceMarked(at, _) => Some(at)
      case RebalanceUnmarked => None
      case _ => Outstanding(log[..|log| - 1])
  }

  /** The last restart the operator asked of the StatefulSet with this UID. */
  function LastRestart(log: seq<Event>, uid: nat): Option<Timestamp> {
    if log == [] then None else
      var e := log[|log| - 1];
      if e.Restarted? && e.uid == uid then Some(e.after) else LastRestart(log[..|log| - 1], uid)
  }

  function Observed(log: seq<Event>): nat {
    if log == [] then 0 else
      var e := log[|log| - 1];
      if e.StatusWritten? then e.now.observed else Observed(log[..|log| - 1])
  }

  /** What a builder has done in the current pass: written something that still has to be marked, or
      brought its object to this content for good. */
  datatype Stage = Untouched | Changed(content: Content, at: Timestamp) | Settled(content: Content)

  function Advance(s: Stage, e: Event, b: Builder): Stage {
    match e
    case PassStarted => Untouched
    case Found(x, content) => if x == b then Settled(content) else s
    case Applied(x, content, at, mark) => if x != b then s else if mark then Changed(content, at) else Settled(content)
    case Annotated(x, _) => if x == b && s.Changed? then Settled(s.content) else s
    case _ => s
  }

  function StageOf(log: seq<Event>, b: Builder): Stage {
    if log == [] then Untouched else Advance(StageOf(log[..|log| - 1], b), log[|log| - 1], b)
  }

  /** `time.Since(marker) < 2s`, for a clock that ticks in seconds. */
  predicate UpdatedRecently(m: ConfigMap, now: Timestamp) {
    m.marker.Some? && Seconds(now) - Seconds(m.marker.value) < 2
  }

  /** What the current pass knows of the work left for commands in pods, from its last reads and
      removals: whether all replicas are ready and updated, whether the StatefulSet is rolling, whether
      createdAt and pluginsUpdatedAt are set, and whether the latter was recent. */
  datatype Sight = Sight(ready: bool, rolling: bool, created: bool, pluginsMarked: bool, recent: bool)

  const NOTHING_SEEN: Sight := Sight(false, false, true, true, true)
  const NOTHING_LEFT: Sight := Sight(true, false, false, false, false)

  function See(s: Sight, e: Event): Sight {
    match e
    case PassStarted => NOTHING_SEEN
    case StsRead(ready, replicas, rolling, created, _) => s.(ready := ready == replicas && !rolling, rolling := rolling, created := created)
    case MapRead(kind, m, at) =>
      if kind == PluginsConf then s.(pluginsMarked := m.marker.Some?, recent := UpdatedRecently(m, at)) else s
    case PluginsUnmarked(_, _) => s.(pluginsMarked := false)
    case StsUnmarked => s.(created := false)
    case _ => s
  }

  function Seen(log: seq<Event>): Sight {
    if log == [] then NOTHING_SEEN else See(Seen(log[..|log| - 1]), log[|log| - 1])
  }

  /** What the current pass knows of restarts: the marker of server-conf, if it has read it since it last
      wrote server-conf; and since that read, the last restart of the StatefulSet, and whether the pass
      has made it. */
  datatype ConfSight = Unread | Unmarked | Marked(at: Timestamp)

  datatype RestartSight = RestartSight(conf: ConfSight, restart: Option<Timestamp>, made: bool)

  const NO_RESTART_SEEN: RestartSight := RestartSight(Unread, None, false)

  function SeeRestart(r: RestartSight, e: Event): RestartSight {
    match e
    case PassStarted => NO_RESTART_SEEN
    case MapRead(kind, m, _) =>
      if kind == PluginsConf then r
      else RestartSight(if m.marker.Some? then Marked(m.marker.value) else Unmarked, None, false)
    case Applied(b, _, _, _) => if b == ServerConfigMap then NO_RESTART_SEEN else r
    case Annotated(b, _) => if b == ServerConfigMap then NO_RESTART_SEEN else r
    case StsRead(_, _, _, _, last) => r.(restart := last)
    case Restarted(_, _, _, after) => r.(restart := Some(after), made := true)
    case _ => r
  }

  function SeenRestart(log: seq<Event>): RestartSight {
    if log == [] then NO_RESTART_SEEN else SeeRestart(SeenRestart(log[..|log| - 1]), log[|log| - 1])
  }

  /** The last restart is strictly later than the change of server-conf. */
  ghost predicate Later(last: Option<Timestamp>, changed: Timestamp) {
    last.Some? && Seconds(changed) < Seconds(last.value)
  }

  /** The pass has read server-conf, and has found no marker, or made a restart since, or found one that
      is strictly later. */
  ghost predicate RestartDone(r: RestartSight) {
    !r.conf.Unread? && (r.conf.Marked? ==> r.made || Later(r.restart, r.conf.at))
  }

  lemma FoldsAppend(log: seq<Event>, e: Event)
    ensures Milestones(log + [e]) == if e.PassStarted? then [] else if IsMilestone(e) then Milestones(log) + [e] else Milestones(log)
    ensures Outstanding(log + [e]) == if e.RebalanceMarked? then Some(e.at) else if e.RebalanceUnmarked? then None else Outstanding(log)
    ensures Observed(log + [e]) == if e.StatusWritten? then e.now.observed else Observed(log)
    ensures forall b: Builder :: StageOf(log + [e], b) == Advance(StageOf(log, b), e, b)
    ensures Seen(log + [e]) == See(Seen(log), e)
    ensures SeenRestart(log + [e]) == SeeRestart(SeenRestart(log), e)
    ensures forall uid: nat :: LastRestart(log + [e], uid) == if e.Restarted? && e.uid == uid then Some(e.after) else LastRestart(log, uid)
  {
    assert (log + [e])[..|log|] == log;
  }

  /** `b` continues `a` without a milestone, and no builder but `x` has done anything. */
  ghost predicate OnlyBy(a: seq<Event>, b: seq<Event>, x: Option<Builder>) {
    && a <= b && Milestones(a) == Milestones(b)
    && forall y: Builder {:trigger StageOf(b, y)} | x != Some(y) :: StageOf(b, y) == StageOf(a, y)
  }

  /** In addition, the rebalance mark has been neither set nor removed. */
  ghost predicate QuietBut(a: seq<Event>, b: seq<Event>, x: Builder) {
    OnlyBy(a, b, Some(x)) && Outstanding(a) == Outstanding(b)
  }

  ghost predicate Quiet(a: seq<Event>, b: seq<Event>) {
    OnlyBy(a, b, None) && Outstanding(a) == Outstanding(b)
  }

  /** Whatever the builders have written and have to mark is marked. */
  ghost predicate NothingPending(log: seq<Event>) {
    forall b: Builder :: !StageOf(log, b).Changed?
  }

  // ---------- the rules ----------

  /** The log ends with a StatefulSet read that shows every replica ready and updated, the read of
      this plugins config map, and one successful set-plugins command on each ordinal. */
  ghost predicate PluginsSetEverywhere(log: seq<Event>, m: ConfigMap, replicas: nat, plugins: seq<string>) {
    var k := |log| - replicas;
    && k >= 2
    && log[k - 2].StsRead? && log[k - 2].ready == log[k - 2].replicas && !log[k - 2].rolling
    && log[k - 1].MapRead? && log[k - 1].kind == PluginsConf && log[k - 1].m == m
    && forall i | 0 <= i < replicas :: log[k + i] == PluginsSet(i, plugins, true)
  }

  lemma PluginsSetOnNext(log: seq<Event>, m: ConfigMap, replicas: nat, plugins: seq<string>)
    requires PluginsSetEverywhere(log, m, replicas, plugins)
    ensures PluginsSetEverywhere(log + [PluginsSet(replicas, plugins, true)], m, replicas + 1, plugins)
  {
  }

  /** The current pass has built the StatefulSet for this spec. */
  predicate BuiltFor(log: seq<Event>, spec: Spec) {
    BuilderDone(StatefulSetBuilder, spec) in Milestones(log)
  }

  predicate IsCommand(e: Event) {
    e.PluginsSet? || e.FlagsEnabled? || e.Rebalanced?
  }

  /** The status write reports something that only a complete pass may report. */
  predicate Reports(was: Status, now: Status) {
    now.observed != was.observed || (now.success == Some(true) && was.success != Some(true))
  }

  /** Whether `e` may come after `log`. */
  ghost predicate Allowed(log: seq<Event>, e: Event) {
    match e
    case Found(b, content) =>
      && !StageOf(log, b).Changed?
      && log != []
      && (log[|log| - 1].MapRead? || log[|log| - 1].StsRead?)
      && (log[|log| - 1].MapRead? ==> b == BuilderOf(log[|log| - 1].kind) && content == Data(log[|log| - 1].m.data))
      && (log[|log| - 1].StsRead? ==> b == StatefulSetBuilder && content == Replicas(log[|log| - 1].replicas))
    case Applied(b, _, _, _) => !StageOf(log, b).Changed?
    case Annotated(b, at) => StageOf(log, b).Changed? && Seconds(StageOf(log, b).at) <= Seconds(at)
    case BuilderDone(b, spec) => StageOf(log, b) == Settled(Wanted(b, spec)) && AcceptedTLS(spec)
    case RestartChecked(_) => RestartDone(SeenRestart(log))
    case CliDone(_) => Seen(log) == NOTHING_LEFT && Outstanding(log).None?
    case PluginsSet(_, _, _) => Seen(log).ready && !Seen(log).recent && Seen(log).pluginsMarked
    case PluginsUnmarked(m, spec) => PluginsSetEverywhere(log, m, spec.replicas, spec.plugins) && BuiltFor(log, spec)
    case FlagsEnabled(_) => Seen(log).ready && !Seen(log).recent && Seen(log).created
    case StsUnmarked => log != [] && log[|log| - 1] == FlagsEnabled(true)
    case RebalanceMarked(_, spec) =>
      && Outstanding(log).None?
      && log != [] && log[|log| - 1].StsRead? && log[|log| - 1].rolling
      && spec.replicas > 1 && !spec.skipPostDeploySteps
    case Rebalanced(_) => Outstanding(log).Some? && Seen(log).ready && !Seen(log).recent
    case RebalanceUnmarked => log != [] && log[|log| - 1] == Rebalanced(true)
    case Restarted(uid, conf, before, after) =>
      && before == LastRestart(log, uid)
      && SeenRestart(log).conf == Marked(conf) && !Later(before, conf)
      && Seconds(conf) <= Seconds(after)
      && (before.Some? ==> Seconds(before.value) <= Seconds(after))
    case StatusWritten(was, now, cluster) =>
      && was.observed == Observed(log) <= now.observed <= cluster.generation
      && (Reports(was, now) ==>
            && now.observed == cluster.generation && now.defaultUser == Some(DefaultUserOf(cluster.spec))
            && Milestones(log) == Complete(cluster.spec))
    case _ => true
  }

  ghost predicate Rules(log: seq<Event>) {
    log == [] || (var k := |log| - 1; Rules(log[..k]) && Allowed(log[..k], log[k]))
  }

  lemma RulesAppend(log: seq<Event>, e: Event)
    requires Rules(log) && Allowed(log, e)
    ensures Rules(log + [e])
  {
    assert (log + [e])[..|log|] == log;
  }

  /** The stored objects agree with what the operator has logged. */
  ghost predicate Tie(w: World, log: seq<Event>) {
    && w.cluster.version <= w.revision
    && (w.plugins.Some? ==> w.plugins.value.version <= w.revision)
    && (w.conf.Some? ==> w.conf.value.version <= w.revision)
    && (w.sts.Some? ==> w.sts.value.version <= w.revision && w.sts.value.uid < w.nextUid)
    && w.cluster.mark == Outstanding(log)
    && w.cluster.status.observed == Observed(log) <= w.cluster.generation
    && (w.sts.Some? ==> w.sts.value.lastRestart == LastRestart(log, w.sts.value.uid))
    && (forall uid: nat | uid >= w.nextUid :: LastRestart(log, uid) == None)
    && (w.conf.Some? && w.conf.value.marker.Some? ==> Seconds(w.conf.value.marker.value) <= Seconds(w.clock))
    && (w.sts.Some? && w.sts.value.lastRestart.Some? ==> Seconds(w.sts.value.lastRestart.value) <= Seconds(w.clock))
  }

  /** An event that is neither about the rebalance mark, nor a restart, nor a status write. */
  predicate Plain(e: Event) {
    !e.RebalanceMarked? && !e.RebalanceUnmarked? && !e.Restarted? && !e.StatusWritten?
  }

  /** A config map differs from what it was only as the event says: data are applied, a marker is set by
      annotating, and pluginsUpdatedAt is removed from the very config map in the event. */
  predicate ExplainedMap(was: Option<ConfigMap>, now: Option<ConfigMap>, kind: Kind, e: Event) {
    was != now ==>
      && now.Some?
      && (was.None? || was.value.data != now.value.data ==> e.Applied? && e.builder == BuilderOf(kind) && e.content == Data(now.value.data))
      && (now.value.marker != (if was.Some? then was.value.marker else None) ==>
            if now.value.marker.Some? then e == Annotated(BuilderOf(kind), now.value.marker.value)
            else e.PluginsUnmarked? && kind == PluginsConf && was == Some(e.m))
  }

  predicate ExplainedSts(was: Option<StatefulSet>, now: Option<StatefulSet>, e: Event) {
    was != now ==>
      && now.Some?
      && (was.None? || was.value.replicas != now.value.replicas ==>
            e.Applied? && e.builder == StatefulSetBuilder && e.content == Replicas(now.value.replicas))
      && (now.value.createdAt != (if was.Some? then was.value.createdAt else None) ==>
            if now.value.createdAt.Some? then e == Annotated(StatefulSetBuilder, now.value.createdAt.value) else e.StsUnmarked?)
      && (was.Some? && was.value.lastRestart != now.value.lastRestart ==> e.Restarted? && now.value.lastRestart == Some(e.after))
  }

  /** A write of the operator is in its log: whatever it changes, the event says so. */
  predicate Explained(w: World, w': World, e: Event) {
    && ExplainedMap(w.plugins, w'.plugins, PluginsConf, e)
    && ExplainedMap(w.conf, w'.conf, ServerConf, e)
    && ExplainedSts(w.sts, w'.sts, e)
    && (w'.cluster.mark != w.cluster.mark ==>
          if w'.cluster.mark.Some? then e.RebalanceMarked? && w'.cluster.mark == Some(e.at) else e.RebalanceUnmarked?)
    && (w'.cluster.status != w.cluster.status ==> e.StatusWritten? && e.was == w.cluster.status && e.now == w'.cluster.status)
  }

  lemma TiedCluster(w: World, log: seq<Event>)
    requires Tie(w, log)
    ensures w.cluster.mark == Outstanding(log) && w.cluster.status.observed == Observed(log) <= w.cluster.generation
  {
  }

  /** Writing the cluster object is in order as long as the event says what becomes of the mark and of
      observedGeneration. */
  lemma ClusterWriteStep(w: World, c: Cluster, log: seq<Event>, e: Event)
    requires Tie(w, log) && !e.Restarted? && c.version == w.revision + 1 && c.generation == w.cluster.generation
    requires c.mark == if e.RebalanceMarked? then Some(e.at) else if e.RebalanceUnmarked? then None else w.cluster.mark
    requires c.status.observed == if e.StatusWritten? then e.now.observed else w.cluster.status.observed
    requires c.status.observed <= c.generation
    ensures var w' := w.(revision := w.revision + 1, cluster := c); Onward(w, w') && Tie(w', log + [e])
  {
    FoldsAppend(log, e);
  }

  /** Writing a config map is in order as long as no marker of server-conf lies in the future. */
  lemma MapWriteStep(w: World, kind: Kind, m: ConfigMap, log: seq<Event>, e: Event)
    requires Tie(w, log) && Plain(e) && m.version == w.revision + 1
    requires kind == ServerConf && m.marker.Some? ==> Seconds(m.marker.value) <= Seconds(w.clock)
    ensures var w' := WithMap(w.(revision := w.revision + 1), kind, Some(m)); Onward(w, w') && Tie(w', log + [e])
  {
    FoldsAppend(log, e);
  }

  /** Writing the StatefulSet is in order as long as its restart time stays. */
  lemma StsWriteStep(w: World, t: StatefulSet, log: seq<Event>, e: Event)
    requires Tie(w, log) && Plain(e) && w.sts.Some?
    requires t.version == w.revision + 1 && t.uid == w.sts.value.uid && t.lastRestart == w.sts.value.lastRestart
    ensures var w' := w.(revision := w.revision + 1, sts := Some(t)); Onward(w, w') && Tie(w', log + [e])
  {
    FoldsAppend(log, e);
  }

  lemma StsCreationStep(w: World, t: StatefulSet, log: seq<Event>, e: Event)
    requires Tie(w, log) && Plain(e) && w.sts.None?
    requires t.version == w.revision + 1 && t.uid == w.nextUid && t.lastRestart.None?
    ensures var w' := w.(revision := w.revision + 1, nextUid := w.nextUid + 1, sts := Some(t)); Onward(w, w') && Tie(w', log + [e])
  {
    FoldsAppend(log, e);
  }

  /** A restart is in order if it is not dated in the future. */
  lemma StsRestartStep(w: World, t: StatefulSet, log: seq<Event>, e: Event)
    requires Tie(w, log) && w.sts.Some? && e.Restarted? && e.uid == t.uid == w.sts.value.uid && t.lastRestart == Some(e.after)
    requires t.version == w.revision + 1 && Seconds(e.after) <= Seconds(w.clock)
    ensures var w' := w.(revision := w.revision + 1, sts := Some(t)); Onward(w, w') && Tie(w', log + [e])
  {
    FoldsAppend(log, e);
  }

  lemma InterferenceStep(w: World, a: Outside, log: seq<Event>)
    requires Tie(w, log)
    ensures Rely(w, Interfere(w, a)) && Tie(Interfere(w, a), log)
  {
    hide Outstanding, Observed, LastRestart, Seconds;
    match a
    case EditSpec(_) =>
    case TouchCluster =>
    case EditMap(_, _) =>
    case RemoveMap(_) =>
    case Remark =>
    case Report(_, _) =>
    case RemoveSts =>
    case Tick(_) =>
  }

  /** The StatefulSet has been restarted since server-conf was last changed. */
  ghost predicate RestartedSince(w: World) {
    w.conf.Some? && w.conf.value.marker.Some? && w.sts.Some? ==>
      w.sts.value.lastRestart.Some? && Seconds(w.conf.value.marker.value) <= Seconds(w.sts.value.lastRestart.value)
  }

  // ---------- what follows for every run ----------

  /** How many writes made for the marker `conf` changed lastRestartAt on this incarnation. */
  function Changes(log: seq<Event>, uid: nat, conf: Timestamp): nat {
    if log == [] then 0 else
      var e := log[|log| - 1];
      Changes(log[..|log| - 1], uid, conf)
      + if e.Restarted? && e.uid == uid && e.conf == conf && e.before != Some(e.after) then 1 else 0
  }

  lemma {:induction false} RulesPrefix(log: seq<Event>, k: nat)
    requires Rules(log) && k <= |log|
    ensures Rules(log[..k])
    ensures k < |log| ==> Allowed(log[..k], log[k])
  {
    if k == |log| {
      assert log[..k] == log;
    } else {
      var n := |log| - 1;
      if k < n {
        RulesPrefix(log[..n], k);
        assert log[..n][..k] == log[..k];
      }
    }
  }

  function Rank(last: Option<Timestamp>, conf: Timestamp): nat {
    if last.None? || Seconds(last.value) < Seconds(conf) then 0 else if Seconds(last.value) == Seconds(conf) then 1 else 2
  }

  /** A restart made for `conf` raises the rank, unless it writes the value that was there. */
  lemma {:induction false} RestartRaisesRank(conf: Timestamp, before: Option<Timestamp>, after: Timestamp)
    requires !Later(before, conf) && Seconds(conf) <= Seconds(after)
    ensures before == Some(after) || Rank(before, conf) < Rank(Some(after), conf)
  {
    if before.Some? && Seconds(before.value) == Seconds(after) {
      SameSecond(before.value, after);
    }
  }

  lemma {:induction false} ChangesBelowRank(log: seq<Event>, uid: nat, conf: Timestamp)
    requires Rules(log)
    ensures Changes(log, uid, conf) <= Rank(LastRestart(log, uid), conf)
  {
    if log != [] {
      var k := |log| - 1;
      var e := log[k];
      RulesPrefix(log, k);
      ChangesBelowRank(log[..k], uid, conf);
      if e.Restarted? && e.uid == uid && e.conf == conf {
        RestartRaisesRank(conf, e.before, e.after);
      }
    }
  }

  /** However often passes run and fail, one change of server-conf restarts one incarnation of the
      StatefulSet at most twice: once in the second it was marked, and once later. */
  lemma {:induction false} AtMostTwoRestarts(log: seq<Event>, uid: nat, conf: Timestamp)
    requires Rules(log)
    ensures Changes(log, uid, conf) <= 2
  {
    ChangesBelowRank(log, uid, conf);
  }

  /** Each rebalance command answers a mark: one set earlier, while the StatefulSet was rolling and
      the cluster had several replicas and post-deploy steps, and neither removed nor overwritten since. */
  lemma {:induction false} MarkBehind(log: seq<Event>) returns (j: nat)
    requires Rules(log) && Outstanding(log).Some?
    ensures j < |log| && log[j].RebalanceMarked? && Some(log[j].at) == Outstanding(log)
    ensures j > 0 && log[j - 1].StsRead? && log[j - 1].rolling && log[j].spec.replicas > 1 && !log[j].spec.skipPostDeploySteps
    ensures forall i | j < i < |log| :: !log[i].RebalanceMarked? && !log[i].RebalanceUnmarked?
  {
    var k := |log| - 1;
    RulesPrefix(log, k);
    if log[k].RebalanceMarked? {
      j := k;
    } else {
      j := MarkBehind(log[..k]);
    }
  }

  lemma {:induction false} RebalanceAnswersMark(log: seq<Event>, k: nat) returns (j: nat)
    requires Rules(log) && k < |log| && log[k].Rebalanced?
    ensures 0 < j < k && log[j].RebalanceMarked? && log[j - 1].StsRead? && log[j - 1].rolling
    ensures log[j].spec.replicas > 1 && !log[j].spec.skipPostDeploySteps
    ensures forall i | j < i < k :: !log[i].RebalanceMarked? && !log[i].RebalanceUnmarked?
  {
    RulesPrefix(log, k);
    j := MarkBehind(log[..k]);
  }

  lemma {:induction false} StillOutstanding(log: seq<Event>, i: nat, j: nat)
    requires i < j <= |log| && log[i].RebalanceMarked?
    requires forall k | i < k < j :: !log[k].RebalanceUnmarked?
    ensures Outstanding(log[..j]).Some?
  {
    assert log[..j][..j - 1] == log[..j - 1];
    if i + 1 < j {
      StillOutstanding(log, i, j - 1);
    }
  }

  /** A mark stays, and is not overwritten, until a rebalance command has succeeded. */
  lemma {:induction false} MarkLastsUntilRebalanced(log: seq<Event>, i: nat, j: nat) returns (k: nat)
    requires Rules(log) && i < j < |log| && log[i].RebalanceMarked? && log[j].RebalanceMarked?
    ensures i < k < j && log[k] == RebalanceUnmarked && log[k - 1] == Rebalanced(true)
  {
    RulesPrefix(log, j);
    if forall k | i < k < j :: !log[k].RebalanceUnmarked? {
      StillOutstanding(log, i, j);
      assert false;
    }
    k :| i < k < j && log[k].RebalanceUnmarked?;
    RulesPrefix(log, k);
  }

  /** pluginsUpdatedAt is removed only from the very config map that the pass had read beforehand, and
      only after set-plugins had succeeded since that read on every ordinal of the spec for which this
      pass has built the StatefulSet, with the plugins of that spec. */
  lemma {:induction false} UnmarkAfterPluginsSet(log: seq<Event>, k: nat) returns (j: nat)
    requires Rules(log) && k < |log| && log[k].PluginsUnmarked?
    ensures var spec := log[k].spec;
            var n := spec.replicas;
            && n + 2 <= k && log[k - n - 1].MapRead? && log[k - n - 1].kind == PluginsConf && log[k - n - 1].m == log[k].m
            && (forall i | 0 <= i < n :: log[k - n + i] == PluginsSet(i, spec.plugins, true))
            && j < k && log[j] == BuilderDone(StatefulSetBuilder, spec)
    ensures forall i | j <= i < k :: !log[i].PassStarted?
  {
    var spec := log[k].spec;
    var n := spec.replicas;
    RulesPrefix(log, k);
    assert PluginsSetEverywhere(log[..k], log[k].m, n, spec.plugins);
    forall i | 0 <= i < n ensures log[k - n + i] == PluginsSet(i, spec.plugins, true) {
      assert log[..k][k - n + i] == PluginsSet(i, spec.plugins, true);
    }
    var i :| 0 <= i < |Milestones(log[..k])| && Milestones(log[..k])[i] == BuilderDone(StatefulSetBuilder, spec);
    j := MilestoneIn(log[..k], i);
    assert log[..k][j] == log[j];
    forall u | j <= u < k ensures !log[u].PassStarted? {
      assert log[u] == log[..k][u];
    }
  }

  /** Each command in a pod is run by a pass whose last read of the StatefulSet (`i`) showed all
      replicas ready and updated, and whose last read of plugins-conf (`p`) showed no change of the
      plugins within two seconds; and only if one of them, or the cluster, carried its marker. */
  lemma {:induction false} CommandsOnlyWhenReady(log: seq<Event>, k: nat) returns (i: nat, p: nat)
    requires Rules(log) && k < |log| && IsCommand(log[k])
    ensures i < k && log[i].StsRead? && log[i].ready == log[i].replicas && !log[i].rolling
    ensures p < k && log[p].MapRead? && log[p].kind == PluginsConf
    ensures log[p].m.marker.Some? ==> Seconds(log[p].at) >= Seconds(log[p].m.marker.value) + 2
    ensures match log[k]
            case PluginsSet(_, _, _) => log[p].m.marker.Some?
            case FlagsEnabled(_) => log[i].created
            case _ => Outstanding(log[..k]).Some?
    ensures forall u | i < u < k :: !log[u].PassStarted? && !log[u].StsRead?
    ensures forall u | p < u < k :: !log[u].PassStarted? && !(log[u].MapRead? && log[u].kind == PluginsConf)
  {
    RulesPrefix(log, k);
    i := LastStsRead(log[..k]);
    p := LastSettledRead(log[..k]);
    assert log[..k][i] == log[i] && log[..k][p] == log[p];
    forall u | i < u < k ensures !log[u].PassStarted? && !log[u].StsRead? {
      assert log[u] == log[..k][u];
    }
    forall u | p < u < k ensures !log[u].PassStarted? && !(log[u].MapRead? && log[u].kind == PluginsConf) {
      assert log[u] == log[..k][u];
    }
  }

  lemma {:induction false} LastSettledRead(log: seq<Event>) returns (p: nat)
    requires !Seen(log).recent
    ensures p < |log| && log[p].MapRead? && log[p].kind == PluginsConf && !UpdatedRecently(log[p].m, log[p].at)
    ensures Seen(log).pluginsMarked ==> log[p].m.marker.Some?
    ensures forall u | p < u < |log| :: !log[u].PassStarted? && !(log[u].MapRead? && log[u].kind == PluginsConf)
  {
    var n := |log| - 1;
    if log[n].MapRead? && log[n].kind == PluginsConf {
      p := n;
    } else {
      p := LastSettledRead(log[..n]);
    }
  }

  lemma {:induction false} LastConfRead(log: seq<Event>) returns (j: nat)
    requires SeenRestart(log).conf.Marked?
    ensures j < |log| && log[j].MapRead? && log[j].kind == ServerConf && log[j].m.marker == Some(SeenRestart(log).conf.at)
    ensures forall u | j < u < |log| ::
      !log[u].PassStarted? && !(log[u].MapRead? && log[u].kind == ServerConf)
      && !((log[u].Applied? || log[u].Annotated?) && log[u].builder == ServerConfigMap)
  {
    var n := |log| - 1;
    if log[n].MapRead? && log[n].kind == ServerConf {
      j := n;
    } else {
      j := LastConfRead(log[..n]);
    }
  }

  /** A restart answers the marker that the pass has read on server-conf, and is made only if the
      last restart of that StatefulSet is not later than it. */
  lemma {:induction false} RestartAnswersMarker(log: seq<Event>, k: nat) returns (j: nat)
    requires Rules(log) && k < |log| && log[k].Restarted?
    ensures j < k && log[j].MapRead? && log[j].kind == ServerConf && log[j].m.marker == Some(log[k].conf)
    ensures forall u | j < u < k ::
      !log[u].PassStarted? && !((log[u].Applied? || log[u].Annotated?) && log[u].builder == ServerConfigMap)
    ensures var last := LastRestart(log[..k], log[k].uid);
            last.Some? ==> Seconds(last.value) <= Seconds(log[k].conf)
  {
    RulesPrefix(log, k);
    j := LastConfRead(log[..k]);
    assert log[..k][j] == log[j];
    forall u | j < u < k
      ensures !log[u].PassStarted? && !((log[u].Applied? || log[u].Annotated?) && log[u].builder == ServerConfigMap)
    {
      assert log[u] == log[..k][u];
    }
  }

  lemma {:induction false} ObservedNeverDecreases(log: seq<Event>, i: nat, j: nat)
    requires Rules(log) && i <= j <= |log|
    ensures Observed(log[..i]) <= Observed(log[..j])
    ensures i < j && log[j - 1].StatusWritten? ==> Observed(log[..j]) == log[j - 1].now.observed <= log[j - 1].cluster.generation
  {
    if i < j {
      ObservedNeverDecreases(log, i, j - 1);
      assert log[..j][..j - 1] == log[..j - 1];
      RulesPrefix(log, j - 1);
    }
  }

  /** observedGeneration changes only to the generation then stored, and ReconcileSuccess turns true,
      only when the current pass has run every builder, the restart check, the status step and the
      CLI step, in this order, on the spec of that generation. */
  lemma {:induction false} ObservedOnlyWhenComplete(log: seq<Event>, k: nat)
    requires Rules(log) && k < |log| && log[k].StatusWritten?
    requires log[k].now.observed != log[k].was.observed || (log[k].now.success == Some(true) && log[k].was.success != Some(true))
    ensures log[k].now.observed == log[k].cluster.generation
    ensures var spec := log[k].cluster.spec;
            log[k].now.defaultUser == Some(DefaultUser(!(spec.vault.Some? && spec.vault.value.userSecret)))
    ensures Milestones(log[..k]) == Complete(log[k].cluster.spec)
  {
    RulesPrefix(log, k);
  }

  lemma {:induction false} MilestoneIn(log: seq<Event>, i: nat) returns (k: nat)
    requires i < |Milestones(log)|
    ensures k < |log| && log[k] == Milestones(log)[i] && Milestones(log[..k]) == Milestones(log)[..i]
    ensures forall j | k <= j < |log| :: !log[j].PassStarted?
  {
    var n := |log| - 1;
    if IsMilestone(log[n]) && i == |Milestones(log[..n])| {
      k := n;
    } else {
      k := MilestoneIn(log[..n], i);
      assert log[..n][..k] == log[..k];
      assert Milestones(log[..n])[..i] == Milestones(log)[..i];
    }
  }

  /** Milestones are events of the pass, in this order. */
  lemma {:induction false} MilestonesIn(log: seq<Event>, i: nat, n: nat) returns (j: nat, k: nat)
    requires i <= n < |Milestones(log)|
    ensures j <= k < |log| && log[j] == Milestones(log)[i] && log[k] == Milestones(log)[n]
    ensures forall u | j <= u < |log| :: !log[u].PassStarted?
  {
    k := MilestoneIn(log, n);
    j := k;
    if i < n {
      j := MilestoneIn(log[..k], i);
      assert log[..k][j] == log[j];
      forall u | j <= u < |log| ensures !log[u].PassStarted? {
        assert u < k ==> log[u] == log[..k][u];
      }
    }
  }

  lemma {:induction false} IsMilestoneOf(log: seq<Event>, k: nat)
    requires k < |log| && IsMilestone(log[k]) && forall j | k < j < |log| :: !log[j].PassStarted?
    ensures log[k] in Milestones(log)
  {
    var n := |log| - 1;
    if k < n {
      IsMilestoneOf(log[..n], k);
    }
  }

  /** A pass that reports success has run every builder, the one of the StatefulSet (`s`) last; only the
      default user secret is left to Vault if that is to keep the credentials. */
  lemma {:induction false} EveryBuilderRan(log: seq<Event>, k: nat, b: Builder) returns (j: nat, s: nat)
    requires Rules(log) && k < |log| && log[k].StatusWritten?
    requires log[k].now.observed != log[k].was.observed || (log[k].now.success == Some(true) && log[k].was.success != Some(true))
    requires var spec := log[k].cluster.spec; b != DefaultUserSecret || !(spec.vault.Some? && spec.vault.value.userSecret)
    ensures j <= s < k && log[j] == BuilderDone(b, log[k].cluster.spec) && log[s] == BuilderDone(StatefulSetBuilder, log[k].cluster.spec)
    ensures forall u | j <= u < k :: !log[u].PassStarted?
  {
    var spec := log[k].cluster.spec;
    var builders := ResourceBuilders(spec);
    ObservedOnlyWhenComplete(log, k);
    EveryBuilderOnce(spec);
    assert b in builders;
    var i :| 0 <= i < |builders| && builders[i] == b;
    hide Rules, Milestones, ResourceBuilders;
    assert Complete(spec)[i] == BuilderDone(b, spec) && Complete(spec)[|builders| - 1] == BuilderDone(StatefulSetBuilder, spec);
    j, s := MilestonesIn(log[..k], i, |builders| - 1);
    assert log[..k][s] == log[s] && log[..k][j] == log[j];
    forall u | j <= u < k ensures !log[u].PassStarted? {
      assert log[u] == log[..k][u];
    }
  }

  /** If Vault keeps the credentials, a pass that reports success has made no default user secret. */
  lemma {:induction false} VaultKeepsCredentials(log: seq<Event>, k: nat, j: nat)
    requires Rules(log) && j < k < |log| && log[k].StatusWritten?
    requires log[k].cluster.spec.vault.Some? && log[k].cluster.spec.vault.value.userSecret
    requires log[k].now.observed != log[k].was.observed || (log[k].now.success == Some(true) && log[k].was.success != Some(true))
    requires forall u | j <= u < k :: !log[u].PassStarted?
    ensures !(log[j].BuilderDone? && log[j].builder == DefaultUserSecret)
  {
    var spec := log[k].cluster.spec;
    ObservedOnlyWhenComplete(log, k);
    EveryBuilderOnce(spec);
    if log[j].BuilderDone? {
      forall u | j < u < k ensures !log[..k][u].PassStarted? {
        assert log[..k][u] == log[u];
      }
      assert log[..k][j] == log[j];
      IsMilestoneOf(log[..k], j);
      var i :| 0 <= i < |Complete(spec)| && Complete(spec)[i] == log[j];
      assert i < |ResourceBuilders(spec)| && ResourceBuilders(spec)[i] == log[j].builder;
    }
  }

  lemma {:induction false} ChangedMeans(log: seq<Event>, b: Builder) returns (j: nat)
    requires StageOf(log, b).Changed?
    ensures j < |log| && log[j] == Applied(b, StageOf(log, b).content, StageOf(log, b).at, true)
    ensures forall i | j <= i < |log| :: !log[i].PassStarted?
  {
    var n := |log| - 1;
    if log[n].Applied? && log[n].builder == b {
      j := n;
    } else {
      j := ChangedMeans(log[..n], b);
    }
  }

  /** At `j` the builder found this content, or wrote it; and if a mark was due, marked that at `k`. */
  ghost predicate Brought(log: seq<Event>, j: nat, k: nat, b: Builder, content: Content)
    requires j <= k < |log|
  {
    || log[j] == Found(b, content)
    || (log[j].Applied? && log[j].builder == b && log[j].content == content
        && (log[j].mark ==> log[k].Annotated? && log[k].builder == b && Seconds(log[j].at) <= Seconds(log[k].at)))
  }

  /** Every mark is dated no earlier than the change it follows. */
  ghost predicate MarksDated(log: seq<Event>) {
    log == [] ||
    var k := |log| - 1;
    MarksDated(log[..k])
    && (log[k].Annotated? ==>
          var stage := StageOf(log[..k], log[k].builder); stage.Changed? && Seconds(stage.at) <= Seconds(log[k].at))
  }

  lemma {:induction false} RulesDateMarks(log: seq<Event>)
    requires Rules(log)
    ensures MarksDated(log)
  {
    if log != [] {
      RulesDateMarks(log[..|log| - 1]);
    }
  }

  lemma StillBrought(log: seq<Event>, n: nat, j: nat, k: nat, b: Builder, content: Content)
    requires n <= |log| && j <= k < n && Brought(log[..n], j, k, b, content)
    ensures Brought(log, j, k, b, content)
  {
    assert log[..n][j] == log[j] && log[..n][k] == log[k];
  }

  /** How the last event of a log in which `b` is settled bears on that. */
  lemma SettledStep(log: seq<Event>, b: Builder)
    requires MarksDated(log) && StageOf(log, b).Settled?
    ensures log != [] && MarksDated(log[..|log| - 1]) && !log[|log| - 1].PassStarted?
    ensures var e, before, now := log[|log| - 1], StageOf(log[..|log| - 1], b), StageOf(log, b);
            || e == Found(b, now.content)
            || (e.Applied? && e.builder == b && e.content == now.content && !e.mark)
            || (e.Annotated? && e.builder == b && before.Changed? && before.content == now.content && Seconds(before.at) <= Seconds(e.at))
            || before == now
  {
    var k := |log| - 1;
    assert StageOf(log, b) == Advance(StageOf(log[..k], b), log[k], b);
  }

  lemma {:induction false} SettledMeans(log: seq<Event>, b: Builder) returns (j: nat, k: nat)
    requires MarksDated(log) && StageOf(log, b).Settled?
    ensures j <= k < |log| && Brought(log, j, k, b, StageOf(log, b).content)
    ensures forall i | j <= i < |log| :: !log[i].PassStarted?
  {
    SettledStep(log, b);
    hide MarksDated, StageOf;
    var n := |log| - 1;
    var before := StageOf(log[..n], b);
    if before == StageOf(log, b) {
      j, k := SettledMeans(log[..n], b);
      StillBrought(log, n, j, k, b, before.content);
    } else if log[n].Annotated? {
      j := ChangedMeans(log[..n], b);
      k := n;
      assert log[j] == Applied(b, before.content, before.at, true);
    } else {
      j, k := n, n;
    }
  }

  /** The last StatefulSet read of a pass decides what the pass knows of it. */
  lemma {:induction false} SeenMeans(log: seq<Event>) returns (i: nat)
    requires Seen(log).ready && !Seen(log).created
    ensures i < |log| && log[i].StsRead? && log[i].ready == log[i].replicas && !log[i].rolling
    ensures log[i].created ==> exists k | i < k < |log| :: log[k].StsUnmarked?
    ensures forall k | i < k < |log| :: !log[k].PassStarted? && !log[k].StsRead?
  {
    var n := |log| - 1;
    if log[n].StsRead? {
      i := n;
    } else if Seen(log[..n]).created {
      i := LastStsRead(log[..n]);
      assert log[n].StsUnmarked?;
    } else {
      i := SeenMeans(log[..n]);
      if log[i].created {
        var k :| i < k < n && log[..n][k].StsUnmarked?;
        assert log[k].StsUnmarked?;
      }
    }
  }

  lemma {:induction false} LastStsRead(log: seq<Event>) returns (i: nat)
    requires Seen(log).ready
    ensures i < |log| && log[i].StsRead? && log[i].ready == log[i].replicas && !log[i].rolling && (Seen(log).created ==> log[i].created)
    ensures forall k | i < k < |log| :: !log[k].PassStarted? && !log[k].StsRead?
  {
    var n := |log| - 1;
    if log[n].StsRead? {
      i := n;
    } else {
      i := LastStsRead(log[..n]);
    }
  }

  lemma {:induction false} LastPluginsRead(log: seq<Event>) returns (i: nat)
    requires !Seen(log).pluginsMarked
    ensures i < |log| && (log[i].PluginsUnmarked? || (log[i].MapRead? && log[i].kind == PluginsConf && log[i].m.marker.None?))
    ensures forall k | i < k < |log| :: !log[k].PassStarted? && !(log[k].MapRead? && log[k].kind == PluginsConf)
  {
    var n := |log| - 1;
    if log[n].PluginsUnmarked? || (log[n].MapRead? && log[n].kind == PluginsConf) {
      i := n;
    } else {
      i := LastPluginsRead(log[..n]);
    }
  }

  /** A pass that reports success has brought every object to what the spec of the reported generation
      asks for; and if it changed a config map or created the StatefulSet, it has marked that, at a
      time no earlier than the change. */
  lemma {:induction false} CompletePassMarkedItsChanges(log: seq<Event>, k: nat, b: Builder) returns (j: nat, i: nat)
    requires Rules(log) && k < |log| && log[k].StatusWritten? && Reports(log[k].was, log[k].now)
    requires var spec := log[k].cluster.spec; b != DefaultUserSecret || !(spec.vault.Some? && spec.vault.value.userSecret)
    ensures j <= i < k
    ensures var spec := log[k].cluster.spec;
            Brought(log, j, i, b, match b
                                  case PluginsConfigMap => Data(spec.plugins)
                                  case ServerConfigMap => Data([spec.conf])
                                  case StatefulSetBuilder => Replicas(spec.replicas)
                                  case _ => MadeFrom(spec))
    ensures forall u | j <= u < k :: !log[u].PassStarted?
  {
    var spec := log[k].cluster.spec;
    var m, s := EveryBuilderRan(log, k, b);
    RulesPrefix(log, m);
    RulesDateMarks(log[..m]);
    j, i := SettledMeans(log[..m], b);
    assert log[..m][j] == log[j] && log[..m][i] == log[i];
    forall u | j <= u < k ensures !log[u].PassStarted? {
      assert u < m ==> log[u] == log[..m][u];
    }
  }

  /** A pass that reports success has seen all replicas ready and updated, and has left no command
      undone that a marker asked for: when it reached its last milestone `c`, the marks it had last
      seen on the StatefulSet (`i`), on plugins-conf (`p`) and on the cluster were gone. */
  lemma {:induction false} CompletePassLeavesNothing(log: seq<Event>, k: nat) returns (i: nat, p: nat, c: nat)
    requires Rules(log) && k < |log| && log[k].StatusWritten? && Reports(log[k].was, log[k].now)
    ensures i < c < k && p < c && log[c] == CliDone(log[k].cluster.spec) && Outstanding(log[..c]).None?
    ensures log[i].StsRead? && log[i].ready == log[i].replicas && !log[i].rolling
    ensures log[i].created ==> exists u | i < u < c :: log[u].StsUnmarked?
    ensures log[p].PluginsUnmarked? || (log[p].MapRead? && log[p].kind == PluginsConf && log[p].m.marker.None?)
    ensures forall j | p < j < c :: !(log[j].MapRead? && log[j].kind == PluginsConf)
    ensures forall j | i <= j < k || p <= j < k :: !log[j].PassStarted?
  {
    var spec := log[k].cluster.spec;
    ObservedOnlyWhenComplete(log, k);
    var n := |Complete(spec)| - 1;
    assert Complete(spec)[n] == CliDone(spec);
    c := MilestoneIn(log[..k], n);
    assert log[..k][c] == log[c];
    RulesPrefix(log, c);
    i := SeenMeans(log[..c]);
    p := LastPluginsRead(log[..c]);
    assert log[..c][i] == log[i] && log[..c][p] == log[p];
    if log[i].created {
      var u :| i < u < c && log[..c][u].StsUnmarked?;
      assert log[u].StsUnmarked?;
    }
    forall j | p < j < c ensures !(log[j].MapRead? && log[j].kind == PluginsConf) {
      assert log[j] == log[..c][j];
    }
    forall j | i <= j < k || p <= j < k ensures !log[j].PassStarted? {
      if j < c {
        assert log[j] == log[..c][j];
      } else {
        assert log[j] == log[..k][j];
      }
    }
  }

  lemma {:induction false} LastMadeRestart(log: seq<Event>) returns (i: nat)
    requires Rules(log) && SeenRestart(log).made && SeenRestart(log).conf.Marked?
    ensures i < |log| && log[i].Restarted? && log[i].conf == SeenRestart(log).conf.at
    ensures forall u | i <= u < |log| ::
      !log[u].PassStarted? && !((log[u].Applied? || log[u].Annotated?) && log[u].builder == ServerConfigMap)
  {
    var n := |log| - 1;
    if log[n].Restarted? {
      i := n;
    } else {
      i := LastMadeRestart(log[..n]);
    }
  }

  lemma {:induction false} LastFoundRestart(log: seq<Event>) returns (j: nat, i: nat)
    requires SeenRestart(log).conf.Marked? && SeenRestart(log).restart.Some? && !SeenRestart(log).made
    ensures j < i < |log| && log[j].MapRead? && log[j].kind == ServerConf && log[j].m.marker == Some(SeenRestart(log).conf.at)
    ensures log[i].StsRead? && log[i].lastRestart == SeenRestart(log).restart
    ensures forall u | j <= u < |log| ::
      !log[u].PassStarted? && !((log[u].Applied? || log[u].Annotated?) && log[u].builder == ServerConfigMap)
  {
    var n := |log| - 1;
    if log[n].StsRead? {
      j := LastConfRead(log[..n]);
      i := n;
    } else {
      j, i := LastFoundRestart(log[..n]);
    }
  }

  /** In a pass, at `j` server-conf is read with a marker; after that, and without server-conf being
      written, at `i` a restart is made for this marker, or found that is strictly later. */
  ghost predicate RestartAt(log: seq<Event>, j: nat, i: nat, k: nat)
    requires k <= |log|
  {
    && j < i < k && log[j].MapRead? && log[j].kind == ServerConf && log[j].m.marker.Some?
    && ((log[i].Restarted? && log[i].conf == log[j].m.marker.value && Seconds(log[i].conf) <= Seconds(log[i].after))
        || (log[i].StsRead? && log[i].lastRestart.Some? && Seconds(log[j].m.marker.value) < Seconds(log[i].lastRestart.value)))
    && forall u | j <= u < k ::
      !log[u].PassStarted? && !((log[u].Applied? || log[u].Annotated?) && log[u].builder == ServerConfigMap)
  }

  lemma {:induction false} RestartDoneMeans(log: seq<Event>) returns (j: nat, i: nat)
    requires Rules(log) && RestartDone(SeenRestart(log)) && SeenRestart(log).conf.Marked?
    ensures RestartAt(log, j, i, |log|)
  {
    var k := |log|;
    if SeenRestart(log).made {
      i := LastMadeRestart(log);
      RulesPrefix(log, i);
      j := RestartAnswersMarker(log, i);
      forall u | j <= u < k ensures !log[u].PassStarted? && !((log[u].Applied? || log[u].Annotated?) && log[u].builder == ServerConfigMap) {
      }
    } else {
      j, i := LastFoundRestart(log);
    }
  }

  /** A pass that reports success has read server-conf after it had last written it; and if there was a
      marker, it has since restarted the StatefulSet, or found a restart strictly later than it. */
  lemma {:induction false} CompletePassHasRestarted(log: seq<Event>, k: nat) returns (c: nat)
    requires Rules(log) && k < |log| && log[k].StatusWritten? && Reports(log[k].was, log[k].now)
    ensures c < k && log[c] == RestartChecked(log[k].cluster.spec) && !SeenRestart(log[..c]).conf.Unread?
    ensures SeenRestart(log[..c]).conf.Marked? ==> exists j, i :: RestartAt(log, j, i, c)
  {
    var spec := log[k].cluster.spec;
    ObservedOnlyWhenComplete(log, k);
    var n := |ResourceBuilders(spec)|;
    assert Complete(spec)[n] == RestartChecked(spec);
    c := MilestoneIn(log[..k], n);
    assert log[..k][c] == log[c];
    RulesPrefix(log, c);
    if SeenRestart(log[..c]).conf.Marked? {
      var j, i := RestartDoneMeans(log[..c]);
      assert log[..c][j] == log[j] && log[..c][i] == log[i];
      forall u | j <= u < c
        ensures !log[u].PassStarted? && !((log[u].Applied? || log[u].Annotated?) && log[u].builder == ServerConfigMap)
      {
        assert log[u] == log[..c][u];
      }
      assert RestartAt(log, j, i, c);
    }
  }

  /** A marker is only ever written for a change that its builder has made before in the same pass. So a
      change is marked by its own pass or, after that, only together with a later change. */
  lemma {:induction false} MarkedByItsPass(log: seq<Event>, i: nat) returns (j: nat)
    requires Rules(log) && i < |log| && log[i].Annotated?
    ensures j < i && log[j].Applied? && log[j].builder == log[i].builder && log[j].mark && Seconds(log[j].at) <= Seconds(log[i].at)
    ensures forall u | j <= u < i :: !log[u].PassStarted?
    ensures forall p | 0 <= p < i && log[p].PassStarted? :: p < j
  {
    RulesPrefix(log, i);
    j := ChangedMeans(log[..i], log[i].builder);
    assert log[..i][j] == log[j];
    forall u | j <= u < i ensures !log[u].PassStarted? {
      assert log[u] == log[..i][u];
    }
  }

  lemma OneMore(log: seq<Event>, e: Event) returns (more: seq<Event>)
    requires Rules(log) && Allowed(log, e) && !e.Annotated? && forall x <- log :: !x.Annotated?
    ensures more == log + [e] && (forall x <- log :: x in more) && forall x <- more :: !x.Annotated?
    ensures Rules(more) && StageOf(more, ServerConfigMap) == Advance(StageOf(log, ServerConfigMap), e, ServerConfigMap)
  {
    more := log + [e];
    RulesAppend(log, e);
    FoldsAppend(log, e);
  }

  /** A pass that ends before it has marked a change of server-conf. */
  lemma {:induction false} InterruptedPass(was: ConfigMap, content: Content, at: Timestamp) returns (log: seq<Event>)
    ensures Rules(log) && Applied(ServerConfigMap, content, at, true) in log && forall e <- log :: !e.Annotated?
  {
    log := OneMore([], PassStarted);
    hide Rules, StageOf, Milestones, Outstanding, Observed, LastRestart, Seen, SeenRestart;
    log := OneMore(log, MapRead(ServerConf, was, at));
    log := OneMore(log, Applied(ServerConfigMap, content, at, true));
  }

  /** A run in which a change of server-conf stays unmarked: its pass ended before marking it, and the
      next one finds the content as wanted. */
  lemma {:induction false} LostMarker(spec: Spec, was: ConfigMap, now: ConfigMap, at: Timestamp) returns (log: seq<Event>)
    requires AcceptedTLS(spec) && was.data != [spec.conf] && now == was.(version := now.version, data := [spec.conf])
    ensures Rules(log) && Applied(ServerConfigMap, Data([spec.conf]), at, true) in log
    ensures log[|log| - 1] == BuilderDone(ServerConfigMap, spec) && forall e <- log :: !e.Annotated?
  {
    var content := Data([spec.conf]);
    log := InterruptedPass(was, content, at);
    hide Rules, StageOf, Milestones, Outstanding, Observed, LastRestart, Seen, SeenRestart;
    log := OneMore(log, PassStarted);
    log := OneMore(log, MapRead(ServerConf, now, at));
    log := OneMore(log, Found(ServerConfigMap, content));
    log := OneMore(log, BuilderDone(ServerConfigMap, spec));
  }
}
