/** The API server and the pods as the operator meets them, under an arbitrary schedule: others act
    before every call, and any call may fail, get lost, or be the last of its pass. */
module MarkerStore {
  import opened Kubernetes
  import opened Timestamps
  import opened MarkerModel

  datatype Turn = Turn(others: seq<Outside>, fate: Fate)

  class Store {
    const schedule: nat -> Turn
    var turn: nat
    var alive: bool
    var world: World
    ghost var log: seq<Event>

    /** A cluster that has just been created: no child objects, no marks, nothing observed. */
    constructor (schedule: nat -> Turn, clock: Timestamp, spec: Spec)
      ensures this.schedule == schedule && Ok() && alive && log == [] && world.cluster.spec == spec
    {
      this.schedule, turn, alive, log := schedule, 0, true, [];
      world := World(clock, 1, 0, Cluster(1, 1, spec, false, None, Status(None, None, None, 0)), None, None, None);
    }

    ghost predicate Ok()
      reads this
    {
      Tie(world, log) && Rules(log)
    }

    /** The builder has written `content` and has to mark that. */
    ghost predicate Pending(b: Builder, content: Content)
      reads this
    {
      var stage := StageOf(log, b);
      stage.Changed? && stage.content == content && Seconds(stage.at) <= Seconds(world.clock)
    }

    /** Nobody interferes and every call is served. */
    ghost predicate Calm() {
      forall t: nat :: schedule(t) == Turn([], Served)
    }

    /** Every call is served, whatever others do meanwhile. */
    ghost predicate Reliable() {
      forall t: nat :: schedule(t).fate == Served
    }

    /** One call has been made, unless the operator was dead, and was answered if the schedule says so. */
    twostate predicate Called(answered: bool)
      reads this
    {
      && turn == old(turn) + (if old(alive) then 1 else 0)
      && (answered <==> old(alive) && schedule(old(turn)).fate.Served?)
      && (answered ==> alive) && (alive ==> old(alive))
    }

    /** What others have made of the objects when the call is carried out. */
    twostate function Others(): World {
      if old(alive) then InterfereAll(old(world), schedule(old(turn)).others) else old(world)
    }

    /** The call is carried out, whether or not it is answered; `current`: the server accepts it. */
    twostate predicate CarriedOut(current: bool) {
      old(alive) && current && (var fate := schedule(old(turn)).fate; fate.Served? || fate.Lost? || fate == Crashed(true))
    }

    /** If the call is carried out it makes `w` of the objects, and otherwise nothing. */
    twostate predicate Leaves(current: bool, w: World)
      reads this
    {
      if CarriedOut(current) then world == w else world == Others() && log == old(log)
    }

    /** All calls made since have been answered. */
    twostate predicate Answered()
      reads this
    {
      forall t: nat | old(turn) <= t < turn :: schedule(t).fate.Served?
    }

    /** A pass that is not disturbed goes on, with `c` as the stored cluster. */
    ghost predicate Ready(c: Cluster)
      reads this
    {
      Calm() && alive && world.cluster == c
    }

    /** No object but the cluster has changed, and that is now `c`. */
    twostate predicate OnlyClusterIs(c: Cluster)
      reads this
    {
      alive && world == old(world).(revision := world.revision, cluster := c)
    }

    /** No object but this config map has changed. */
    twostate predicate OnlyMap(kind: Kind)
      reads this
    {
      alive && world == WithMap(old(world).(revision := world.revision), kind, MapOf(world, kind))
    }

    /** No object but the StatefulSet has changed. */
    twostate predicate OnlySts()
      reads this
    {
      alive && world == old(world).(revision := world.revision, nextUid := world.nextUid, sts := world.sts)
    }

    /** Copies the operator holds have not become wrong: a version never has two contents. */
    twostate predicate CopiesHold()
      reads this
    {
      && (forall c: Cluster {:trigger Held(c, world)} :: Held(c, old(world)) ==> Held(c, world))
      && (forall m: ConfigMap, k: Kind {:trigger HeldMap(m, k, world)} :: HeldMap(m, k, old(world)) ==> HeldMap(m, k, world))
      && (forall t: StatefulSet {:trigger HeldSts(t, world)} :: HeldSts(t, old(world)) ==> HeldSts(t, world))
      && Seconds(old(world.clock)) <= Seconds(world.clock)
    }

    /** In addition, a restart that had been made has not become due again. */
    twostate predicate Kept()
      reads this
    {
      CopiesHold() && (RestartedSince(old(world)) ==> RestartedSince(world))
    }

    /** In addition, the markers that decide about restarts are as they were, or gone. */
    twostate predicate Waited()
      reads this
    {
      && Kept()
      && (world.conf.Some? ==> old(world.conf.Some?) && world.conf.value.marker == old(world.conf.value.marker))
      && (world.sts.Some? ==> old(world.sts.Some?) && world.sts.value.uid == old(world.sts.value.uid)
                              && world.sts.value.lastRestart == old(world.sts.value.lastRestart))
    }

    twostate lemma RelyKeeps()
      requires Rely(old(world), world)
      ensures Waited()
    {
    }

    twostate lemma OnwardKeeps()
      requires Onward(old(world), world)
      ensures CopiesHold()
    {
    }

    // ---------- calls ----------

    method Begin() returns (fate: Fate)
      requires Ok()
      modifies this`turn, this`alive, this`world
      ensures Ok() && Waited() && world.nextUid == old(world.nextUid) && Called(fate.Served?)
      ensures world.plugins == old(world.plugins) || world.plugins.None? || world.plugins.value.version > old(world.revision)
      ensures Calm() && old(alive) ==> fate == Served && alive && world == old(world)
      ensures world == Others() && if old(alive) then fate == schedule(old(turn)).fate else fate == Crashed(false)
    {
      RelyKeeps();
      if !alive {
        return Crashed(false);
      }
      assert InterfereAll(world, []) == world;
      hide InterfereAll;
      var now := schedule(turn);
      for i := 0 to |now.others|
        invariant Ok() && Rely(old(world), world) && turn == old(turn)
        invariant Calm() ==> world == old(world)
        invariant world == InterfereAll(old(world), now.others[..i])
      {
        ghost var w := world;
        OneMoreInterferes(old(world), now.others, i);
        world := Interfere(world, now.others[i]);
        InterferenceStep(w, now.others[i], log);
        RelyTransitive(old(world), w, world);
      }
      RelyKeeps();
      assert now.others[..|now.others|] == now.others;
      turn, alive, fate := turn + 1, !now.fate.Crashed?, now.fate;
    }

    /** A call has an effect: the objects become `w`, and the operator's log grows by `e`, which says so. */
    method Commit(w: World, ghost e: Event)
      requires Ok() && Allowed(log, e) && Tie(w, log + [e]) && Onward(world, w) && Explained(world, w, e)
      modifies this`world, this`log
      ensures Ok() && world == w && log == old(log) + [e] && CopiesHold()
      ensures Milestones(log) == if e.PassStarted? then [] else if IsMilestone(e) then Milestones(old(log)) + [e] else Milestones(old(log))
      ensures Plain(e) ==> Outstanding(log) == Outstanding(old(log))
      ensures forall b: Builder :: StageOf(log, b) == Advance(StageOf(old(log), b), e, b)
      ensures Seen(log) == See(Seen(old(log)), e) && SeenRestart(log) == SeeRestart(SeenRestart(old(log)), e)
    {
      RulesAppend(log, e);
      FoldsAppend(log, e);
      world, log := w, log + [e];
      OnwardKeeps();
    }

    /** The mark or the status of the cluster object is written, with an event that says why. */
    method WriteCluster(c: Cluster, ghost e: Event)
      requires Ok() && Allowed(log, e) && (e.RebalanceMarked? || e.RebalanceUnmarked? || e.StatusWritten?)
      requires c == world.cluster.(version := world.revision + 1, mark := c.mark, status := c.status)
      requires c.mark == if e.RebalanceMarked? then Some(e.at) else if e.RebalanceUnmarked? then None else world.cluster.mark
      requires if e.StatusWritten? then e.was == world.cluster.status && e.now == c.status else c.status == world.cluster.status
      requires c.status.observed <= c.generation
      modifies this`world, this`log
      ensures Ok() && CopiesHold() && log == old(log) + [e]
      ensures world == old(world).(revision := c.version, cluster := c)
      ensures OnlyBy(old(log), log, None) && Seen(log) == Seen(old(log))
      ensures Outstanding(log) == if e.RebalanceMarked? then Some(e.at) else if e.RebalanceUnmarked? then None else Outstanding(old(log))
    {
      hide Rules, Tie, Milestones, StageOf, Seen, SeenRestart, Outstanding, Observed, LastRestart, Less, Text, Seconds;
      ClusterWriteStep(world, c, log, e);
      FoldsAppend(log, e);
      Commit(world.(revision := c.version, cluster := c), e);
    }

    /** A config map is written, with an event that says why. */
    method WriteMap(kind: Kind, m: ConfigMap, ghost e: Event)
      requires Ok() && Plain(e) && Allowed(log, e) && m.version == world.revision + 1
      requires ExplainedMap(MapOf(world, kind), Some(m), kind, e)
      requires kind == ServerConf && m.marker.Some? ==> Seconds(m.marker.value) <= Seconds(world.clock)
      modifies this`world, this`log
      ensures Ok() && CopiesHold() && log == old(log) + [e]
      ensures world == WithMap(old(world).(revision := m.version), kind, Some(m))
      ensures Milestones(log) == if e.PassStarted? then [] else if IsMilestone(e) then Milestones(old(log)) + [e] else Milestones(old(log))
      ensures Outstanding(log) == Outstanding(old(log))
      ensures Seen(log) == See(Seen(old(log)), e) && SeenRestart(log) == SeeRestart(SeenRestart(old(log)), e)
      ensures forall b: Builder :: StageOf(log, b) == Advance(StageOf(old(log), b), e, b)
    {
      MapWriteStep(world, kind, m, log, e);
      Commit(WithMap(world.(revision := m.version), kind, Some(m)), e);
    }

    /** The StatefulSet is written, with an event that says why. */
    method WriteSts(t: StatefulSet, ghost e: Event)
      requires Ok() && Plain(e) && Allowed(log, e) && t.version == world.revision + 1
      requires world.sts.Some? && t.uid == world.sts.value.uid && t.lastRestart == world.sts.value.lastRestart
      requires ExplainedSts(world.sts, Some(t), e)
      modifies this`world, this`log
      ensures Ok() && CopiesHold() && log == old(log) + [e]
      ensures world == old(world).(revision := t.version, sts := Some(t))
      ensures Milestones(log) == if e.PassStarted? then [] else if IsMilestone(e) then Milestones(old(log)) + [e] else Milestones(old(log))
      ensures Outstanding(log) == Outstanding(old(log))
      ensures Seen(log) == See(Seen(old(log)), e) && SeenRestart(log) == SeeRestart(SeenRestart(old(log)), e)
      ensures forall b: Builder :: StageOf(log, b) == Advance(StageOf(old(log), b), e, b)
    {
      StsWriteStep(world, t, log, e);
      Commit(world.(revision := t.version, sts := Some(t)), e);
    }

    /** The StatefulSet is created, with an event that says why. */
    method AddSts(t: StatefulSet, ghost e: Event)
      requires Ok() && Plain(e) && Allowed(log, e) && t.version == world.revision + 1
      requires world.sts.None? && t.uid == world.nextUid && t.lastRestart.None? && ExplainedSts(None, Some(t), e)
      modifies this`world, this`log
      ensures Ok() && CopiesHold() && log == old(log) + [e]
      ensures world == old(world).(revision := t.version, nextUid := t.uid + 1, sts := Some(t))
      ensures Milestones(log) == if e.PassStarted? then [] else if IsMilestone(e) then Milestones(old(log)) + [e] else Milestones(old(log))
      ensures Outstanding(log) == Outstanding(old(log))
      ensures Seen(log) == See(Seen(old(log)), e) && SeenRestart(log) == SeeRestart(SeenRestart(old(log)), e)
      ensures forall b: Builder :: StageOf(log, b) == Advance(StageOf(old(log), b), e, b)
    {
      StsCreationStep(world, t, log, e);
      Commit(world.(revision := t.version, nextUid := t.uid + 1, sts := Some(t)), e);
    }

    /** The StatefulSet is restarted. */
    method WriteRestart(prev: StatefulSet, ghost conf: Timestamp, now: Timestamp)
      requires Ok() && world.sts == Some(prev) && Seconds(now) <= Seconds(world.clock)
      requires Allowed(log, Restarted(prev.uid, conf, prev.lastRestart, now))
      modifies this`world, this`log
      ensures Ok() && CopiesHold() && log == old(log) + [Restarted(prev.uid, conf, prev.lastRestart, now)]
      ensures world.revision == old(world.revision) + 1
      ensures world == old(world).(revision := world.revision, sts := Some(prev.(version := world.revision, lastRestart := Some(now))))
      ensures Quiet(old(log), log) && SeenRestart(log) == SeenRestart(old(log)).(restart := Some(now), made := true)
    {
      hide Rules, Tie, Milestones, StageOf, Seen, SeenRestart, Outstanding, Observed, LastRestart, Less, Text, Seconds;
      ghost var e := Restarted(prev.uid, conf, prev.lastRestart, now);
      var t := prev.(version := world.revision + 1, lastRestart := Some(now));
      StsRestartStep(world, t, log, e);
      FoldsAppend(log, e);
      Commit(world.(revision := t.version, sts := Some(t)), e);
    }

    /** The log grows by an event that bears on no object modelled here. */
    ghost method Log(e: Event)
      requires Ok() && Allowed(log, e) && Plain(e)
      modifies this`log
      ensures Ok() && log == old(log) + [e]
      ensures Milestones(log) == if e.PassStarted? then [] else if IsMilestone(e) then Milestones(old(log)) + [e] else Milestones(old(log))
      ensures Outstanding(log) == Outstanding(old(log))
      ensures forall b: Builder :: StageOf(log, b) == Advance(StageOf(old(log), b), e, b)
      ensures Seen(log) == See(Seen(old(log)), e) && SeenRestart(log) == SeeRestart(SeenRestart(old(log)), e)
    {
      RulesAppend(log, e);
      FoldsAppend(log, e);
      log := log + [e];
    }

    /** The operator logs how far it has come; its calls are logged by the methods below. */
    ghost method Note(e: Event)
      requires Ok() && Allowed(log, e)
      requires e.PassStarted? || IsMilestone(e) || e.Found?
      modifies this`log
      ensures Ok() && log == old(log) + [e]
      ensures Milestones(log) == if e.PassStarted? then [] else if IsMilestone(e) then Milestones(old(log)) + [e] else Milestones(old(log))
      ensures Outstanding(log) == Outstanding(old(log))
      ensures forall b: Builder :: StageOf(log, b) == Advance(StageOf(old(log), b), e, b)
      ensures Seen(log) == See(Seen(old(log)), e) && SeenRestart(log) == SeeRestart(SeenRestart(old(log)), e)
    {
      Log(e);
    }

    method GetCluster() returns (r: Result<Cluster>)
      requires Ok()
      modifies this`turn, this`alive, this`world
      ensures Ok() && Waited() && Called(r.Success?)
      ensures r.Success? ==> world.cluster == r.value
      ensures r.Success? ==> Held(r.value, world) && r.value.mark == Outstanding(log)
      ensures Calm() && old(alive) ==>
        alive && world == old(world) && r == Success(world.cluster)
    {
      var fate := Begin();
      r := Answer(fate, world.cluster);
    }

    method GetSts() returns (r: Result<StatefulSet>)
      requires Ok()
      modifies this
      ensures Ok() && Waited() && Called(r != Failure(Unavailable))
      ensures r.Success? || r == Failure(NotFound) || r == Failure(Unavailable)
      ensures r.Success? ==> world.sts == Some(r.value) && log == old(log) + [ReadOf(r.value)]
      ensures r.Success? ==>
        && HeldSts(r.value, world) && r.value.uid < world.nextUid && r.value.lastRestart == LastRestart(log, r.value.uid)
        && (r.value.lastRestart.Some? ==> Seconds(r.value.lastRestart.value) <= Seconds(world.clock))
      ensures r.Failure? ==> log == old(log)
      ensures r == Failure(NotFound) ==> world.sts.None?
      ensures Quiet(old(log), log) && (r.Success? ==> Seen(log) == See(Seen(old(log)), ReadOf(r.value)))
      ensures r.Success? ==> SeenRestart(log) == SeenRestart(old(log)).(restart := r.value.lastRestart)
      ensures Calm() && old(alive) ==>
        alive && world == old(world) && r == if world.sts.Some? then Success(world.sts.value) else Failure(NotFound)
    {
      var fate := Begin();
      if !fate.Served? {
        return Failure(Unavailable);
      }
      if world.sts.None? {
        return Failure(NotFound);
      }
      r := Success(world.sts.value);
      Log(ReadOf(r.value));
    }

    method GetMap(kind: Kind) returns (r: Result<ConfigMap>)
      requires Ok()
      modifies this
      ensures Ok() && Waited() && Called(r != Failure(Unavailable))
      ensures r.Success? || r == Failure(NotFound) || r == Failure(Unavailable)
      ensures r.Success? ==> MapOf(world, kind) == Some(r.value) && HeldMap(r.value, kind, world)
      ensures r.Success? && kind == ServerConf && r.value.marker.Some? ==> Seconds(r.value.marker.value) <= Seconds(world.clock)
      ensures log == if r.Success? then old(log) + [MapRead(kind, r.value, world.clock)] else old(log)
      ensures r == Failure(NotFound) ==> MapOf(world, kind).None?
      ensures Quiet(old(log), log) && (r.Success? ==> Seen(log) == See(Seen(old(log)), MapRead(kind, r.value, world.clock)))
      ensures r.Success? ==> SeenRestart(log) == SeeRestart(SeenRestart(old(log)), MapRead(kind, r.value, world.clock))
      ensures Calm() && old(alive) ==>
        alive && world == old(world) && r == if MapOf(world, kind).Some? then Success(MapOf(world, kind).value) else Failure(NotFound)
    {
      var fate := Begin();
      if !fate.Served? {
        return Failure(Unavailable);
      }
      if MapOf(world, kind).None? {
        return Failure(NotFound);
      }
      r := Success(MapOf(world, kind).value);
      Log(MapRead(kind, r.value, world.clock));
    }

    /** Update of the spec and the finalizers of the cluster object last read or written as `prev`. */
    method UpdateCluster(prev: Cluster, spec: Spec, finalizer: bool) returns (r: Result<Cluster>)
      requires Ok() && Held(prev, world)
      modifies this`turn, this`alive, this`world
      ensures var w := Others();
              var generation := if spec == prev.spec then prev.generation else prev.generation + 1;
              Leaves(w.cluster.version == prev.version,
                     w.(revision := w.revision + 1,
                        cluster := prev.(version := w.revision + 1, generation := generation, spec := spec, finalizer := finalizer)))
      ensures Ok() && Kept()
      ensures r.Success? ==> Held(r.value, world) && r.value == prev.(version := r.value.version, generation := r.value.generation,
                                                                       spec := spec, finalizer := finalizer)
      ensures r.Success? ==> r.value.generation == if spec == prev.spec then prev.generation else prev.generation + 1
      ensures r.Success? ==> r.value == world.cluster
      ensures r == Failure(Conflict) ==> world.cluster.version != prev.version
      ensures Called(r != Failure(Unavailable)) && (r.Success? || r == Failure(Conflict) || r == Failure(Unavailable))
      ensures Calm() && old(alive) && old(world.cluster) == prev ==>
        alive && r.Success? && world == old(world).(revision := old(world.revision) + 1, cluster := r.value)
    {
      hide InterfereAll;
      var fate := Begin();
      assert Held(prev, world);
      var current := world.cluster.version == prev.version;
      if TakesEffect(fate) && current {
        var v := world.revision + 1;
        var generation := if spec == prev.spec then prev.generation else prev.generation + 1;
        label Served:
        world := world.(revision := v, cluster := prev.(version := v, generation := generation, spec := spec, finalizer := finalizer));
        OnwardKeeps@Served();
      }
      r := Verdict(fate, true, current, world.cluster);
    }

    /** Update that sets queueRebalanceNeededAt. */
    method MarkCluster(prev: Cluster, now: Timestamp) returns (r: Result<Cluster>)
      requires Ok() && Held(prev, world) && prev.mark.None?
      requires log != [] && log[|log| - 1].StsRead? && log[|log| - 1].rolling
      requires prev.spec.replicas > 1 && !prev.spec.skipPostDeploySteps
      modifies this
      ensures var w := Others();
              Leaves(w.cluster.version == prev.version,
                     w.(revision := w.revision + 1, cluster := prev.(version := w.revision + 1, mark := Some(now))))
      ensures Ok() && Kept() && OnlyBy(old(log), log, None) && Called(r != Failure(Unavailable))
      ensures log == old(log) || log == old(log) + [RebalanceMarked(now, prev.spec)]
      ensures r.Success? ==> Held(r.value, world) && r.value == prev.(version := r.value.version, mark := Some(now))
                             && Outstanding(log) == Some(now)
      ensures Calm() && old(alive) && old(world.cluster) == prev ==>
        alive && r.Success? && world == old(world).(revision := world.revision, cluster := r.value)
    {
      hide InterfereAll, Rules, Tie, Milestones, StageOf, Seen, SeenRestart, Outstanding, Observed, LastRestart, Less, Text, Seconds;
      var fate := Begin();
      assert Held(prev, world);
      var current := world.cluster.version == prev.version;
      if TakesEffect(fate) && current {
        TiedCluster(world, log);
        WriteCluster(prev.(version := world.revision + 1, mark := Some(now)), RebalanceMarked(now, prev.spec));
      }
      r := Verdict(fate, true, current, world.cluster);
    }

    /** Update that removes queueRebalanceNeededAt. */
    method UnmarkCluster(prev: Cluster) returns (r: Result<Cluster>)
      requires Ok() && Held(prev, world) && prev.mark.Some?
      requires log != [] && log[|log| - 1] == Rebalanced(true)
      modifies this
      ensures var w := Others();
              Leaves(w.cluster.version == prev.version,
                     w.(revision := w.revision + 1, cluster := prev.(version := w.revision + 1, mark := None)))
      ensures Ok() && Kept() && OnlyBy(old(log), log, None) && Seen(log) == Seen(old(log)) && Called(r != Failure(Unavailable))
      ensures log == old(log) || log == old(log) + [RebalanceUnmarked]
      ensures r.Success? ==> Held(r.value, world) && r.value == prev.(version := r.value.version, mark := None)
                             && Outstanding(log) == None
      ensures Calm() && old(alive) && old(world.cluster) == prev ==>
        alive && r.Success? && world == old(world).(revision := world.revision, cluster := r.value)
    {
      hide InterfereAll, Rules, Tie, Milestones, StageOf, Seen, SeenRestart, Outstanding, Observed, LastRestart, Less, Text, Seconds;
      var fate := Begin();
      assert Held(prev, world);
      var current := world.cluster.version == prev.version;
      if TakesEffect(fate) && current {
        TiedCluster(world, log);
        WriteCluster(prev.(version := world.revision + 1, mark := None), RebalanceUnmarked);
      }
      r := Verdict(fate, true, current, world.cluster);
    }

    /** Update of the status subresource. */
    method UpdateStatus(prev: Cluster, status: Status) returns (r: Result<Cluster>)
      requires Ok() && Held(prev, world)
      requires status.observed == prev.status.observed || status.observed == prev.generation
      requires Reports(prev.status, status) ==>
        status.observed == prev.generation && status.defaultUser == Some(DefaultUserOf(prev.spec)) && Milestones(log) == Complete(prev.spec)
      modifies this
      ensures var w := Others();
              Leaves(w.cluster.version == prev.version,
                     w.(revision := w.revision + 1, cluster := prev.(version := w.revision + 1, status := status)))
      ensures Ok() && Kept()
      ensures log == old(log) || log == old(log) + [StatusWritten(prev.status, status, prev)]
      ensures r.Success? ==> Held(r.value, world) && r.value == prev.(version := r.value.version, status := status)
      ensures r == Failure(Conflict) ==> log == old(log) && world.cluster.version != prev.version
      ensures Called(r != Failure(Unavailable)) && (r.Success? || r == Failure(Conflict) || r == Failure(Unavailable))
      ensures r.Success? ==> world.cluster == r.value
      ensures Quiet(old(log), log)
      ensures Calm() && old(alive) && old(world.cluster) == prev ==>
        alive && r.Success? && world == old(world).(revision := world.revision, cluster := r.value)
    {
      hide InterfereAll, Rules, Tie, Milestones, StageOf, Seen, SeenRestart, Outstanding, Observed, LastRestart, Less, Text, Seconds;
      var fate := Begin();
      assert Held(prev, world);
      var current := world.cluster.version == prev.version;
      if TakesEffect(fate) && current {
        TiedCluster(world, log);
        WriteCluster(prev.(version := world.revision + 1, status := status), StatusWritten(prev.status, status, prev));
      }
      r := Verdict(fate, true, current, world.cluster);
    }

    method CreateMap(kind: Kind, data: seq<string>) returns (r: Result<()>)
      requires Ok() && !StageOf(log, BuilderOf(kind)).Changed?
      modifies this
      ensures var w := Others();
              Leaves(MapOf(w, kind).None?, WithMap(w.(revision := w.revision + 1), kind, Some(ConfigMap(w.revision + 1, data, None))))
      ensures Ok() && CopiesHold() && QuietBut(old(log), log, BuilderOf(kind)) && Called(r != Failure(Unavailable))
      ensures r.Success? ==> StageOf(log, BuilderOf(kind)) == Settled(Data(data))
      ensures r == Failure(Conflict) ==> log == old(log)
      ensures Calm() && old(alive) && MapOf(old(world), kind).None? ==>
        r.Success? && OnlyMap(kind) && MapOf(world, kind) == Some(ConfigMap(world.revision, data, None))
    {
      hide InterfereAll, Rules, Tie, Milestones, StageOf, Seen, SeenRestart, Outstanding, Observed, LastRestart, Less, Text, Seconds;
      var fate := Begin();
      var free := MapOf(world, kind).None?;
      if TakesEffect(fate) && free {
        WriteMap(kind, ConfigMap(world.revision + 1, data, None), Applied(BuilderOf(kind), Data(data), world.clock, false));
      }
      r := if !fate.Served? then Failure(Unavailable) else if free then Success(()) else Failure(AlreadyExists);
    }

    /** Update of the data of a config map that was read as `prev`. */
    method UpdateMap(prev: ConfigMap, kind: Kind, data: seq<string>) returns (r: Result<()>)
      requires Ok() && HeldMap(prev, kind, world) && !StageOf(log, BuilderOf(kind)).Changed?
      modifies this
      ensures var w := Others();
              Leaves(MapOf(w, kind).Some? && MapOf(w, kind).value.version == prev.version,
                     WithMap(w.(revision := w.revision + 1), kind, Some(prev.(version := w.revision + 1, data := data))))
      ensures Ok() && CopiesHold() && QuietBut(old(log), log, BuilderOf(kind)) && Called(r != Failure(Unavailable))
      ensures r.Success? ==> Pending(BuilderOf(kind), Data(data))
      ensures r == Failure(Conflict) ==> log == old(log)
      ensures Calm() && old(alive) && MapOf(old(world), kind) == Some(prev) ==>
        r.Success? && OnlyMap(kind) && MapOf(world, kind) == Some(prev.(version := world.revision, data := data))
    {
      hide InterfereAll, Rules, Milestones, StageOf, Seen, SeenRestart, Outstanding, Observed, LastRestart, Less, Text, Seconds;
      var fate := Begin();
      assert HeldMap(prev, kind, world);
      var found := MapOf(world, kind).Some?;
      var current := found && MapOf(world, kind).value.version == prev.version;
      if TakesEffect(fate) && current {
        assert MapOf(world, kind) == Some(prev);
        WriteMap(kind, prev.(version := world.revision + 1, data := data), Applied(BuilderOf(kind), Data(data), world.clock, true));
      }
      r := Verdict(fate, found, current, ());
    }

    /** Update that sets the marker of a config map read as `prev`. */
    method MarkMap(prev: ConfigMap, kind: Kind, now: Timestamp) returns (r: Result<()>)
      requires Ok() && HeldMap(prev, kind, world) && Seconds(now) <= Seconds(world.clock)
      requires StageOf(log, BuilderOf(kind)).Changed? && Seconds(StageOf(log, BuilderOf(kind)).at) <= Seconds(now)
      modifies this
      ensures var w := Others();
              Leaves(MapOf(w, kind).Some? && MapOf(w, kind).value.version == prev.version,
                     WithMap(w.(revision := w.revision + 1), kind, Some(prev.(version := w.revision + 1, marker := Some(now)))))
      ensures Ok() && CopiesHold() && QuietBut(old(log), log, BuilderOf(kind)) && Called(r != Failure(Unavailable))
      ensures r.Success? ==> StageOf(log, BuilderOf(kind)) == Settled(StageOf(old(log), BuilderOf(kind)).content)
      ensures r.Failure? ==> r.error == Conflict || r.error == NotFound || r.error == Unavailable
      ensures r == Failure(Conflict) || r == Failure(NotFound) ==> log == old(log)
      ensures Calm() && old(alive) && MapOf(old(world), kind) == Some(prev) ==>
        r.Success? && OnlyMap(kind) && MapOf(world, kind) == Some(prev.(version := world.revision, marker := Some(now)))
    {
      hide InterfereAll, Rules, Tie, Milestones, StageOf, Seen, SeenRestart, Outstanding, Observed, LastRestart, Less, Text, Seconds;
      var fate := Begin();
      assert HeldMap(prev, kind, world);
      var found := MapOf(world, kind).Some?;
      var current := found && MapOf(world, kind).value.version == prev.version;
      if TakesEffect(fate) && current {
        assert MapOf(world, kind) == Some(prev);
        WriteMap(kind, prev.(version := world.revision + 1, marker := Some(now)), Annotated(BuilderOf(kind), now));
      }
      r := Verdict(fate, found, current, ());
    }

    /** Update that removes pluginsUpdatedAt from the config map read as `prev`. If that has been
        written or removed since, the call changes nothing: a marker set meanwhile stays. */
    method UnmarkPlugins(prev: ConfigMap, ghost spec: Spec) returns (r: Result<()>)
      requires Ok() && HeldMap(prev, PluginsConf, world)
      requires PluginsSetEverywhere(log, prev, spec.replicas, spec.plugins) && BuiltFor(log, spec)
      modifies this
      ensures var w := Others();
              Leaves(w.plugins.Some? && w.plugins.value.version == prev.version,
                     w.(revision := w.revision + 1, plugins := Some(prev.(version := w.revision + 1, marker := None))))
      ensures Ok() && Kept() && Called(r != Failure(Unavailable))
      ensures log == old(log) || log == old(log) + [PluginsUnmarked(prev, spec)]
      ensures Quiet(old(log), log) && (r.Success? ==> Seen(log) == Seen(old(log)).(pluginsMarked := false))
      ensures (old(world.plugins.None?) || old(world.plugins).value.version != prev.version) ==>
        r.Failure? && log == old(log)
      ensures Calm() && old(alive) && old(world.plugins) == Some(prev) ==>
        alive && r.Success? && world == old(world).(revision := world.revision, plugins := Some(prev.(version := world.revision, marker := None)))
    {
      hide InterfereAll, Rules, Tie, Milestones, StageOf, Seen, SeenRestart, Outstanding, Observed, LastRestart, Less, Text, Seconds;
      var fate := Begin();
      assert HeldMap(prev, PluginsConf, world);
      var found := world.plugins.Some?;
      var current := found && world.plugins.value.version == prev.version;
      if TakesEffect(fate) && current {
        assert world.plugins.value == prev;
        WriteMap(PluginsConf, prev.(version := world.revision + 1, marker := None), PluginsUnmarked(prev, spec));
      }
      r := Verdict(fate, found, current, ());
    }

    method CreateSts(replicas: nat) returns (r: Result<()>)
      requires Ok() && !StageOf(log, StatefulSetBuilder).Changed?
      modifies this
      ensures var w := Others();
              Leaves(w.sts.None?, w.(revision := w.revision + 1, nextUid := w.nextUid + 1,
                                     sts := Some(StatefulSet(w.revision + 1, w.nextUid, replicas, 0, false, None, None))))
      ensures Ok() && CopiesHold() && QuietBut(old(log), log, StatefulSetBuilder) && Called(r != Failure(Unavailable))
      ensures r.Success? ==> Pending(StatefulSetBuilder, Replicas(replicas))
      ensures r == Failure(Conflict) ==> log == old(log)
      ensures Calm() && old(alive) && old(world.sts.None?) ==>
        r.Success? && OnlySts() && world.sts == Some(StatefulSet(world.revision, old(world.nextUid), replicas, 0, false, None, None))
    {
      hide InterfereAll, Rules, Tie, Milestones, StageOf, Seen, SeenRestart, Outstanding, Observed, LastRestart, Less, Text, Seconds;
      var fate := Begin();
      var free := world.sts.None?;
      if TakesEffect(fate) && free {
        AddSts(StatefulSet(world.revision + 1, world.nextUid, replicas, 0, false, None, None),
               Applied(StatefulSetBuilder, Replicas(replicas), world.clock, true));
      }
      r := if !fate.Served? then Failure(Unavailable) else if free then Success(()) else Failure(AlreadyExists);
    }

    /** Update of the StatefulSet read as `prev`; it leaves the annotations of the pod template alone. */
    method UpdateSts(prev: StatefulSet, replicas: nat) returns (r: Result<()>)
      requires Ok() && HeldSts(prev, world) && !StageOf(log, StatefulSetBuilder).Changed?
      modifies this
      ensures var w := Others();
              Leaves(w.sts.Some? && w.sts.value.version == prev.version,
                     w.(revision := w.revision + 1, sts := Some(prev.(version := w.revision + 1, replicas := replicas))))
      ensures Ok() && Kept() && QuietBut(old(log), log, StatefulSetBuilder) && Called(r != Failure(Unavailable))
      ensures r.Success? ==> StageOf(log, StatefulSetBuilder) == Settled(Replicas(replicas))
      ensures r == Failure(Conflict) ==> log == old(log)
      ensures Calm() && old(alive) && old(world.sts) == Some(prev) ==>
        r.Success? && OnlySts() && world.sts == Some(prev.(version := world.revision, replicas := replicas))
    {
      hide InterfereAll, Rules, Tie, Milestones, StageOf, Seen, SeenRestart, Outstanding, Observed, LastRestart, Less, Text, Seconds;
      var fate := Begin();
      assert HeldSts(prev, world);
      var found := world.sts.Some?;
      var current := found && world.sts.value.version == prev.version;
      if TakesEffect(fate) && current {
        WriteSts(prev.(version := world.revision + 1, replicas := replicas),
                 Applied(StatefulSetBuilder, Replicas(replicas), world.clock, false));
      }
      r := Verdict(fate, found, current, ());
    }

    /** Update that sets createdAt on the StatefulSet read as `prev`. */
    method MarkSts(prev: StatefulSet, now: Timestamp) returns (r: Result<()>)
      requires Ok() && HeldSts(prev, world)
      requires StageOf(log, StatefulSetBuilder).Changed? && Seconds(StageOf(log, StatefulSetBuilder).at) <= Seconds(now)
      modifies this
      ensures var w := Others();
              Leaves(w.sts.Some? && w.sts.value.version == prev.version,
                     w.(revision := w.revision + 1, sts := Some(prev.(version := w.revision + 1, createdAt := Some(now)))))
      ensures Ok() && Kept() && QuietBut(old(log), log, StatefulSetBuilder) && Called(r != Failure(Unavailable))
      ensures r.Success? ==> StageOf(log, StatefulSetBuilder) == Settled(StageOf(old(log), StatefulSetBuilder).content)
      ensures r.Failure? ==> r.error == Conflict || r.error == NotFound || r.error == Unavailable
      ensures r == Failure(Conflict) || r == Failure(NotFound) ==> log == old(log)
      ensures Calm() && old(alive) && old(world.sts) == Some(prev) ==>
        r.Success? && OnlySts() && world.sts == Some(prev.(version := world.revision, createdAt := Some(now)))
    {
      hide InterfereAll, Rules, Tie, Milestones, StageOf, Seen, SeenRestart, Outstanding, Observed, LastRestart, Less, Text, Seconds;
      var fate := Begin();
      assert HeldSts(prev, world);
      var found := world.sts.Some?;
      var current := found && world.sts.value.version == prev.version;
      if TakesEffect(fate) && current {
        WriteSts(prev.(version := world.revision + 1, createdAt := Some(now)), Annotated(StatefulSetBuilder, now));
      }
      r := Verdict(fate, found, current, ());
    }

    /** Update that removes createdAt. */
    method UnmarkSts(prev: StatefulSet) returns (r: Result<()>)
      requires Ok() && HeldSts(prev, world) && log != [] && log[|log| - 1] == FlagsEnabled(true)
      modifies this
      ensures var w := Others();
              Leaves(w.sts.Some? && w.sts.value.version == prev.version,
                     w.(revision := w.revision + 1, sts := Some(prev.(version := w.revision + 1, createdAt := None))))
      ensures Ok() && Kept() && Called(r != Failure(Unavailable))
      ensures log == old(log) || log == old(log) + [StsUnmarked]
      ensures Quiet(old(log), log) && (r.Success? ==> Seen(log) == Seen(old(log)).(created := false))
      ensures Calm() && old(alive) && old(world.sts) == Some(prev) ==>
        r.Success? && OnlySts() && world.sts == Some(prev.(version := world.revision, createdAt := None))
    {
      hide InterfereAll, Rules, Tie, Milestones, StageOf, Seen, SeenRestart, Outstanding, Observed, LastRestart, Less, Text, Seconds;
      var fate := Begin();
      assert HeldSts(prev, world);
      var found := world.sts.Some?;
      var current := found && world.sts.value.version == prev.version;
      if TakesEffect(fate) && current {
        WriteSts(prev.(version := world.revision + 1, createdAt := None), StsUnmarked);
      }
      r := Verdict(fate, found, current, ());
    }

    /** Update that sets the restart annotation to `now`; `conf` is the marker it answers. */
    method RestartSts(prev: StatefulSet, ghost conf: Timestamp, now: Timestamp) returns (r: Result<()>)
      requires Ok() && HeldSts(prev, world) && prev.lastRestart == LastRestart(log, prev.uid)
      requires SeenRestart(log).conf == Marked(conf) && !Later(prev.lastRestart, conf)
      requires Seconds(conf) <= Seconds(now) <= Seconds(world.clock)
      requires prev.lastRestart.Some? ==> Seconds(prev.lastRestart.value) <= Seconds(now)
      requires prev.uid < world.nextUid
      modifies this
      ensures var w := Others();
              Leaves(w.sts.Some? && w.sts.value.version == prev.version,
                     w.(revision := w.revision + 1, sts := Some(prev.(version := w.revision + 1, lastRestart := Some(now)))))
      ensures Ok() && CopiesHold() && Called(r != Failure(Unavailable))
      ensures r.Failure? ==> r.error == Conflict || r.error == NotFound || r.error == Unavailable
      ensures world.sts.Some? ==> old(world.sts.Some?)
      ensures r == Failure(NotFound) ==> world.sts.None?
      ensures log == old(log) || log == old(log) + [Restarted(prev.uid, conf, prev.lastRestart, now)]
      ensures r == Failure(Conflict) ==> log == old(log) && Waited()
      ensures r.Success? ==> world.sts.Some? && world.sts.value.lastRestart == Some(now)
      ensures r.Success? ==> SeenRestart(log) == SeenRestart(old(log)).(restart := Some(now), made := true)
      ensures world.conf.Some? ==> old(world.conf.Some?) && world.conf.value.marker == old(world.conf.value.marker)
      ensures Quiet(old(log), log)
      ensures Calm() && old(alive) && old(world.sts) == Some(prev) ==>
        r.Success? && OnlySts() && world.sts == Some(prev.(version := world.revision, lastRestart := Some(now)))
    {
      hide InterfereAll, Rules, Tie, Milestones, StageOf, Seen, SeenRestart, Outstanding, Observed, LastRestart, Less, Text, Seconds, Later;
      var fate := Begin();
      assert HeldSts(prev, world);
      var found := world.sts.Some?;
      var current := found && world.sts.value.version == prev.version;
      if TakesEffect(fate) && current {
        WriteRestart(prev, conf, now);
      }
      r := Verdict(fate, found, current, ());
    }

    // ---------- commands in pods, and calls that touch none of these objects ----------

    method ExecSetPlugins(ordinal: nat, plugins: seq<string>) returns (ok: bool)
      requires Ok() && Seen(log).ready && !Seen(log).recent && Seen(log).pluginsMarked
      modifies this
      ensures Ok() && Waited() && Called(ok)
      ensures log == old(log) + [PluginsSet(ordinal, plugins, ok)]
      ensures Quiet(old(log), log) && Seen(log) == Seen(old(log))
      ensures Calm() && old(alive) ==> ok && alive && world == old(world)
    {
      var fate := Begin();
      ok := fate.Served?;
      Log(PluginsSet(ordinal, plugins, ok));
    }

    method ExecEnableFeatureFlags() returns (ok: bool)
      requires Ok() && Seen(log).ready && !Seen(log).recent && Seen(log).created
      modifies this
      ensures Ok() && Waited() && Called(ok) && log == old(log) + [FlagsEnabled(ok)]
      ensures Quiet(old(log), log) && Seen(log) == Seen(old(log))
      ensures Calm() && old(alive) ==> ok && alive && world == old(world)
    {
      var fate := Begin();
      ok := fate.Served?;
      Log(FlagsEnabled(ok));
    }

    method ExecRebalance() returns (ok: bool)
      requires Ok() && Outstanding(log).Some? && Seen(log).ready && !Seen(log).recent
      modifies this
      ensures Ok() && Waited() && Called(ok) && log == old(log) + [Rebalanced(ok)]
      ensures Quiet(old(log), log) && Seen(log) == Seen(old(log))
      ensures Calm() && old(alive) ==> ok && alive && world == old(world)
    {
      var fate := Begin();
      ok := fate.Served?;
      Log(Rebalanced(ok));
    }

    /** `CreateOrUpdate` of an object that is not modelled any further. */
    method ApplyOther(b: Builder, ghost spec: Spec) returns (ok: bool)
      requires Ok() && !Marks(b) && !StageOf(log, b).Changed?
      modifies this
      ensures world == Others() && (if CarriedOut(true) then StageOf(log, b) == Settled(MadeFrom(spec)) else log == old(log))
      ensures Ok() && Waited() && Called(ok) && QuietBut(old(log), log, b)
      ensures ok ==> StageOf(log, b) == Settled(MadeFrom(spec))
      ensures Calm() && old(alive) ==> ok && alive && world == old(world)
    {
      hide InterfereAll, Rules, Tie, Milestones, StageOf, Seen, SeenRestart, Outstanding, Observed, LastRestart, Less, Text, Seconds;
      var fate := Begin();
      ok := fate.Served?;
      if TakesEffect(fate) {
        Log(Applied(b, MadeFrom(spec), world.clock, false));
      }
    }

    method CallOther() returns (ok: bool)
      requires Ok()
      modifies this`turn, this`alive, this`world
      ensures Ok() && Waited() && Called(ok)
      ensures Calm() && old(alive) ==> ok && alive && world == old(world)
    {
      var fate := Begin();
      ok := fate.Served?;
    }

    method StartPass()
      requires Ok()
      modifies this`alive, this`log
      ensures Ok() && log == old(log) + [PassStarted] && Milestones(log) == [] && NothingPending(log)
      ensures alive
    {
      alive := true;
      Note(PassStarted);
    }
  }

  function ReadOf(s: StatefulSet): Event {
    StsRead(s.ready, s.replicas, s.rolling, s.createdAt.Some?, s.lastRestart)
  }

  /** How the server answers an update: the object must be there, in the version that was read. */
  function Verdict<T>(fate: Fate, found: bool, current: bool, value: T): Result<T> {
    if !fate.Served? then Failure(Unavailable)
    else if !found then Failure(NotFound)
    else if !current then Failure(Conflict)
    else Success(value)
  }

  function Answer<T>(fate: Fate, value: T): Result<T> {
    if fate.Served? then Success(value) else Failure(Unavailable)
  }
}
