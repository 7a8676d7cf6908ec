/** What happens when a cluster is deleted: its pods are labelled so that they skip the checks of
    their pre-stop hook, its StatefulSet is deleted, and its finalizer is removed. Others may delete
    and re-create a StatefulSet of the same name, and pods of the same names, at any time. */
module Deletion {
  import opened Kubernetes

  /** `owner` is the UID in the controller reference, if there is one. */
  datatype StatefulSet = StatefulSet(uid: nat, owner: Option<nat>)

  datatype Pod = Pod(uid: nat, version: nat, labelled: bool)

  /** `past` holds every incarnation there has been, since a cached read may return an old one. */
  datatype World = World(sts: Option<StatefulSet>, past: seq<StatefulSet>, pods: map<string, Pod>, serial: nat, finalizer: bool)

  datatype Outside = StartSts(owner: Option<nat>) | RemoveSts | StartPod(name: string) | RemovePod(name: string) | TouchPod(name: string)

  function Interfere(w: World, a: Outside): World {
    var n := w.serial + 1;
    match a
    case StartSts(owner) =>
      if w.sts.Some? then w
      else w.(serial := n, sts := Some(StatefulSet(n, owner)), past := w.past + [StatefulSet(n, owner)])
    case RemoveSts => w.(sts := None)
    case StartPod(name) => if name in w.pods then w else w.(serial := n, pods := w.pods[name := Pod(n, n, false)])
    case RemovePod(name) => w.(pods := w.pods - {name})
    case TouchPod(name) => if name in w.pods then w.(serial := n, pods := w.pods[name := w.pods[name].(version := n)]) else w
  }

  function InterfereAll(w: World, others: seq<Outside>): World {
    if others == [] then w else Interfere(InterfereAll(w, others[..|others| - 1]), others[|others| - 1])
  }

  type Pods = map<string, Pod>

  /** The collections of pods there have been meanwhile. */
  function Collections(w: World, others: seq<Outside>): seq<Pods> {
    if others == [] then [] else Collections(w, others[..|others| - 1]) + [InterfereAll(w, others).pods]
  }

  lemma OneMoreInterferes(w: World, others: seq<Outside>, i: nat)
    requires i < |others|
    ensures var w' := Interfere(InterfereAll(w, others[..i]), others[i]);
            && InterfereAll(w, others[..i + 1]) == w'
            && Collections(w, others[..i + 1]) == Collections(w, others[..i]) + [w'.pods]
  {
    assert others[..i + 1][..i] == others[..i];
  }

  ghost predicate Sound(w: World) {
    && (forall s <- w.past :: s.uid <= w.serial)
    && (forall s <- w.past, t <- w.past :: s.uid == t.uid ==> s == t)
    && (w.sts.Some? ==> w.sts.value in w.past)
    && (forall n <- w.pods :: w.pods[n].uid <= w.serial && w.pods[n].version <= w.serial)
  }

  /** The pod that was listed under this name as `p` has the label, or is no longer there. */
  predicate LabelledOrGone(name: string, p: Pod, pods: map<string, Pod>) {
    name in pods && pods[name].uid == p.uid ==> pods[name].labelled
  }

  /** The stored pod is not a different one under the version of the listed pod. */
  predicate PodHeld(name: string, p: Pod, w: World) {
    && p.version <= w.serial && p.uid <= w.serial
    && (name in w.pods && w.pods[name].version == p.version ==> w.pods[name] == p)
  }

  ghost predicate Rely(w: World, w': World) {
    && w.serial <= w'.serial
    && (w'.sts.Some? ==> w'.sts == w.sts || w'.sts.value.uid > w.serial)
    && (forall s <- w.past :: s in w'.past)
    && (forall n: string, p: Pod {:trigger PodHeld(n, p, w')} :: PodHeld(n, p, w) ==> PodHeld(n, p, w'))
    && (forall n: string, p: Pod {:trigger LabelledOrGone(n, p, w'.pods)} ::
          p.uid <= w.serial && LabelledOrGone(n, p, w.pods) ==> LabelledOrGone(n, p, w'.pods))
  }

  lemma InterferenceStep(w: World, a: Outside)
    requires Sound(w)
    ensures Sound(Interfere(w, a)) && Rely(w, Interfere(w, a))
    ensures Interfere(w, a).finalizer == w.finalizer && w.serial <= Interfere(w, a).serial
  {
  }

  lemma RelySelf(w: World)
    ensures Rely(w, w)
  {
  }

  lemma RelyTransitive(w: World, w': World, w'': World)
    requires Rely(w, w') && Rely(w', w'')
    ensures Rely(w, w'')
  {
  }

  function Labelled(w: World, name: string, p: Pod): World {
    var v := w.serial + 1;
    w.(serial := v, pods := w.pods[name := p.(version := v, labelled := true)])
  }

  lemma LabellingStep(w: World, name: string, p: Pod)
    requires Sound(w) && name in w.pods && w.pods[name] == p
    ensures Sound(Labelled(w, name, p)) && Rely(w, Labelled(w, name, p))
  {
  }

  type Listing = seq<(string, Pod)>

  /** What the operator did and saw. `Deleted` also records the pods there were at that moment. */
  datatype Event =
    | StsRead(sts: StatefulSet)
    | PodsListed(found: Listing)
    | PodUpdated
    | Deleted(sts: StatefulSet, listing: Listing, pods: map<string, Pod>)

  /** The log ends with one attempt on behalf of the cluster `me`: the read of the StatefulSet `s`
      controlled by it, a listing of the pods, and one update of each. */
  ghost predicate Attempted(log: seq<Event>, me: nat, s: StatefulSet, listing: Listing) {
    var k := |log| - |listing|;
    && k >= 2 && log[k - 2] == StsRead(s) && s.owner == Some(me) && log[k - 1] == PodsListed(listing)
    && forall i | k <= i < |log| :: log[i] == PodUpdated
  }

  ghost predicate Allowed(log: seq<Event>, e: Event, me: nat) {
    e.Deleted? ==>
      && Attempted(log, me, e.sts, e.listing)
      && forall p <- e.listing :: LabelledOrGone(p.0, p.1, e.pods)
  }

  ghost predicate Rules(log: seq<Event>, me: nat) {
    log == [] || (var k := |log| - 1; Rules(log[..k], me) && Allowed(log[..k], log[k], me))
  }

  /** Whatever StatefulSets of this name come and go, the operator deletes only one that this cluster
      controls; and at that moment each pod it has listed since it read the StatefulSet carries
      the label or is gone. */
  lemma {:induction false} DeletesOnlyItsOwn(log: seq<Event>, me: nat, k: nat)
    requires Rules(log, me) && k < |log| && log[k].Deleted?
    ensures log[k].sts.owner == Some(me)
    ensures var n := |log[k].listing|;
            n + 2 <= k && log[k - n - 2] == StsRead(log[k].sts) && log[k - n - 1] == PodsListed(log[k].listing)
    ensures forall p <- log[k].listing :: LabelledOrGone(p.0, p.1, log[k].pods)
  {
    var n := |log| - 1;
    if k < n {
      DeletesOnlyItsOwn(log[..n], me, k);
    }
  }

  /** Each attempt at deletion begins with a read of the StatefulSet. */
  ghost function Attempts(log: seq<Event>): nat {
    if log == [] then 0 else Attempts(log[..|log| - 1]) + if log[|log| - 1].StsRead? then 1 else 0
  }

  /** `cached`: which of the past incarnations of the StatefulSet, or which of the past collections of
      pods, a cached read returns, if not the current one. */
  datatype Turn = Turn(others: seq<Outside>, fate: Fate, cached: Option<nat>)

  /** The listing holds each of these pods once, and no other. */
  ghost predicate Lists(listing: Listing, pods: Pods) {
    && (forall p <- listing :: p.0 in pods && pods[p.0] == p.1)
    && (forall n <- pods :: (n, pods[n]) in listing)
    && (forall i, j | 0 <= i < j < |listing| :: listing[i].0 != listing[j].0)
  }

  /** The pods in an order nobody controls. */
  method Listed(pods: Pods) returns (listing: Listing)
    ensures Lists(listing, pods)
  {
    listing := [];
    var rest := pods.Keys;
    while rest != {}
      invariant rest <= pods.Keys
      invariant forall p <- listing :: p.0 in pods && p.1 == pods[p.0]
      invariant forall n <- pods :: n in rest || (n, pods[n]) in listing
      invariant forall p <- listing :: p.0 !in rest
      invariant forall i, j | 0 <= i < j < |listing| :: listing[i].0 != listing[j].0
      decreases rest
    {
      var n :| n in rest;
      ghost var before := listing;
      listing := listing + [(n, pods[n])];
      assert forall p <- before :: p in listing;
      assert (n, pods[n]) in listing;
      rest := rest - {n};
    }
  }

  ghost predicate AllHeld(snapshots: seq<Pods>, w: World) {
    forall k, n | 0 <= k < |snapshots| && n in snapshots[k] :: PodHeld(n, snapshots[k][n], w)
  }

  lemma StillHeld(snapshots: seq<Pods>, w: World, w': World)
    requires AllHeld(snapshots, w) && Rely(w, w') && Sound(w')
    ensures AllHeld(snapshots + [w'.pods], w')
  {
    forall k, n | 0 <= k < |snapshots| && n in snapshots[k] ensures PodHeld(n, snapshots[k][n], w') {
      assert PodHeld(n, snapshots[k][n], w);
    }
  }

  class Server {
    const me: nat
    const schedule: nat -> Turn
    var turn: nat
    var alive: bool
    var world: World
    var snapshots: seq<Pods>
    ghost var log: seq<Event>

    constructor (me: nat, schedule: nat -> Turn, world: World)
      requires Sound(world)
      ensures this.me == me && this.schedule == schedule && this.world == world && log == [] && Ok()
    {
      this.me, this.schedule, this.world := me, schedule, world;
      turn, alive, log, snapshots := 0, true, [], [];
    }

    ghost predicate Ok()
      reads this
    {
      Sound(world) && Rules(log, me) && AllHeld(snapshots, world)
    }

    /** Nobody interferes, reads are up to date, and every call is served. */
    ghost predicate Calm() {
      forall t: nat :: schedule(t) == Turn([], Served, None)
    }

    /** The finalizer stays, and new objects get new UIDs. */
    twostate predicate Onward()
      reads this
    {
      world.finalizer == old(world.finalizer) && old(world.serial) <= world.serial
    }

    method Begin() returns (now: Turn)
      requires Ok()
      modifies this`turn, this`alive, this`world, this`snapshots
      ensures Ok() && Rely(old(world), world) && Onward()
      ensures Calm() && old(alive) ==> now.fate == Served && now.cached == None && alive && world == old(world)
      ensures if old(alive) then now == schedule(old(turn)) && world == InterfereAll(old(world), now.others) else now.fate == Crashed(false)
      ensures snapshots == old(snapshots) + if old(alive) then Collections(old(world), now.others) else []
    {
      if !alive {
        return Turn([], Crashed(false), None);
      }
      now := schedule(turn);
      assert InterfereAll(world, []) == world && Collections(world, []) == [];
      hide InterfereAll, Collections, Interfere, Sound, Rely, Rules, AllHeld;
      RelySelf(world);
      for i := 0 to |now.others|
        invariant Ok() && Rely(old(world), world) && Onward()
        invariant Calm() ==> world == old(world)
        invariant world == InterfereAll(old(world), now.others[..i])
        invariant snapshots == old(snapshots) + Collections(old(world), now.others[..i])
      {
        ghost var w := world;
        InterferenceStep(w, now.others[i]);
        OneMoreInterferes(old(world), now.others, i);
        RelyTransitive(old(world), w, Interfere(w, now.others[i]));
        world := Interfere(world, now.others[i]);
        StillHeld(snapshots, w, world);
        snapshots := snapshots + [world.pods];
      }
      assert now.others[..|now.others|] == now.others;
      turn, alive := turn + 1, !now.fate.Crashed?;
    }

    ghost method Note(e: Event)
      requires Ok() && Allowed(log, e, me)
      modifies this`log
      ensures Ok() && log == old(log) + [e] && Attempts(log) == Attempts(old(log)) + if e.StsRead? then 1 else 0
    {
      assert (log + [e])[..|log|] == log;
      log := log + [e];
    }

    /** A read through the cache, which may be behind. */
    method GetSts() returns (r: Result<StatefulSet>)
      requires Ok()
      modifies this
      ensures Ok() && Onward()
      ensures r.Success? ==> r.value in world.past && log == old(log) + [StsRead(r.value)]
      ensures r.Failure? ==> log == old(log) && r.error != Conflict
      ensures Attempts(log) == Attempts(old(log)) + if r.Success? then 1 else 0
      ensures r == Failure(Unavailable) <==> !(old(alive) && schedule(old(turn)).fate.Served?)
      ensures r.Success? ==>
        var cached := schedule(old(turn)).cached;
        if cached.Some? && cached.value < |world.past| then r.value == world.past[cached.value] else world.sts == Some(r.value)
      ensures Calm() && old(alive) ==>
        alive && world == old(world) && r == if world.sts.Some? then Success(world.sts.value) else Failure(NotFound)
    {
      var now := Begin();
      if !now.fate.Served? {
        return Failure(Unavailable);
      }
      if now.cached.Some? && now.cached.value < |world.past| {
        r := Success(world.past[now.cached.value]);
      } else if world.sts.Some? {
        r := Success(world.sts.value);
      } else {
        return Failure(NotFound);
      }
      Note(StsRead(r.value));
    }

    /** A listing through the cache: that of some moment, not necessarily of now. */
    method ListPods() returns (r: Result<Listing>)
      requires Ok()
      modifies this
      ensures Ok() && Onward() && (forall s <- old(world.past) :: s in world.past)
      ensures r.Success? ==> log == old(log) + [PodsListed(r.value)]
      ensures r.Success? ==> forall p <- r.value :: PodHeld(p.0, p.1, world)
      ensures r.Success? ==>
        var cached := schedule(old(turn)).cached;
        Lists(r.value, if cached.Some? && cached.value < |snapshots| then snapshots[cached.value] else world.pods)
      ensures r.Failure? ==> log == old(log) && r.error == Unavailable
      ensures Attempts(log) == Attempts(old(log)) && (r.Success? <==> old(alive) && schedule(old(turn)).fate.Served?)
      ensures Calm() && old(alive) ==> alive && world == old(world) && r.Success? && Lists(r.value, world.pods)
    {
      var now := Begin();
      if !now.fate.Served? {
        return Failure(Unavailable);
      }
      var pods := if now.cached.Some? && now.cached.value < |snapshots| then snapshots[now.cached.value] else world.pods;
      var listing := Listed(pods);
      r := Success(listing);
      assert Lists(listing, pods) && (pods == world.pods || pods in snapshots);
      Note(PodsListed(listing));
    }

    /** Sets the label on the pod that was listed as `p`. */
    method LabelPod(name: string, p: Pod) returns (r: Result<()>)
      requires Ok() && PodHeld(name, p, world)
      modifies this
      ensures Ok() && Onward() && log == old(log) + [PodUpdated]
      ensures Attempts(log) == Attempts(old(log))
      ensures Rely(old(world), world)
      ensures old(alive) ==>
        var w := InterfereAll(old(world), schedule(old(turn)).others);
        if TakesEffect(schedule(old(turn)).fate) && name in w.pods && w.pods[name].version == p.version
        then world == Labelled(w, name, p) else world == w
      ensures r.Success? || r == Failure(NotFound) ==> LabelledOrGone(name, p, world.pods)
      ensures Calm() && old(alive) && name in old(world.pods) && old(world.pods)[name] == p ==>
        alive && r.Success? && world == Labelled(old(world), name, p)
    {
      hide InterfereAll, Interfere, Collections;
      var now := Begin();
      Note(PodUpdated);
      if !TakesEffect(now.fate) {
        return Failure(Unavailable);
      }
      if name !in world.pods {
        return if now.fate.Served? then Failure(NotFound) else Failure(Unavailable);
      }
      if world.pods[name].version != p.version {
        return if now.fate.Served? then Failure(Conflict) else Failure(Unavailable);
      }
      ghost var w := world;
      assert PodHeld(name, p, w);
      LabellingStep(w, name, p);
      world := Labelled(world, name, p);
      StillHeld(snapshots, w, world);
      RelyTransitive(old(world), w, world);
      r := if now.fate.Served? then Success(()) else Failure(Unavailable);
    }

    /** Deletion under the precondition that the stored object still has the UID of `s`. */
    method DeleteSts(s: StatefulSet, ghost listing: Listing) returns (r: Result<()>)
      requires Ok() && s in world.past && Attempted(log, me, s, listing)
      requires forall p <- listing :: LabelledOrGone(p.0, p.1, world.pods) && p.1.uid <= world.serial
      modifies this
      ensures Ok() && Onward()
      ensures r.Success? ==> log == old(log) + [Deleted(s, listing, world.pods)]
      ensures r.Success? || r == Failure(NotFound) ==> world.sts.None?
      ensures old(alive) ==>
        var w := InterfereAll(old(world), schedule(old(turn)).others);
        world == if TakesEffect(schedule(old(turn)).fate) && w.sts.Some? && w.sts.value.uid == s.uid then w.(sts := None) else w
      ensures Attempts(log) == Attempts(old(log))
      ensures Calm() && old(alive) && old(world.sts) == Some(s) ==> alive && r.Success? && world == old(world).(sts := None)
    {
      hide InterfereAll, Interfere, Collections, Rules, Attempted;
      var now := Begin();
      if !TakesEffect(now.fate) {
        return Failure(Unavailable);
      }
      if world.sts.None? {
        return if now.fate.Served? then Failure(NotFound) else Failure(Unavailable);
      }
      if world.sts.value.uid != s.uid {
        return if now.fate.Served? then Failure(Conflict) else Failure(Unavailable);
      }
      assert world.sts.value == s;
      Note(Deleted(world.sts.value, listing, world.pods));
      world := world.(sts := None);
      r := if now.fate.Served? then Success(()) else Failure(Unavailable);
    }

    method RemoveFinalizer() returns (r: Result<()>)
      requires Ok()
      modifies this`turn, this`alive, this`world, this`snapshots
      ensures Ok()
      ensures r.Success? ==> !world.finalizer
      ensures world.finalizer ==> old(world.finalizer)
      ensures old(alive) ==>
        var w := InterfereAll(old(world), schedule(old(turn)).others);
        world == if TakesEffect(schedule(old(turn)).fate) then w.(finalizer := false) else w
      ensures world.sts.Some? ==> world.sts == old(world.sts) || world.sts.value.uid > old(world.serial)
      ensures Calm() && old(alive) ==> r.Success? && world == old(world).(finalizer := false)
    {
      var now := Begin();
      if TakesEffect(now.fate) {
        world := world.(finalizer := false);
      }
      r := if now.fate.Served? then Success(()) else Failure(Unavailable);
    }
  }

  predicate Owned(sts: Option<StatefulSet>, me: nat) {
    sts.Some? && sts.value.owner == Some(me)
  }

  /** The same pods, each of them carrying the label, and nothing else changed but versions. */
  ghost predicate AllLabelled(w: World, w': World) {
    && w' == w.(serial := w'.serial, pods := w'.pods) && w'.pods.Keys == w.pods.Keys
    && forall n <- w.pods :: w'.pods[n] == w.pods[n].(version := w'.pods[n].version, labelled := true)
  }

  /** The pods listed before `i` are labelled and those from there on are as they were. */
  ghost predicate PartlyLabelled(w: World, w': World, listing: Listing, i: nat)
    requires i <= |listing|
  {
    && w' == w.(serial := w'.serial, pods := w'.pods) && w'.pods.Keys == w.pods.Keys
    && (forall j | 0 <= j < i :: listing[j].0 in w.pods
          && w'.pods[listing[j].0] == w.pods[listing[j].0].(version := w'.pods[listing[j].0].version, labelled := true))
    && (forall j | i <= j < |listing| :: listing[j].0 in w.pods && w'.pods[listing[j].0] == listing[j].1)
  }

  lemma OnePodLabelled(w: World, w': World, listing: Listing, i: nat)
    requires i < |listing| && PartlyLabelled(w, w', listing, i) && listing[i].0 in w.pods && w.pods[listing[i].0] == listing[i].1
    requires forall j, k | 0 <= j < k < |listing| :: listing[j].0 != listing[k].0
    ensures PartlyLabelled(w, Labelled(w', listing[i].0, listing[i].1), listing, i + 1)
  {
  }

  lemma AllPodsLabelled(w: World, w': World, listing: Listing)
    requires PartlyLabelled(w, w', listing, |listing|)
    requires forall n <- w.pods :: (n, w.pods[n]) in listing
    ensures AllLabelled(w, w')
  {
    forall n <- w.pods ensures w'.pods[n] == w.pods[n].(version := w'.pods[n].version, labelled := true) {
      var j :| 0 <= j < |listing| && listing[j] == (n, w.pods[n]);
    }
  }

  /** `statefulSetUID`: the StatefulSet, provided this cluster is its controller. */
  method OwnStatefulSet(s: Server) returns (r: Result<StatefulSet>)
    requires s.Ok()
    modifies s
    ensures s.Ok() && s.Onward()
    ensures r.Success? ==> r.value.owner == Some(s.me) && r.value in s.world.past && s.log == old(s.log) + [StsRead(r.value)]
    ensures r.Failure? ==> r.error != Conflict
    ensures var n := Attempts(old(s.log)); n <= Attempts(s.log) <= n + 1 && (r.Success? ==> Attempts(s.log) == n + 1)
    ensures r == Failure(NotFound) ==> Attempts(s.log) == Attempts(old(s.log))
    ensures s.Calm() && old(s.alive) ==>
      && s.alive && s.world == old(s.world)
      && (r.Success? <==> Owned(s.world.sts, s.me)) && (r.Success? ==> s.world.sts == Some(r.value))
  {
    r := s.GetSts();
    if r.Success? && r.value.owner != Some(s.me) {
      r := Failure(Invalid);
    }
  }

  /** The listed pods are known, and those before `i` are labelled or gone. */
  ghost predicate LabelledSoFar(listing: Listing, i: nat, w: World)
    requires i <= |listing|
  {
    && (forall j | 0 <= j < |listing| :: PodHeld(listing[j].0, listing[j].1, w))
    && (forall j | 0 <= j < i :: LabelledOrGone(listing[j].0, listing[j].1, w.pods))
  }

  lemma OneMoreLabelled(listing: Listing, i: nat, w: World, w': World)
    requires i < |listing| && LabelledSoFar(listing, i, w) && Rely(w, w')
    requires LabelledOrGone(listing[i].0, listing[i].1, w'.pods)
    ensures LabelledSoFar(listing, i + 1, w')
  {
    forall j | 0 <= j < |listing| ensures PodHeld(listing[j].0, listing[j].1, w') {
      assert PodHeld(listing[j].0, listing[j].1, w);
    }
    forall j | 0 <= j < i ensures LabelledOrGone(listing[j].0, listing[j].1, w'.pods) {
      assert PodHeld(listing[j].0, listing[j].1, w) && LabelledOrGone(listing[j].0, listing[j].1, w.pods);
    }
  }

  /** The log ends with the reads of an attempt and the updates of `i` pods. */
  ghost predicate Updating(log: seq<Event>, sts: StatefulSet, listing: Listing, i: nat) {
    && |log| >= i + 2 && log[|log| - i - 2] == StsRead(sts) && log[|log| - i - 1] == PodsListed(listing)
    && forall j | |log| - i <= j < |log| :: log[j] == PodUpdated
  }

  lemma OneMoreUpdate(log: seq<Event>, sts: StatefulSet, listing: Listing, i: nat)
    requires Updating(log, sts, listing, i)
    ensures Updating(log + [PodUpdated], sts, listing, i + 1)
  {
  }

  /** The pods of the listing are updated in order; those that are gone are skipped. */
  method LabelListedPods(s: Server, ghost sts: StatefulSet, listing: Listing) returns (r: Result<()>)
    requires s.Ok() && sts in s.world.past && Updating(s.log, sts, listing, 0) && LabelledSoFar(listing, 0, s.world)
    modifies s
    ensures s.Ok() && s.Onward() && sts in s.world.past && Attempts(s.log) == Attempts(old(s.log))
    ensures r.Success? ==> Updating(s.log, sts, listing, |listing|) && LabelledSoFar(listing, |listing|, s.world)
    ensures r != Failure(NotFound)
    ensures s.Calm() && old(s.alive) && Lists(listing, old(s.world.pods)) ==>
      s.alive && r.Success? && PartlyLabelled(old(s.world), s.world, listing, |listing|)
  {
    hide Rules, Sound, Allowed, AllHeld;
    for i := 0 to |listing|
      invariant s.Ok() && s.Onward() && sts in s.world.past && Attempts(s.log) == Attempts(old(s.log))
      invariant Updating(s.log, sts, listing, i) && LabelledSoFar(listing, i, s.world)
      invariant s.Calm() && old(s.alive) && Lists(listing, old(s.world.pods)) ==>
        s.alive && PartlyLabelled(old(s.world), s.world, listing, i)
    {
      ghost var w, log := s.world, s.log;
      var updated := s.LabelPod(listing[i].0, listing[i].1);
      OneMoreUpdate(log, sts, listing, i);
      if s.Calm() && old(s.alive) && Lists(listing, old(s.world.pods)) {
        OnePodLabelled(old(s.world), w, listing, i);
      }
      if updated.Failure? && updated.error != NotFound {
        return updated;
      }
      OneMoreLabelled(listing, i, w, s.world);
    }
    r := Success(());
  }

  method AddDeletionLabel(s: Server, ghost sts: StatefulSet) returns (r: Result<()>, ghost listing: Listing)
    requires s.Ok() && sts in s.world.past && sts.owner == Some(s.me)
    requires s.log != [] && s.log[|s.log| - 1] == StsRead(sts)
    modifies s
    ensures s.Ok() && s.Onward() && sts in s.world.past && Attempts(s.log) == Attempts(old(s.log))
    ensures r.Success? ==> Attempted(s.log, s.me, sts, listing)
    ensures r != Failure(NotFound)
    ensures r.Success? ==> forall p <- listing :: LabelledOrGone(p.0, p.1, s.world.pods) && p.1.uid <= s.world.serial
    ensures s.Calm() && old(s.alive) ==> s.alive && r.Success? && AllLabelled(old(s.world), s.world)
  {
    hide Rules, Sound, Allowed, AllHeld;
    listing := [];
    var pods := s.ListPods();
    if pods.Failure? {
      return Failure(pods.error), listing;
    }
    listing := pods.value;
    r := LabelListedPods(s, sts, pods.value);
    if s.Calm() && old(s.alive) {
      AllPodsLabelled(old(s.world), s.world, listing);
    }
  }

  /** One attempt under `RetryOnConflict`. */
  method DeleteOwnStatefulSet(s: Server) returns (r: Result<()>)
    requires s.Ok()
    modifies s
    ensures s.Ok() && s.Onward()
    ensures r.Success? ==> s.world.sts.None?
    ensures r == Failure(NotFound) ==> Attempts(s.log) == Attempts(old(s.log))
    ensures var n := Attempts(old(s.log)); n <= Attempts(s.log) <= n + 1 && (r == Failure(Conflict) ==> Attempts(s.log) == n + 1)
    ensures s.Calm() && old(s.alive) ==>
      if Owned(old(s.world.sts), s.me) then
        s.alive && r.Success? && s.world.sts.None? && AllLabelled(old(s.world).(sts := None), s.world)
      else s.alive && r.Failure? && r.error != Conflict && s.world == old(s.world)
  {
    var sts := OwnStatefulSet(s);
    if sts.Failure? {
      return Failure(sts.error);
    }
    var labelled, listing := AddDeletionLabel(s, sts.value);
    if labelled.Failure? {
      return labelled;
    }
    r := s.DeleteSts(sts.value, listing);
    if r == Failure(NotFound) {
      r := Success(());
    }
  }

  const ATTEMPTS: nat := 5

  /** The finalizer goes even when the StatefulSet could not be deleted: that error, `logged`, is only
      logged. It is a conflict only after five attempts; and if there is none, the StatefulSet that was there
      is gone. */
  method PrepareForDeletion(s: Server) returns (r: Result<()>, ghost logged: Result<()>)
    requires s.Ok()
    modifies s
    ensures s.Ok()
    ensures r.Success? ==> !s.world.finalizer
    ensures !old(s.world.finalizer) ==> r.Success? && s.log == old(s.log)
    ensures old(s.world.finalizer) && logged.Success? ==> s.world.sts.None? || s.world.sts.value.uid > old(s.world.serial)
    ensures Attempts(s.log) <= Attempts(old(s.log)) + 5
    ensures old(s.world.finalizer) && logged == Failure(Conflict) ==> Attempts(s.log) == Attempts(old(s.log)) + 5
    ensures s.Calm() && old(s.alive && s.world.finalizer) ==>
      && r.Success?
      && (if Owned(old(s.world.sts), s.me) then AllLabelled(old(s.world).(sts := None, finalizer := false), s.world)
          else s.world == old(s.world).(finalizer := false))
  {
    logged := Success(());
    if !s.world.finalizer {
      return Success(()), logged;
    }
    for attempt := 0 to ATTEMPTS
      invariant s.Ok() && s.world.finalizer && s.world.serial >= old(s.world.serial)
      invariant logged.Success? ==> attempt == 0
      invariant Attempts(s.log) == Attempts(old(s.log)) + attempt
      invariant s.Calm() && old(s.alive) ==> attempt == 0 && s.alive && s.world == old(s.world)
    {
      var deleted := DeleteOwnStatefulSet(s);
      logged := deleted;
      if deleted != Failure(Conflict) {
        break;
      }
    }
    assert logged.Success? ==> s.world.sts.None?;
    r := s.RemoveFinalizer();
  }

  method Run(s: Server, passes: nat)
    requires s.Ok()
    modifies s
    ensures s.Ok()
    ensures forall k | 0 <= k < |s.log| && s.log[k].Deleted? ::
      s.log[k].sts.owner == Some(s.me) && forall p <- s.log[k].listing :: LabelledOrGone(p.0, p.1, s.log[k].pods)
  {
    for pass := 0 to passes
      invariant s.Ok()
    {
      s.alive := true;
      var _, _ := PrepareForDeletion(s);
    }
    forall k | 0 <= k < |s.log| && s.log[k].Deleted?
      ensures s.log[k].sts.owner == Some(s.me) && forall p <- s.log[k].listing :: LabelledOrGone(p.0, p.1, s.log[k].pods)
    {
      DeletesOnlyItsOwn(s.log, s.me, k);
    }
  }
}
