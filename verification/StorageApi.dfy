/** The API server as the storage code sees it, under an arbitrary schedule. Before every call the
    schedule lets others act, and it decides how the call ends; a run may therefore be interrupted
    at any call, before or after the call has taken effect. */
module StorageApi {
  import opened Kubernetes
  import opened StorageModel

  datatype Turn = Turn(others: seq<Outside>, fate: Fate)

  function Answer<T>(fate: Fate, value: T): Result<T> {
    match fate
    case Served => Success(value)
    case Rejected(conflict) => Failure(if conflict then Conflict else Unavailable)
    case _ => Failure(Unavailable)
  }

  /** A read never conflicts. */
  function Read<T>(fate: Fate, value: T): Result<T> {
    if fate.Served? then Success(value) else Failure(Unavailable)
  }

  class Api {
    const cluster: string
    const schedule: nat -> Turn
    ghost const initial: World
    var turn: nat
    var alive: bool
    var world: World
    ghost var trace: seq<World>

    constructor (cluster: string, schedule: nat -> Turn, world: World)
      requires Sound(world)
      ensures this.cluster == cluster && this.schedule == schedule && this.world == world
      ensures Ok() && alive && trace == [world] && initial == world
    {
      this.cluster, this.schedule, this.initial, this.world := cluster, schedule, world, world;
      turn, alive, trace := 0, true, [world];
    }

    /** The operator process starts again, or starts its next pass. */
    method Restart()
      requires Ok()
      modifies this`alive
      ensures Ok() && alive
    {
      alive := true;
    }

    /** The history is that of a lawful run of this cluster, and ends in the current state. */
    ghost predicate Ok()
      reads this
    {
      Lawful(trace) && trace[0] == initial && trace[|trace| - 1] == world && Sound(world)
    }

    /** Nobody creates PVCs meanwhile. */
    ghost predicate Undisturbed() {
      forall t: nat, n: string, c: nat :: CreatePvc(n, c) !in schedule(t).others
    }

    /** Every call is served, whatever others do meanwhile. */
    ghost predicate Reliable() {
      forall t: nat :: schedule(t).fate == Served
    }

    /** Nobody interferes, every call is served, and deletions complete before the next call. */
    ghost predicate Calm() {
      forall t: nat :: schedule(t) == Turn([FinishDeletion], Served)
    }

    /** Only others have acted. */
    twostate predicate Waited()
      reads this
    {
      && Rely(old(world), world)
      && (Undisturbed() ==> world.pvcs == old(world.pvcs))
      && (Calm() && old(alive) ==> alive && (world == old(world) || world == Finished(old(world))))
    }

    /** One call has been made, unless the operator was dead, and was answered if the schedule says so. */
    twostate predicate Called(answered: bool)
      reads this
    {
      && turn == old(turn) + (if old(alive) then 1 else 0)
      && (answered <==> old(alive) && schedule(old(turn)).fate.Served?)
      && (answered ==> alive) && (alive ==> old(alive))
    }

    /** What others have made of the objects when the call is carried out. */
    twostate function Others(): World {
      if old(alive) then InterfereAll(old(world), schedule(old(turn)).others) else old(world)
    }

    /** If the call is carried out, whether or not it is answered, and the server accepts it, it makes `w`
        of the objects, and otherwise nothing. */
    twostate predicate Leaves(accepted: bool, w: World)
      reads this
    {
      var fate := schedule(old(turn)).fate;
      world == if old(alive) && accepted && (fate.Served? || fate.Lost? || fate == Crashed(true)) then w else Others()
    }

    /** All calls made since have been answered. */
    twostate predicate Answered()
      reads this
    {
      forall t: nat | old(turn) <= t < turn :: schedule(t).fate.Served?
    }

    /** Start of a call: others act first, then the schedule decides the fate of the call. */
    method Begin() returns (fate: Fate)
      requires Ok()
      modifies this
      ensures Ok() && Waited()
      ensures Calm() && old(alive) ==> fate == Served && world == Finished(old(world))
      ensures Called(fate.Served?)
      ensures world == Others() && if old(alive) then fate == schedule(old(turn)).fate else fate == Crashed(false)
      ensures fate.Served? || fate.Rejected? || fate.Lost? ==> alive
    {
      if !alive {
        return Crashed(false);
      }
      assert InterfereAll(world, []) == world;
      hide InterfereAll, Interfere, Rely, Sound, OperatorMay;
      var now := schedule(turn);
      for i := 0 to |now.others|
        invariant Ok() && turn == old(turn) && alive && world == InterfereAll(old(world), now.others[..i])
      {
        OneMoreInterferes(old(world), now.others, i);
        var w := Interfere(world, now.others[i]);
        InterferenceStep(world, now.others[i]);
        LawfulAppend(trace, w);
        world, trace := w, trace + [w];
      }
      assert now.others[..|now.others|] == now.others;
      OthersKeep(old(world), now.others);
      turn, alive, fate := turn + 1, !now.fate.Crashed?, now.fate;
    }

    // The preconditions of the writes below are not demands of the server. They are what the
    // operator has to guarantee at every call, whatever others have done in the meantime.

    method Commit(w: World)
      requires Ok() && OperatorMay(world, w)
      modifies this`world, this`trace
      ensures Ok() && world == w
    {
      LawfulAppend(trace, w);
      EveryStateSound(trace + [w], |trace|);
      world, trace := w, trace + [w];
    }

    method GetCluster() returns (r: Result<Spec>)
      requires Ok()
      modifies this
      ensures Ok() && Waited()
      ensures r.Success? ==> r.value == world.spec
      ensures Calm() && old(alive) ==> r.Success? && world == Finished(old(world))
      ensures Called(r.Success?)
    {
      var fate := Begin();
      r := Read(fate, world.spec);
    }

    method GetSts() returns (r: Result<StatefulSet>)
      requires Ok()
      modifies this
      ensures Ok() && Waited()
      ensures r.Success? ==> world.sts == Some(r.value)
      ensures r.Failure? ==> r.error == NotFound || r.error == Unavailable
      ensures r == Failure(NotFound) ==> world.sts.None?
      ensures Calm() && old(alive) ==>
        world == Finished(old(world)) && r == if world.sts.Some? then Success(world.sts.value) else Failure(NotFound)
      ensures Called(r != Failure(Unavailable))
    {
      var fate := Begin();
      if fate.Served? && world.sts.None? {
        return Failure(NotFound);
      }
      r := if world.sts.Some? then Read(fate, world.sts.value) else Failure(Unavailable);
    }

    method GetPvc(name: string) returns (r: Result<nat>)
      requires Ok()
      modifies this
      ensures Ok() && Waited()
      ensures r.Success? ==> name in world.pvcs && r.value == world.pvcs[name]
      ensures r == Failure(NotFound) ==> name !in world.pvcs
      ensures Calm() && old(alive) ==>
        r == if name in world.pvcs then Success(world.pvcs[name]) else Failure(NotFound)
      ensures Called(r != Failure(Unavailable)) && (r.Failure? ==> r.error == NotFound || r.error == Unavailable)
    {
      var fate := Begin();
      if name in world.pvcs {
        r := Read(fate, world.pvcs[name]);
      } else {
        r := if fate.Served? then Failure(NotFound) else Failure(Unavailable);
      }
    }

    /** Deletion with orphan propagation, by name: the object goes when the garbage collector is done. */
    method DeleteSts() returns (r: Result<()>)
      requires Ok() && (world.sts.Some? ==> world.sts.value.claim.Some?)
      modifies this
      ensures var w := Others();
              Leaves(w.sts.Some?, if w.sts.Some? then w.(sts := Some(w.sts.value.(deleting := true))) else w)
      ensures Ok() && Called(r.Success? || r == Failure(NotFound)) && world.pvcs.Keys >= old(world.pvcs.Keys)
      ensures Rely(old(world), world.(sts := old(world.sts)))
      ensures world.sts.Some? ==>
        old(world.sts.Some?) && world.sts.value == old(world.sts.value).(deleting := world.sts.value.deleting)
      ensures Undisturbed() ==> world.pvcs == old(world.pvcs)
      ensures Calm() && old(alive) ==>
        && alive && Finished(world) == old(world).(sts := None)
        && (r.Success? <==> Finished(old(world)).sts.Some?)
    {
      hide InterfereAll;
      var fate := Begin();
      if world.sts.None? {
        return if fate.Served? then Failure(NotFound) else Failure(Unavailable);
      }
      if TakesEffect(fate) {
        Commit(world.(sts := Some(world.sts.value.(deleting := true))));
      }
      r := Answer(fate, ());
    }

    method UpdatePvc(name: string, capacity: nat) returns (r: Result<()>)
      requires Ok() && world.sts.None? && name in world.pvcs && world.pvcs[name] <= capacity
      modifies this
      ensures var w := Others(); Leaves(true, w.(pvcs := w.pvcs[name := capacity]))
      ensures Ok() && Called(r.Success?) && world.sts.None? && world.nextUid == old(world.nextUid)
      ensures forall n <- old(world.pvcs) ::
        n in world.pvcs && (world.pvcs[n] == old(world.pvcs)[n] || (n == name && world.pvcs[n] == capacity))
      ensures r.Success? ==> world.pvcs[name] == capacity
      ensures Undisturbed() ==> world.pvcs.Keys == old(world.pvcs.Keys)
      ensures Calm() && old(alive) ==>
        r.Success? && alive && world == old(world).(pvcs := old(world.pvcs)[name := capacity])
    {
      hide InterfereAll;
      var fate := Begin();
      if TakesEffect(fate) {
        Commit(world.(pvcs := world.pvcs[name := capacity]));
      }
      r := Answer(fate, ());
    }

    /** Creation; the server refuses an object that carries the version of an earlier one. */
    method CreateSts(s: StatefulSet, versioned: bool) returns (r: Result<()>)
      requires Ok() && WellBacked(s)
      modifies this
      ensures var w := Others();
              Leaves(w.sts.None? && !versioned, w.(sts := Some(s.(uid := w.nextUid, deleting := false)), nextUid := w.nextUid + 1))
      ensures Ok() && turn == old(turn) + (if old(alive) then 1 else 0)
      ensures Rely(old(world), world.(sts := old(world.sts), nextUid := old(world.nextUid)))
      ensures r.Success? ==> world.sts.Some? && world.sts.value == s.(uid := world.sts.value.uid, deleting := false)
      ensures r == Failure(Conflict) ==> Rely(old(world), world)
      ensures versioned ==> r.Failure? && Rely(old(world), world)
      ensures Undisturbed() ==> world.pvcs == old(world.pvcs)
      ensures Calm() && old(alive) ==>
        && alive && r != Failure(Conflict) && world.spec == old(world.spec)
        && (r.Success? <==> Finished(old(world)).sts.None? && !versioned)
        && (r.Failure? ==> world == Finished(old(world)))
      ensures r == Failure(Conflict) ==> alive && old(alive)
    {
      hide InterfereAll;
      var fate := Begin();
      if world.sts.Some? || versioned {
        return if fate.Rejected? && fate.conflict then Failure(Conflict)
               else if !fate.Served? then Failure(Unavailable)
               else if versioned then Failure(Invalid) else Failure(AlreadyExists);
      }
      if TakesEffect(fate) {
        var created := s.(uid := world.nextUid, deleting := false);
        Commit(world.(sts := Some(created), nextUid := world.nextUid + 1));
      }
      r := Answer(fate, ());
    }

    /** Update of the incarnation `s` was read from; claim templates are immutable. */
    method UpdateSts(s: StatefulSet) returns (r: Result<()>)
      requires Ok() && WellBacked(s.(claim := if world.sts.Some? then world.sts.value.claim else s.claim))
      requires world.sts.Some? && world.sts.value.uid == s.uid ==> world.sts.value.replicas <= s.replicas
      modifies this
      ensures var w := Others();
              Leaves(w.sts.Some? && w.sts.value.uid == s.uid && w.sts.value.claim == s.claim,
                     if w.sts.Some? then w.(sts := Some(w.sts.value.(replicas := s.replicas, emptyDir := s.emptyDir))) else w)
      ensures Ok() && turn == old(turn) + (if old(alive) then 1 else 0) && Rely(old(world), world.(sts := old(world.sts)))
      ensures r.Success? ==> world.sts.Some? && old(world.sts.Some?) && world.sts.value.replicas == s.replicas
                             && world.sts.value.claim == old(world.sts.value.claim) == s.claim
      ensures r == Failure(Conflict) ==> Rely(old(world), world)
      ensures Undisturbed() ==> world.pvcs == old(world.pvcs)
      ensures Calm() && old(alive) ==>
        var w := Finished(old(world));
        && alive && world.spec == old(world.spec) && (r.Failure? ==> world == w)
        && (r == Failure(Conflict) ==> w.sts.Some? && w.sts.value.uid != s.uid)
        && (r.Success? <==> w.sts.Some? && w.sts.value.uid == s.uid && w.sts.value.claim == s.claim)
      ensures r == Failure(Conflict) ==> alive && old(alive)
    {
      hide InterfereAll;
      var fate := Begin();
      if !TakesEffect(fate) {
        return Answer(fate, ());
      }
      if world.sts.None? {
        return if fate.Served? then Failure(NotFound) else Failure(Unavailable);
      }
      if world.sts.value.uid != s.uid {
        return if fate.Served? then Failure(Conflict) else Failure(Unavailable);
      }
      if world.sts.value.claim != s.claim {
        return if fate.Served? then Failure(Invalid) else Failure(Unavailable);
      }
      Commit(world.(sts := Some(world.sts.value.(replicas := s.replicas, emptyDir := s.emptyDir))));
      r := Answer(fate, ());
    }
  }
}
