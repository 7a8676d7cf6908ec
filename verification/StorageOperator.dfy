/** `PersistenceScaler` and the StatefulSet branch of a reconcile pass. */
module StorageOperator {
  import opened Kubernetes
  import opened StorageModel
  import opened StorageApi
  import Names

  datatype Pvc = Pvc(name: string, capacity: nat)

  datatype Reason = EphemeralToPersistent | Shrinking

  datatype ScaleResult = ScaleDone | Unsupported(reason: Reason) | ScaleFailed(error: ApiError)

  // ---------- PersistenceScaler ----------

  ghost predicate Lists(pvcs: seq<Pvc>, n: string) {
    exists p <- pvcs :: p.name == n
  }

  lemma ListsAppend(pvcs: seq<Pvc>, p: Pvc)
    ensures forall n | Lists(pvcs, n) :: Lists(pvcs + [p], n)
    ensures Lists(pvcs + [p], p.name)
  {
    assert p in pvcs + [p] && forall q <- pvcs :: q in pvcs + [p];
  }

  /** The PVCs of the ordinals below `replicas` that exist, with the capacity each had when read. */
  method GetClusterPVCs(api: Api, replicas: nat) returns (r: Result<seq<Pvc>>)
    requires api.Ok()
    modifies api
    ensures api.Ok() && api.Waited()
    ensures r.Success? ==>
      && (forall p <- r.value :: IsPvcOf(p.name, api.cluster, replicas) && p.name in api.world.pvcs && api.world.pvcs[p.name] == p.capacity)
      && (forall n <- old(api.world.pvcs) :: IsPvcOf(n, api.cluster, replicas) ==> Lists(r.value, n))
    ensures r.Success? ==> api.Answered() && (replicas > 0 ==> api.turn == old(api.turn) + replicas)
    ensures api.Calm() && old(api.alive) ==> r.Success?
  {
    hide InterfereAll, Interfere, Lawful, Sound;
    var pvcs: seq<Pvc> := [];
    for i := 0 to replicas
      invariant api.Ok() && api.Waited() && api.Answered() && api.turn == old(api.turn) + i
      invariant forall p <- pvcs :: IsPvcOf(p.name, api.cluster, replicas) && p.name in api.world.pvcs && api.world.pvcs[p.name] == p.capacity
      invariant forall j: nat | j < i && Names.PVCName(api.cluster, j) in old(api.world.pvcs) :: Lists(pvcs, Names.PVCName(api.cluster, j))
    {
      var name := Names.PVCName(api.cluster, i);
      var pvc := api.GetPvc(name);
      if IsOtherError(pvc) {
        return Failure(pvc.error);
      }
      if pvc.Success? {
        var found := Pvc(name, pvc.value);
        ListsAppend(pvcs, found);
        pvcs := pvcs + [found];
      }
    }
    r := Success(pvcs);
  }

  method PvcsNeedingScaling(existing: seq<Pvc>, desired: nat) returns (pvcs: seq<Pvc>)
    ensures forall p :: p in pvcs <==> p in existing && p.capacity < desired
  {
    pvcs := [];
    for i := 0 to |existing|
      invariant forall p :: p in pvcs <==> p in existing[..i] && p.capacity < desired
    {
      if existing[i].capacity < desired {
        pvcs := pvcs + [existing[i]];
      }
    }
    assert existing[..|existing|] == existing;
  }

  method ExistingCapacity(api: Api) returns (r: Result<nat>)
    requires api.Ok()
    modifies api
    ensures api.Ok() && api.Waited()
    ensures r.Success? ==> api.world.sts.Some? && match api.world.sts.value.claim case None => r.value == 0 case Some(n) => r.value == n
    ensures r == Failure(NotFound) ==> api.world.sts.None?
    ensures api.Calm() && old(api.alive) ==> api.world == Finished(old(api.world)) && !IsOtherError(r)
  {
    var sts := api.GetSts();
    r := match sts
      case Success(s) => Success(Capacity(s.claim))
      case Failure(e) => Failure(e);
  }

  const DELETE_RETRIES: nat := 10

  /** Deletes the StatefulSet but not its pods and PVCs, and waits until it is gone: that is ten more
      reads, and the deletion is given up only after all of them. */
  method DeleteStatefulSet(api: Api) returns (r: Result<()>)
    requires api.Ok() && (api.world.sts.Some? ==> api.world.sts.value.claim.Some?)
    modifies api
    ensures api.Ok()
    ensures Rely(old(api.world), api.world.(sts := old(api.world.sts)))
    ensures api.world.sts.Some? ==>
      old(api.world.sts.Some?) && api.world.sts.value == old(api.world.sts.value).(deleting := api.world.sts.value.deleting)
    ensures r.Success? ==> api.world.sts.None?
    ensures r.Success? ==> forall t: nat | old(api.turn) <= t < old(api.turn) + 2 && t < api.turn :: api.schedule(t).fate.Served?
    ensures api.Undisturbed() ==> api.world.pvcs == old(api.world.pvcs)
    ensures old(api.turn) <= api.turn <= old(api.turn) + 12
    ensures api.Reliable() && old(api.alive) && r == Failure(Unavailable) ==> api.turn == old(api.turn) + 12
    ensures api.Calm() && old(api.alive) ==> r.Success? && api.alive && api.world == old(api.world).(sts := None)
  {
    var sts := api.GetSts();
    if IsOtherError(sts) {
      return Failure(sts.error);
    }
    if sts == Failure(NotFound) {
      return Success(());
    }
    var deleted := api.DeleteSts();
    if deleted.Failure? {
      return Failure(deleted.error);
    }
    for i := 0 to DELETE_RETRIES
      invariant api.Ok()
      invariant old(api.turn) <= api.turn <= old(api.turn) + 2 + i
      invariant api.schedule(old(api.turn)).fate.Served? && api.schedule(old(api.turn) + 1).fate.Served?
      invariant api.Reliable() && old(api.alive) ==> api.alive && api.turn == old(api.turn) + 2 + i
      invariant Rely(old(api.world), api.world.(sts := old(api.world.sts)))
      invariant api.world.sts.Some? ==>
        old(api.world.sts.Some?) && api.world.sts.value == old(api.world.sts.value).(deleting := api.world.sts.value.deleting)
      invariant api.Undisturbed() ==> api.world.pvcs == old(api.world.pvcs)
      invariant api.Calm() && old(api.alive) ==> i == 0 && api.alive && Finished(api.world) == old(api.world).(sts := None)
    {
      var gone := api.GetSts();
      if gone == Failure(NotFound) {
        return Success(());
      }
    }
    r := Failure(Unavailable);
  }

  method ScaleUpPVC(api: Api, name: string, desired: nat) returns (r: Result<()>)
    requires api.Ok() && api.world.sts.None? && name in api.world.pvcs && api.world.pvcs[name] <= desired
    modifies api
    ensures api.Ok() && api.world.sts.None? && api.world.nextUid == old(api.world.nextUid)
    ensures forall n <- old(api.world.pvcs) ::
      n in api.world.pvcs && (api.world.pvcs[n] == old(api.world.pvcs)[n] || (n == name && api.world.pvcs[n] == desired))
    ensures r.Success? ==>
      && api.world.pvcs[name] == desired && api.turn == old(api.turn) + 2
      && api.schedule(old(api.turn)).fate.Served? && api.schedule(old(api.turn) + 1).fate.Served?
    ensures api.Undisturbed() ==> api.world.pvcs.Keys == old(api.world.pvcs.Keys)
    ensures api.Calm() && old(api.alive) ==> r.Success? && api.alive && api.world.spec == old(api.world.spec)
  {
    var latest := api.GetPvc(name);
    if latest.Failure? {
      return Failure(latest.error);
    }
    r := api.UpdatePvc(name, desired);
  }

  /** Writes the desired capacity to each of the PVCs that were found too small. */
  method ScaleUpPVCs(api: Api, pvcs: seq<Pvc>, desired: nat) returns (r: Result<()>)
    requires api.Ok() && api.world.sts.None?
    requires forall p <- pvcs :: p.name in api.world.pvcs && api.world.pvcs[p.name] <= desired
    modifies api
    ensures api.Ok() && api.world.sts.None? && api.world.nextUid == old(api.world.nextUid)
    ensures forall n <- old(api.world.pvcs) ::
      n in api.world.pvcs &&
      (api.world.pvcs[n] == old(api.world.pvcs)[n] || (api.world.pvcs[n] == desired && Lists(pvcs, n)))
    ensures r.Success? ==> forall p <- pvcs :: api.world.pvcs[p.name] == desired
    ensures r.Success? ==> api.Answered() && api.turn == old(api.turn) + 2 * |pvcs|
    ensures api.Undisturbed() ==> api.world.pvcs.Keys == old(api.world.pvcs.Keys)
    ensures api.Calm() && old(api.alive) ==> r.Success? && api.alive && api.world.spec == old(api.world.spec)
  {
    for k := 0 to |pvcs|
      invariant api.Ok() && api.world.sts.None? && api.world.nextUid == old(api.world.nextUid)
      invariant api.Answered() && api.turn == old(api.turn) + 2 * k
      invariant forall n <- old(api.world.pvcs) ::
        n in api.world.pvcs &&
        (api.world.pvcs[n] == old(api.world.pvcs)[n] || (api.world.pvcs[n] == desired && Lists(pvcs, n)))
      invariant forall p <- pvcs :: p.name in api.world.pvcs && api.world.pvcs[p.name] <= desired
      invariant forall j | 0 <= j < k :: api.world.pvcs[pvcs[j].name] == desired
      invariant api.Undisturbed() ==> api.world.pvcs.Keys == old(api.world.pvcs.Keys)
      invariant api.Calm() && old(api.alive) ==> api.alive && api.world.spec == old(api.world.spec)
    {
      r := ScaleUpPVC(api, pvcs[k].name, desired);
      if r.Failure? {
        return;
      }
    }
    r := Success(());
  }

  /** Whether the guards of `Scale` let a StatefulSet with this claim be brought to `desired`. */
  predicate Supported(claim: Option<nat>, desired: nat) {
    !(Ephemeral(claim) && desired > 0) && !Shrinks(claim, desired)
  }

  predicate Ephemeral(claim: Option<nat>) {
    claim == None || claim == Some(0)
  }

  predicate Shrinks(claim: Option<nat>, desired: nat) {
    claim.Some? && claim.value > desired
  }

  /** What scaling may have done to the StatefulSet: nothing, asked for its deletion, or lost it. */
  ghost predicate KeptOrGoing(before: Option<StatefulSet>, now: Option<StatefulSet>) {
    now.Some? ==> before.Some? && now.value == before.value.(deleting := now.value.deleting)
  }

  /** The second half of `Scale`: nothing if no listed PVC is too small, and otherwise the deletion of
      the StatefulSet followed by the resizing. */
  method ResizeTooSmall(api: Api, listed: seq<Pvc>, desired: nat) returns (r: Result<()>)
    requires api.Ok()
    requires forall p <- listed :: p.name in api.world.pvcs && api.world.pvcs[p.name] == p.capacity
    requires api.world.sts.Some? && desired > 0 ==> api.world.sts.value.claim.Some?
    modifies api
    ensures api.Ok() && api.world.nextUid == old(api.world.nextUid)
    ensures KeptOrGoing(old(api.world.sts), api.world.sts)
    ensures forall n <- old(api.world.pvcs) ::
      n in api.world.pvcs &&
      (api.world.pvcs[n] == old(api.world.pvcs)[n]
       || (api.world.pvcs[n] == desired && exists p <- listed :: p.name == n && p.capacity < desired))
    ensures r.Success? ==> forall p <- listed | p.capacity < desired :: api.world.pvcs[p.name] == desired
    ensures api.Undisturbed() ==> api.world.pvcs.Keys == old(api.world.pvcs.Keys)
    ensures api.Calm() && old(api.alive) ==> r.Success? && api.alive && api.world.spec == old(api.world.spec)
    ensures api.Calm() && old(api.alive) && (exists p <- listed :: p.capacity < desired) ==> api.world.sts.None?
    ensures (forall p <- listed :: p.capacity >= desired) ==> api.world == old(api.world) && api.alive == old(api.alive)
  {
    var small := PvcsNeedingScaling(listed, desired);
    if |small| == 0 {
      return Success(());
    }
    assert small[0] in small;
    var deleted := DeleteStatefulSet(api);
    if deleted.Failure? {
      return Failure(deleted.error);
    }
    r := ScaleUpPVCs(api, small, desired);
  }

  /** The PVCs `mid` were listed, and since then only the too small ones among those listed were set
      to `desired`; so much is known of the PVCs `before` that existed when scaling began. */
  lemma ResizedFromList(before: map<string, nat>, mid: map<string, nat>, now: map<string, nat>, listed: seq<Pvc>,
                        cluster: string, replicas: nat, desired: nat)
    requires forall n <- before :: n in mid && mid[n] == before[n]
    requires forall p <- listed :: IsPvcOf(p.name, cluster, replicas) && p.name in mid && mid[p.name] == p.capacity
    requires forall n <- before :: IsPvcOf(n, cluster, replicas) ==> Lists(listed, n)
    requires forall n <- mid ::
      n in now && (now[n] == mid[n] || (now[n] == desired && exists p <- listed :: p.name == n && p.capacity < desired))
    ensures Partly(before, now, cluster, replicas, desired)
    ensures (forall p <- listed | p.capacity < desired :: now[p.name] == desired) ==> Fully(before, now, cluster, replicas, desired)
    ensures NeedsScaling(before, cluster, replicas, desired) ==> exists p <- listed :: p.capacity < desired
    ensures before == mid && (exists p <- listed :: p.capacity < desired) ==> NeedsScaling(before, cluster, replicas, desired)
  {
  }

  /** The guards of `Scale`. Both are skipped when there is no StatefulSet. */
  method CheckSupported(api: Api, desired: nat) returns (r: ScaleResult)
    requires api.Ok()
    modifies api
    ensures api.Ok() && api.Waited()
    ensures r.ScaleDone? && api.world.sts.Some? ==> Supported(api.world.sts.value.claim, desired)
    ensures r == Unsupported(EphemeralToPersistent) ==> api.world.sts.Some? && Ephemeral(api.world.sts.value.claim) && desired > 0
    ensures r == Unsupported(Shrinking) ==> api.world.sts.Some? && Shrinks(api.world.sts.value.claim, desired)
    ensures api.Calm() && old(api.alive) ==>
      && api.world == Finished(old(api.world))
      && (r.ScaleDone? <==> api.world.sts.None? || Supported(api.world.sts.value.claim, desired))
  {
    var existing := ExistingCapacity(api);
    if IsOtherError(existing) {
      return ScaleFailed(existing.error);
    }
    if existing.Success? && existing.value == 0 && desired != 0 {
      return Unsupported(EphemeralToPersistent);
    }
    if existing.Success? && existing.value > desired {
      return Unsupported(Shrinking);
    }
    r := ScaleDone;
  }

  method Scale(api: Api, replicas: nat, desired: nat) returns (r: ScaleResult)
    requires api.Ok()
    modifies api
    ensures api.Ok() && api.world.nextUid == old(api.world.nextUid)
    ensures KeptOrGoing(old(api.world.sts), api.world.sts)
    ensures Partly(old(api.world.pvcs), api.world.pvcs, api.cluster, replicas, desired)
    ensures r.ScaleDone? ==> Fully(old(api.world.pvcs), api.world.pvcs, api.cluster, replicas, desired)
    ensures r.ScaleDone? && api.world.sts.Some? ==> Supported(api.world.sts.value.claim, desired)
    ensures r == Unsupported(EphemeralToPersistent) ==>
      old(api.world.sts.Some?) && Ephemeral(old(api.world.sts.value.claim)) && desired > 0
    ensures r == Unsupported(Shrinking) ==> old(api.world.sts.Some?) && Shrinks(old(api.world.sts.value.claim), desired)
    ensures api.Undisturbed() ==> api.world.pvcs.Keys == old(api.world.pvcs.Keys)
    ensures api.Calm() && old(api.alive) ==>
      var sts := Finished(old(api.world)).sts;
      && api.alive && api.world.spec == old(api.world.spec)
      && (r.ScaleDone? <==> sts.None? || Supported(sts.value.claim, desired))
      && (r.ScaleDone? && NeedsScaling(old(api.world.pvcs), api.cluster, replicas, desired) ==> api.world.sts.None?)
      && (!r.ScaleDone? || !NeedsScaling(old(api.world.pvcs), api.cluster, replicas, desired) ==> api.world == Finished(old(api.world)))
  {
    r := CheckSupported(api, desired);
    if !r.ScaleDone? {
      return;
    }
    var pvcs := GetClusterPVCs(api, replicas);
    if pvcs.Failure? {
      return ScaleFailed(pvcs.error);
    }
    ghost var mid := api.world.pvcs;
    var resized := ResizeTooSmall(api, pvcs.value, desired);
    ResizedFromList(old(api.world.pvcs), mid, api.world.pvcs, pvcs.value, api.cluster, replicas, desired);
    r := if resized.Success? then ScaleDone else ScaleFailed(resized.error);
  }

  /** Scaling, started again with the same desired capacity after each interruption. Once an attempt
      finishes, the PVCs are those of one uninterrupted scaling, whatever the earlier attempts did. */
  method ScaleUntilDone(api: Api, replicas: nat, desired: nat, attempts: nat) returns (done: bool)
    requires api.Ok()
    modifies api
    ensures api.Ok()
    ensures Partly(old(api.world.pvcs), api.world.pvcs, api.cluster, replicas, desired)
    ensures done ==> Fully(old(api.world.pvcs), api.world.pvcs, api.cluster, replicas, desired)
    ensures api.Calm() && attempts > 0 ==>
      var sts := Finished(old(api.world)).sts; done <==> sts.None? || Supported(sts.value.claim, desired)
    ensures done && api.Undisturbed() ==> api.world.pvcs == Scaled(old(api.world.pvcs), api.cluster, replicas, desired)
  {
    done := false;
    for i := 0 to attempts
      invariant api.Ok() && !done
      invariant Partly(old(api.world.pvcs), api.world.pvcs, api.cluster, replicas, desired)
      invariant api.Undisturbed() ==> api.world.pvcs.Keys == old(api.world.pvcs.Keys)
      invariant i == 0 ==> api.world == old(api.world)
      invariant api.Calm() && i > 0 ==>
        var sts := Finished(old(api.world)).sts;
        api.world == Finished(old(api.world)) && sts.Some? && !Supported(sts.value.claim, desired)
    {
      ghost var part := api.world.pvcs;
      api.Restart();
      var r := Scale(api, replicas, desired);
      PartlyThenFully(old(api.world.pvcs), part, api.world.pvcs, api.cluster, replicas, desired);
      if r.ScaleDone? {
        return true;
      }
    }
  }

  // ---------- the StatefulSet branch of Reconcile ----------

  /** `StatefulSetBuilder.Build` */
  function Build(spec: Spec): StatefulSet {
    StatefulSet(0, 1, WantedClaim(spec), false, false)
  }

  /** `StatefulSetBuilder.Update`: replicas, the capacity of the claim template if there is one, and
      the emptyDir volume, each decided on its own. */
  function Update(s: StatefulSet, spec: Spec): StatefulSet {
    s.(replicas := DesiredReplicas(spec),
       claim := if s.claim.Some? then Some(spec.storage) else None,
       emptyDir := spec.storage == 0)
  }

  /** The StatefulSet, if there is one, can be brought to `spec` without losing replicas and
      without changing what backs its storage. */
  ghost predicate Fits(sts: Option<StatefulSet>, spec: Spec) {
    sts.Some? ==> sts.value.replicas <= DesiredReplicas(spec) && (sts.value.claim.None? <==> spec.storage == 0)
  }

  const CONFLICT_ATTEMPTS: nat := 5

  /** `CreateOrUpdate` under `RetryOnConflict`. An attempt that finds no StatefulSet after an earlier
      one has found it submits an object that still carries a version, which the server refuses. A
      conflict is reported only after five attempts of two calls each. */
  method CreateOrUpdate(api: Api, spec: Spec) returns (r: Result<()>)
    requires api.Ok() && Fits(api.world.sts, spec)
    modifies api
    ensures api.Ok() && forall n <- old(api.world.pvcs) :: n in api.world.pvcs && api.world.pvcs[n] == old(api.world.pvcs)[n]
    ensures r.Success? ==> api.world.sts.Some?
                           && api.world.sts.value.claim == WantedClaim(spec) && api.world.sts.value.replicas == DesiredReplicas(spec)
    ensures r.Success? ==> AsAsked(api.world.sts.value, spec)
    ensures r == Failure(Conflict) ==> api.turn == old(api.turn) + 10
    ensures !api.schedule(old(api.turn)).fate.Served? ==> api.turn <= old(api.turn) + 1
    ensures api.Undisturbed() ==> api.world.pvcs == old(api.world.pvcs)
    ensures api.Calm() && old(api.alive) ==>
      var sts := Finished(old(api.world)).sts;
      && api.alive && api.world.spec == old(api.world.spec)
      && (r.Success? <==> sts.None? || sts.value.claim == WantedClaim(spec))
      && (r.Failure? ==> api.world == Finished(old(api.world)))
      && (sts.Some? && AsAsked(sts.value, spec) ==> api.turn == old(api.turn) + 1)
  {
    var fetched := false;
    for attempt := 0 to CONFLICT_ATTEMPTS
      invariant api.Ok() && Rely(old(api.world), api.world)
      invariant api.Undisturbed() ==> api.world.pvcs == old(api.world.pvcs)
      invariant api.Calm() && old(api.alive) ==> attempt == 0
      invariant api.turn == old(api.turn) + 2 * attempt && (attempt > 0 ==> api.alive)
      invariant attempt > 0 ==> api.schedule(old(api.turn)).fate.Served?
      invariant attempt == 0 ==> !fetched && api.world == old(api.world) && api.alive == old(api.alive)
    {
      var current := api.GetSts();
      if IsOtherError(current) {
        return Failure(current.error);
      }
      if current.Failure? {
        r := api.CreateSts(Update(Build(spec), spec), fetched);
      } else {
        fetched := true;
        var updated := Update(current.value, spec);
        if updated == current.value {
          return Success(());
        }
        r := api.UpdateSts(updated);
      }
      if r != Failure(Conflict) {
        return;
      }
    }
    r := Failure(Conflict);
  }

  datatype PassResult = PassDone | ScaleDownRefused | PassFailed

  /** The round of the builder loop for the StatefulSet, in a pass that works on `rmq`. */
  method ReconcileStatefulSet(api: Api, rmq: Spec) returns (r: PassResult)
    requires api.Ok()
    modifies api
    ensures api.Ok()
    ensures Partly(old(api.world.pvcs), api.world.pvcs, api.cluster, rmq.replicas, rmq.storage)
    ensures r.PassDone? ==>
      && Fully(old(api.world.pvcs), api.world.pvcs, api.cluster, rmq.replicas, rmq.storage)
      && api.world.sts.Some? && api.world.sts.value.claim == WantedClaim(rmq)
      && api.world.sts.value.replicas == DesiredReplicas(rmq) && AsAsked(api.world.sts.value, rmq)
    ensures r.ScaleDownRefused? ==>
      && old(api.world.sts.Some?) && old(api.world.sts.value.replicas) > DesiredReplicas(rmq)
      && Rely(old(api.world), api.world)
    ensures api.Calm() && old(api.alive) && rmq == old(api.world.spec) ==>
      && rmq == api.world.spec && api.alive
      && (r.PassDone? <==> Converges(Finished(old(api.world)), api.cluster))
      && (!r.PassDone? ==> api.world == Finished(old(api.world)))
  {
    hide Lawful, InterfereAll, NeedsScaling, IsPvcOf, Target, Interfere;
    var sts := Build(rmq);
    var current := api.GetSts();
    if IsOtherError(current) {
      return PassFailed;
    }
    if current.Success? {
      sts := Update(sts, rmq);
      if current.value.replicas > sts.replicas {
        return ScaleDownRefused;
      }
    }
    var scaled := Scale(api, rmq.replicas, Capacity(sts.claim));
    if !scaled.ScaleDone? {
      return PassFailed;
    }
    var written := CreateOrUpdate(api, rmq);
    r := if written.Success? then PassDone else PassFailed;
  }

  /** One pass: the spec is read once, and edits made after that wait for the next pass. */
  method Reconcile(api: Api) returns (r: PassResult)
    requires api.Ok()
    modifies api
    ensures api.Ok()
    ensures api.Calm() && old(api.alive) ==>
      && api.world.spec == old(api.world.spec) && api.alive
      && (r.PassDone? <==> Converges(Finished(old(api.world)), api.cluster))
      && (r.PassDone? ==> api.world.sts.Some? && api.world.sts.value.claim == WantedClaim(api.world.spec)
                          && api.world.sts.value.replicas == DesiredReplicas(api.world.spec)
                          && AsAsked(api.world.sts.value, api.world.spec))
      && (!r.PassDone? ==> api.world == Finished(old(api.world)))
  {
    var cluster := api.GetCluster();
    if cluster.Failure? {
      return PassFailed;
    }
    r := ReconcileStatefulSet(api, cluster.value);
  }

  /** Any number of passes under any schedule. Every state the API server goes through on the way,
      not only those between passes, is sound, and any two of them are related as `Evolves` says. */
  method Run(api: Api, passes: nat)
    requires api.Ok()
    modifies api
    ensures api.Ok()
    ensures forall i | 0 <= i < |api.trace| :: Sound(api.trace[i])
    ensures forall i, j | 0 <= i <= j < |api.trace| :: Evolves(api.trace[i], api.trace[j])
  {
    for pass := 0 to passes
      invariant api.Ok()
    {
      api.Restart();
      var _ := Reconcile(api);
    }
    forall i | 0 <= i < |api.trace| ensures Sound(api.trace[i]) {
      EveryStateSound(api.trace, i);
    }
    forall i, j | 0 <= i <= j < |api.trace| ensures Evolves(api.trace[i], api.trace[j]) {
      EveryRunEvolves(api.trace, i, j);
    }
  }

  /** Without interference, crashes and errors, convergence is decided before the first pass: it is
      reached at once or never, however many passes are made. */
  method RunCalm(api: Api, passes: nat) returns (done: bool)
    requires api.Ok() && api.Calm() && passes > 0
    modifies api
    ensures api.Ok()
    ensures done <==> Converges(Finished(old(api.world)), api.cluster)
    ensures done ==> api.world.sts.Some? && AsAsked(api.world.sts.value, old(api.world.spec))
    ensures !done ==> api.world == Finished(old(api.world))
  {
    done := false;
    for pass := 0 to passes
      invariant api.Ok() && api.world.spec == old(api.world.spec)
      invariant pass == 0 ==> api.world == old(api.world)
      invariant pass > 0 ==> (done <==> Converges(Finished(old(api.world)), api.cluster))
      invariant done ==> api.world.sts.Some? && api.world.sts.value.claim == WantedClaim(api.world.spec)
                         && api.world.sts.value.replicas == DesiredReplicas(api.world.spec)
                         && AsAsked(api.world.sts.value, api.world.spec)
      invariant pass > 0 && !done ==> api.world == Finished(old(api.world))
    {
      api.Restart();
      var r := Reconcile(api);
      done := r.PassDone?;
    }
  }
}
