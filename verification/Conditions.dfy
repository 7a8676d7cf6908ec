/** The conditions in the status of a cluster: what each of them says about the child resources, and
    when it last changed. */
module Conditions {
  import opened Kubernetes

  datatype ConditionType = AllReplicasReady | ClusterAvailable | NoWarnings | ReconcileSuccess

  datatype ConditionStatus = True | False | Unknown

  datatype Reason =
    | NoReason | MissingStatefulSet | AllPodsAreReady | NotAllPodsReady
    | CouldNotRetrieveEndpoints | AtLeastOneEndpointAvailable | NoEndpointsAvailable
    | MemoryRequestAndLimitDifferent | NothingToWarn | Initialising
    | Given(text: string)

  datatype Message =
    | NoMessage | StatefulSetNotFound | PodsReady(ready: int, desired: int)
    | EndpointsNotVerified | EndpointsEmpty | MemoryMustBeEqual
    | Joined(parts: seq<string>)

  datatype Finding = Finding(status: ConditionStatus, reason: Reason, message: Message)

  datatype Condition = Condition(kind: ConditionType, finding: Finding, lastTransition: nat)

  /** `replicas`, `limit` and `request` may be absent; the last two are the memory of the first container. */
  datatype StatefulSet = StatefulSet(replicas: Option<int>, ready: int, limit: Option<nat>, request: Option<nat>)

  /** A child resource; a missing one is passed as a nil of its type. `subsets` are address counts. */
  datatype Resource = Sts(sts: Option<StatefulSet>) | Endpoints(subsets: Option<seq<nat>>) | Other

  // ---------- what the resources say ----------

  function Desired(s: StatefulSet): int {
    if s.replicas.Some? then s.replicas.value else 1
  }

  function Amount(q: Option<nat>): nat {
    if q.Some? then q.value else 0
  }

  const UNKNOWN: Finding := Finding(Unknown, NoReason, NoMessage)

  /** Read from the front: the first StatefulSet that is missing or ready decides, and otherwise the last one. */
  function Readiness(rs: seq<Resource>, acc: Finding): Finding {
    if rs == [] then acc
    else if !rs[0].Sts? then Readiness(rs[1..], acc)
    else if rs[0].sts.None? then Finding(Unknown, MissingStatefulSet, StatefulSetNotFound)
    else if Desired(rs[0].sts.value) == rs[0].sts.value.ready then Finding(True, AllPodsAreReady, acc.message)
    else Readiness(rs[1..], Finding(False, NotAllPodsReady, PodsReady(rs[0].sts.value.ready, Desired(rs[0].sts.value))))
  }

  function Availability(rs: seq<Resource>, acc: Finding): Finding {
    if rs == [] then acc
    else if !rs[0].Endpoints? then Availability(rs[1..], acc)
    else if rs[0].subsets.None? then Finding(Unknown, CouldNotRetrieveEndpoints, EndpointsNotVerified)
    else if exists n <- rs[0].subsets.value :: n > 0 then Finding(True, AtLeastOneEndpointAvailable, acc.message)
    else Availability(rs[1..], Finding(False, NoEndpointsAvailable, EndpointsEmpty))
  }

  function Warnings(rs: seq<Resource>, acc: Finding): Finding {
    if rs == [] then acc
    else if !rs[0].Sts? then Warnings(rs[1..], acc)
    else if rs[0].sts.None? then Finding(Unknown, MissingStatefulSet, StatefulSetNotFound)
    else if Amount(rs[0].sts.value.limit) != Amount(rs[0].sts.value.request) then
      Finding(False, MemoryRequestAndLimitDifferent, MemoryMustBeEqual)
    else Warnings(rs[1..], Finding(True, NothingToWarn, acc.message))
  }

  /** A StatefulSet that does not say how many replicas it wants is to have one. */
  ghost predicate Healthy(s: StatefulSet) {
    s.ready == if s.replicas.Some? then s.replicas.value else 1
  }

  /** Some StatefulSet is ready, and all before it are there but not ready. */
  ghost predicate OneReady(rs: seq<Resource>) {
    exists i | 0 <= i < |rs| ::
      && rs[i].Sts? && rs[i].sts.Some? && Healthy(rs[i].sts.value)
      && forall j | 0 <= j < i :: rs[j].Sts? ==> rs[j].sts.Some? && !Healthy(rs[j].sts.value)
  }

  /** Every StatefulSet is there and none is ready. */
  ghost predicate NoneReady(rs: seq<Resource>) {
    forall r <- rs :: r.Sts? ==> r.sts.Some? && !Healthy(r.sts.value)
  }

  /** When AllReplicasReady is true. */
  lemma {:induction false} ReadyMeans(rs: seq<Resource>, acc: Finding)
    requires acc.status != True
    ensures Readiness(rs, acc).status == True <==> OneReady(rs)
  {
    if rs != [] {
      var tail := rs[1..];
      if !rs[0].Sts? {
        ReadyMeans(tail, acc);
      } else if rs[0].sts.Some? && !Healthy(rs[0].sts.value) {
        ReadyMeans(tail, Finding(False, NotAllPodsReady, PodsReady(rs[0].sts.value.ready, Desired(rs[0].sts.value))));
      }
      forall i | 0 <= i < |tail| ensures tail[i] == rs[i + 1] {
      }
      if i :| 0 <= i < |tail| && tail[i].Sts? && tail[i].sts.Some? && Healthy(tail[i].sts.value)
              && (forall j | 0 <= j < i :: tail[j].Sts? ==> tail[j].sts.Some? && !Healthy(tail[j].sts.value))
              && (rs[0].Sts? ==> rs[0].sts.Some? && !Healthy(rs[0].sts.value)) {
        assert rs[i + 1].Sts? && rs[i + 1].sts.Some? && Healthy(rs[i + 1].sts.value);
        forall j | 0 <= j < i + 1 ensures rs[j].Sts? ==> rs[j].sts.Some? && !Healthy(rs[j].sts.value) {
          if j > 0 {
            assert rs[j] == tail[j - 1];
          }
        }
      }
      if i :| 0 < i < |rs| && rs[i].Sts? && rs[i].sts.Some? && Healthy(rs[i].sts.value)
              && (forall j | 0 <= j < i :: rs[j].Sts? ==> rs[j].sts.Some? && !Healthy(rs[j].sts.value)) {
        assert tail[i - 1] == rs[i];
        assert forall j | 0 <= j < i - 1 :: tail[j] == rs[j + 1];
        assert rs[0].Sts? ==> rs[0].sts.Some? && !Healthy(rs[0].sts.value);
      }
    }
  }

  /** When AllReplicasReady is false. */
  lemma {:induction false} NotReadyMeans(rs: seq<Resource>, acc: Finding)
    ensures Readiness(rs, acc).status == False <==> NoneReady(rs) && (acc.status == False || exists r <- rs :: r.Sts?)
  {
    if rs != [] {
      assert rs == [rs[0]] + rs[1..];
      if !rs[0].Sts? {
        NotReadyMeans(rs[1..], acc);
      } else if rs[0].sts.Some? && !Healthy(rs[0].sts.value) {
        NotReadyMeans(rs[1..], Finding(False, NotAllPodsReady, PodsReady(rs[0].sts.value.ready, Desired(rs[0].sts.value))));
      }
    }
  }

  ghost predicate Reachable(r: Resource) {
    r.Endpoints? && r.subsets.Some? && exists n <- r.subsets.value :: n > 0
  }

  ghost predicate Unreachable(r: Resource) {
    r.Endpoints? ==> r.subsets.Some? && forall n <- r.subsets.value :: n == 0
  }

  /** When ClusterAvailable is false: there are Endpoints, all of them there and all without addresses. */
  lemma {:induction false} NotAvailableMeans(rs: seq<Resource>, acc: Finding)
    ensures Availability(rs, acc).status == False <==>
              (forall r <- rs :: Unreachable(r)) && (acc.status == False || exists r <- rs :: r.Endpoints?)
  {
    if rs != [] {
      assert rs == [rs[0]] + rs[1..];
      if !rs[0].Endpoints? {
        NotAvailableMeans(rs[1..], acc);
      } else if Unreachable(rs[0]) {
        NotAvailableMeans(rs[1..], Finding(False, NoEndpointsAvailable, EndpointsEmpty));
      } else {
        assert rs[0] in rs;
      }
    }
  }

  /** Some Endpoints have an address, and all before them are there but without addresses. */
  ghost predicate OneReachable(rs: seq<Resource>) {
    exists i | 0 <= i < |rs| :: Reachable(rs[i]) && forall j | 0 <= j < i :: Unreachable(rs[j])
  }

  /** When ClusterAvailable is true. */
  lemma {:induction false} AvailableMeans(rs: seq<Resource>, acc: Finding)
    requires acc.status != True
    ensures Availability(rs, acc).status == True <==> OneReachable(rs)
  {
    if rs != [] {
      var tail := rs[1..];
      assert forall i | 0 <= i < |tail| :: tail[i] == rs[i + 1];
      if Unreachable(rs[0]) {
        AvailableMeans(tail, if rs[0].Endpoints? then Finding(False, NoEndpointsAvailable, EndpointsEmpty) else acc);
        if i :| 0 <= i < |tail| && Reachable(tail[i]) && forall j | 0 <= j < i :: Unreachable(tail[j]) {
          assert Reachable(rs[i + 1]);
          forall j | 0 <= j < i + 1 ensures Unreachable(rs[j]) {
            assert j > 0 ==> rs[j] == tail[j - 1];
          }
        }
        if i :| 0 <= i < |rs| && Reachable(rs[i]) && forall j | 0 <= j < i :: Unreachable(rs[j]) {
          assert i > 0 && Reachable(tail[i - 1]);
          forall j | 0 <= j < i - 1 ensures Unreachable(tail[j]) {
            assert tail[j] == rs[j + 1];
          }
        }
      } else {
        assert Reachable(rs[0]) || rs[0].subsets.None?;
        if i :| 0 <= i < |rs| && Reachable(rs[i]) && forall j | 0 <= j < i :: Unreachable(rs[j]) {
          assert i == 0;
        }
      }
    }
  }

  /** Absent memory counts as none. */
  ghost predicate SameMemory(s: StatefulSet) {
    || s.limit == s.request
    || (s.limit.None? && s.request == Some(0)) || (s.limit == Some(0) && s.request.None?)
  }

  ghost predicate Unequal(r: Resource) {
    r.Sts? && r.sts.Some? && !SameMemory(r.sts.value)
  }

  ghost predicate Equal(r: Resource) {
    r.Sts? ==> r.sts.Some? && SameMemory(r.sts.value)
  }

  /** When NoWarnings is true: there are StatefulSets, and each has equal memory request and limit. */
  lemma {:induction false} NoWarningsMeans(rs: seq<Resource>, acc: Finding)
    ensures Warnings(rs, acc).status == True <==>
              (forall r <- rs :: Equal(r)) && (acc.status == True || exists r <- rs :: r.Sts?)
  {
    if rs != [] {
      assert rs == [rs[0]] + rs[1..];
      if !rs[0].Sts? {
        NoWarningsMeans(rs[1..], acc);
      } else if Equal(rs[0]) {
        NoWarningsMeans(rs[1..], Finding(True, NothingToWarn, acc.message));
      } else {
        assert rs[0] in rs;
      }
    }
  }

  /** Some StatefulSet has a memory limit different from its request, and all before it are there and
      have equal ones. */
  ghost predicate OneUnequal(rs: seq<Resource>) {
    exists i | 0 <= i < |rs| :: Unequal(rs[i]) && forall j | 0 <= j < i :: Equal(rs[j])
  }

  /** When NoWarnings is false. */
  lemma {:induction false} WarningMeans(rs: seq<Resource>, acc: Finding)
    requires acc.status != False
    ensures Warnings(rs, acc).status == False <==> OneUnequal(rs)
  {
    if rs != [] {
      var tail := rs[1..];
      assert forall i | 0 <= i < |tail| :: tail[i] == rs[i + 1];
      if Equal(rs[0]) {
        WarningMeans(tail, if rs[0].Sts? then Finding(True, NothingToWarn, acc.message) else acc);
        if i :| 0 <= i < |tail| && Unequal(tail[i]) && forall j | 0 <= j < i :: Equal(tail[j]) {
          assert Unequal(rs[i + 1]);
          forall j | 0 <= j < i + 1 ensures Equal(rs[j]) {
            assert j > 0 ==> rs[j] == tail[j - 1];
          }
        }
        if i :| 0 <= i < |rs| && Unequal(rs[i]) && forall j | 0 <= j < i :: Equal(rs[j]) {
          assert i > 0 && Unequal(tail[i - 1]);
          forall j | 0 <= j < i - 1 ensures Equal(tail[j]) {
            assert tail[j] == rs[j + 1];
          }
        }
      } else {
        assert Unequal(rs[0]) || rs[0].sts.None?;
        if i :| 0 <= i < |rs| && Unequal(rs[i]) && forall j | 0 <= j < i :: Equal(rs[j]) {
          assert i == 0;
        }
      }
    }
  }

  /** AllReplicasReady is false with the counts of the last StatefulSet. */
  lemma {:induction false} NotReadyMessage(rs: seq<Resource>, acc: Finding)
    requires Readiness(rs, acc).status == False
    ensures (forall r <- rs :: !r.Sts?) ==> Readiness(rs, acc) == acc
    ensures forall i | 0 <= i < |rs| && rs[i].Sts? && (forall j | i < j < |rs| :: !rs[j].Sts?) ::
      && rs[i].sts.Some?
      && var s := rs[i].sts.value;
         Readiness(rs, acc).message == PodsReady(s.ready, if s.replicas.Some? then s.replicas.value else 1)
  {
    if rs != [] {
      var tail := rs[1..];
      assert forall r <- tail :: r in rs;
      var next := if rs[0].Sts? then Finding(False, NotAllPodsReady, PodsReady(rs[0].sts.value.ready, Desired(rs[0].sts.value))) else acc;
      NotReadyMessage(tail, next);
      forall i | 0 <= i < |rs| && rs[i].Sts? && (forall j | i < j < |rs| :: !rs[j].Sts?)
        ensures rs[i].sts.Some? && Readiness(rs, acc).message == PodsReady(rs[i].sts.value.ready, Desired(rs[i].sts.value))
      {
        if i == 0 {
          assert forall r <- tail :: !r.Sts?;
        } else {
          assert tail[i - 1] == rs[i] && forall j | i - 1 < j < |tail| :: tail[j] == rs[j + 1];
        }
      }
    }
  }

  /** The reason given belongs to the status. */
  ghost predicate Explained(f: Finding, whenTrue: Reason, whenFalse: Reason, whenUnknown: Reason) {
    match f.status
    case True => f.reason == whenTrue
    case False => f.reason == whenFalse
    case Unknown => f.reason == whenUnknown || f == UNKNOWN
  }

  lemma {:induction false} ReasonsMatch(rs: seq<Resource>, ready: Finding, available: Finding, warnings: Finding)
    requires Explained(ready, AllPodsAreReady, NotAllPodsReady, MissingStatefulSet)
    requires Explained(available, AtLeastOneEndpointAvailable, NoEndpointsAvailable, CouldNotRetrieveEndpoints)
    requires Explained(warnings, NothingToWarn, MemoryRequestAndLimitDifferent, MissingStatefulSet)
    ensures Explained(Readiness(rs, ready), AllPodsAreReady, NotAllPodsReady, MissingStatefulSet)
    ensures Explained(Availability(rs, available), AtLeastOneEndpointAvailable, NoEndpointsAvailable, CouldNotRetrieveEndpoints)
    ensures Explained(Warnings(rs, warnings), NothingToWarn, MemoryRequestAndLimitDifferent, MissingStatefulSet)
  {
    if rs != [] {
      ReasonsMatch(rs[1..],
                   if rs[0].Sts? && rs[0].sts.Some?
                   then Finding(False, NotAllPodsReady, PodsReady(rs[0].sts.value.ready, Desired(rs[0].sts.value)))
                   else ready,
                   if rs[0].Endpoints? then Finding(False, NoEndpointsAvailable, EndpointsEmpty) else available,
                   if rs[0].Sts? then Finding(True, NothingToWarn, warnings.message) else warnings);
    }
  }

  /** The condition `f` gives rise to: its time is kept as long as the status stays the same. */
  function Stamped(kind: ConditionType, f: Finding, previous: Option<Condition>, now: nat): Condition {
    Condition(kind, f, if previous.None? || previous.value.finding.status != f.status then now else previous.value.lastTransition)
  }

  /** A condition that keeps its status keeps its time. */
  ghost function TransitionTime(status: ConditionStatus, previous: Option<Condition>, now: nat): nat {
    if previous.Some? && previous.value.finding.status == status then previous.value.lastTransition else now
  }

  method AllReplicasReadyCondition(rs: seq<Resource>, previous: Option<Condition>, now: nat) returns (c: Condition)
    ensures c.kind == AllReplicasReady && c.finding == Readiness(rs, UNKNOWN)
    ensures c.lastTransition == TransitionTime(c.finding.status, previous, now)
  {
    var f := UNKNOWN;
    for i := 0 to |rs|
      invariant Readiness(rs, UNKNOWN) == Readiness(rs[i..], f)
    {
      if rs[i].Sts? {
        if rs[i].sts.None? {
          f := Finding(Unknown, MissingStatefulSet, StatefulSetNotFound);
          return Stamped(AllReplicasReady, f, previous, now);
        }
        var s := rs[i].sts.value;
        if Desired(s) == s.ready {
          f := f.(status := True, reason := AllPodsAreReady);
          return Stamped(AllReplicasReady, f, previous, now);
        }
        f := Finding(False, NotAllPodsReady, PodsReady(s.ready, Desired(s)));
      }
    }
    c := Stamped(AllReplicasReady, f, previous, now);
  }

  method ClusterAvailableCondition(rs: seq<Resource>, previous: Option<Condition>, now: nat) returns (c: Condition)
    ensures c.kind == ClusterAvailable && c.finding == Availability(rs, UNKNOWN)
    ensures c.lastTransition == TransitionTime(c.finding.status, previous, now)
  {
    var f := UNKNOWN;
    for i := 0 to |rs|
      invariant Availability(rs, UNKNOWN) == Availability(rs[i..], f)
    {
      if rs[i].Endpoints? {
        ghost var tail := rs[i..];
        assert tail[0] == rs[i] && tail[1..] == rs[i + 1..];
        if rs[i].subsets.None? {
          f := Finding(Unknown, CouldNotRetrieveEndpoints, EndpointsNotVerified);
          return Stamped(ClusterAvailable, f, previous, now);
        }
        var subsets := rs[i].subsets.value;
        for j := 0 to |subsets|
          invariant forall k | 0 <= k < j :: subsets[k] == 0
        {
          if subsets[j] > 0 {
            assert subsets[j] in subsets;
            f := f.(status := True, reason := AtLeastOneEndpointAvailable);
            return Stamped(ClusterAvailable, f, previous, now);
          }
        }
        f := Finding(False, NoEndpointsAvailable, EndpointsEmpty);
      }
    }
    c := Stamped(ClusterAvailable, f, previous, now);
  }

  method NoWarningsCondition(rs: seq<Resource>, previous: Option<Condition>, now: nat) returns (c: Condition)
    ensures c.kind == NoWarnings && c.finding == Warnings(rs, UNKNOWN)
    ensures c.lastTransition == TransitionTime(c.finding.status, previous, now)
  {
    var f := UNKNOWN;
    for i := 0 to |rs|
      invariant Warnings(rs, UNKNOWN) == Warnings(rs[i..], f)
    {
      if rs[i].Sts? {
        if rs[i].sts.None? {
          f := Finding(Unknown, MissingStatefulSet, StatefulSetNotFound);
          return Stamped(NoWarnings, f, previous, now);
        }
        var s := rs[i].sts.value;
        if Amount(s.limit) != Amount(s.request) {
          f := Finding(False, MemoryRequestAndLimitDifferent, MemoryMustBeEqual);
          return Stamped(NoWarnings, f, previous, now);
        }
        f := f.(status := True, reason := NothingToWarn);
      }
    }
    c := Stamped(NoWarnings, f, previous, now);
  }

  // ---------- the list of conditions ----------

  /** The last condition of this kind, if there are several. */
  function Last(cs: seq<Condition>, kind: ConditionType): Option<Condition> {
    if cs == [] then None
    else if cs[|cs| - 1].kind == kind then Some(cs[|cs| - 1])
    else Last(cs[..|cs| - 1], kind)
  }

  lemma {:induction false} LastMeans(cs: seq<Condition>, kind: ConditionType)
    ensures Last(cs, kind).None? <==> forall c <- cs :: c.kind != kind
    ensures forall i | 0 <= i < |cs| && cs[i].kind == kind && (forall j | i < j < |cs| :: cs[j].kind != kind) :: Last(cs, kind) == Some(cs[i])
  {
    if cs != [] {
      var n := |cs| - 1;
      LastMeans(cs[..n], kind);
      assert cs == cs[..n] + [cs[n]];
    }
  }

  function Reconciled(cs: seq<Condition>, now: nat): Condition {
    if Last(cs, ReconcileSuccess).Some? then Last(cs, ReconcileSuccess).value
    else Condition(ReconcileSuccess, Finding(Unknown, Initialising, NoMessage), now)
  }

  function NextConditions(cs: seq<Condition>, rs: seq<Resource>, now: nat): seq<Condition> {
    [ Stamped(AllReplicasReady, Readiness(rs, UNKNOWN), Last(cs, AllReplicasReady), now),
      Stamped(ClusterAvailable, Availability(rs, UNKNOWN), Last(cs, ClusterAvailable), now),
      Stamped(NoWarnings, Warnings(rs, UNKNOWN), Last(cs, NoWarnings), now),
      Reconciled(cs, now) ]
  }

  /** One condition of each kind, in the fixed order. */
  predicate Initialised(cs: seq<Condition>) {
    && |cs| == 4 && cs[0].kind == AllReplicasReady && cs[1].kind == ClusterAvailable
    && cs[2].kind == NoWarnings && cs[3].kind == ReconcileSuccess
  }

  lemma {:induction false} LastHasKind(cs: seq<Condition>, kind: ConditionType)
    ensures Last(cs, kind).Some? ==> Last(cs, kind).value.kind == kind
  {
    if cs != [] {
      LastHasKind(cs[..|cs| - 1], kind);
    }
  }

  lemma LastOfInitialised(cs: seq<Condition>)
    requires Initialised(cs)
    ensures Last(cs, AllReplicasReady) == Some(cs[0]) && Last(cs, ClusterAvailable) == Some(cs[1])
    ensures Last(cs, NoWarnings) == Some(cs[2]) && Last(cs, ReconcileSuccess) == Some(cs[3])
  {
    var p3 := cs[..3];
    var p2 := p3[..2];
    var p1 := p2[..1];
    assert Last(p1, AllReplicasReady) == Some(cs[0]);
    assert Last(p2, AllReplicasReady) == Some(cs[0]) && Last(p2, ClusterAvailable) == Some(cs[1]);
    assert Last(p3, AllReplicasReady) == Some(cs[0]) && Last(p3, ClusterAvailable) == Some(cs[1]);
  }

  lemma StatusesMean(rs: seq<Resource>)
    ensures Readiness(rs, UNKNOWN).status == True <==> OneReady(rs)
    ensures Readiness(rs, UNKNOWN).status == False <==> NoneReady(rs) && exists r <- rs :: r.Sts?
    ensures Availability(rs, UNKNOWN).status == True <==> OneReachable(rs)
    ensures Availability(rs, UNKNOWN).status == False <==> (forall r <- rs :: Unreachable(r)) && exists r <- rs :: r.Endpoints?
    ensures Warnings(rs, UNKNOWN).status == True <==> (forall r <- rs :: Equal(r)) && exists r <- rs :: r.Sts?
    ensures Warnings(rs, UNKNOWN).status == False <==> OneUnequal(rs)
  {
    ReadyMeans(rs, UNKNOWN);
    NotReadyMeans(rs, UNKNOWN);
    AvailableMeans(rs, UNKNOWN);
    NotAvailableMeans(rs, UNKNOWN);
    NoWarningsMeans(rs, UNKNOWN);
    WarningMeans(rs, UNKNOWN);
  }

  lemma NextIsInitialised(cs: seq<Condition>, rs: seq<Resource>, now: nat)
    ensures Initialised(NextConditions(cs, rs, now))
  {
    LastHasKind(cs, ReconcileSuccess);
  }

  /** What the three recomputed conditions say of the resources. */
  ghost predicate Tells(cs: seq<Condition>, rs: seq<Resource>)
    requires Initialised(cs)
  {
    && (cs[0].finding.status == True <==> OneReady(rs))
    && (cs[0].finding.status == False <==> NoneReady(rs) && exists r <- rs :: r.Sts?)
    && (cs[1].finding.status == True <==> OneReachable(rs))
    && (cs[1].finding.status == False <==> (forall r <- rs :: Unreachable(r)) && exists r <- rs :: r.Endpoints?)
    && (cs[2].finding.status == True <==> (forall r <- rs :: Equal(r)) && exists r <- rs :: r.Sts?)
    && (cs[2].finding.status == False <==> OneUnequal(rs))
  }

  /** The time of each of them is that of the last condition of its kind, if that had the same status. */
  ghost predicate Timed(was: seq<Condition>, cs: seq<Condition>, now: nat)
    requires Initialised(cs)
  {
    && cs[0].lastTransition == TransitionTime(cs[0].finding.status, Last(was, AllReplicasReady), now)
    && cs[1].lastTransition == TransitionTime(cs[1].finding.status, Last(was, ClusterAvailable), now)
    && cs[2].lastTransition == TransitionTime(cs[2].finding.status, Last(was, NoWarnings), now)
  }

  /** The fourth is the last ReconcileSuccess there was; if there was none, it is still unknown. */
  ghost predicate Carried(was: seq<Condition>, cs: seq<Condition>, now: nat)
    requires Initialised(cs)
  {
    && ((forall c <- was :: c.kind != ReconcileSuccess) ==>
          cs[3] == Condition(ReconcileSuccess, Finding(Unknown, Initialising, NoMessage), now))
    && (forall i | 0 <= i < |was| && was[i].kind == ReconcileSuccess && (forall j | i < j < |was| :: was[j].kind != ReconcileSuccess) ::
          cs[3] == was[i])
  }

  lemma NextTells(cs: seq<Condition>, rs: seq<Resource>, now: nat)
    ensures var next := NextConditions(cs, rs, now);
            Initialised(next) && Tells(next, rs) && Timed(cs, next, now) && Carried(cs, next, now)
  {
    hide OneReady, NoneReady, OneReachable, OneUnequal, Unreachable, Equal, Readiness, Availability, Warnings, Last;
    StatusesMean(rs);
    LastMeans(cs, ReconcileSuccess);
    NextIsInitialised(cs, rs, now);
  }

  /** Setting the conditions again from the same resources changes nothing, however much later:
      so the status of an unchanged cluster is not written again. */
  lemma RepeatedSetChangesNothing(cs: seq<Condition>, rs: seq<Resource>, now: nat, later: nat)
    ensures NextConditions(NextConditions(cs, rs, now), rs, later) == NextConditions(cs, rs, now)
  {
    var next := NextConditions(cs, rs, now);
    NextIsInitialised(cs, rs, now);
    LastOfInitialised(next);
  }

  // ---------- the status over time ----------

  /** The list of conditions after a call made at the time `now`. */
  datatype Snapshot = Snapshot(now: nat, conditions: seq<Condition>)

  ghost predicate AllInitialised(history: seq<Snapshot>) {
    forall i {:trigger history[i]} | 0 <= i < |history| :: Initialised(history[i].conditions)
  }

  /** The time of the last call that changed the status of condition `k`; before any such call, the
      time the condition had when the list was first set. */
  ghost function LastChange(history: seq<Snapshot>, k: nat): nat
    requires history != [] && k < 4 && AllInitialised(history)
  {
    var n := |history| - 1;
    if n == 0 then history[0].conditions[k].lastTransition
    else if history[n].conditions[k].finding.status != history[n - 1].conditions[k].finding.status then history[n].now
    else LastChange(history[..n], k)
  }

  class RabbitmqClusterStatus {
    var conditions: seq<Condition>
    ghost var history: seq<Snapshot>

    /** The status as it was stored, with any list of conditions. */
    constructor (stored: seq<Condition>)
      ensures Valid() && history == [] && conditions == stored
    {
      conditions, history := stored, [];
    }

    ghost predicate Valid()
      reads this
    {
      && AllInitialised(history)
      && (history != [] ==>
            && conditions == history[|history| - 1].conditions
            && forall k | 0 <= k < 4 :: conditions[k].lastTransition == LastChange(history, k))
    }

    ghost method Record(before: seq<Condition>, now: nat)
      requires AllInitialised(history)
      requires Initialised(conditions)
      requires history != [] ==>
        && Initialised(before) && before == history[|history| - 1].conditions
        && (forall k | 0 <= k < 4 :: before[k].lastTransition == LastChange(history, k))
        && (forall k | 0 <= k < 4 ::
              conditions[k].lastTransition == if conditions[k].finding.status == before[k].finding.status then before[k].lastTransition else now)
      modifies this`history
      ensures Valid() && history == old(history) + [Snapshot(now, conditions)]
    {
      ghost var was := history;
      history := history + [Snapshot(now, conditions)];
      assert history[..|was|] == was;
    }

    /** Recomputes three conditions from the child resources and keeps the fourth. */
    method SetConditions(rs: seq<Resource>, now: nat)
      requires Valid()
      modifies this
      ensures Valid() && Initialised(conditions)
      ensures conditions == NextConditions(old(conditions), rs, now)
      ensures Tells(conditions, rs) && Timed(old(conditions), conditions, now) && Carried(old(conditions), conditions, now)
      ensures history == old(history) + [Snapshot(now, conditions)]
    {
      hide Tells, Timed, Carried, Readiness, Availability, Warnings;
      var ready, available, warnings, reconciled := None, None, None, None;
      for i := 0 to |conditions|
        invariant conditions == old(conditions) && history == old(history) && Valid()
        invariant ready == Last(conditions[..i], AllReplicasReady) && available == Last(conditions[..i], ClusterAvailable)
        invariant warnings == Last(conditions[..i], NoWarnings) && reconciled == Last(conditions[..i], ReconcileSuccess)
      {
        assert conditions[..i + 1][..i] == conditions[..i];
        match conditions[i].kind
        case AllReplicasReady => ready := Some(conditions[i]);
        case ClusterAvailable => available := Some(conditions[i]);
        case NoWarnings => warnings := Some(conditions[i]);
        case ReconcileSuccess => reconciled := Some(conditions[i]);
      }
      assert conditions[..|conditions|] == conditions;
      var c0 := AllReplicasReadyCondition(rs, ready, now);
      var c1 := ClusterAvailableCondition(rs, available, now);
      var c2 := NoWarningsCondition(rs, warnings, now);
      var c3 := if reconciled.Some? then reconciled.value else Condition(ReconcileSuccess, Finding(Unknown, Initialising, NoMessage), now);
      ghost var before := conditions;
      conditions := [c0, c1, c2, c3];
      NextIsInitialised(before, rs, now);
      NextTells(before, rs, now);
      if history != [] {
        LastOfInitialised(before);
      }
      Record(before, now);
    }

    /** Sets the first condition of this kind, if there is one. */
    method SetCondition(kind: ConditionType, status: ConditionStatus, reason: string, messages: seq<string>, now: nat)
      requires Valid()
      modifies this
      ensures Valid()
      ensures (forall c <- old(conditions) :: c.kind != kind) ==> conditions == old(conditions)
      ensures forall k: nat | k < |old(conditions)| && old(conditions)[k].kind == kind
                              && (forall j | 0 <= j < k :: old(conditions)[j].kind != kind) ::
        var was := old(conditions)[k];
        conditions == old(conditions)[k := Condition(kind, Finding(status, Given(reason), Joined(messages)),
                                                     if was.finding.status == status then was.lastTransition else now)]
      ensures history == if old(history) == [] then [] else old(history) + [Snapshot(now, conditions)]
    {
      ghost var before := conditions;
      for i := 0 to |conditions|
        invariant conditions == before && history == old(history) && Valid()
        invariant forall j | 0 <= j < i :: conditions[j].kind != kind
      {
        if conditions[i].kind == kind {
          var transition := if conditions[i].finding.status != status then now else conditions[i].lastTransition;
          conditions := conditions[i := Condition(kind, Finding(status, Given(reason), Joined(messages)), transition)];
          break;
        }
      }
      if history != [] {
        Record(before, now);
      }
    }
  }
}
