/** The API objects of the storage lifecycle, and everything that may happen to them: what others
    do between two calls of the operator, and what the operator itself is meant to do. */
module StorageModel {
  import opened Kubernetes
  import Names

  /** `replicas` has the value 1 when the user leaves it out; capacities are whole numbers. */
  datatype Spec = Spec(replicas: nat, storage: nat, overrideReplicas: Option<nat>)

  /** `claim` is the capacity of the claim template named "persistence", if there is one;
      `emptyDir` says whether the pod template has an emptyDir volume of that name. */
  datatype StatefulSet = StatefulSet(uid: nat, replicas: nat, claim: Option<nat>, emptyDir: bool, deleting: bool)

  datatype World = World(spec: Spec, sts: Option<StatefulSet>, pvcs: map<string, nat>, nextUid: nat)

  function Capacity(claim: Option<nat>): nat {
    if claim.Some? then claim.value else 0
  }

  function DesiredReplicas(spec: Spec): nat {
    if spec.overrideReplicas.Some? then spec.overrideReplicas.value else spec.replicas
  }

  function WantedClaim(spec: Spec): Option<nat> {
    if spec.storage == 0 then None else Some(spec.storage)
  }

  // ---------- what others do ----------

  /** `RemoveSts` covers somebody else deleting the StatefulSet; `FinishDeletion` is the garbage
      collector completing a deletion the operator asked for. PVCs are created by the StatefulSet
      controller, or by anyone, but are neither resized nor removed by others. */
  datatype Outside = EditSpec(spec: Spec) | CreatePvc(name: string, capacity: nat) | RemoveSts | FinishDeletion

  function Finished(w: World): World {
    if w.sts.Some? && w.sts.value.deleting then w.(sts := None) else w
  }

  function Interfere(w: World, a: Outside): World {
    match a
    case EditSpec(spec) => w.(spec := spec)
    case CreatePvc(name, capacity) => if name in w.pvcs then w else w.(pvcs := w.pvcs[name := capacity])
    case RemoveSts => w.(sts := None)
    case FinishDeletion => Finished(w)
  }

  function InterfereAll(w: World, others: seq<Outside>): World {
    if others == [] then w else Interfere(InterfereAll(w, others[..|others| - 1]), others[|others| - 1])
  }

  lemma OneMoreInterferes(w: World, others: seq<Outside>, i: nat)
    requires i < |others|
    ensures InterfereAll(w, others[..i + 1]) == Interfere(InterfereAll(w, others[..i]), others[i])
  {
    assert others[..i + 1][..i] == others[..i];
  }

  /** What the operator can rely on between two of its calls. */
  ghost predicate Rely(w: World, w': World) {
    && w'.nextUid == w.nextUid
    && (w'.sts == w.sts || w'.sts.None?)
    && forall n <- w.pvcs :: n in w'.pvcs && w'.pvcs[n] == w.pvcs[n]
  }

  lemma InterferenceStep(w: World, a: Outside)
    ensures Rely(w, Interfere(w, a)) && (Sound(w) ==> Sound(Interfere(w, a)))
    ensures (forall n: string, c: nat :: a != CreatePvc(n, c)) ==> Interfere(w, a).pvcs == w.pvcs
  {
  }

  lemma {:induction false} OthersKeep(w: World, others: seq<Outside>)
    ensures Rely(w, InterfereAll(w, others))
    ensures (forall n: string, c: nat :: CreatePvc(n, c) !in others) ==> InterfereAll(w, others).pvcs == w.pvcs
    ensures InterfereAll(w, [FinishDeletion]) == Finished(w)
  {
    assert InterfereAll(w, [FinishDeletion][..0]) == w;
    if others != [] {
      var init := others[..|others| - 1];
      OthersKeep(w, init);
      assert others[|others| - 1] in others && forall a <- init :: a in others;
    }
  }

  // ---------- what the operator may do ----------

  ghost predicate WellBacked(s: StatefulSet) {
    && (s.emptyDir <==> s.claim.None?)
    && (s.claim.Some? ==> s.claim.value > 0)
  }

  /** PVCs only grow, and only while there is no StatefulSet. */
  ghost predicate GrowsPvc(w: World, w': World) {
    && w.sts.None?
    && exists n <- w.pvcs :: n in w'.pvcs && w.pvcs[n] <= w'.pvcs[n] && w' == w.(pvcs := w.pvcs[n := w'.pvcs[n]])
  }

  /** Only a StatefulSet with a claim template is ever deleted. */
  ghost predicate AsksDeletion(w: World, w': World) {
    && w.sts.Some? && w.sts.value.claim.Some?
    && w' == w.(sts := Some(w.sts.value.(deleting := true)))
  }

  ghost predicate CreatesSts(w: World, w': World) {
    && w.sts.None? && w'.sts.Some?
    && w' == w.(sts := w'.sts, nextUid := w.nextUid + 1)
    && w'.sts.value.uid == w.nextUid && !w'.sts.value.deleting && WellBacked(w'.sts.value)
  }

  ghost predicate UpdatesSts(w: World, w': World) {
    && w.sts.Some? && w'.sts.Some? && w' == w.(sts := w'.sts)
    && var s, s' := w.sts.value, w'.sts.value;
       s' == s.(replicas := s'.replicas) && s.replicas <= s'.replicas
  }

  ghost predicate OperatorMay(w: World, w': World) {
    w' == w || GrowsPvc(w, w') || AsksDeletion(w, w') || CreatesSts(w, w') || UpdatesSts(w, w')
  }

  ghost predicate Next(w: World, w': World) {
    Rely(w, w') || OperatorMay(w, w')
  }

  ghost predicate Sound(w: World) {
    w.sts.Some? ==>
      var s := w.sts.value;
      s.uid < w.nextUid && WellBacked(s) && (s.deleting ==> s.claim.Some?)
  }

  /** The states of a run: it begins soundly, and each state follows from the one before. */
  ghost predicate Lawful(trace: seq<World>) {
    var k := |trace| - 1;
    if k <= 0 then k == 0 && Sound(trace[0])
    else Lawful(trace[..k]) && Next(trace[k - 1], trace[k])
  }

  // ---------- what follows for every run ----------

  lemma LawfulAppend(trace: seq<World>, w: World)
    requires Lawful(trace) && Next(trace[|trace| - 1], w)
    ensures Lawful(trace + [w])
  {
    assert (trace + [w])[..|trace|] == trace;
  }

  /** Everything that holds between an earlier and a later state of one run. */
  ghost predicate Evolves(w: World, w': World) {
    && w.nextUid <= w'.nextUid
    && (forall n <- w.pvcs :: n in w'.pvcs && w.pvcs[n] <= w'.pvcs[n])
    && (w'.sts.Some? && w'.sts.value.uid < w.nextUid ==>
          && w.sts.Some? && w'.sts.value.uid == w.sts.value.uid
          && w.sts.value.replicas <= w'.sts.value.replicas
          && w'.sts.value.claim == w.sts.value.claim
          && w'.sts.value.emptyDir == w.sts.value.emptyDir)
  }

  /** In every state of every run: "persistence" is backed by exactly one of a claim template and
      an emptyDir, and a StatefulSet under deletion by the operator is not an ephemeral one. */
  lemma {:induction false} EveryStateSound(trace: seq<World>, i: nat)
    requires Lawful(trace) && i < |trace|
    ensures Sound(trace[i])
  {
    var k := |trace| - 1;
    if k > 0 {
      EveryStateSound(trace[..k], if i < k then i else k - 1);
    }
  }

  /** Between any two states of any run: no PVC has shrunk or vanished, and a StatefulSet that is
      still the same incarnation has kept its claim and its backing and has not lost replicas. */
  lemma {:induction false} EveryRunEvolves(trace: seq<World>, i: nat, j: nat)
    requires Lawful(trace) && i <= j < |trace|
    ensures Evolves(trace[i], trace[j])
  {
    var k := |trace| - 1;
    if j < k {
      EveryRunEvolves(trace[..k], i, j);
    } else if i < j {
      EveryRunEvolves(trace[..k], i, j - 1);
      EveryStateSound(trace, j - 1);
    }
  }

  /** While the operator resizes a PVC, and until it has created the StatefulSet again, there is
      none: two states in between which a PVC grew are separated by one without a StatefulSet. */
  lemma {:induction false} GrowthOnlyWithoutSts(trace: seq<World>, i: nat, j: nat, n: string) returns (m: nat)
    requires Lawful(trace) && i <= j < |trace|
    requires n in trace[i].pvcs && n in trace[j].pvcs && trace[i].pvcs[n] < trace[j].pvcs[n]
    ensures i <= m < j && trace[m].sts.None?
  {
    var k := |trace| - 1;
    if j < k {
      m := GrowthOnlyWithoutSts(trace[..k], i, j, n);
    } else {
      EveryRunEvolves(trace, i, j - 1);
      if trace[j - 1].pvcs[n] == trace[j].pvcs[n] {
        m := GrowthOnlyWithoutSts(trace[..k], i, j - 1, n);
      } else {
        m := j - 1;
      }
    }
  }

  /** Two states whose StatefulSets differ in claim or backing are separated by one without a
      StatefulSet: it has been deleted and created anew in between. */
  lemma {:induction false} BackingChangesOnlyWithoutSts(trace: seq<World>, i: nat, j: nat) returns (m: nat)
    requires Lawful(trace) && i <= j < |trace| && trace[i].sts.Some? && trace[j].sts.Some?
    requires trace[i].sts.value.claim != trace[j].sts.value.claim || trace[i].sts.value.emptyDir != trace[j].sts.value.emptyDir
    ensures i < m < j && trace[m].sts.None?
  {
    var k := |trace| - 1;
    if j < k {
      m := BackingChangesOnlyWithoutSts(trace[..k], i, j);
    } else if trace[j - 1].sts.None? {
      m := j - 1;
    } else {
      m := BackingChangesOnlyWithoutSts(trace[..k], i, j - 1);
    }
  }

  /** What is asked for while the StatefulSet is deleted for growing a PVC decides about the new one: its
      template may be smaller than before, and a persistent cluster may become ephemeral. */
  lemma RecreatedAsAsked(cluster: string, before: nat, after: nat) returns (trace: seq<World>)
    requires before > 0
    ensures Lawful(trace) && NeedsScaling(trace[0].pvcs, cluster, trace[0].spec.replicas, trace[0].spec.storage)
    ensures trace[0].sts.Some? && trace[0].sts.value.claim == Some(before)
    ensures var last := trace[|trace| - 1];
            last.sts.Some? && last.spec.storage == after && last.sts.value.claim == WantedClaim(last.spec)
            && last.sts.value.emptyDir == (after == 0)
  {
    var spec, spec' := Spec(1, before + 1, None), Spec(1, after, None);
    var pvc := Names.PVCName(cluster, 0);
    var w0 := World(spec, Some(StatefulSet(0, 1, Some(before), false, false)), map[pvc := before], 1);
    assert IsPvcOf(pvc, cluster, 1);
    var w1 := w0.(sts := Some(w0.sts.value.(deleting := true)));
    var w2 := Interfere(w1, FinishDeletion);
    var w3 := Interfere(w2, EditSpec(spec'));
    var w4 := w3.(sts := Some(StatefulSet(1, 1, WantedClaim(spec'), after == 0, false)), nextUid := 2);
    assert AsksDeletion(w0, w1) && Rely(w1, w2) && Rely(w2, w3) && CreatesSts(w3, w4);
    trace := [w0];
    LawfulAppend(trace, w1);
    trace := trace + [w1];
    LawfulAppend(trace, w2);
    trace := trace + [w2];
    LawfulAppend(trace, w3);
    trace := trace + [w3];
    LawfulAppend(trace, w4);
    trace := trace + [w4];
  }

  // ---------- the capacity a finished scaling leaves ----------

  ghost predicate IsPvcOf(n: string, cluster: string, replicas: nat) {
    exists i: nat :: i < replicas && n == Names.PVCName(cluster, i)
  }

  ghost function Target(n: string, capacity: nat, cluster: string, replicas: nat, desired: nat): nat {
    if IsPvcOf(n, cluster, replicas) && capacity < desired then desired else capacity
  }

  /** The PVCs after one uninterrupted scaling: the larger of old and desired capacity for those
      of ordinals below `replicas`, and the old one for every other PVC of the namespace. */
  ghost function Scaled(pvcs: map<string, nat>, cluster: string, replicas: nat, desired: nat): map<string, nat> {
    map n | n in pvcs :: Target(n, pvcs[n], cluster, replicas, desired)
  }

  /** A scaling that was interrupted: each PVC is either untouched or has reached its target. */
  ghost predicate Partly(pvcs: map<string, nat>, now: map<string, nat>, cluster: string, replicas: nat, desired: nat) {
    forall n <- pvcs :: n in now && (now[n] == pvcs[n] || now[n] == Target(n, pvcs[n], cluster, replicas, desired))
  }

  ghost predicate Fully(pvcs: map<string, nat>, now: map<string, nat>, cluster: string, replicas: nat, desired: nat) {
    forall n <- pvcs :: n in now && now[n] == Target(n, pvcs[n], cluster, replicas, desired)
  }

  /** What a finished scaling means for a PVC, by its name. */
  lemma FullyMeans(pvcs: map<string, nat>, now: map<string, nat>, cluster: string, replicas: nat, desired: nat, pod: string, ordinal: nat)
    requires Fully(pvcs, now, cluster, replicas, desired)
    requires pod == cluster + "-server-" + Names.Itoa(ordinal) && "persistence-" + pod in pvcs
    ensures "persistence-" + pod in now
    ensures now["persistence-" + pod] ==
            if ordinal < replicas && pvcs["persistence-" + pod] < desired then desired else pvcs["persistence-" + pod]
  {
    var n := "persistence-" + pod;
    assert n == Names.PVCName(cluster, ordinal);
    if IsPvcOf(n, cluster, replicas) {
      var i: nat :| i < replicas && n == Names.PVCName(cluster, i);
      Names.PVCNameInjective(cluster, i, cluster, ordinal);
    }
  }

  /** What the spec asks of the StatefulSet. */
  ghost predicate AsAsked(s: StatefulSet, spec: Spec) {
    && (match spec.overrideReplicas case Some(n) => s.replicas == n case None => s.replicas == spec.replicas)
    && (spec.storage == 0 ==> s.claim.None? && s.emptyDir)
    && (spec.storage > 0 ==> s.claim == Some(spec.storage) && !s.emptyDir)
  }

  lemma PartlyThenFully(a: map<string, nat>, b: map<string, nat>, c: map<string, nat>, cluster: string, replicas: nat, desired: nat)
    requires Partly(a, b, cluster, replicas, desired)
    ensures Fully(b, c, cluster, replicas, desired) ==> Fully(a, c, cluster, replicas, desired)
    ensures Partly(b, c, cluster, replicas, desired) ==> Partly(a, c, cluster, replicas, desired)
  {
  }

  /** Resuming: whatever part of the work an interrupted scaling has done, and however often it was
      interrupted, scaling again ends where one uninterrupted scaling would have ended. */
  lemma ScalingResumes(pvcs: map<string, nat>, part: map<string, nat>, cluster: string, replicas: nat, desired: nat)
    requires part.Keys == pvcs.Keys && Partly(pvcs, part, cluster, replicas, desired)
    ensures Scaled(part, cluster, replicas, desired) == Scaled(pvcs, cluster, replicas, desired)
    ensures Partly(pvcs, Scaled(part, cluster, replicas, desired), cluster, replicas, desired)
  {
    var a, b := Scaled(part, cluster, replicas, desired), Scaled(pvcs, cluster, replicas, desired);
    forall n <- a ensures n in b && a[n] == b[n] {
      assert n in part && n in pvcs;
    }
    assert a.Keys == b.Keys;
  }

  /** Scaling one cluster leaves every PVC of another cluster as it was. */
  lemma OtherClustersUntouched(pvcs: map<string, nat>, cluster: string, replicas: nat, desired: nat, other: string, ordinal: nat)
    requires other != cluster && Names.PVCName(other, ordinal) in pvcs
    ensures Scaled(pvcs, cluster, replicas, desired)[Names.PVCName(other, ordinal)] == pvcs[Names.PVCName(other, ordinal)]
  {
    var n := Names.PVCName(other, ordinal);
    if IsPvcOf(n, cluster, replicas) {
      var i: nat :| i < replicas && n == Names.PVCName(cluster, i);
      Names.PVCNameInjective(other, ordinal, cluster, i);
      assert false;
    }
  }

  ghost predicate NeedsScaling(pvcs: map<string, nat>, cluster: string, replicas: nat, desired: nat) {
    exists n <- pvcs :: IsPvcOf(n, cluster, replicas) && pvcs[n] < desired
  }

  /** When an undisturbed reconcile pass brings the StatefulSet to the capacity the spec asks for.
      With a template below the desired capacity the template can only be replaced by deleting the
      StatefulSet, and the operator deletes it only when some existing PVC is too small. */
  ghost predicate Converges(w: World, cluster: string) {
    w.sts.Some? ==>
      var s, desired := w.sts.value, w.spec.storage;
      && s.replicas <= DesiredReplicas(w.spec)
      && (s.claim == WantedClaim(w.spec)
          || (0 < Capacity(s.claim) < desired && NeedsScaling(w.pvcs, cluster, w.spec.replicas, desired)))
  }

  /** A template of 10 that should be 20 is never replaced when the only PVC has 30 already. */
  lemma LargePvcsPreventConvergence(cluster: string) returns (w: World)
    ensures Sound(w) && w.spec.storage == 20 && w.sts.Some? && w.sts.value.claim == Some(10)
    ensures w.pvcs == map[Names.PVCName(cluster, 0) := 30] && !Converges(w, cluster)
  {
    w := World(Spec(1, 20, None), Some(StatefulSet(0, 1, Some(10), false, false)), map[Names.PVCName(cluster, 0) := 30], 1);
  }
}
