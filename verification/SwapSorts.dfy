/** The one-pass swaps that move environment variables and volume mounts to the front of their list
    after the user's overrides have been merged in. */
module SwapSorts {

  function Swapped<T>(s: seq<T>, i: nat, j: nat): seq<T>
    requires i < |s| && j < |s|
  {
    s[i := s[j]][j := s[i]]
  }

  lemma SwapPermutes<T>(s: seq<T>, i: nat, j: nat)
    requires i < |s| && j < |s|
    ensures multiset(Swapped(s, i, j)) == multiset(s)
  {
  }

  // ---------- environment variables ----------

  datatype VarName = PodName | PodNamespace | ServiceName | OtherVar(name: string)

  datatype EnvVar = EnvVar(name: VarName, value: string)

  /** The index a variable is moved to, or -1. */
  function Home(n: VarName): int {
    match n
    case PodName => 0
    case PodNamespace => 1
    case ServiceName => 2
    case OtherVar(_) => -1
  }

  /** The code indexes the list at each home it needs, and panics when that is out of range. */
  predicate HomesExist(s: seq<EnvVar>) {
    forall e <- s :: Home(e.name) < |s|
  }

  /** The pass from index `i` on. It looks at each index once, at the variable then found there. */
  function Pass(s: seq<EnvVar>, i: nat): (r: seq<EnvVar>)
    requires i <= |s| && HomesExist(s)
    ensures |r| == |s|
    decreases |s| - i
  {
    if i == |s| then s
    else
      var home := Home(s[i].name);
      if home >= 0 then
        var t := Swapped(s, home, i);
        assert forall e <- t :: e in s;
        Pass(t, i + 1)
      else Pass(s, i + 1)
  }

  method SortEnvVar(a: array<EnvVar>)
    requires HomesExist(a[..])
    modifies a
    ensures a[..] == Pass(old(a[..]), 0)
  {
    for i := 0 to a.Length
      invariant HomesExist(a[..])
      invariant Pass(old(a[..]), 0) == Pass(a[..], i)
    {
      ghost var s := a[..];
      var home := Home(a[i].name);
      if home >= 0 {
        assert a[i] in a[..];
        a[home], a[i] := a[i], a[home];
        assert a[..] == Swapped(s, home, i);
      }
    }
  }

  lemma {:induction false} PassPermutes(s: seq<EnvVar>, i: nat)
    requires i <= |s| && HomesExist(s)
    ensures multiset(Pass(s, i)) == multiset(s)
    decreases |s| - i
  {
    if i < |s| {
      var home := Home(s[i].name);
      if home >= 0 {
        var t := Swapped(s, home, i);
        SwapPermutes(s, home, i);
        assert forall e <- t :: e in s;
        PassPermutes(t, i + 1);
      } else {
        PassPermutes(s, i + 1);
      }
    }
  }

  /** Where the three variables stand. */
  datatype Places = Places(pod: nat, namespace: nat, service: nat)

  const HOME: Places := Places(0, 1, 2)

  /** Each of the three variables occurs once, at these places. */
  predicate StandAt(s: seq<EnvVar>, p: Places) {
    && p.pod < |s| && p.namespace < |s| && p.service < |s|
    && s[p.pod].name == PodName && s[p.namespace].name == PodNamespace && s[p.service].name == ServiceName
    && forall i | 0 <= i < |s| && i != p.pod && i != p.namespace && i != p.service :: s[i].name.OtherVar?
  }

  function Moved(x: nat, i: nat, j: nat): nat {
    if x == i then j else if x == j then i else x
  }

  function MovedAll(p: Places, i: nat, j: nat): Places {
    Places(Moved(p.pod, i, j), Moved(p.namespace, i, j), Moved(p.service, i, j))
  }

  function StepPlaces(p: Places, i: nat): Places {
    if p.pod == i then MovedAll(p, 0, i)
    else if p.namespace == i then MovedAll(p, 1, i)
    else if p.service == i then MovedAll(p, 2, i)
    else p
  }

  function PassPlaces(p: Places, i: nat, length: nat): Places
    requires i <= length
    decreases length - i
  {
    if i == length then p else PassPlaces(StepPlaces(p, i), i + 1, length)
  }

  lemma SwapMovesPlaces(s: seq<EnvVar>, p: Places, i: nat, j: nat)
    requires StandAt(s, p) && i < |s| && j < |s|
    ensures StandAt(Swapped(s, i, j), MovedAll(p, i, j))
  {
  }

  lemma {:induction false} PassMovesPlaces(s: seq<EnvVar>, p: Places, i: nat)
    requires i <= |s| && HomesExist(s) && StandAt(s, p)
    ensures StandAt(Pass(s, i), PassPlaces(p, i, |s|))
    decreases |s| - i
  {
    if i < |s| {
      var home := Home(s[i].name);
      if home >= 0 {
        var t := Swapped(s, home, i);
        assert forall e <- t :: e in s;
        SwapMovesPlaces(s, p, home, i);
        assert MovedAll(p, home, i) == StepPlaces(p, i);
        PassMovesPlaces(t, StepPlaces(p, i), i + 1);
      } else {
        PassMovesPlaces(s, p, i + 1);
      }
    }
  }

  /** From index 3 on, a variable gets home exactly if it is there already or has not been passed. */
  lemma {:induction false} LateSteps(p: Places, i: nat, length: nat)
    requires 3 <= i <= length
    requires p.pod < length && p.namespace < length && p.service < length
    requires p.pod != p.namespace && p.pod != p.service && p.namespace != p.service
    ensures PassPlaces(p, i, length) == HOME <==>
              (p.pod == 0 || p.pod >= i) && (p.namespace == 1 || p.namespace >= i) && (p.service == 2 || p.service >= i)
    decreases length - i
  {
    if i < length {
      LateSteps(StepPlaces(p, i), i + 1, length);
    }
  }

  /** The three families of lists that one pass leaves in the wrong order: a variable is swapped back
      over an index that the pass does not visit again. */
  predicate Misplaced(p: Places) {
    || (p.namespace == 0 && p.service == 1 && p.pod > 2)
    || (p.service == 0 && p.namespace == 2 && p.pod > 2)
    || (p.service == 1 && p.pod == 2 && p.namespace > 2)
  }

  lemma AllSteps(p: Places, length: nat)
    requires p.pod < length && p.namespace < length && p.service < length
    requires p.pod != p.namespace && p.pod != p.service && p.namespace != p.service
    ensures PassPlaces(p, 0, length) == HOME <==> !Misplaced(p)
  {
    var p1 := StepPlaces(p, 0);
    var p2 := StepPlaces(p1, 1);
    var p3 := StepPlaces(p2, 2);
    assert PassPlaces(p, 0, length) == PassPlaces(p1, 1, length) == PassPlaces(p2, 2, length) == PassPlaces(p3, 3, length);
    LateSteps(p3, 3, length);
  }

  /** When one pass brings the three variables to the front in order, wherever they stood before. */
  lemma PassSortsExactlyIf(s: seq<EnvVar>, p: Places)
    requires StandAt(s, p)
    ensures HomesExist(s)
    ensures var r := Pass(s, 0);
            |r| >= 3 && (r[0].name == PodName && r[1].name == PodNamespace && r[2].name == ServiceName <==> !Misplaced(p))
  {
    PassMovesPlaces(s, p, 0);
    AllSteps(p, |s|);
    var r, q := Pass(s, 0), PassPlaces(p, 0, |s|);
    assert r[q.pod].name == PodName && r[q.namespace].name == PodNamespace && r[q.service].name == ServiceName;
  }

  /** In the order in which the operator emits the variables, whatever stands between them. */
  lemma PassSortsEmittedOrder(s: seq<EnvVar>, p: Places)
    requires StandAt(s, p) && p.pod < p.namespace < p.service
    ensures HomesExist(s) && |s| >= 3
    ensures Pass(s, 0)[0].name == PodName && Pass(s, 0)[1].name == PodNamespace && Pass(s, 0)[2].name == ServiceName
  {
    PassSortsExactlyIf(s, p);
  }

  /** In this order, for one, they do not: the name comes first, but the service name stays behind. */
  lemma UnsortedExample(x: EnvVar, name: string, namespace: string, service: string)
    requires x.name.OtherVar?
    ensures var n, ns, sv := EnvVar(PodName, name), EnvVar(PodNamespace, namespace), EnvVar(ServiceName, service);
            var s := [ns, sv, x, n];
            HomesExist(s) && StandAt(s, Places(3, 0, 1)) && Misplaced(Places(3, 0, 1)) && Pass(s, 0) == [n, ns, x, sv]
  {
    var n, ns, sv := EnvVar(PodName, name), EnvVar(PodNamespace, namespace), EnvVar(ServiceName, service);
    var s0 := [ns, sv, x, n];
    var s1 := [sv, ns, x, n];
    var s2 := [sv, ns, x, n];
    var s3 := [n, ns, x, sv];
    assert Swapped(s0, 1, 0) == s1 && Swapped(s1, 1, 1) == s2 && Swapped(s2, 0, 3) == s3;
    assert Pass(s0, 0) == Pass(s1, 1);
    assert Pass(s1, 1) == Pass(s2, 2) == Pass(s2, 3);
    assert Pass(s2, 3) == Pass(s3, 4) == s3;
  }

  // ---------- volume mounts ----------

  datatype VolumeName = ErlangCookie | Persistence | OtherVolume(name: string)

  datatype Mount = Mount(name: VolumeName, path: string)

  predicate MountHomesExist(s: seq<Mount>) {
    forall m <- s :: m.name == Persistence ==> |s| > 1
  }

  function MountPass(s: seq<Mount>, i: nat): (r: seq<Mount>)
    requires i <= |s| && MountHomesExist(s)
    ensures |r| == |s|
    decreases |s| - i
  {
    if i == |s| then s
    else if s[i].name == ErlangCookie then
      var t := Swapped(s, 0, i);
      assert forall m <- t :: m in s;
      MountPass(t, i + 1)
    else if s[i].name == Persistence then
      var t := Swapped(s, 1, i);
      assert forall m <- t :: m in s;
      MountPass(t, i + 1)
    else MountPass(s, i + 1)
  }

  method SortVolumeMounts(a: array<Mount>)
    requires MountHomesExist(a[..])
    modifies a
    ensures a[..] == MountPass(old(a[..]), 0)
  {
    for i := 0 to a.Length
      invariant MountHomesExist(a[..])
      invariant MountPass(old(a[..]), 0) == MountPass(a[..], i)
    {
      ghost var s := a[..];
      assert a[i] in s;
      if a[i].name == ErlangCookie {
        a[0], a[i] := a[i], a[0];
        assert a[..] == Swapped(s, 0, i);
      } else if a[i].name == Persistence {
        a[1], a[i] := a[i], a[1];
        assert a[..] == Swapped(s, 1, i);
      }
    }
  }

  lemma {:induction false} MountPassPermutes(s: seq<Mount>, i: nat)
    requires i <= |s| && MountHomesExist(s)
    ensures multiset(MountPass(s, i)) == multiset(s)
    decreases |s| - i
  {
    if i < |s| {
      if s[i].name == ErlangCookie || s[i].name == Persistence {
        var home := if s[i].name == ErlangCookie then 0 else 1;
        var t := Swapped(s, home, i);
        SwapPermutes(s, home, i);
        assert forall m <- t :: m in s;
        MountPassPermutes(t, i + 1);
      } else {
        MountPassPermutes(s, i + 1);
      }
    }
  }

  /** The cookie mount stands at `cookie` and nowhere else. */
  predicate OneCookie(s: seq<Mount>, cookie: nat) {
    cookie < |s| && forall i | 0 <= i < |s| :: s[i].name == ErlangCookie <==> i == cookie
  }

  /** Nothing that still has to be moved has been passed. */
  lemma {:induction false} MountPassFrom(s: seq<Mount>, i: nat, cookie: nat, persistence: nat)
    requires i <= |s| && MountHomesExist(s) && OneCookie(s, cookie) && (cookie == 0 || cookie >= i)
    requires persistence < |s| ==> s[persistence].name == Persistence && (persistence == 1 || persistence >= i)
    ensures MountPass(s, i)[0].name == ErlangCookie
    ensures persistence < |s| ==> |s| > 1 && MountPass(s, i)[1].name == Persistence
    decreases |s| - i
  {
    if i < |s| {
      if s[i].name == ErlangCookie {
        var t := Swapped(s, 0, i);
        assert forall m <- t :: m in s;
        MountPassFrom(t, i + 1, 0, persistence);
      } else if s[i].name == Persistence {
        var t := Swapped(s, 1, i);
        assert forall m <- t :: m in s;
        MountPassFrom(t, i + 1, if cookie == 1 then i else cookie, 1);
      } else {
        MountPassFrom(s, i + 1, cookie, persistence);
      }
    }
  }

  /** With one cookie mount and any number of persistence mounts, in any order: the cookie mount comes
      first, and a persistence mount second exactly if there is one. */
  lemma MountPassSorts(s: seq<Mount>, cookie: nat)
    requires OneCookie(s, cookie)
    ensures MountHomesExist(s)
    ensures MountPass(s, 0)[0].name == ErlangCookie
    ensures (exists m <- s :: m.name == Persistence) <==> |s| > 1 && MountPass(s, 0)[1].name == Persistence
  {
    if m :| m in s && m.name == Persistence {
      var i :| 0 <= i < |s| && s[i] == m;
      assert i != cookie;
      MountPassFrom(s, 0, cookie, i);
    } else {
      MountPassFrom(s, 0, cookie, |s|);
      MountPassPermutes(s, 0);
      if |s| > 1 {
        assert MountPass(s, 0)[1] in multiset(MountPass(s, 0));
      }
    }
  }
}
