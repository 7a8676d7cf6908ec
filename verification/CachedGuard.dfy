/** The guard against scaling down, when it reads through a cache. The object it sees may be any
    earlier state; the update that follows is made on the current one, whatever the guard has seen. */
module CachedGuard {
  import opened Kubernetes

  /** What the cache holds of the StatefulSet: its replicas, or that there is none. */
  type Reading = Option<nat>

  /** One pass: which state the guard reads, and whether the update is carried out once it is allowed. */
  datatype Pass = Pass(read: nat, written: bool)

  predicate Refuses(r: Reading, desired: nat) {
    r.Some? && r.value > desired
  }

  /** The state read: one that the cache held before this incarnation of the StatefulSet, or one of the
      incarnation, whose replicas so far are `history`. */
  function Seen(before: seq<Reading>, history: seq<nat>, read: nat): Reading
    requires history != []
  {
    if read < |before| then before[read]
    else if read - |before| < |history| then Some(history[read - |before|])
    else Some(history[|history| - 1])
  }

  function AfterPass(before: seq<Reading>, history: seq<nat>, desired: nat, p: Pass): (h: seq<nat>)
    requires history != []
    ensures history <= h
  {
    if Refuses(Seen(before, history, p.read), desired) || !p.written then history else history + [desired]
  }

  /** The history after passes for these desired replicas, overrides included, one for each edit. */
  function AfterPasses(before: seq<Reading>, history: seq<nat>, edits: seq<nat>, passes: seq<Pass>): (h: seq<nat>)
    requires history != [] && |edits| == |passes|
    ensures history <= h
    decreases |edits|
  {
    if edits == [] then history
    else AfterPasses(before, AfterPass(before, history, edits[0], passes[0]), edits[1..], passes[1..])
  }

  ghost predicate NeverFalls(history: seq<nat>) {
    forall i, j | 0 <= i < j < |history| :: history[i] <= history[j]
  }

  /** Every state that the guard could read, when this incarnation began with `first` replicas, refuses. */
  ghost predicate AlwaysRefused(before: seq<Reading>, first: nat, desired: nat) {
    first > desired && forall r <- before :: r.Some? && r.value > desired
  }

  /** A condition on the edits alone: each is refused by every state there has been when the incarnation
      began, or asks for at least as many replicas as the last one that is not. */
  ghost predicate Harmless(before: seq<Reading>, first: nat, last: nat, edits: seq<nat>)
    decreases |edits|
  {
    edits == [] ||
    if AlwaysRefused(before, first, edits[0]) then Harmless(before, first, last, edits[1..])
    else last <= edits[0] && Harmless(before, first, edits[0], edits[1..])
  }

  lemma {:induction false} HarmlessFromLess(before: seq<Reading>, first: nat, less: nat, last: nat, edits: seq<nat>)
    requires less <= last && Harmless(before, first, last, edits)
    ensures Harmless(before, first, less, edits)
  {
    if edits != [] && AlwaysRefused(before, first, edits[0]) {
      HarmlessFromLess(before, first, less, last, edits[1..]);
    }
  }

  lemma {:induction false} HarmlessNeverFalls(before: seq<Reading>, history: seq<nat>, edits: seq<nat>, passes: seq<Pass>)
    requires history != [] && |edits| == |passes| && NeverFalls(history)
    requires Harmless(before, history[0], history[|history| - 1], edits)
    ensures NeverFalls(AfterPasses(before, history, edits, passes))
    decreases |edits|
  {
    if edits != [] {
      var first, last, h := history[0], history[|history| - 1], AfterPass(before, history, edits[0], passes[0]);
      if AlwaysRefused(before, first, edits[0]) {
        assert Refuses(Seen(before, history, passes[0].read), edits[0]);
      } else if h == history {
        HarmlessFromLess(before, first, last, edits[0], edits[1..]);
      }
      HarmlessNeverFalls(before, h, edits[1..], passes[1..]);
    }
  }

  /** For other edits there are passes that lower the replicas. */
  lemma {:induction false} OtherwiseFalls(before: seq<Reading>, history: seq<nat>, edits: seq<nat>) returns (passes: seq<Pass>)
    requires history != [] && NeverFalls(history)
    requires !Harmless(before, history[0], history[|history| - 1], edits)
    ensures |passes| == |edits| && !NeverFalls(AfterPasses(before, history, edits, passes))
    decreases |edits|
  {
    var first, last, desired := history[0], history[|history| - 1], edits[0];
    var read := |before|;
    if first > desired && !AlwaysRefused(before, first, desired) {
      var r :| r in before && !Refuses(r, desired);
      read :| 0 <= read < |before| && before[read] == r;
    }
    var p := Pass(read, true);
    var h := AfterPass(before, history, desired, p);
    var rest: seq<Pass>;
    if AlwaysRefused(before, first, desired) || last <= desired {
      rest := OtherwiseFalls(before, h, edits[1..]);
    } else {
      rest := seq(|edits| - 1, _ => p);
      var all := AfterPasses(before, h, edits[1..], rest);
      assert all[|history| - 1] == last && all[|history|] == desired;
    }
    passes := [p] + rest;
    assert passes[1..] == rest;
  }

  /** When the replicas of an incarnation never fall, whatever the guard reads in each pass and
      whichever passes fail: exactly for harmless edits. */
  lemma {:induction false} NeverFallsExactlyIf(before: seq<Reading>, history: seq<nat>, edits: seq<nat>)
    requires history != [] && NeverFalls(history)
    ensures (forall passes: seq<Pass> | |passes| == |edits| :: NeverFalls(AfterPasses(before, history, edits, passes)))
            <==> Harmless(before, history[0], history[|history| - 1], edits)
  {
    if Harmless(before, history[0], history[|history| - 1], edits) {
      forall passes: seq<Pass> | |passes| == |edits| ensures NeverFalls(AfterPasses(before, history, edits, passes)) {
        HarmlessNeverFalls(before, history, edits, passes);
      }
    } else {
      var passes := OtherwiseFalls(before, history, edits);
    }
  }

  /** An edit that asks for as many replicas as there have ever been, or for more, is never refused. */
  lemma GrowthGoesThrough(before: seq<Reading>, history: seq<nat>, desired: nat, p: Pass)
    requires history != [] && p.written && forall h <- history :: h <= desired
    requires forall r <- before :: r.Some? ==> r.value <= desired
    ensures AfterPass(before, history, desired, p) == history + [desired]
  {
    var r := Seen(before, history, p.read);
    assert r in before || (r.Some? && r.value in history);
  }

  /** With a guard that reads the current state there is no condition. */
  lemma {:induction false} CurrentReadsNeverFall(before: seq<Reading>, history: seq<nat>, edits: seq<nat>, passes: seq<Pass>)
    requires history != [] && |edits| == |passes| && NeverFalls(history)
    requires forall p <- passes :: p.read >= |before| + |history| + |edits|
    ensures NeverFalls(AfterPasses(before, history, edits, passes))
    decreases |edits|
  {
    if edits != [] {
      assert passes[0] in passes && forall p <- passes[1..] :: p in passes;
      CurrentReadsNeverFall(before, AfterPass(before, history, edits[0], passes[0]), edits[1..], passes[1..]);
    }
  }

  /** One replica, scaled to 5; then 3 are asked for, and the guard still sees the one. */
  lemma FallingExample(before: seq<Reading>)
    ensures var passes := [Pass(|before|, true), Pass(|before|, true)];
            AfterPasses(before, [1], [5, 3], passes) == [1, 5, 3] && !NeverFalls([1, 5, 3])
  {
    var p := Pass(|before|, true);
    var passes := [p, p];
    assert AfterPass(before, [1], 5, p) == [1, 5] && AfterPass(before, [1, 5], 3, p) == [1, 5, 3];
    assert [5, 3][1..] == [3] && passes[1..] == [p] && [3][1..] == [] && [p][1..] == [];
    assert AfterPasses(before, [1, 5], [3], [p]) == AfterPasses(before, [1, 5, 3], [], []);
    assert [1, 5, 3][1] > [1, 5, 3][2];
  }
}
