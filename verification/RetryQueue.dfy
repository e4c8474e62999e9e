/** Working off all source folders (src/apps/drive/takeover.py, run_all): a folder whose object is locked is put back once. */
module RetryQueue {

  /** What a try comes to, by the number of the try. */
  datatype Outcome = Done | Locked | Failed

  ghost predicate Distinct(s: seq<nat>) {
    forall i, j :: 0 <= i < j < |s| ==> s[i] != s[j]
  }

  /** The folders among the first `n` whose first try met a lock. */
  function PutBack(sources: seq<nat>, outcome: nat -> Outcome, n: nat): (r: seq<nat>)
    requires n <= |sources|
    ensures forall x :: x in r <==> exists i :: 0 <= i < n && outcome(i).Locked? && sources[i] == x
  {
    if n == 0 then [] else PutBack(sources, outcome, n - 1) + (if outcome(n - 1).Locked? then [sources[n - 1]] else [])
  }

  lemma {:induction false} PutBackDistinct(sources: seq<nat>, outcome: nat -> Outcome, n: nat)
    requires Distinct(sources) && n <= |sources|
    ensures Distinct(PutBack(sources, outcome, n)) && |PutBack(sources, outcome, n)| <= n
  {
    if n > 0 {
      PutBackDistinct(sources, outcome, n - 1);
      NotPutBackYet(sources, outcome, n - 1);
    }
  }

  lemma NotPutBackYet(sources: seq<nat>, outcome: nat -> Outcome, n: nat)
    requires Distinct(sources) && n < |sources|
    ensures sources[n] !in PutBack(sources, outcome, n)
  {
  }

  /** The tries in their order: every folder once, then once more those that were locked. */
  function Tries(sources: seq<nat>, outcome: nat -> Outcome): seq<nat> {
    sources + PutBack(sources, outcome, |sources|)
  }

  /** How many of the first `n` tries were done; a lock counts as a failure in the second round only. */
  function DoneIn(outcome: nat -> Outcome, n: nat): nat {
    if n == 0 then 0 else DoneIn(outcome, n - 1) + (if outcome(n - 1).Done? then 1 else 0)
  }

  function FailedIn(outcome: nat -> Outcome, firsts: nat, n: nat): nat {
    if n == 0 then 0
    else FailedIn(outcome, firsts, n - 1) + (if outcome(n - 1).Failed? || (outcome(n - 1).Locked? && n > firsts) then 1 else 0)
  }

  /** Every try of the first round is done, failed or put back. */
  lemma {:induction false} FirstRoundAddsUp(sources: seq<nat>, outcome: nat -> Outcome, n: nat)
    requires n <= |sources|
    ensures DoneIn(outcome, n) + FailedIn(outcome, |sources|, n) + |PutBack(sources, outcome, n)| == n
  {
    if n > 0 { FirstRoundAddsUp(sources, outcome, n - 1); }
  }

  /** No folder is lost and none is tried a third time: each one is done or reported exactly once. */
  lemma {:induction false} AddsUp(sources: seq<nat>, outcome: nat -> Outcome, n: nat)
    requires |sources| <= n <= |Tries(sources, outcome)|
    ensures DoneIn(outcome, n) + FailedIn(outcome, |sources|, n) == n - |PutBack(sources, outcome, |sources|)|
  {
    if n == |sources| {
      FirstRoundAddsUp(sources, outcome, n);
    } else {
      AddsUp(sources, outcome, n - 1);
    }
  }

  /** The first round takes every folder in order; after it each folder that met a lock comes once more, in the same order,
    * and no other. */
  lemma {:induction false} SecondRound(sources: seq<nat>, outcome: nat -> Outcome, n: nat, i: nat, j: nat)
    requires Distinct(sources) && i < j < n <= |sources| && outcome(i).Locked? && outcome(j).Locked?
    ensures exists k, l :: 0 <= k < l < |PutBack(sources, outcome, n)|
              && PutBack(sources, outcome, n)[k] == sources[i] && PutBack(sources, outcome, n)[l] == sources[j]
  {
    var again := PutBack(sources, outcome, n);
    if j < n - 1 {
      SecondRound(sources, outcome, n - 1, i, j);
      var k, l :| 0 <= k < l < |PutBack(sources, outcome, n - 1)|
        && PutBack(sources, outcome, n - 1)[k] == sources[i] && PutBack(sources, outcome, n - 1)[l] == sources[j];
      assert again[k] == sources[i] && again[l] == sources[j];
    } else {
      var before := PutBack(sources, outcome, n - 1);
      assert sources[i] in before;
      var k :| 0 <= k < |before| && before[k] == sources[i];
      assert again[k] == sources[i] && again[|before|] == sources[j];
    }
  }

  /** Of the first `n` tries those that were done, and those that failed or met a lock in the second round. */
  function DoneTries(outcome: nat -> Outcome, n: nat): set<nat> {
    set t | 0 <= t < n && outcome(t).Done?
  }

  function FailedTries(outcome: nat -> Outcome, firsts: nat, n: nat): set<nat> {
    set t | 0 <= t < n && (outcome(t).Failed? || (outcome(t).Locked? && t >= firsts))
  }

  lemma TriesStep(outcome: nat -> Outcome, firsts: nat, n: nat)
    ensures DoneTries(outcome, n + 1) == DoneTries(outcome, n) + if outcome(n).Done? then {n} else {}
    ensures FailedTries(outcome, firsts, n + 1)
            == FailedTries(outcome, firsts, n) + if outcome(n).Failed? || (outcome(n).Locked? && n >= firsts) then {n} else {}
    ensures n !in DoneTries(outcome, n) && n !in FailedTries(outcome, firsts, n)
  {
  }

  /** The counters count tries. */
  lemma {:induction false} CountersCount(outcome: nat -> Outcome, firsts: nat, n: nat)
    ensures DoneIn(outcome, n) == |DoneTries(outcome, n)| && FailedIn(outcome, firsts, n) == |FailedTries(outcome, firsts, n)|
  {
    if n == 0 {
      assert DoneTries(outcome, 0) == {} && FailedTries(outcome, firsts, 0) == {};
    } else {
      hide DoneTries, FailedTries;
      CountersCount(outcome, firsts, n - 1);
      TriesStep(outcome, firsts, n - 1);
    }
  }

  /** What is left in the queue after `t` tries. */
  function Left(sources: seq<nat>, outcome: nat -> Outcome, t: nat): seq<nat>
    requires t <= |Tries(sources, outcome)|
  {
    if t <= |sources| then sources[t..] + PutBack(sources, outcome, t)
    else PutBack(sources, outcome, |sources|)[t - |sources|..]
  }

  function Seen(sources: seq<nat>, outcome: nat -> Outcome, t: nat): seq<nat> {
    PutBack(sources, outcome, if t <= |sources| then t else |sources|)
  }

  lemma FirstTry(sources: seq<nat>, outcome: nat -> Outcome, t: nat)
    requires Distinct(sources) && t < |sources|
    ensures Left(sources, outcome, t) == [sources[t]] + (sources[t + 1..] + PutBack(sources, outcome, t))
    ensures Left(sources, outcome, t + 1) == (sources[t + 1..] + PutBack(sources, outcome, t)) + (if outcome(t).Locked? then [sources[t]] else [])
    ensures sources[t] !in Seen(sources, outcome, t)
    ensures Seen(sources, outcome, t + 1) == Seen(sources, outcome, t) + (if outcome(t).Locked? then [sources[t]] else [])
  {
    NotPutBackYet(sources, outcome, t);
    assert sources[t..] == [sources[t]] + sources[t + 1..];
    if t + 1 == |sources| { assert sources[t + 1..] == []; }
  }

  lemma SecondTry(sources: seq<nat>, outcome: nat -> Outcome, t: nat)
    requires |sources| <= t < |Tries(sources, outcome)|
    ensures Left(sources, outcome, t) == [Tries(sources, outcome)[t]] + Left(sources, outcome, t + 1)
    ensures Tries(sources, outcome)[t] in Seen(sources, outcome, t) && Seen(sources, outcome, t + 1) == Seen(sources, outcome, t)
  {
    hide PutBack;
    Again(sources, outcome, t);
    Again(sources, outcome, t + 1);
    var again := PutBack(sources, outcome, |sources|);
    assert again[t - |sources|..] == [again[t - |sources|]] + again[t + 1 - |sources|..];
  }

  lemma Again(sources: seq<nat>, outcome: nat -> Outcome, t: nat)
    requires |sources| <= t <= |Tries(sources, outcome)|
    ensures Left(sources, outcome, t) == PutBack(sources, outcome, |sources|)[t - |sources|..]
  {
    hide PutBack;
    if t == |sources| { assert sources[t..] + PutBack(sources, outcome, t) == PutBack(sources, outcome, t)[0..]; }
  }

  /** One try: the head of the queue is the next one in order, and it is put back exactly when it meets its first lock. */
  lemma OneTry(sources: seq<nat>, outcome: nat -> Outcome, t: nat)
    requires Distinct(sources) && t < |Tries(sources, outcome)|
    ensures Left(sources, outcome, t) != [] && Left(sources, outcome, t)[0] == Tries(sources, outcome)[t]
    ensures var src, tail := Left(sources, outcome, t)[0], Left(sources, outcome, t)[1..];
      && (src in Seen(sources, outcome, t) <==> t >= |sources|)
      && Left(sources, outcome, t + 1) == (if outcome(t).Locked? && t < |sources| then tail + [src] else tail)
      && (forall x :: x in Seen(sources, outcome, t + 1) <==> x in Seen(sources, outcome, t) || (outcome(t).Locked? && x == src))
  {
    hide PutBack, Left, Seen;
    if t < |sources| {
      FirstTry(sources, outcome, t);
      assert Tries(sources, outcome)[t] == sources[t];
    } else {
      SecondTry(sources, outcome, t);
    }
  }

  method RunAll(sources: seq<nat>, outcome: nat -> Outcome) returns (tries: seq<nat>, done: nat, errors: nat)
    requires Distinct(sources)
    ensures tries == Tries(sources, outcome)
    ensures done == DoneIn(outcome, |tries|) && errors == FailedIn(outcome, |sources|, |tries|)
    ensures done + errors == |sources|
  {
    hide PutBack, Left, Seen, Tries;
    Beginning(sources, outcome);
    var queue := sources;
    var retried: set<nat> := {};
    tries, done, errors := [], 0, 0;
    while queue != []
      invariant |tries| <= |Tries(sources, outcome)| && tries == Tries(sources, outcome)[..|tries|]
      invariant queue == Left(sources, outcome, |tries|)
      invariant forall x :: x in retried <==> x in Seen(sources, outcome, |tries|)
      invariant done == DoneIn(outcome, |tries|) && errors == FailedIn(outcome, |sources|, |tries|)
      decreases |Tries(sources, outcome)| - |tries|
    {
      var t, src := |tries|, queue[0];
      SomethingLeft(sources, outcome, t);
      OneTry(sources, outcome, t);
      assert Tries(sources, outcome)[..t + 1] == Tries(sources, outcome)[..t] + [src];
      tries, queue := tries + [src], queue[1..];
      match outcome(t) {
        case Done => done := done + 1;
        case Failed => errors := errors + 1;
        case Locked =>
          if src !in retried {
            retried := retried + {src};
            queue := queue + [src];
          } else {
            errors := errors + 1;
          }
      }
    }
    NothingLeft(sources, outcome, |tries|);
    AllTried(sources, outcome);
  }

  lemma Beginning(sources: seq<nat>, outcome: nat -> Outcome)
    ensures Left(sources, outcome, 0) == sources && Seen(sources, outcome, 0) == []
  {
  }

  lemma SomethingLeft(sources: seq<nat>, outcome: nat -> Outcome, t: nat)
    requires t <= |Tries(sources, outcome)| && Left(sources, outcome, t) != []
    ensures t < |Tries(sources, outcome)|
  {
  }

  lemma NothingLeft(sources: seq<nat>, outcome: nat -> Outcome, t: nat)
    requires t <= |Tries(sources, outcome)| && Left(sources, outcome, t) == []
    ensures t == |Tries(sources, outcome)|
  {
    assert t <= |sources| ==> |Left(sources, outcome, t)| == |sources| - t + |PutBack(sources, outcome, t)|;
  }

  lemma AllTried(sources: seq<nat>, outcome: nat -> Outcome)
    ensures var n := |Tries(sources, outcome)|;
      Tries(sources, outcome)[..n] == Tries(sources, outcome) && DoneIn(outcome, n) + FailedIn(outcome, |sources|, n) == |sources|
  {
    AddsUp(sources, outcome, |Tries(sources, outcome)|);
  }
}
