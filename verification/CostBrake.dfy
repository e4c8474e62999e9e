/** The router of the third classification stage (src/apps/ai/router.py): providers in order, attempts, the log of calls with
  * their cost, and the two limits that stop a provider. Costs are reals. What a provider answers, the clock, the time
  * budget and the circuit breaker enter as functions of the running number of an event. */
module CostBrake {
  import opened Wrappers

  // ---------------------------------------------------------------- configuration, log, surroundings

  /** `priced`: the price list holds a positive price for the model. */
  datatype Provider = Provider(enabled: bool, priced: bool, limit: Option<real>, monthly: Option<real>, maxAttempts: int)

  datatype Setup = Setup(order: seq<string>, config: string -> Provider, inbox: nat -> bool)

  datatype Status = Booked | Blocked | MaskBlocked | Failed

  /** A row of the call log; a call without an answer is booked without cost. */
  datatype Entry = Entry(provider: string, obj: nat, month: nat, cost: real, status: Status)

  /** What an attempt meets: the prompt fails the mask check, an error worth or not worth repeating, an answer that violates
    * the schema, an answer. */
  datatype Answer = MaskFailed | Retryable | Fatal | Schema(cost: real) | Good(cost: real)

  datatype World = World(month: nat -> nat, answer: nat -> Answer, late: nat -> bool, broken: nat -> bool)

  /** An attempt that left the house, with the running number under which its answer came in. */
  datatype Sending = Sending(provider: string, obj: nat, event: nat)

  datatype State = State(ledger: seq<Entry>, sent: seq<Sending>, now: nat)

  datatype Verdict = Answered | MaskCheck | OutOfTime | Exhausted

  datatype Outcome = Success | ProviderError | BudgetBlocked | BlockedByMaskCheck | Disabled

  // ---------------------------------------------------------------- sums over the log

  function ObjectCost(ledger: seq<Entry>, provider: string, obj: nat): real {
    if ledger == [] then 0.0
    else
      var e := ledger[|ledger| - 1];
      ObjectCost(ledger[..|ledger| - 1], provider, obj) + (if e.provider == provider && e.obj == obj then e.cost else 0.0)
  }

  /** Cost since the beginning of a month. */
  function CostSince(ledger: seq<Entry>, provider: string, month: nat): real {
    if ledger == [] then 0.0
    else
      var e := ledger[|ledger| - 1];
      CostSince(ledger[..|ledger| - 1], provider, month) + (if e.provider == provider && e.month >= month then e.cost else 0.0)
  }

  function CostIn(ledger: seq<Entry>, provider: string, month: nat): real {
    if ledger == [] then 0.0
    else
      var e := ledger[|ledger| - 1];
      CostIn(ledger[..|ledger| - 1], provider, month) + (if e.provider == provider && e.month == month then e.cost else 0.0)
  }

  // ---------------------------------------------------------------- one call

  predicate Stopped(setup: Setup, w: World, st: State, name: string, obj: nat) {
    var p := setup.config(name);
    || (p.limit.Some? && !p.priced)
    || (p.limit.Some? && !setup.inbox(obj) && ObjectCost(st.ledger, name, obj) >= p.limit.value)
    || (p.monthly.Some? && CostSince(st.ledger, name, w.month(st.now)) >= p.monthly.value)
  }

  function Log(w: World, st: State, name: string, obj: nat, cost: real, status: Status): State {
    st.(ledger := st.ledger + [Entry(name, obj, w.month(st.now), cost, status)], now := st.now + 1)
  }

  function Send(st: State, name: string, obj: nat): State {
    st.(sent := st.sent + [Sending(name, obj, st.now)])
  }

  function Attempts(w: World, st: State, name: string, obj: nat, left: nat): (State, Verdict)
    decreases left
  {
    if left == 0 then (st, Exhausted)
    else if w.late(st.now) then (st.(now := st.now + 1), OutOfTime)
    else
      var s := Send(st, name, obj);
      match w.answer(st.now)
      case MaskFailed => (Log(w, s, name, obj, 0.0, MaskBlocked), MaskCheck)
      case Retryable => Attempts(w, Log(w, s, name, obj, 0.0, Failed), name, obj, left - 1)
      case Fatal => (Log(w, s, name, obj, 0.0, Failed), Exhausted)
      case Schema(cost) => Attempts(w, Log(w, s, name, obj, cost, Booked), name, obj, left - 1)
      case Good(cost) => (Log(w, s, name, obj, cost, Booked), Answered)
  }

  function Allowed(p: Provider): nat { if p.maxAttempts > 0 then p.maxAttempts else 0 }

  function Enabled(setup: Setup, order: seq<string>): seq<string> {
    if order == [] then [] else (if setup.config(order[0]).enabled then [order[0]] else []) + Enabled(setup, order[1..])
  }

  /** Providers one after the other; an open breaker skips one, a limit ends the call. */
  function Walk(setup: Setup, w: World, st: State, order: seq<string>, obj: nat): (State, Outcome)
    decreases |order|
  {
    if order == [] then (st, ProviderError)
    else if w.broken(st.now) then Walk(setup, w, st.(now := st.now + 1), order[1..], obj)
    else if Stopped(setup, w, st, order[0], obj) then (Log(w, st, order[0], obj, 0.0, Blocked), BudgetBlocked)
    else
      var (s, v) := Attempts(w, st, order[0], obj, Allowed(setup.config(order[0])));
      match v
      case Answered => (s, Success)
      case MaskCheck => (s, BlockedByMaskCheck)
      case OutOfTime => (s, ProviderError)
      case Exhausted => Walk(setup, w, s, order[1..], obj)
  }

  function Classified(setup: Setup, w: World, st: State, obj: nat): (State, Outcome) {
    var order := Enabled(setup, setup.order);
    if order == [] then (st, Disabled) else Walk(setup, w, st, order, obj)
  }

  // ---------------------------------------------------------------- the router

  class Router {
    const setup: Setup
    const world: World
    var ledger: seq<Entry>
    var now: nat
    ghost var sent: seq<Sending>

    ghost function Now(): State
      reads this
    {
      State(ledger, sent, now)
    }

    method Book(name: string, obj: nat, cost: real, status: Status)
      modifies this`ledger, this`now
      ensures Now() == Log(world, old(Now()), name, obj, cost, status)
    {
      ledger := ledger + [Entry(name, obj, world.month(now), cost, status)];
      now := now + 1;
    }

    method CostOfObject(name: string, obj: nat) returns (total: real)
      ensures total == ObjectCost(ledger, name, obj)
    {
      total := 0.0;
      for i := 0 to |ledger|
        invariant total == ObjectCost(ledger[..i], name, obj)
      {
        assert ledger[..i + 1][..i] == ledger[..i];
        if ledger[i].provider == name && ledger[i].obj == obj { total := total + ledger[i].cost; }
      }
      assert ledger[..|ledger|] == ledger;
    }

    method CostThisMonth(name: string) returns (total: real)
      ensures total == CostSince(ledger, name, world.month(now))
    {
      total := 0.0;
      for i := 0 to |ledger|
        invariant total == CostSince(ledger[..i], name, world.month(now))
      {
        assert ledger[..i + 1][..i] == ledger[..i];
        if ledger[i].provider == name && ledger[i].month >= world.month(now) { total := total + ledger[i].cost; }
      }
      assert ledger[..|ledger|] == ledger;
    }

    method IsStopped(name: string, obj: nat) returns (stop: bool)
      ensures stop == Stopped(setup, world, Now(), name, obj)
    {
      var p := setup.config(name);
      if p.limit.Some? && !p.priced { return true; }
      if p.limit.Some? && !setup.inbox(obj) {
        var total := CostOfObject(name, obj);
        if total >= p.limit.value { return true; }
      }
      if p.monthly.Some? {
        var total := CostThisMonth(name);
        return total >= p.monthly.value;
      }
      return false;
    }

    method Try(name: string, obj: nat) returns (v: Verdict)
      modifies this
      ensures (Now(), v) == Attempts(world, old(Now()), name, obj, Allowed(setup.config(name)))
    {
      ghost var before := Now();
      var left := Allowed(setup.config(name));
      while left > 0
        invariant Attempts(world, Now(), name, obj, left) == Attempts(world, before, name, obj, Allowed(setup.config(name)))
      {
        if world.late(now) {
          now := now + 1;
          return OutOfTime;
        }
        sent := sent + [Sending(name, obj, now)];
        match world.answer(now) {
          case MaskFailed =>
            Book(name, obj, 0.0, MaskBlocked);
            return MaskCheck;
          case Retryable => Book(name, obj, 0.0, Failed);
          case Fatal =>
            Book(name, obj, 0.0, Failed);
            return Exhausted;
          case Schema(cost) => Book(name, obj, cost, Booked);
          case Good(cost) =>
            Book(name, obj, cost, Booked);
            return Answered;
        }
        left := left - 1;
      }
      return Exhausted;
    }

    method Classify(obj: nat) returns (r: Outcome)
      modifies this
      ensures (Now(), r) == Classified(setup, world, old(Now()), obj)
    {
      hide Attempts, Stopped, Enabled;
      ghost var before := Now();
      var order := Enabled(setup, setup.order);
      if order == [] { return Disabled; }
      for i := 0 to |order|
        invariant Walk(setup, world, Now(), order[i..], obj) == Walk(setup, world, before, order, obj)
      {
        assert order[i..][1..] == order[i + 1..];
        if world.broken(now) {
          now := now + 1;
        } else {
          var stop := IsStopped(order[i], obj);
          if stop {
            Book(order[i], obj, 0.0, Blocked);
            return BudgetBlocked;
          }
          var v := Try(order[i], obj);
          match v {
            case Answered => return Success;
            case MaskCheck => return BlockedByMaskCheck;
            case OutOfTime => return ProviderError;
            case Exhausted =>
          }
        }
      }
      return ProviderError;
    }
  }

  // ---------------------------------------------------------------- what attempts may cost

  /** No single call costs more than `most`. */
  ghost predicate Capped(w: World, most: real) {
    most >= 0.0 && forall n: nat :: (w.answer(n).Schema? || w.answer(n).Good?) ==> 0.0 <= w.answer(n).cost <= most
  }

  /** The largest cost of so many calls. */
  function Worth(calls: nat, most: real): real { calls as real * most }

  lemma LogCosts(w: World, st: State, name: string, obj: nat, cost: real, status: Status, p: string, o: nat, m: nat)
    ensures var s := Log(w, st, name, obj, cost, status);
      && ObjectCost(s.ledger, p, o) == ObjectCost(st.ledger, p, o) + (if p == name && o == obj then cost else 0.0)
      && CostIn(s.ledger, p, m) == CostIn(st.ledger, p, m) + (if p == name && w.month(st.now) == m then cost else 0.0)
  {
  }

  /** A series of attempts costs the provider and the object it is made for at most so many single calls, and nobody else
    * anything. */
  lemma {:induction false} AttemptsCost(w: World, st: State, name: string, obj: nat, left: nat, most: real, p: string, o: nat)
    requires Capped(w, most)
    ensures var s := Attempts(w, st, name, obj, left).0;
      && ObjectCost(st.ledger, p, o) <= ObjectCost(s.ledger, p, o)
      && ObjectCost(s.ledger, p, o) <= ObjectCost(st.ledger, p, o) + (if p == name && o == obj then Worth(left, most) else 0.0)
    decreases left
  {
    hide Log, Worth, ObjectCost;
    Nonnegative(left, most);
    if left > 0 && !w.late(st.now) {
      var s := Send(st, name, obj);
      var a := w.answer(st.now);
      var cost := if a.Schema? || a.Good? then a.cost else 0.0;
      var status := if a.Schema? || a.Good? then Booked else if a.MaskFailed? then MaskBlocked else Failed;
      LogCosts(w, s, name, obj, cost, status, p, o, 0);
      OneMore(left, most);
      if a.Schema? || a.Retryable? { AttemptsCost(w, Log(w, s, name, obj, cost, status), name, obj, left - 1, most, p, o); }
    }
  }

  lemma OneMore(left: nat, most: real)
    requires left > 0 && most >= 0.0
    ensures Worth(left, most) == most + Worth(left - 1, most) && Worth(left - 1, most) >= 0.0
  {
  }

  // ---------------------------------------------------------------- the limit per object

  /** Nothing was booked, or less than the limit and one full series of attempts. */
  ghost predicate Braked(setup: Setup, ledger: seq<Entry>, p: string, o: nat, most: real) {
    setup.config(p).limit.Some? && !setup.inbox(o) ==>
      ObjectCost(ledger, p, o) == 0.0
      || ObjectCost(ledger, p, o) < setup.config(p).limit.value + Worth(Allowed(setup.config(p)), most)
  }

  lemma {:induction false} WalkBraked(setup: Setup, w: World, st: State, order: seq<string>, obj: nat, most: real, p: string, o: nat)
    requires Capped(w, most) && Braked(setup, st.ledger, p, o, most)
    ensures Braked(setup, Walk(setup, w, st, order, obj).0.ledger, p, o, most)
    decreases |order|
  {
    hide Attempts, Log, Worth;
    if order != [] {
      var name := order[0];
      if w.broken(st.now) {
        WalkBraked(setup, w, st.(now := st.now + 1), order[1..], obj, most, p, o);
      } else if Stopped(setup, w, st, name, obj) {
        LogCosts(w, st, name, obj, 0.0, Blocked, p, o, 0);
      } else {
        var s := Attempts(w, st, name, obj, Allowed(setup.config(name))).0;
        AttemptsCost(w, st, name, obj, Allowed(setup.config(name)), most, p, o);
        WalkBraked(setup, w, s, order[1..], obj, most, p, o);
      }
    }
  }

  function RunAll(setup: Setup, w: World, st: State, objs: seq<nat>): State
    decreases |objs|
  {
    if objs == [] then st else RunAll(setup, w, Classified(setup, w, st, objs[0]).0, objs[1..])
  }

  /** Over any sequence of calls the cost booked for a provider and an object that is not the inbox stays below the limit
    * plus the largest cost of one series of attempts. */
  lemma {:induction false} ObjectLimitHolds(setup: Setup, w: World, st: State, objs: seq<nat>, most: real, p: string, o: nat)
    requires Capped(w, most) && Braked(setup, st.ledger, p, o, most)
    ensures Braked(setup, RunAll(setup, w, st, objs).ledger, p, o, most)
    decreases |objs|
  {
    hide Braked, Walk, Enabled, Capped;
    if objs != [] {
      WalkBraked(setup, w, st, Enabled(setup, setup.order), objs[0], most, p, o);
      ObjectLimitHolds(setup, w, Classified(setup, w, st, objs[0]).0, objs[1..], most, p, o);
    }
  }

  // ---------------------------------------------------------------- no price, no call

  /** Nothing was sent to the provider since. */
  ghost predicate Silent(st: State, later: State, p: string) {
    |st.sent| <= |later.sent| && later.sent[..|st.sent|] == st.sent
    && forall i :: |st.sent| <= i < |later.sent| ==> later.sent[i].provider != p
  }

  lemma SilentTwice(a: State, b: State, c: State, p: string)
    requires Silent(a, b, p) && Silent(b, c, p)
    ensures Silent(a, c, p)
  {
    assert c.sent[..|a.sent|] == c.sent[..|b.sent|][..|a.sent|];
    forall i | |a.sent| <= i < |c.sent| ensures c.sent[i].provider != p {
      if i < |b.sent| { assert c.sent[i] == c.sent[..|b.sent|][i]; }
    }
  }

  lemma {:induction false} AttemptsSilent(w: World, st: State, name: string, obj: nat, left: nat, p: string)
    requires name != p
    ensures Silent(st, Attempts(w, st, name, obj, left).0, p)
    decreases left
  {
    if left > 0 && !w.late(st.now) {
      var s := Send(st, name, obj);
      var a := w.answer(st.now);
      assert Silent(st, s, p);
      if a.Schema? || a.Retryable? {
        var t := Log(w, s, name, obj, if a.Schema? then a.cost else 0.0, if a.Schema? then Booked else Failed);
        AttemptsSilent(w, t, name, obj, left - 1, p);
        SilentTwice(st, t, Attempts(w, t, name, obj, left - 1).0, p);
      }
    }
  }

  lemma {:induction false} WalkSilent(setup: Setup, w: World, st: State, order: seq<string>, obj: nat, p: string)
    requires setup.config(p).limit.Some? && !setup.config(p).priced
    ensures Silent(st, Walk(setup, w, st, order, obj).0, p)
    decreases |order|
  {
    hide Attempts;
    if order != [] {
      if w.broken(st.now) {
        WalkSilent(setup, w, st.(now := st.now + 1), order[1..], obj, p);
      } else if !Stopped(setup, w, st, order[0], obj) {
        var s := Attempts(w, st, order[0], obj, Allowed(setup.config(order[0]))).0;
        AttemptsSilent(w, st, order[0], obj, Allowed(setup.config(order[0])), p);
        WalkSilent(setup, w, s, order[1..], obj, p);
        SilentTwice(st, s, Walk(setup, w, s, order[1..], obj).0, p);
      }
    }
  }

  /** With a limit and no positive price for its model a provider is never called, in any sequence of calls. */
  lemma {:induction false} NoPriceNoCall(setup: Setup, w: World, st: State, objs: seq<nat>, p: string)
    requires setup.config(p).limit.Some? && !setup.config(p).priced
    ensures Silent(st, RunAll(setup, w, st, objs), p)
    decreases |objs|
  {
    hide Walk, Enabled;
    if objs != [] {
      var s := Classified(setup, w, st, objs[0]).0;
      WalkSilent(setup, w, st, Enabled(setup, setup.order), objs[0], p);
      NoPriceNoCall(setup, w, s, objs[1..], p);
      SilentTwice(st, s, RunAll(setup, w, s, objs[1..]), p);
    }
  }

  // ---------------------------------------------------------------- the monthly cap

  ghost predicate Forward(w: World) {
    forall m: nat, n: nat :: m <= n ==> w.month(m) <= w.month(n)
  }

  /** The log lies in the past and holds no negative cost. */
  ghost predicate Dated(w: World, st: State) {
    forall i :: 0 <= i < |st.ledger| ==> st.ledger[i].month <= w.month(st.now) && st.ledger[i].cost >= 0.0
  }

  lemma LogDated(w: World, st: State, name: string, obj: nat, cost: real, status: Status)
    requires Forward(w) && Dated(w, st) && cost >= 0.0
    ensures Dated(w, Log(w, st, name, obj, cost, status))
  {
    assert w.month(st.now) <= w.month(st.now + 1);
  }

  /** Cost since the running month is the cost of the running month; later months have none yet. */
  lemma {:induction false} SinceIsIn(ledger: seq<Entry>, p: string, month: nat, later: nat)
    requires month < later && forall i :: 0 <= i < |ledger| ==> ledger[i].month <= month && ledger[i].cost >= 0.0
    ensures CostSince(ledger, p, month) == CostIn(ledger, p, month) >= 0.0 && CostIn(ledger, p, later) == 0.0
  {
    if ledger != [] { SinceIsIn(ledger[..|ledger| - 1], p, month, later); }
  }

  lemma {:induction false} AttemptsDated(w: World, st: State, name: string, obj: nat, left: nat, most: real)
    requires Capped(w, most) && Forward(w) && Dated(w, st)
    ensures var s := Attempts(w, st, name, obj, left).0; Dated(w, s) && st.now <= s.now
    decreases left
  {
    hide Log, Dated, Forward;
    Later(w, st);
    if left > 0 && !w.late(st.now) {
      var s := Send(st, name, obj);
      var a := w.answer(st.now);
      var cost := if a.Schema? || a.Good? then a.cost else 0.0;
      var status := if a.Schema? || a.Good? then Booked else if a.MaskFailed? then MaskBlocked else Failed;
      SameLedger(w, st, s);
      LogDated(w, s, name, obj, cost, status);
      LogNow(w, s, name, obj, cost, status);
      if a.Schema? || a.Retryable? { AttemptsDated(w, Log(w, s, name, obj, cost, status), name, obj, left - 1, most); }
    }
  }

  lemma {:induction false} AttemptsMonth(w: World, st: State, name: string, obj: nat, left: nat, most: real, p: string, m: nat)
    requires Capped(w, most) && Forward(w)
    ensures var s := Attempts(w, st, name, obj, left).0;
      && CostIn(st.ledger, p, m) <= CostIn(s.ledger, p, m)
      && CostIn(s.ledger, p, m) <= CostIn(st.ledger, p, m) + (if p == name && m >= w.month(st.now) then Worth(left, most) else 0.0)
    decreases left
  {
    hide Log, CostIn, Worth;
    assert w.month(st.now) <= w.month(st.now + 1);
    Nonnegative(left, most);
    if left > 0 && !w.late(st.now) {
      var s := Send(st, name, obj);
      var a := w.answer(st.now);
      var cost := if a.Schema? || a.Good? then a.cost else 0.0;
      var status := if a.Schema? || a.Good? then Booked else if a.MaskFailed? then MaskBlocked else Failed;
      LogCosts(w, s, name, obj, cost, status, p, 0, m);
      LogNow(w, s, name, obj, cost, status);
      OneMore(left, most);
      if a.Schema? || a.Retryable? { AttemptsMonth(w, Log(w, s, name, obj, cost, status), name, obj, left - 1, most, p, m); }
    }
  }

  lemma Nonnegative(calls: nat, most: real)
    requires most >= 0.0
    ensures Worth(calls, most) >= 0.0
  {
  }

  lemma Later(w: World, st: State)
    requires Forward(w) && Dated(w, st)
    ensures Dated(w, st.(now := st.now + 1))
  {
    assert w.month(st.now) <= w.month(st.now + 1);
  }

  lemma SameLedger(w: World, st: State, s: State)
    requires st.ledger == s.ledger && st.now == s.now
    ensures Dated(w, st) <==> Dated(w, s)
  {
  }

  lemma LogNow(w: World, st: State, name: string, obj: nat, cost: real, status: Status)
    ensures Log(w, st, name, obj, cost, status).now == st.now + 1
  {
  }

  ghost predicate MonthBraked(setup: Setup, ledger: seq<Entry>, p: string, m: nat, most: real) {
    setup.config(p).monthly.Some? ==>
      CostIn(ledger, p, m) == 0.0
      || CostIn(ledger, p, m) < setup.config(p).monthly.value + Worth(Allowed(setup.config(p)), most)
  }

  /** One series of attempts after a passed check. */
  lemma SeriesBraked(setup: Setup, w: World, st: State, name: string, obj: nat, most: real, p: string, m: nat)
    requires Capped(w, most) && Forward(w) && Dated(w, st) && MonthBraked(setup, st.ledger, p, m, most)
    requires !Stopped(setup, w, st, name, obj)
    ensures MonthBraked(setup, Attempts(w, st, name, obj, Allowed(setup.config(name))).0.ledger, p, m, most)
    ensures Dated(w, Attempts(w, st, name, obj, Allowed(setup.config(name))).0)
  {
    hide Attempts, CostIn, CostSince, ObjectCost, Worth;
    AttemptsMonth(w, st, name, obj, Allowed(setup.config(name)), most, p, m);
    AttemptsDated(w, st, name, obj, Allowed(setup.config(name)), most);
    Nonnegative(Allowed(setup.config(name)), most);
    var month := w.month(st.now);
    SinceIsIn(st.ledger, p, month, if m > month then m else month + 1);
  }

  lemma {:induction false} WalkMonth(setup: Setup, w: World, st: State, order: seq<string>, obj: nat, most: real, p: string, m: nat)
    requires Capped(w, most) && Forward(w) && Dated(w, st) && MonthBraked(setup, st.ledger, p, m, most)
    ensures MonthBraked(setup, Walk(setup, w, st, order, obj).0.ledger, p, m, most) && Dated(w, Walk(setup, w, st, order, obj).0)
    decreases |order|
  {
    hide Attempts, Log, Stopped, Dated;
    if order != [] {
      var name := order[0];
      if w.broken(st.now) {
        Later(w, st);
        WalkMonth(setup, w, st.(now := st.now + 1), order[1..], obj, most, p, m);
      } else if Stopped(setup, w, st, name, obj) {
        LogCosts(w, st, name, obj, 0.0, Blocked, p, 0, m);
        LogDated(w, st, name, obj, 0.0, Blocked);
      } else {
        SeriesBraked(setup, w, st, name, obj, most, p, m);
        WalkMonth(setup, w, Attempts(w, st, name, obj, Allowed(setup.config(name))).0, order[1..], obj, most, p, m);
      }
    }
  }

  /** Over any sequence of calls the cost booked for a provider within any month stays below the monthly cap plus the largest
    * cost of one series of attempts, even when a series runs into the next month. */
  lemma {:induction false} MonthlyCapHolds(setup: Setup, w: World, st: State, objs: seq<nat>, most: real, p: string, m: nat)
    requires Capped(w, most) && Forward(w) && Dated(w, st) && MonthBraked(setup, st.ledger, p, m, most)
    ensures MonthBraked(setup, RunAll(setup, w, st, objs).ledger, p, m, most)
    decreases |objs|
  {
    hide MonthBraked, Walk, Enabled, Capped, Forward, Dated;
    if objs != [] {
      WalkMonth(setup, w, st, Enabled(setup, setup.order), objs[0], most, p, m);
      MonthlyCapHolds(setup, w, Classified(setup, w, st, objs[0]).0, objs[1..], most, p, m);
    }
  }

  // ---------------------------------------------------------------- what is booked is what was spent

  /** What the provider charges for an answer; none comes back from a call that failed. */
  function Price(w: World, event: nat): real {
    match w.answer(event)
    case Schema(cost) => cost
    case Good(cost) => cost
    case _ => 0.0
  }

  /** The cost really incurred with a provider for an object. */
  function Spent(w: World, sent: seq<Sending>, p: string, o: nat): real {
    if sent == [] then 0.0
    else
      var e := sent[|sent| - 1];
      Spent(w, sent[..|sent| - 1], p, o) + (if e.provider == p && e.obj == o then Price(w, e.event) else 0.0)
  }

  /** The cost really incurred with a provider in a month. */
  function SpentIn(w: World, sent: seq<Sending>, p: string, m: nat): real {
    if sent == [] then 0.0
    else
      var e := sent[|sent| - 1];
      SpentIn(w, sent[..|sent| - 1], p, m) + (if e.provider == p && w.month(e.event) == m then Price(w, e.event) else 0.0)
  }

  ghost predicate Honest(w: World, st: State, p: string, o: nat, m: nat) {
    ObjectCost(st.ledger, p, o) == Spent(w, st.sent, p, o) && CostIn(st.ledger, p, m) == SpentIn(w, st.sent, p, m)
  }

  /** One answer booked at its price. */
  lemma BookedHonestly(w: World, st: State, name: string, obj: nat, status: Status, p: string, o: nat, m: nat)
    requires Honest(w, st, p, o, m)
    ensures Honest(w, Log(w, Send(st, name, obj), name, obj, Price(w, st.now), status), p, o, m)
  {
    hide Price;
    var s := Send(st, name, obj);
    LogCosts(w, s, name, obj, Price(w, st.now), status, p, o, m);
    assert s.sent[..|s.sent| - 1] == st.sent;
  }

  lemma {:induction false} AttemptsHonest(w: World, st: State, name: string, obj: nat, left: nat, p: string, o: nat, m: nat)
    requires Honest(w, st, p, o, m)
    ensures Honest(w, Attempts(w, st, name, obj, left).0, p, o, m)
    decreases left
  {
    hide Honest, Log, Send;
    LaterHonest(w, st, p, o, m);
    if left > 0 && !w.late(st.now) {
      var a := w.answer(st.now);
      var status := if a.Schema? || a.Good? then Booked else if a.MaskFailed? then MaskBlocked else Failed;
      BookedHonestly(w, st, name, obj, status, p, o, m);
      if a.Schema? || a.Retryable? { AttemptsHonest(w, Log(w, Send(st, name, obj), name, obj, Price(w, st.now), status), name, obj, left - 1, p, o, m); }
    }
  }

  lemma LaterHonest(w: World, st: State, p: string, o: nat, m: nat)
    requires Honest(w, st, p, o, m)
    ensures Honest(w, st.(now := st.now + 1), p, o, m)
  {
  }

  lemma {:induction false} WalkHonest(setup: Setup, w: World, st: State, order: seq<string>, obj: nat, p: string, o: nat, m: nat)
    requires Honest(w, st, p, o, m)
    ensures Honest(w, Walk(setup, w, st, order, obj).0, p, o, m)
    decreases |order|
  {
    hide Attempts, Log, Honest, Stopped;
    if order != [] {
      var name := order[0];
      if w.broken(st.now) {
        LaterHonest(w, st, p, o, m);
        WalkHonest(setup, w, st.(now := st.now + 1), order[1..], obj, p, o, m);
      } else if Stopped(setup, w, st, name, obj) {
        RefusalHonest(w, st, name, obj, p, o, m);
      } else {
        AttemptsHonest(w, st, name, obj, Allowed(setup.config(name)), p, o, m);
        WalkHonest(setup, w, Attempts(w, st, name, obj, Allowed(setup.config(name))).0, order[1..], obj, p, o, m);
      }
    }
  }

  lemma RefusalHonest(w: World, st: State, name: string, obj: nat, p: string, o: nat, m: nat)
    requires Honest(w, st, p, o, m)
    ensures Honest(w, Log(w, st, name, obj, 0.0, Blocked), p, o, m)
  {
    LogCosts(w, st, name, obj, 0.0, Blocked, p, o, m);
  }

  /** Over any sequence of calls the sums in the log are the costs of the answers that came back, per provider and object
    * and per provider and month. */
  lemma {:induction false} RunHonest(setup: Setup, w: World, st: State, objs: seq<nat>, p: string, o: nat, m: nat)
    requires Honest(w, st, p, o, m)
    ensures Honest(w, RunAll(setup, w, st, objs), p, o, m)
    decreases |objs|
  {
    hide Honest, Walk, Enabled;
    if objs != [] {
      WalkHonest(setup, w, st, Enabled(setup, setup.order), objs[0], p, o, m);
      RunHonest(setup, w, Classified(setup, w, st, objs[0]).0, objs[1..], p, o, m);
    }
  }

  /** Hence what a provider really costs for an object stays below the limit plus one series of attempts, and what it costs
    * within a month below the cap plus one series, from an empty log on. */
  lemma SpendingIsLimited(setup: Setup, w: World, objs: seq<nat>, now: nat, most: real, p: string, o: nat, m: nat)
    requires Capped(w, most) && Forward(w)
    ensures var s := RunAll(setup, w, State([], [], now), objs); var series := Worth(Allowed(setup.config(p)), most);
      && (setup.config(p).limit.Some? && !setup.inbox(o) ==>
            Spent(w, s.sent, p, o) == 0.0 || Spent(w, s.sent, p, o) < setup.config(p).limit.value + series)
      && (setup.config(p).monthly.Some? ==>
            SpentIn(w, s.sent, p, m) == 0.0 || SpentIn(w, s.sent, p, m) < setup.config(p).monthly.value + series)
  {
    hide Walk, Enabled, RunAll, Capped, Forward, Worth;
    var st := State([], [], now);
    assert Honest(w, st, p, o, m);
    assert Braked(setup, st.ledger, p, o, most) && MonthBraked(setup, st.ledger, p, m, most) && Dated(w, st);
    RunHonest(setup, w, st, objs, p, o, m);
    ObjectLimitHolds(setup, w, st, objs, most, p, o);
    MonthlyCapHolds(setup, w, st, objs, most, p, m);
  }

  // ---------------------------------------------------------------- a limit reached stays reached

  /** Nothing was sent to the provider for the object since. */
  ghost predicate QuietFor(st: State, later: State, p: string, o: nat) {
    |st.sent| <= |later.sent| && later.sent[..|st.sent|] == st.sent
    && forall i :: |st.sent| <= i < |later.sent| ==> later.sent[i].provider != p || later.sent[i].obj != o
  }

  lemma QuietTwice(a: State, b: State, c: State, p: string, o: nat)
    requires QuietFor(a, b, p, o) && QuietFor(b, c, p, o)
    ensures QuietFor(a, c, p, o)
  {
    assert c.sent[..|a.sent|] == c.sent[..|b.sent|][..|a.sent|];
    forall i | |a.sent| <= i < |c.sent| ensures c.sent[i].provider != p || c.sent[i].obj != o {
      if i < |b.sent| { assert c.sent[i] == c.sent[..|b.sent|][i]; }
    }
  }

  lemma SentOnce(st: State, name: string, obj: nat, p: string, o: nat)
    requires name != p || obj != o
    ensures QuietFor(st, Send(st, name, obj), p, o)
  {
  }

  lemma {:induction false} AttemptsQuiet(w: World, st: State, name: string, obj: nat, left: nat, p: string, o: nat)
    requires name != p || obj != o
    ensures QuietFor(st, Attempts(w, st, name, obj, left).0, p, o)
    decreases left
  {
    hide QuietFor, Price;
    NothingNew(st, p, o);
    if left > 0 && !w.late(st.now) {
      var a, s := w.answer(st.now), Send(st, name, obj);
      SentOnce(st, name, obj, p, o);
      if a.Schema? || a.Retryable? {
        var t := Log(w, s, name, obj, if a.Schema? then a.cost else 0.0, if a.Schema? then Booked else Failed);
        SameSent(st, s, t, p, o);
        AttemptsQuiet(w, t, name, obj, left - 1, p, o);
        QuietTwice(st, t, Attempts(w, t, name, obj, left - 1).0, p, o);
      } else {
        SameSent(st, s, Attempts(w, st, name, obj, left).0, p, o);
      }
    } else {
      SameSent(st, st, Attempts(w, st, name, obj, left).0, p, o);
    }
  }

  lemma NothingNew(st: State, p: string, o: nat)
    ensures QuietFor(st, st, p, o)
  {
  }

  lemma SameSent(st: State, s: State, t: State, p: string, o: nat)
    requires s.sent == t.sent && QuietFor(st, s, p, o)
    ensures QuietFor(st, t, p, o)
  {
  }

  /** The log never loses a cost. */
  ghost predicate Reached(setup: Setup, st: State, p: string, o: nat) {
    setup.config(p).limit.Some? && !setup.inbox(o) && ObjectCost(st.ledger, p, o) >= setup.config(p).limit.value
  }

  lemma {:induction false} WalkQuiet(setup: Setup, w: World, st: State, order: seq<string>, obj: nat, most: real, p: string, o: nat)
    requires Capped(w, most) && Reached(setup, st, p, o)
    ensures var s := Walk(setup, w, st, order, obj).0; QuietFor(st, s, p, o) && Reached(setup, s, p, o)
    decreases |order|
  {
    hide Attempts, Capped, QuietFor, ObjectCost, CostSince;
    NothingNew(st, p, o);
    if order != [] {
      var name := order[0];
      if w.broken(st.now) {
        var t := st.(now := st.now + 1);
        WalkQuiet(setup, w, t, order[1..], obj, most, p, o);
        SameSent(st, st, t, p, o);
        QuietTwice(st, t, Walk(setup, w, t, order[1..], obj).0, p, o);
      } else if Stopped(setup, w, st, name, obj) {
        LogCosts(w, st, name, obj, 0.0, Blocked, p, o, 0);
        SameSent(st, st, Log(w, st, name, obj, 0.0, Blocked), p, o);
      } else {
        var s := Attempts(w, st, name, obj, Allowed(setup.config(name))).0;
        AttemptsCost(w, st, name, obj, Allowed(setup.config(name)), most, p, o);
        AttemptsQuiet(w, st, name, obj, Allowed(setup.config(name)), p, o);
        WalkQuiet(setup, w, s, order[1..], obj, most, p, o);
        QuietTwice(st, s, Walk(setup, w, s, order[1..], obj).0, p, o);
      }
    }
  }

  lemma {:induction false} RunQuiet(setup: Setup, w: World, st: State, objs: seq<nat>, most: real, p: string, o: nat)
    requires Capped(w, most) && Reached(setup, st, p, o)
    ensures QuietFor(st, RunAll(setup, w, st, objs), p, o)
    decreases |objs|
  {
    hide Capped, QuietFor, Walk, Enabled, Reached;
    NothingNew(st, p, o);
    if objs != [] {
      var s := Classified(setup, w, st, objs[0]).0;
      WalkQuiet(setup, w, st, Enabled(setup, setup.order), objs[0], most, p, o);
      RunQuiet(setup, w, s, objs[1..], most, p, o);
      QuietTwice(st, s, RunAll(setup, w, s, objs[1..]), p, o);
    }
  }

  /** Once the cost incurred with a provider for an object has reached the limit, nothing more is ever sent to it for this
    * object. */
  lemma LimitStops(setup: Setup, w: World, before: seq<nat>, after: seq<nat>, now: nat, most: real, p: string, o: nat)
    requires Capped(w, most) && setup.config(p).limit.Some? && !setup.inbox(o)
    requires Spent(w, RunAll(setup, w, State([], [], now), before).sent, p, o) >= setup.config(p).limit.value
    ensures var s := RunAll(setup, w, State([], [], now), before); QuietFor(s, RunAll(setup, w, s, after), p, o)
  {
    hide RunAll, Capped, QuietFor;
    assert Honest(w, State([], [], now), p, o, 0);
    RunHonest(setup, w, State([], [], now), before, p, o, 0);
    RunQuiet(setup, w, RunAll(setup, w, State([], [], now), before), after, most, p, o);
  }

  // ---------------------------------------------------------------- what a call does

  /** The attempts of one series: all to this provider for this object, at most the allowed number, every one but the last
    * answered by an error worth repeating or a violated schema. */
  ghost predicate Series(w: World, st: State, s: State, name: string, obj: nat, left: nat) {
    && |st.sent| <= |s.sent| <= |st.sent| + left && s.sent[..|st.sent|] == st.sent
    && (forall i :: |st.sent| <= i < |s.sent| ==> s.sent[i].provider == name && s.sent[i].obj == obj && s.sent[i].event < s.now)
    && (forall i :: |st.sent| <= i < |s.sent| - 1 ==> Repeats(w, s.sent[i]))
  }

  predicate Repeats(w: World, e: Sending) { w.answer(e.event).Schema? || w.answer(e.event).Retryable? }

  /** The last answer of a series, if there is one. */
  function LastAnswer(w: World, st: State, s: State): Option<Answer> {
    if |s.sent| > |st.sent| then Some(w.answer(s.sent[|s.sent| - 1].event)) else None
  }

  /** Why a series ends: a valid answer, a failed mask check, no time left, an error not worth repeating, or no attempt
    * left. */
  ghost predicate Ends(w: World, st: State, s: State, left: nat, v: Verdict) {
    var last := LastAnswer(w, st, s);
    && (v.Answered? <==> last.Some? && last.value.Good?)
    && (v.MaskCheck? <==> last == Some(MaskFailed))
    && (v.OutOfTime? ==> st.now < s.now && w.late(s.now - 1) && |s.sent| < |st.sent| + left)
    && (v.Exhausted? ==> |s.sent| == |st.sent| + left || last == Some(Fatal))
    && (last == Some(Fatal) ==> v.Exhausted?)
  }

  lemma TraceOn(w: World, st: State, t: State, u: State, name: string, obj: nat, left: nat, v: Verdict)
    requires left > 0 && t.sent == st.sent + [Sending(name, obj, st.now)] && st.now < t.now <= u.now && Repeats(w, Sending(name, obj, st.now))
    requires Series(w, t, u, name, obj, left - 1) && Ends(w, t, u, left - 1, v)
    ensures Series(w, st, u, name, obj, left) && Ends(w, st, u, left, v)
  {
    assert u.sent[..|st.sent|] == u.sent[..|t.sent|][..|st.sent|];
    assert u.sent[|st.sent|] == u.sent[..|t.sent|][|st.sent|] == Sending(name, obj, st.now);
  }

  lemma {:induction false} AttemptsTrace(w: World, st: State, name: string, obj: nat, left: nat)
    ensures var (s, v) := Attempts(w, st, name, obj, left); Series(w, st, s, name, obj, left) && Ends(w, st, s, left, v) && st.now <= s.now
    decreases left
  {
    if left > 0 && !w.late(st.now) {
      var a := w.answer(st.now);
      if a.Schema? || a.Retryable? {
        hide Series, Ends;
        var t := Log(w, Send(st, name, obj), name, obj, if a.Schema? then a.cost else 0.0, if a.Schema? then Booked else Failed);
        AttemptsTrace(w, t, name, obj, left - 1);
        var (u, v) := Attempts(w, t, name, obj, left - 1);
        TraceOn(w, st, t, u, name, obj, left, v);
      }
    }
  }

  /** No open breaker and no time-out on the way. */
  ghost predicate Undisturbed(w: World, st: State, later: State) {
    forall n :: st.now <= n < later.now ==> !w.broken(n) && !w.late(n)
  }

  ghost predicate Asked(st: State, later: State, name: string) {
    exists i :: |st.sent| <= i < |later.sent| && later.sent[i].provider == name
  }

  ghost predicate InTurn(order: seq<string>, a: string, b: string) {
    exists i, j :: 0 <= i < j < |order| && order[i] == a && order[j] == b
  }

  /** How a call ends: with success exactly when the last attempt was answered validly, blocked by the mask check exactly when
    * it failed there, blocked by the budget only with that refusal at the end of the log. Providers are asked in their order. */
  ghost predicate Told(w: World, st: State, s: State, order: seq<string>, r: Outcome) {
    && st.now <= s.now && |st.sent| <= |s.sent| && s.sent[..|st.sent|] == st.sent
    && (r.Success? <==> exists k :: |st.sent| <= k < |s.sent| && w.answer(s.sent[k].event).Good?)
    && (r.BlockedByMaskCheck? <==> exists k :: |st.sent| <= k < |s.sent| && w.answer(s.sent[k].event).MaskFailed?)
    && (forall k :: |st.sent| <= k < |s.sent| ==> s.sent[k].provider in order)
    && (forall k, l :: |st.sent| <= k < l < |s.sent| && s.sent[k].provider != s.sent[l].provider ==>
          InTurn(order, s.sent[k].provider, s.sent[l].provider))
    && (r.Success? || r.BlockedByMaskCheck? ==> var a := w.answer(s.sent[|s.sent| - 1].event); a.Good? || a.MaskFailed?)
    && (r.BudgetBlocked? ==> s.ledger != [] && s.ledger[|s.ledger| - 1].status.Blocked? && s.ledger[|s.ledger| - 1].provider in order)
  }

  lemma TraceAnswers(w: World, st: State, s: State, name: string, obj: nat, left: nat, v: Verdict)
    requires Series(w, st, s, name, obj, left) && Ends(w, st, s, left, v)
    ensures v.Answered? <==> exists k :: |st.sent| <= k < |s.sent| && w.answer(s.sent[k].event).Good?
    ensures v.MaskCheck? <==> exists k :: |st.sent| <= k < |s.sent| && w.answer(s.sent[k].event).MaskFailed?
  {
    if k :| |st.sent| <= k < |s.sent| && (w.answer(s.sent[k].event).Good? || w.answer(s.sent[k].event).MaskFailed?) {
      assert k < |s.sent| - 1 ==> Repeats(w, s.sent[k]);
    }
    if v.Answered? || v.MaskCheck? { assert w.answer(s.sent[|s.sent| - 1].event).Good? || w.answer(s.sent[|s.sent| - 1].event).MaskFailed?; }
  }

  /** A series that found nothing, and what followed it. */
  lemma ToldOn(w: World, st: State, mid: State, s: State, order: seq<string>, obj: nat, left: nat, r: Outcome)
    requires order != [] && Series(w, st, mid, order[0], obj, left) && Ends(w, st, mid, left, Exhausted) && st.now <= mid.now
    requires Told(w, mid, s, order[1..], r)
    ensures Told(w, st, s, order, r)
  {
    TraceAnswers(w, st, mid, order[0], obj, left, Exhausted);
    assert forall k :: 0 <= k < |mid.sent| ==> s.sent[k] == s.sent[..|mid.sent|][k];
    assert s.sent[..|st.sent|] == s.sent[..|mid.sent|][..|st.sent|];
    forall k, l | |st.sent| <= k < l < |s.sent| && s.sent[k].provider != s.sent[l].provider
      ensures InTurn(order, s.sent[k].provider, s.sent[l].provider)
    {
      if l >= |mid.sent| {
        if k >= |mid.sent| { TurnLater(order, s.sent[k].provider, s.sent[l].provider); } else { TurnFirst(order, s.sent[l].provider); }
      }
    }
  }

  lemma TurnFirst(order: seq<string>, b: string)
    requires order != [] && b in order[1..]
    ensures InTurn(order, order[0], b)
  {
    var j :| 0 <= j < |order[1..]| && order[1..][j] == b;
    assert order[j + 1] == b;
  }

  lemma TurnLater(order: seq<string>, a: string, b: string)
    requires order != [] && InTurn(order[1..], a, b)
    ensures InTurn(order, a, b)
  {
    var i, j :| 0 <= i < j < |order[1..]| && order[1..][i] == a && order[1..][j] == b;
    assert order[i + 1] == a && order[j + 1] == b;
  }

  lemma {:induction false} WalkTold(setup: Setup, w: World, st: State, order: seq<string>, obj: nat)
    ensures var (s, r) := Walk(setup, w, st, order, obj); Told(w, st, s, order, r) && !r.Disabled?
    decreases |order|
  {
    hide Attempts, Stopped, InTurn;
    if order != [] {
      if w.broken(st.now) {
        var t := st.(now := st.now + 1);
        WalkTold(setup, w, t, order[1..], obj);
        var (s, r) := Walk(setup, w, t, order[1..], obj);
        forall k, l | |st.sent| <= k < l < |s.sent| && s.sent[k].provider != s.sent[l].provider
          ensures InTurn(order, s.sent[k].provider, s.sent[l].provider)
        {
          TurnLater(order, s.sent[k].provider, s.sent[l].provider);
        }
      } else if !Stopped(setup, w, st, order[0], obj) {
        var left := Allowed(setup.config(order[0]));
        var (s, v) := Attempts(w, st, order[0], obj, left);
        AttemptsTrace(w, st, order[0], obj, left);
        TraceAnswers(w, st, s, order[0], obj, left, v);
        if v.Exhausted? {
          WalkTold(setup, w, s, order[1..], obj);
          var (t, r) := Walk(setup, w, s, order[1..], obj);
          ToldOn(w, st, s, t, order, obj, left, r);
        }
      }
    }
  }

  /** Nobody is passed over: when a call fails with every provider although no breaker was open and time did not run out, each
    * of them was asked. */
  lemma {:induction false} WalkAsks(setup: Setup, w: World, st: State, order: seq<string>, obj: nat, name: string)
    requires Walk(setup, w, st, order, obj).1.ProviderError? && name in order && Allowed(setup.config(name)) > 0
    requires Undisturbed(w, st, Walk(setup, w, st, order, obj).0)
    ensures Asked(st, Walk(setup, w, st, order, obj).0, name)
    decreases |order|
  {
    hide Attempts, Stopped, InTurn;
    var s := Walk(setup, w, st, order, obj).0;
    if w.broken(st.now) {
      WalkTold(setup, w, st.(now := st.now + 1), order[1..], obj);
      assert false;
    } else {
      var left := Allowed(setup.config(order[0]));
      var (mid, v) := Attempts(w, st, order[0], obj, left);
      AttemptsTrace(w, st, order[0], obj, left);
      if v.Exhausted? {
        WalkTold(setup, w, mid, order[1..], obj);
        assert forall k :: 0 <= k < |mid.sent| ==> s.sent[k] == s.sent[..|mid.sent|][k];
        if name == order[0] {
          assert s.sent[|st.sent|].provider == name;
        } else {
          WalkAsks(setup, w, mid, order[1..], obj, name);
          var i :| |mid.sent| <= i < |s.sent| && s.sent[i].provider == name;
          assert |st.sent| <= i < |s.sent|;
        }
      }
    }
  }

  lemma {:induction false} EnabledIs(setup: Setup, order: seq<string>, name: string)
    ensures name in Enabled(setup, order) <==> name in order && setup.config(name).enabled
  {
    if order != [] { EnabledIs(setup, order[1..], name); }
  }

  lemma {:induction false} EnabledInTurn(setup: Setup, order: seq<string>, a: string, b: string)
    requires InTurn(Enabled(setup, order), a, b)
    ensures InTurn(order, a, b)
  {
    var e, rest := Enabled(setup, order), Enabled(setup, order[1..]);
    var i, j :| 0 <= i < j < |e| && e[i] == a && e[j] == b;
    if setup.config(order[0]).enabled && i == 0 {
      assert rest[j - 1] == b;
      EnabledIs(setup, order[1..], b);
      TurnFirst(order, b);
    } else {
      var k := if setup.config(order[0]).enabled then 1 else 0;
      assert rest[i - k] == a && rest[j - k] == b;
      EnabledInTurn(setup, order[1..], a, b);
      TurnLater(order, a, b);
    }
  }

  /** One call from its outside: disabled exactly when no provider is enabled; otherwise enabled providers are asked in their
    * order, it succeeds exactly when one of them answered validly, and a failure without open breakers and time-outs means
    * that all of them were asked. */
  lemma CallTold(setup: Setup, w: World, st: State, obj: nat, name: string)
    ensures var (s, r) := Classified(setup, w, st, obj);
      && (r.Disabled? <==> forall n :: n in setup.order ==> !setup.config(n).enabled)
      && Told(w, st, s, setup.order, r)
      && (forall k :: |st.sent| <= k < |s.sent| ==> setup.config(s.sent[k].provider).enabled)
      && (r.ProviderError? && Undisturbed(w, st, s) && name in setup.order && setup.config(name).enabled && Allowed(setup.config(name)) > 0 ==> Asked(st, s, name))
  {
    hide Walk, InTurn, Enabled;
    var order := Enabled(setup, setup.order);
    var (s, r) := Classified(setup, w, st, obj);
    forall n: string ensures n in order <==> n in setup.order && setup.config(n).enabled { EnabledIs(setup, setup.order, n); }
    if order != [] {
      assert order[0] in order;
      WalkTold(setup, w, st, order, obj);
      forall k, l | |st.sent| <= k < l < |s.sent| && s.sent[k].provider != s.sent[l].provider
        ensures InTurn(setup.order, s.sent[k].provider, s.sent[l].provider)
      {
        EnabledInTurn(setup, setup.order, s.sent[k].provider, s.sent[l].provider);
      }
      if r.ProviderError? && Undisturbed(w, st, s) && name in order && Allowed(setup.config(name)) > 0 {
        WalkAsks(setup, w, st, order, obj, name);
      }
    }
  }

  /** The three reasons to refuse a provider, read off the log after the refusal. */
  ghost predicate Blamed(setup: Setup, ledger: seq<Entry>, obj: nat) {
    ledger != [] &&
    var e := ledger[|ledger| - 1];
    var p := setup.config(e.provider);
    e.obj == obj && e.status.Blocked?
    && (|| (p.limit.Some? && !p.priced)
        || (p.limit.Some? && !setup.inbox(obj) && ObjectCost(ledger, e.provider, obj) >= p.limit.value)
        || (p.monthly.Some? && CostSince(ledger, e.provider, e.month) >= p.monthly.value))
  }

  lemma {:induction false} WalkBlamed(setup: Setup, w: World, st: State, order: seq<string>, obj: nat)
    ensures Walk(setup, w, st, order, obj).1.BudgetBlocked? ==> Blamed(setup, Walk(setup, w, st, order, obj).0.ledger, obj)
    decreases |order|
  {
    hide Attempts;
    if order != [] {
      if w.broken(st.now) {
        WalkBlamed(setup, w, st.(now := st.now + 1), order[1..], obj);
      } else if Stopped(setup, w, st, order[0], obj) {
        var s := Log(w, st, order[0], obj, 0.0, Blocked);
        assert s.ledger[..|s.ledger| - 1] == st.ledger;
      } else {
        hide Blamed;
        WalkBlamed(setup, w, Attempts(w, st, order[0], obj, Allowed(setup.config(order[0]))).0, order[1..], obj);
      }
    }
  }

  lemma {:induction false} RunDated(setup: Setup, w: World, st: State, objs: seq<nat>, most: real)
    requires Capped(w, most) && Forward(w) && Dated(w, st)
    ensures Dated(w, RunAll(setup, w, st, objs))
    decreases |objs|
  {
    hide Capped, Forward, Dated, Walk, Enabled;
    if objs != [] {
      WalkDated(setup, w, st, Enabled(setup, setup.order), objs[0], most);
      RunDated(setup, w, Classified(setup, w, st, objs[0]).0, objs[1..], most);
    }
  }

  lemma {:induction false} WalkDated(setup: Setup, w: World, st: State, order: seq<string>, obj: nat, most: real)
    requires Capped(w, most) && Forward(w) && Dated(w, st)
    ensures Dated(w, Walk(setup, w, st, order, obj).0)
    decreases |order|
  {
    hide Attempts, Log, Stopped, Dated, Capped, Forward;
    if order != [] {
      var name := order[0];
      if w.broken(st.now) {
        Later(w, st);
        WalkDated(setup, w, st.(now := st.now + 1), order[1..], obj, most);
      } else if Stopped(setup, w, st, name, obj) {
        LogDated(w, st, name, obj, 0.0, Blocked);
      } else {
        AttemptsDated(w, st, name, obj, Allowed(setup.config(name)), most);
        WalkDated(setup, w, Attempts(w, st, name, obj, Allowed(setup.config(name))).0, order[1..], obj, most);
      }
    }
  }

  lemma {:induction false} SinceLast(ledger: seq<Entry>, p: string, month: nat)
    requires forall i :: 0 <= i < |ledger| ==> ledger[i].month <= month
    ensures CostSince(ledger, p, month) == CostIn(ledger, p, month)
  {
    if ledger != [] { SinceLast(ledger[..|ledger| - 1], p, month); }
  }

  /** The brake never acts too early: after any calls, one that is blocked by the budget meets a provider that has a limit and
    * no price, or really cost its limit for this object, or really cost its cap in the running month. */
  lemma BlockedForCause(setup: Setup, w: World, before: seq<nat>, obj: nat, now: nat, most: real)
    requires Capped(w, most) && Forward(w)
    requires Classified(setup, w, RunAll(setup, w, State([], [], now), before), obj).1.BudgetBlocked?
    ensures var s := Classified(setup, w, RunAll(setup, w, State([], [], now), before), obj).0;
      s.ledger != [] && s.now > 0 &&
      var p := s.ledger[|s.ledger| - 1].provider; var c := setup.config(p);
      || (c.limit.Some? && !c.priced)
      || (c.limit.Some? && !setup.inbox(obj) && Spent(w, s.sent, p, obj) >= c.limit.value)
      || (c.monthly.Some? && SpentIn(w, s.sent, p, w.month(s.now - 1)) >= c.monthly.value)
  {
    hide RunAll, Capped, Walk, Enabled, Forward, Price, ObjectCost, Spent, SpentIn, CostIn, CostSince;
    var st := RunAll(setup, w, State([], [], now), before);
    var order := Enabled(setup, setup.order);
    var s := Walk(setup, w, st, order, obj).0;
    WalkBlamed(setup, w, st, order, obj);
    BlockedNow(setup, w, st, order, obj);
    var e := s.ledger[|s.ledger| - 1];
    EmptyHonest(w, now, e.provider, obj, e.month);
    RunHonest(setup, w, State([], [], now), before, e.provider, obj, e.month);
    WalkHonest(setup, w, st, order, obj, e.provider, obj, e.month);
    RunDated(setup, w, State([], [], now), before, most);
    BlockedDated(setup, w, st, order, obj, most);
    SinceLast(s.ledger, e.provider, e.month);
  }

  lemma EmptyHonest(w: World, now: nat, p: string, o: nat, m: nat)
    ensures Honest(w, State([], [], now), p, o, m) && Dated(w, State([], [], now))
  {
  }

  lemma {:induction false} BlockedNow(setup: Setup, w: World, st: State, order: seq<string>, obj: nat)
    requires Walk(setup, w, st, order, obj).1.BudgetBlocked?
    ensures var s := Walk(setup, w, st, order, obj).0; s.ledger != [] && s.now > 0 && s.ledger[|s.ledger| - 1].month == w.month(s.now - 1)
    decreases |order|
  {
    hide Attempts, Stopped;
    if w.broken(st.now) {
      BlockedNow(setup, w, st.(now := st.now + 1), order[1..], obj);
    } else if !Stopped(setup, w, st, order[0], obj) {
      BlockedNow(setup, w, Attempts(w, st, order[0], obj, Allowed(setup.config(order[0]))).0, order[1..], obj);
    }
  }

  /** At the refusal no row of the log is later than the refusal itself. */
  lemma {:induction false} BlockedDated(setup: Setup, w: World, st: State, order: seq<string>, obj: nat, most: real)
    requires Capped(w, most) && Forward(w) && Dated(w, st) && Walk(setup, w, st, order, obj).1.BudgetBlocked?
    ensures var l := Walk(setup, w, st, order, obj).0.ledger; l != [] && forall i :: 0 <= i < |l| ==> l[i].month <= l[|l| - 1].month
    decreases |order|
  {
    hide Attempts, Stopped, Capped, Forward;
    var name := order[0];
    if w.broken(st.now) {
      Later(w, st);
      BlockedDated(setup, w, st.(now := st.now + 1), order[1..], obj, most);
    } else if !Stopped(setup, w, st, name, obj) {
      AttemptsDated(w, st, name, obj, Allowed(setup.config(name)), most);
      BlockedDated(setup, w, Attempts(w, st, name, obj, Allowed(setup.config(name))).0, order[1..], obj, most);
    }
  }
}
