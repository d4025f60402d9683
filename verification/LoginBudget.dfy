/** `http/admin_auth.py`: the process-wide budget of administrator login attempts. */
module LoginBudget {
  import opened Text

  const WINDOW := 60.0
  const MAX_FAILURES := 5
  const MAX_BACKOFF := 30.0

  datatype Budget = Budget(windowStarted: real, failures: int, inFlight: int, blockedUntil: real)

  function Power2(n: nat): (r: real)
    ensures r >= 1.0
  {
    if n == 0 then 1.0 else 2.0 * Power2(n - 1)
  }

  function Min(a: real, b: real): real { if a <= b then a else b }

  function Max(a: real, b: real): real { if a >= b then a else b }

  function Expire(b: Budget, now: real): Budget {
    if now - b.windowStarted >= WINDOW then b.(windowStarted := now, failures := 0, blockedUntil := 0.0) else b
  }

  predicate Grants(b: Budget, now: real) {
    var e := Expire(b, now);
    !(now < e.blockedUntil) && e.failures + e.inFlight < MAX_FAILURES
  }

  function Allowed(b: Budget, now: real): Budget {
    var e := Expire(b, now);
    if Grants(b, now) then e.(inFlight := e.inFlight + 1) else e
  }

  function Released(b: Budget): Budget { b.(inFlight := if b.inFlight > 0 then b.inFlight - 1 else 0) }

  function Delay(failures: int): real
    requires failures >= MAX_FAILURES
  {
    Min(Power2(failures - MAX_FAILURES), MAX_BACKOFF)
  }

  /** The backoff after each number of failures, in seconds. */
  lemma DelayTable(failures: int)
    ensures failures == 5 ==> Delay(failures) == 1.0
    ensures failures == 6 ==> Delay(failures) == 2.0
    ensures failures == 7 ==> Delay(failures) == 4.0
    ensures failures == 8 ==> Delay(failures) == 8.0
    ensures failures == 9 ==> Delay(failures) == 16.0
    ensures failures >= 10 ==> Delay(failures) == 30.0
  {
    assert Power2(0) == 1.0 && Power2(1) == 2.0 && Power2(2) == 4.0 && Power2(3) == 8.0;
    assert Power2(4) == 16.0 && Power2(5) == 32.0;
    if failures >= 10 { Power2Grows(failures - 5, 5); }
  }

  lemma {:induction false} Power2Grows(n: nat, k: nat)
    requires n >= k
    ensures Power2(n) >= Power2(k)
  {
    if n > k { Power2Grows(n - 1, k); }
  }

  /** A failed answer starts a new window when the old one is over, but keeps the block. */
  function Failed(b: Budget, now: real): Budget {
    var r := Released(b);
    var w := if now - r.windowStarted >= WINDOW then r.(windowStarted := now, failures := 0) else r;
    var f := w.(failures := w.failures + 1);
    if f.failures >= MAX_FAILURES then f.(blockedUntil := Max(f.blockedUntil, now + Delay(f.failures))) else f
  }

  function Succeeded(b: Budget, now: real): Budget {
    Released(b).(windowStarted := now, failures := 0, blockedUntil := 0.0)
  }

  /** The object the handlers share; each method is one critical section. */
  class LoginAttemptBudget {
    var windowStarted: real
    var failures: int
    var inFlight: int
    var blockedUntil: real

    ghost function State(): Budget
      reads this
    {
      Budget(windowStarted, failures, inFlight, blockedUntil)
    }

    constructor (now: real)
      ensures State() == Budget(now, 0, 0, 0.0)
    {
      windowStarted, failures, inFlight, blockedUntil := now, 0, 0, 0.0;
    }

    method Allow(now: real) returns (granted: bool)
      modifies this
      ensures granted == Grants(old(State()), now) && State() == Allowed(old(State()), now)
      ensures now - old(windowStarted) >= 60.0 ==> windowStarted == now && failures == 0 && blockedUntil == 0.0
      ensures now - old(windowStarted) < 60.0 ==>
        windowStarted == old(windowStarted) && failures == old(failures) && blockedUntil == old(blockedUntil)
      ensures granted <==> blockedUntil <= now && failures + old(inFlight) < 5
      ensures inFlight == old(inFlight) + if granted then 1 else 0
    {
      if now - windowStarted >= WINDOW {
        windowStarted := now;
        failures := 0;
        blockedUntil := 0.0;
      }
      if now < blockedUntil || failures + inFlight >= MAX_FAILURES {
        return false;
      }
      inFlight := inFlight + 1;
      granted := true;
    }

    method Fail(now: real)
      requires failures >= 0
      modifies this
      ensures State() == Failed(old(State()), now) && failures >= 0
      ensures inFlight == if old(inFlight) >= 1 then old(inFlight) - 1 else 0
      ensures now - old(windowStarted) >= 60.0 ==> windowStarted == now && failures == 1
      ensures now - old(windowStarted) < 60.0 ==> windowStarted == old(windowStarted) && failures == old(failures) + 1
      ensures failures < 5 ==> blockedUntil == old(blockedUntil)
      ensures failures >= 5 ==>
        var until := now + if failures >= 10 then 30.0 else [1.0, 2.0, 4.0, 8.0, 16.0][failures - 5];
        blockedUntil == if old(blockedUntil) >= until then old(blockedUntil) else until
    {
      DelayTable(if now - windowStarted >= WINDOW then 1 else failures + 1);
      inFlight := if inFlight > 0 then inFlight - 1 else 0;
      if now - windowStarted >= WINDOW {
        windowStarted := now;
        failures := 0;
      }
      failures := failures + 1;
      if failures >= MAX_FAILURES {
        var exponent := failures - MAX_FAILURES;
        var delay := Min(Power2(exponent), MAX_BACKOFF);
        blockedUntil := Max(blockedUntil, now + delay);
      }
    }

    method Succeed(now: real)
      modifies this
      ensures State() == Succeeded(old(State()), now)
      ensures windowStarted == now && failures == 0 && blockedUntil == 0.0
      ensures inFlight == if old(inFlight) >= 1 then old(inFlight) - 1 else 0
    {
      inFlight := if inFlight > 0 then inFlight - 1 else 0;
      windowStarted := now;
      failures := 0;
      blockedUntil := 0.0;
    }

    /** `_AdminAuth.login`: the grant is answered once, unless loading the password library
        raises between the grant and the verification; that grant is never answered. */
    method Login(now: real, later: real, libraryLoads: bool, validUser: bool, verified: Option<bool>) returns (ok: bool)
      requires failures >= 0 && inFlight >= 0
      modifies this
      ensures ok <==> Grants(old(State()), now) && libraryLoads && validUser && verified == Some(true)
      ensures inFlight == old(inFlight) + if Grants(old(State()), now) && !libraryLoads then 1 else 0
      ensures ok ==> State() == Succeeded(Allowed(old(State()), now), later)
      ensures Grants(old(State()), now) && libraryLoads && !ok ==> State() == Failed(Allowed(old(State()), now), later)
      ensures !Grants(old(State()), now) ==> State() == Allowed(old(State()), now)
    {
      var granted := Allow(now);
      if !granted { return false; }
      if !libraryLoads { return false; }
      if verified.None? || !validUser || !verified.value {
        Fail(later);
        return false;
      }
      Succeed(later);
      ok := true;
    }
  }

  // ---------------------------------------------------------------- whole runs

  datatype Event = Allow(now: real) | Fail(now: real) | Succeed(now: real)

  /** A run so far: the budget, unanswered grants, the clock readings of all grants, how many of
      them fell in the current and in the previous window, and the latest failure reading. */
  datatype Trace = Trace(
    budget: Budget, outstanding: nat, grants: seq<real>, current: nat, previous: nat, lastFailure: Option<real>)

  function Start(now: real): Trace { Trace(Budget(now, 0, 0, 0.0), 0, [], 0, 0, None) }

  /** An answer belongs to a grant that has not been answered. */
  predicate Disciplined(t: Trace, e: Event) { e.Allow? || t.outstanding > 0 }

  function Later(a: Option<real>, b: real): Option<real> { if a.None? then Some(b) else Some(Max(a.value, b)) }

  function After(t: Trace, e: Event): Trace
    requires Disciplined(t, e)
  {
    var reset := e.now - t.budget.windowStarted >= WINDOW;
    var current := if reset then 0 else t.current;
    var previous := if reset then t.current else t.previous;
    match e
    case Allow(now) =>
      if Grants(t.budget, now)
      then Trace(Allowed(t.budget, now), t.outstanding + 1, t.grants + [now], current + 1, previous, t.lastFailure)
      else t.(budget := Allowed(t.budget, now), current := current, previous := previous)
    case Fail(now) =>
      t.(budget := Failed(t.budget, now), outstanding := t.outstanding - 1, current := current, previous := previous,
         lastFailure := Later(t.lastFailure, now))
    case Succeed(now) => t.(budget := Succeeded(t.budget, now), outstanding := t.outstanding - 1)
  }

  function Run(t: Trace, es: seq<Event>): Option<Trace>
    decreases |es|
  {
    if es == [] then Some(t)
    else if !Disciplined(t, es[0]) then None
    else Run(After(t, es[0]), es[1..])
  }

  predicate Bounded(t: Trace) {
    && t.budget.inFlight == t.outstanding
    && t.budget.failures >= 0
    && t.budget.failures + t.budget.inFlight <= MAX_FAILURES
    && (t.budget.blockedUntil <= 0.0
        || (t.lastFailure.Some? && t.budget.blockedUntil <= t.lastFailure.value + 1.0))
  }

  lemma BoundedStep(t: Trace, e: Event)
    requires Bounded(t) && Disciplined(t, e)
    ensures Bounded(After(t, e))
    ensures e.Fail? && After(t, e).budget.failures >= MAX_FAILURES ==> Delay(After(t, e).budget.failures) == 1.0
  {
  }

  /** In every run that answers each grant at most once: failures and attempts in flight together never exceed five,
      so the backoff exponent is always 0, and the block ends at most one second after the latest failure. */
  lemma {:induction false} NeverMoreThanFive(t: Trace, es: seq<Event>)
    requires Bounded(t) && Run(t, es).Some?
    ensures Bounded(Run(t, es).value)
    decreases |es|
  {
    if es != [] {
      BoundedStep(t, es[0]);
      NeverMoreThanFive(After(t, es[0]), es[1..]);
    }
  }

  /** A minute after the window began, an attempt is granted if and only if fewer than five grants are unanswered. */
  lemma GrantedExactlyWhen(begin: real, es: seq<Event>, now: real)
    requires Run(Start(begin), es).Some? && now >= 0.0
    requires now - Run(Start(begin), es).value.budget.windowStarted >= WINDOW
    ensures Grants(Run(Start(begin), es).value.budget, now) <==> Run(Start(begin), es).value.outstanding < MAX_FAILURES
  {
    NeverMoreThanFive(Start(begin), es);
  }

  function FailuresIn(es: seq<Event>): nat {
    if es == [] then 0 else (if es[0].Fail? then 1 else 0) + FailuresIn(es[1..])
  }

  /** Within one window the counter counts: it has grown by exactly the failures of the run. */
  lemma {:induction false} FailuresAreCounted(t: Trace, es: seq<Event>)
    requires Run(t, es).Some? && NoSuccess(es)
    requires forall i :: 0 <= i < |es| ==> es[i].now - t.budget.windowStarted < WINDOW
    ensures Run(t, es).value.budget.failures == t.budget.failures + FailuresIn(es)
    ensures Run(t, es).value.budget.windowStarted == t.budget.windowStarted
    decreases |es|
  {
    if es != [] {
      assert !es[0].Succeed? && es[0].now - t.budget.windowStarted < WINDOW;
      FailuresAreCounted(After(t, es[0]), es[1..]);
    }
  }

  /** A success forgets: from it on the counter holds exactly the failures since, until a minute has passed. */
  lemma SuccessForgets(t: Trace, now: real, es: seq<Event>)
    requires t.outstanding > 0 && NoSuccess(es) && forall i :: 0 <= i < |es| ==> es[i].now - now < WINDOW
    requires Run(After(t, Succeed(now)), es).Some?
    ensures Run(After(t, Succeed(now)), es).value.budget.failures == FailuresIn(es)
    ensures Run(After(t, Succeed(now)), es).value.budget.windowStarted == now
  {
    FailuresAreCounted(After(t, Succeed(now)), es);
  }

  /** In every reachable state an attempt after a success is granted if and only if fewer than five grants are
      unanswered, which is always so. */
  lemma GrantedAfterSuccess(begin: real, es: seq<Event>, now: real, later: real)
    requires Run(Start(begin), es).Some? && Run(Start(begin), es).value.outstanding > 0 && later >= 0.0
    ensures var t := After(Run(Start(begin), es).value, Succeed(now));
      (Grants(t.budget, later) <==> t.outstanding < 5) && t.outstanding < 5
  {
    NeverMoreThanFive(Start(begin), es);
  }

  predicate OnlyAllows(es: seq<Event>) { forall i :: 0 <= i < |es| ==> es[i].Allow? }

  /** With five unanswered grants no later attempt is granted, however many there are and whenever they come. */
  lemma {:induction false} LockedOut(t: Trace, es: seq<Event>)
    requires Bounded(t) && t.outstanding == MAX_FAILURES && OnlyAllows(es)
    ensures Run(t, es).Some? && Run(t, es).value.grants == t.grants && Run(t, es).value.outstanding == MAX_FAILURES
    decreases |es|
  {
    if es != [] {
      BoundedStep(t, es[0]);
      LockedOut(After(t, es[0]), es[1..]);
    }
  }

  /** The permanent lockout is reachable: five grants at the start that are never answered, then nothing is granted
      again. */
  lemma UnansweredGrantsLockOut(begin: real, es: seq<Event>)
    requires begin >= 0.0 && OnlyAllows(es)
    ensures var t := Run(Start(begin), Repeat(Allow(begin), MAX_FAILURES) + es);
      t.Some? && t.value.grants == Repeat(begin, MAX_FAILURES) && t.value.outstanding == MAX_FAILURES
  {
    var five := Repeat(Allow(begin), MAX_FAILURES);
    Burst(Start(begin), begin, MAX_FAILURES);
    RunConcat(Start(begin), five, es);
    NeverMoreThanFive(Start(begin), five);
    LockedOut(Run(Start(begin), five).value, es);
    assert [] + Repeat(begin, MAX_FAILURES) == Repeat(begin, MAX_FAILURES);
  }

  // ---------------------------------------------------------------- answers without grants

  function Replayed(b: Budget, e: Event): Budget
    requires b.failures >= 0
  {
    match e
    case Allow(now) => Allowed(b, now)
    case Fail(now) => Failed(b, now)
    case Succeed(now) => Succeeded(b, now)
  }

  lemma ReplayedCounts(b: Budget, e: Event)
    requires b.failures >= 0
    ensures Replayed(b, e).failures >= 0
  {
  }

  /** Any events at all, answers to nothing included. */
  function Replay(b: Budget, es: seq<Event>): (r: Budget)
    requires b.failures >= 0
    decreases |es|
  {
    ReplayedCounts(b, if es == [] then Allow(0.0) else es[0]);
    if es == [] then b else Replay(Replayed(b, es[0]), es[1..])
  }

  function LatestFailure(es: seq<Event>): Option<real> {
    if es == [] then None
    else
      var before, last := LatestFailure(es[..|es| - 1]), es[|es| - 1];
      if last.Fail? then Later(before, last.now) else before
  }

  predicate Capped(b: Budget, latest: Option<real>) {
    b.blockedUntil <= 0.0 || (latest.Some? && b.blockedUntil <= latest.value + MAX_BACKOFF)
  }

  lemma CappedStep(b: Budget, e: Event, latest: Option<real>)
    requires b.failures >= 0 && Capped(b, latest)
    ensures Capped(Replayed(b, e), if e.Fail? then Later(latest, e.now) else latest)
  {
  }

  /** In every run, whether or not answers belong to grants, the block ends at most thirty seconds after the latest
      failure. */
  lemma {:induction false} DelayCapped(begin: real, es: seq<Event>)
    ensures Capped(Replay(Budget(begin, 0, 0, 0.0), es), LatestFailure(es))
  {
    if es != [] {
      var n := |es| - 1;
      DelayCapped(begin, es[..n]);
      ReplaySnoc(Budget(begin, 0, 0, 0.0), es[..n], es[n]);
      assert es[..n] + [es[n]] == es;
      CappedStep(Replay(Budget(begin, 0, 0, 0.0), es[..n]), es[n], LatestFailure(es[..n]));
    }
  }

  lemma {:induction false} ReplaySnoc(b: Budget, es: seq<Event>, e: Event)
    requires b.failures >= 0
    ensures Replay(b, es).failures >= 0
    ensures Replay(b, es + [e]) == Replayed(Replay(b, es), e)
    decreases |es|
  {
    if es == [] {
      assert (es + [e])[1..] == [];
      ReplayedCounts(b, e);
    } else {
      assert (es + [e])[1..] == es[1..] + [e];
      ReplayedCounts(b, es[0]);
      ReplaySnoc(Replayed(b, es[0]), es[1..], e);
    }
  }

  // ---------------------------------------------------------------- ten grants in almost a minute

  predicate NoSuccess(es: seq<Event>) { forall i :: 0 <= i < |es| ==> !es[i].Succeed? }

  /** The clock is read before the lock is taken: each reading is at most `lag` behind the largest one so far. */
  predicate Lagging(clock: real, es: seq<Event>, lag: real)
    decreases |es|
  {
    es == [] || (es[0].now >= clock - lag && Lagging(Max(clock, es[0].now), es[1..], lag))
  }

  /** The clock readings come in the order in which the lock is taken. */
  predicate InOrder(clock: real, es: seq<Event>)
    decreases |es|
  {
    es == [] || (clock <= es[0].now && InOrder(es[0].now, es[1..]))
  }

  /** Lock order is the case without lag. */
  lemma {:induction false} InOrderIsNoLag(clock: real, es: seq<Event>)
    ensures InOrder(clock, es) <==> Lagging(clock, es, 0.0)
    decreases |es|
  {
    if es != [] && es[0].now >= clock { InOrderIsNoLag(es[0].now, es[1..]); }
  }

  /** At most five grants belong to a window, and they lie around it; those of older windows lie further back. */
  predicate Paced(t: Trace, clock: real, lag: real) {
    var g, n, w := t.grants, |t.grants|, t.budget.windowStarted;
    && Bounded(t) && w <= clock && lag >= 0.0
    && t.current <= t.budget.failures + t.budget.inFlight
    && t.previous <= MAX_FAILURES && t.current + t.previous <= n
    && (forall i :: n - t.current <= i < n ==> w - lag <= g[i] < w + WINDOW)
    && (forall i :: 0 <= i < n - t.current ==> g[i] < w)
    && (forall i :: 0 <= i < n - t.current - t.previous ==> g[i] < w - WINDOW)
    && Spread(g, WINDOW - lag)
  }

  /** Any eleven grants in a row take longer than `gap`. */
  predicate Spread(g: seq<real>, gap: real) { forall i, j :: 0 <= i && i + 10 <= j < |g| ==> g[i] + gap < g[j] }

  lemma PacedGrant(t: Trace, clock: real, lag: real, e: Event)
    requires Paced(t, clock, lag) && e.Allow? && Grants(t.budget, e.now) && clock - lag <= e.now
    ensures Paced(After(t, e), Max(clock, e.now), lag)
  {
    BoundedStep(t, e);
    var u := After(t, e);
    var n := |t.grants|;
    forall i | 0 <= i && i + 10 <= n ensures u.grants[i] + (WINDOW - lag) < u.grants[n] {
      assert i < |u.grants| - u.current - u.previous;
    }
  }

  lemma PacedStep(t: Trace, clock: real, lag: real, e: Event)
    requires Paced(t, clock, lag) && Disciplined(t, e) && !e.Succeed? && clock - lag <= e.now
    ensures Paced(After(t, e), Max(clock, e.now), lag)
  {
    if e.Allow? && Grants(t.budget, e.now) {
      PacedGrant(t, clock, lag, e);
    } else {
      BoundedStep(t, e);
    }
  }

  lemma {:induction false} PacedAlways(t: Trace, clock: real, lag: real, es: seq<Event>)
    requires Paced(t, clock, lag) && Run(t, es).Some? && NoSuccess(es) && Lagging(clock, es, lag)
    ensures Spread(Run(t, es).value.grants, WINDOW - lag)
    decreases |es|
  {
    if es != [] {
      PacedStep(t, clock, lag, es[0]);
      PacedAlways(After(t, es[0]), Max(clock, es[0].now), lag, es[1..]);
    }
  }

  predicate Within(x: real, lo: real, length: real) { lo <= x < lo + length }

  /** How many readings fall in the half-open interval of the given length from `lo`. */
  function CountIn(g: seq<real>, lo: real, length: real): nat {
    if g == [] then 0
    else CountIn(g[..|g| - 1], lo, length) + if Within(g[|g| - 1], lo, length) then 1 else 0
  }

  lemma {:induction false} CountAtMost(g: seq<real>, lo: real, length: real)
    requires Spread(g, length)
    ensures CountIn(g, lo, length) <= 10
  {
    if g != [] {
      if Within(g[|g| - 1], lo, length) {
        CountRecent(g, lo, length, if |g| > 10 then |g| - 10 else 0);
      } else {
        CountAtMost(g[..|g| - 1], lo, length);
      }
    }
  }

  lemma {:induction false} CountRecent(g: seq<real>, lo: real, length: real, k: nat)
    requires k <= |g|
    requires forall i :: 0 <= i < k ==> !Within(g[i], lo, length)
    ensures CountIn(g, lo, length) <= |g| - k
  {
    if g != [] { CountRecent(g[..|g| - 1], lo, length, if k < |g| then k else k - 1); }
  }

  /** With no success and readings at most `lag` behind, no interval of a minute less the lag holds more than ten
      grants. With readings in lock order the lag is nothing and the interval is the whole minute. */
  lemma AtMostTenGrants(begin: real, es: seq<Event>, lag: real, lo: real, length: real)
    requires Run(Start(begin), es).Some? && NoSuccess(es)
    requires lag >= 0.0 && Lagging(begin, es, lag) && length <= WINDOW - lag
    ensures CountIn(Run(Start(begin), es).value.grants, lo, length) <= 10
  {
    PacedAlways(Start(begin), begin, lag, es);
    CountAtMost(Run(Start(begin), es).value.grants, lo, length);
  }

  /** The promise as documented, for readings in lock order. */
  lemma AtMostTenGrantsAMinute(begin: real, es: seq<Event>, lo: real)
    requires Run(Start(begin), es).Some? && NoSuccess(es) && InOrder(begin, es)
    ensures CountIn(Run(Start(begin), es).value.grants, lo, WINDOW) <= 10
  {
    InOrderIsNoLag(begin, es);
    AtMostTenGrants(begin, es, 0.0, lo, WINDOW);
  }

  // ---------------------------------------------------------------- the lag is felt in full

  function Repeat<T>(x: T, n: nat): seq<T> { seq(n, _ => x) }

  lemma {:induction false} RunConcat(t: Trace, xs: seq<Event>, ys: seq<Event>)
    ensures Run(t, xs + ys) == (var u := Run(t, xs); if u.None? then None else Run(u.value, ys))
    decreases |xs|
  {
    if xs == [] {
      assert xs + ys == ys;
    } else {
      assert (xs + ys)[1..] == xs[1..] + ys;
      if Disciplined(t, xs[0]) { RunConcat(After(t, xs[0]), xs[1..], ys); }
    }
  }

  /** A burst of grants that nothing stops. */
  lemma {:induction false} Burst(t: Trace, now: real, n: nat)
    requires t.budget.failures >= 0 && t.budget.failures + t.budget.inFlight + n <= MAX_FAILURES
    requires now - t.budget.windowStarted < WINDOW && t.budget.blockedUntil <= now
    ensures Run(t, Repeat(Allow(now), n)) == Some(t.(
      budget := t.budget.(inFlight := t.budget.inFlight + n), outstanding := t.outstanding + n,
      grants := t.grants + Repeat(now, n), current := t.current + n))
    decreases n
  {
    if n == 0 {
      assert t.grants + Repeat(now, 0) == t.grants;
    } else {
      var u := After(t, Allow(now));
      Burst(u, now, n - 1);
      assert Repeat(Allow(now), n)[1..] == Repeat(Allow(now), n - 1);
      assert t.grants + Repeat(now, n) == u.grants + Repeat(now, n - 1);
    }
  }

  /** Answering five grants in flight with failures blocks for one second. */
  lemma FiveFailures(t: Trace, now: real)
    requires t.budget.failures == 0 && t.budget.inFlight == 5 && t.outstanding == 5
    requires now - t.budget.windowStarted < WINDOW && t.budget.blockedUntil <= now + 1.0
    ensures Run(t, Repeat(Fail(now), 5)) == Some(t.(
      budget := Budget(t.budget.windowStarted, 5, 0, now + 1.0), outstanding := 0,
      lastFailure := Later(t.lastFailure, now)))
  {
    var f := Fail(now);
    assert forall n: nat :: n > 0 ==> Repeat(f, n)[0] == f && Repeat(f, n)[1..] == Repeat(f, n - 1);
    var t1 := After(t, f);
    var t2 := After(t1, f);
    var t3 := After(t2, f);
    var t4 := After(t3, f);
    var t5 := After(t4, f);
    assert Run(t5, Repeat(f, 0)) == Some(t5);
    assert Run(t4, Repeat(f, 1)) == Some(t5);
    assert Run(t3, Repeat(f, 2)) == Some(t5);
    assert Run(t2, Repeat(f, 3)) == Some(t5);
    assert Run(t1, Repeat(f, 4)) == Some(t5);
  }

  /** Five grants answered by five failures, as one stretch of a run. */
  lemma FiveRefused(t: Trace, now: real)
    requires t.budget.failures == 0 && t.budget.inFlight == 0 && t.outstanding == 0
    requires now - t.budget.windowStarted < WINDOW && t.budget.blockedUntil <= now
    ensures Run(t, Repeat(Allow(now), 5) + Repeat(Fail(now), 5)) == Some(t.(
      budget := Budget(t.budget.windowStarted, 5, 0, now + 1.0), grants := t.grants + Repeat(now, 5),
      current := t.current + 5, lastFailure := Later(t.lastFailure, now)))
  {
    Burst(t, now, 5);
    FiveFailures(Run(t, Repeat(Allow(now), 5)).value, now);
    RunConcat(t, Repeat(Allow(now), 5), Repeat(Fail(now), 5));
  }

  lemma OneAllow(t: Trace, now: real)
    ensures Run(t, [Allow(now)]) == Some(After(t, Allow(now)))
  {
    assert [Allow(now)][1..] == [];
  }

  /** Five refused attempts just before the minute, five at the minute in a new window, one that opens
      the third window, and one whose reading is `lag` old when it takes the lock. */
  function SecondWindow(lag: real): seq<Event> {
    [Allow(60.0)] + (Repeat(Allow(60.0), 4) + (Repeat(Fail(60.0), 5) + ([Allow(120.0)] + [Allow(120.0 - lag)])))
  }

  function Stale(early: real, lag: real): seq<Event> {
    (Repeat(Allow(60.0 - early), 5) + Repeat(Fail(60.0 - early), 5)) + SecondWindow(lag)
  }

  lemma StaleSecondWindow(t: Trace, early: real, lag: real)
    requires t.budget == Budget(0.0, 5, 0, 61.0 - early) && t.outstanding == 0 && 0.0 <= lag < WINDOW
    ensures var r := Run(t, SecondWindow(lag));
      r.Some? && r.value.grants == t.grants + Repeat(60.0, 5) + [120.0] + [120.0 - lag]
  {
    var a2, a3, f2 := [Allow(60.0)], Repeat(Allow(60.0), 4), Repeat(Fail(60.0), 5);
    var x, y := [Allow(120.0)], [Allow(120.0 - lag)];
    OneAllow(t, 60.0);
    var s3 := After(t, Allow(60.0));
    Burst(s3, 60.0, 4);
    var s4 := Run(s3, a3).value;
    FiveFailures(s4, 60.0);
    var s5 := Run(s4, f2).value;
    OneAllow(s5, 120.0);
    OneAllow(After(s5, Allow(120.0)), 120.0 - lag);
    RunConcat(s5, x, y);
    RunConcat(s4, f2, x + y);
    RunConcat(s3, a3, f2 + (x + y));
    RunConcat(t, a2, a3 + (f2 + (x + y)));
    assert t.grants + [60.0] + Repeat(60.0, 4) == t.grants + Repeat(60.0, 5);
  }

  lemma StaleRuns(early: real, lag: real)
    requires 0.0 < early <= 1.0 && 0.0 <= lag < WINDOW
    ensures var r := Run(Start(0.0), Stale(early, lag));
      r.Some? && r.value.grants == Repeat(60.0 - early, 5) + Repeat(60.0, 5) + [120.0] + [120.0 - lag]
  {
    var now := 60.0 - early;
    var a := Repeat(Allow(now), 5) + Repeat(Fail(now), 5);
    FiveRefused(Start(0.0), now);
    var s := Run(Start(0.0), a).value;
    StaleSecondWindow(s, early, lag);
    RunConcat(Start(0.0), a, SecondWindow(lag));
    assert [] + Repeat(now, 5) == Repeat(now, 5);
  }

  lemma {:induction false} LaggingConcat(clock: real, xs: seq<Event>, ys: seq<Event>, lag: real)
    requires Lagging(clock, xs, lag)
    requires Lagging(Latest(clock, xs), ys, lag)
    ensures Lagging(clock, xs + ys, lag)
    decreases |xs|
  {
    if xs == [] {
      assert xs + ys == ys;
    } else {
      assert (xs + ys)[1..] == xs[1..] + ys;
      LaggingConcat(Max(clock, xs[0].now), xs[1..], ys, lag);
    }
  }

  function Latest(clock: real, es: seq<Event>): real
    decreases |es|
  {
    if es == [] then clock else Latest(Max(clock, es[0].now), es[1..])
  }

  lemma {:induction false} RepeatLags(clock: real, e: Event, n: nat, lag: real)
    requires clock <= e.now && lag >= 0.0
    ensures Lagging(clock, Repeat(e, n), lag) && Latest(clock, Repeat(e, n)) == if n == 0 then clock else e.now
    decreases n
  {
    if n > 0 {
      assert Repeat(e, n)[1..] == Repeat(e, n - 1);
      RepeatLags(e.now, e, n - 1, lag);
    }
  }

  lemma OneLags(clock: real, e: Event, lag: real)
    requires clock - lag <= e.now
    ensures Lagging(clock, [e], lag) && Latest(clock, [e]) == Max(clock, e.now)
  {
    assert [e][1..] == [];
  }

  lemma SecondWindowLags(clock: real, lag: real)
    requires clock <= 60.0 && 0.0 <= lag
    ensures Lagging(clock, SecondWindow(lag), lag)
  {
    var a3, f2 := Repeat(Allow(60.0), 4), Repeat(Fail(60.0), 5);
    var x, y := [Allow(120.0)], [Allow(120.0 - lag)];
    OneLags(clock, Allow(60.0), lag);
    RepeatLags(60.0, Allow(60.0), 4, lag);
    RepeatLags(60.0, Fail(60.0), 5, lag);
    OneLags(60.0, Allow(120.0), lag);
    OneLags(120.0, Allow(120.0 - lag), lag);
    LaggingConcat(60.0, x, y, lag);
    LaggingConcat(60.0, f2, x + y, lag);
    LaggingConcat(60.0, a3, f2 + (x + y), lag);
    LaggingConcat(clock, [Allow(60.0)], a3 + (f2 + (x + y)), lag);
  }

  lemma StaleLags(early: real, lag: real)
    requires 0.0 < early <= 1.0 && 0.0 <= lag
    ensures Lagging(0.0, Stale(early, lag), lag)
  {
    var now := 60.0 - early;
    RepeatLags(0.0, Allow(now), 5, lag);
    RepeatLags(now, Fail(now), 5, lag);
    LaggingConcat(0.0, Repeat(Allow(now), 5), Repeat(Fail(now), 5), lag);
    LatestConcat(0.0, Repeat(Allow(now), 5), Repeat(Fail(now), 5));
    SecondWindowLags(now, lag);
    LaggingConcat(0.0, Repeat(Allow(now), 5) + Repeat(Fail(now), 5), SecondWindow(lag), lag);
  }

  lemma {:induction false} LatestConcat(clock: real, xs: seq<Event>, ys: seq<Event>)
    ensures Latest(clock, xs + ys) == Latest(Latest(clock, xs), ys)
    decreases |xs|
  {
    if xs == [] {
      assert xs + ys == ys;
    } else {
      assert (xs + ys)[1..] == xs[1..] + ys;
      LatestConcat(Max(clock, xs[0].now), xs[1..], ys);
    }
  }

  lemma StaleHasNoSuccess(early: real, lag: real)
    ensures NoSuccess(Stale(early, lag))
  {
  }

  /** The bound is exact: for every lag, any interval longer than a minute less the lag holds eleven grants of some
      run. */
  lemma StaleReadingBreaksTheBound(lag: real, length: real) returns (es: seq<Event>, lo: real)
    requires 0.0 <= lag < WINDOW && length > WINDOW - lag
    ensures Run(Start(0.0), es).Some? && NoSuccess(es) && Lagging(0.0, es, lag)
    ensures CountIn(Run(Start(0.0), es).value.grants, lo, length) >= 11
  {
    var early := Min((length - (WINDOW - lag)) / 2.0, 1.0);
    es, lo := Stale(early, lag), 60.0 - early;
    StaleRuns(early, lag);
    StaleLags(early, lag);
    StaleHasNoSuccess(early, lag);
    var p, q, x, y := Repeat(60.0 - early, 5), Repeat(60.0, 5), [120.0], [120.0 - lag];
    CountSplit(p + q + x, y, lo, length);
    CountSplit(p + q, x, lo, length);
    CountSplit(p, q, lo, length);
    CountRepeat(60.0 - early, 5, lo, length);
    CountRepeat(60.0, 5, lo, length);
    CountOne(120.0 - lag, lo, length);
  }

  lemma CountOne(x: real, lo: real, length: real)
    requires Within(x, lo, length)
    ensures CountIn([x], lo, length) == 1
  {
    assert [x][..0] == [];
  }

  lemma {:induction false} CountSplit(a: seq<real>, b: seq<real>, lo: real, length: real)
    ensures CountIn(a + b, lo, length) == CountIn(a, lo, length) + CountIn(b, lo, length)
  {
    if b == [] {
      assert a + b == a;
    } else {
      assert (a + b)[..|a + b| - 1] == a + b[..|b| - 1];
      CountSplit(a, b[..|b| - 1], lo, length);
    }
  }

  lemma {:induction false} CountRepeat(x: real, n: nat, lo: real, length: real)
    requires Within(x, lo, length)
    ensures CountIn(Repeat(x, n), lo, length) == n
  {
    if n > 0 {
      assert Repeat(x, n)[..n - 1] == Repeat(x, n - 1);
      CountRepeat(x, n - 1, lo, length);
    }
  }
}
