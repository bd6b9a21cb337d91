/** The failed-auth throttle in front of the JMAP routes (node/src/jmap_api.rs) and the rate it enforces. */
module Throttle {
  import opened Prelude

  const MAX_FAILURES: nat := 10
  const WINDOW_MS: nat := 60_000

  datatype State = State(windowStart: nat, failures: nat)

  /** What the gate answers: refused unread, read and wrong, or let through. */
  datatype Answer = TooMany(retryAfterSecs: nat) | Unauthorized | Authorized

  predicate Elapsed(s: State, now: nat) {
    SaturatingSub(now, s.windowStart) >= WINDOW_MS
  }

  /** An elapsed window forgives its failures. */
  function Forgiven(s: State, now: nat): State {
    if s.failures > 0 && Elapsed(s, now) then s.(failures := 0) else s
  }

  function RetryAfter(s: State, now: nat): Option<nat> {
    if Forgiven(s, now).failures >= MAX_FAILURES
    then Some(Max((SaturatingSub(s.windowStart + WINDOW_MS, now) + 999) / 1000, 1))
    else None
  }

  function Failed(s: State, now: nat): State {
    if s.failures == 0 || Elapsed(s, now) then State(now, 1) else s.(failures := s.failures + 1)
  }

  /** One request at the gate; `right` says whether its credential would verify. */
  function Serve(s: State, now: nat, right: bool): (State, Answer) {
    var f := Forgiven(s, now);
    match RetryAfter(s, now)
    case Some(secs) => (f, TooMany(secs))
    case None =>
      if right then (f.(failures := 0), Authorized) else (Failed(f, now), Unauthorized)
  }

  class AuthThrottle {
    var windowStart: nat
    var failures: nat

    ghost function Value(): State
      reads this
    {
      State(windowStart, failures)
    }

    constructor ()
      ensures Value() == State(0, 0)
    {
      windowStart, failures := 0, 0;
    }

    method RetryAfterSecs(now: nat) returns (secs: Option<nat>)
      modifies this
      ensures Value() == Forgiven(old(Value()), now)
      ensures secs == RetryAfter(old(Value()), now)
    {
      if failures > 0 && SaturatingSub(now, windowStart) >= WINDOW_MS {
        failures := 0;
      }
      if failures >= MAX_FAILURES {
        var remaining := SaturatingSub(windowStart + WINDOW_MS, now);
        return Some(Max((remaining + 999) / 1000, 1));
      }
      secs := None;
    }

    method RecordFailure(now: nat)
      modifies this
      ensures Value() == Failed(old(Value()), now)
    {
      if failures == 0 || SaturatingSub(now, windowStart) >= WINDOW_MS {
        windowStart, failures := now, 1;
      } else {
        failures := failures + 1;
      }
    }

    method RecordSuccess()
      modifies this
      ensures Value() == old(Value()).(failures := 0)
    {
      failures := 0;
    }

    /** The gate of `JmapApi::handle`: while throttled the credential is not looked at. */
    method Gate(now: nat, right: bool) returns (answer: Answer)
      modifies this
      ensures (Value(), answer) == Serve(old(Value()), now, right)
    {
      var secs := RetryAfterSecs(now);
      if secs.Some? {
        return TooMany(secs.value);
      }
      if !right {
        RecordFailure(now);
        return Unauthorized;
      }
      RecordSuccess();
      answer := Authorized;
    }
  }

  /** The failures that count at this time: those of a window begun less than a minute ago. */
  function Counting(s: State, now: nat): nat { if now < s.windowStart + 60_000 then s.failures else 0 }

  /**
   * The answer, in any state: refused unread exactly when ten failures or more count; otherwise let through exactly
   * when the credential is right, which forgets the failures, and turned away exactly when it is wrong, which counts
   * one more, in a window of its own if none counted.
   */
  lemma AnswerExactly(s: State, now: nat, right: bool)
    ensures var (next, answer) := Serve(s, now, right);
            var n := Counting(s, now);
            && (answer.TooMany? <==> n >= 10)
            && (answer.Authorized? <==> n < 10 && right)
            && (answer.Unauthorized? <==> n < 10 && !right)
            && (answer.TooMany? ==>
                  next == s && answer.retryAfterSecs >= 1
                  && now + 1000 * (answer.retryAfterSecs - 1) < s.windowStart + 60_000
                  && s.windowStart + 60_000 <= now + 1000 * answer.retryAfterSecs)
            && (answer.Authorized? ==> next.failures == 0)
            && (answer.Unauthorized? ==> next == if n == 0 then State(now, 1) else s.(failures := n + 1))
  {
  }

  // --- runs -----------------------------------------------------------------------------------------

  datatype Request = Request(now: nat, right: bool)

  function Run(s: State, rs: seq<Request>): State
    decreases rs
  {
    if rs == [] then s else Run(Serve(s, rs[0].now, rs[0].right).0, rs[1..])
  }

  ghost predicate Timely(rs: seq<Request>, from: nat) {
    rs != [] ==> from <= rs[0].now && Timely(rs[1..], rs[0].now)
  }

  function End(rs: seq<Request>, from: nat): nat {
    if rs == [] then from else End(rs[1..], rs[0].now)
  }

  /** How many wrong credentials are evaluated: those that come while fewer than ten failures count. */
  function WrongGuesses(s: State, rs: seq<Request>): nat
    decreases rs
  {
    if rs == [] then 0
    else
      (if !rs[0].right && Counting(s, rs[0].now) < 10 then 1 else 0)
      + WrongGuesses(Serve(s, rs[0].now, rs[0].right).0, rs[1..])
  }

  /** The counter never passes its maximum, and a window with failures in it has begun. */
  predicate StateOk(s: State, now: nat) {
    s.failures <= MAX_FAILURES && (s.failures > 0 ==> s.windowStart <= now)
  }

  /** The wrong guesses still possible until `t` if none is right. */
  function Budget(s: State, now: nat, t: nat): int {
    if s.failures > 0 && !Elapsed(s, now)
    then MAX_FAILURES - s.failures + MAX_FAILURES * ((t - s.windowStart) / WINDOW_MS)
    else MAX_FAILURES * ((t - now) / WINDOW_MS + 1)
  }

  lemma ServeSpends(s: State, r: Request, now: nat, t: nat)
    requires StateOk(s, now) && now <= r.now <= t
    ensures var (next, answer) := Serve(s, r.now, r.right);
            && StateOk(next, r.now)
            && (!r.right ==>
                  Budget(next, r.now, t) + (if Counting(s, r.now) < 10 then 1 else 0) <= Budget(s, now, t))
  {
  }

  lemma {:induction false} RunSpends(s: State, rs: seq<Request>, now: nat, t: nat)
    requires StateOk(s, now) && Timely(rs, now) && End(rs, now) <= t && now <= t
    ensures StateOk(Run(s, rs), End(rs, now))
    ensures (forall r :: r in rs ==> !r.right) ==> WrongGuesses(s, rs) <= Budget(s, now, t)
    decreases rs
  {
    hide Serve, Budget, StateOk, Counting;
    if rs == [] {
      BudgetNonneg(s, now, t);
    } else {
      TimelyEnd(rs[1..], rs[0].now);
      ServeSpends(s, rs[0], now, t);
      RunSpends(Serve(s, rs[0].now, rs[0].right).0, rs[1..], rs[0].now, t);
    }
  }

  lemma BudgetNonneg(s: State, now: nat, t: nat)
    requires StateOk(s, now) && now <= t
    ensures Budget(s, now, t) >= 0
  {
  }

  lemma {:induction false} TimelyEnd(rs: seq<Request>, from: nat)
    requires Timely(rs, from)
    ensures from <= End(rs, from)
  {
    if rs != [] {
      TimelyEnd(rs[1..], rs[0].now);
    }
  }

  /** Whatever happened before, a stretch of wrong guesses over [t1, t2] is bounded; below one window, by 19. */
  lemma GuessBound(before: seq<Request>, during: seq<Request>, t0: nat, t1: nat, t2: nat)
    requires Timely(before, t0) && End(before, t0) <= t1
    requires Timely(during, t1) && End(during, t1) <= t2 && t1 <= t2
    requires forall r :: r in during ==> !r.right
    ensures WrongGuesses(Run(State(0, 0), before), during)
         <= MAX_FAILURES * ((t2 - t1) / WINDOW_MS + 2) - 1
    ensures t2 - t1 < WINDOW_MS ==> WrongGuesses(Run(State(0, 0), before), during) <= 19
    ensures Run(State(0, 0), before).failures <= MAX_FAILURES
  {
    hide Serve, Run, WrongGuesses;
    TimelyEnd(before, t0);
    RunSpends(State(0, 0), before, t0, End(before, t0));
    var s := Run(State(0, 0), before);
    RunSpends(s, during, t1, t2);
    assert Budget(s, t1, t2) <= MAX_FAILURES * ((t2 - t1) / WINDOW_MS + 2) - 1;
  }

  /** A shut gate stays shut for the rest of its window, and waiting out the advertised time always reopens it. */
  lemma RetryAfterIsHonest(s: State, now: nat, later: nat)
    requires StateOk(s, now) && RetryAfter(s, now).Some? && now <= later
    ensures later < s.windowStart + WINDOW_MS ==> RetryAfter(s, later).Some?
    ensures later >= now + 1000 * RetryAfter(s, now).value ==> RetryAfter(s, later).None?
  {
  }
}
