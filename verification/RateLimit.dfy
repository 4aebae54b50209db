/**
The fixed-window limiter: signups per client IP and messages per API key. A check and the
count that follows it are one step; times are in any unit, and never run backwards.
*/
module RateLimit {
  import opened Wrappers
  import opened Maps

  datatype Window = Window(count: nat, start: int)

  const SIGNUP_CAP: nat := 10
  const SIGNUP_WINDOW: int := 3600
  const MESSAGE_WINDOW: int := 60

  function MessageCap(tier: string): nat {
    if tier == "pro" then 2000 else 200
  }

  /** The window after the elapsed-time check at `now`; a missing one starts now. */
  function Refresh(w: Option<Window>, now: int, length: int): Window {
    if w.None? || now - w.value.start > length then Window(0, now) else w.value
  }

  /** A message checked and counted, a message checked and not counted because storing it
      failed, or another limit's first look at the key. */
  datatype Event = Attempt(now: int, cap: nat) | Uncounted(now: int) | Touch(now: int)

  function Accepts(w: Option<Window>, e: Event, length: int): bool {
    e.Attempt? && Refresh(w, e.now, length).count < e.cap
  }

  function Next(w: Option<Window>, e: Event, length: int): Option<Window> {
    match e
    case Attempt(now, cap) =>
      var current := Refresh(w, now, length);
      Some(if current.count < cap then current.(count := current.count + 1) else current)
    case Uncounted(now) => Some(Refresh(w, now, length))
    case Touch(now) => if w.None? then Some(Window(0, now)) else w
  }

  /** How many attempts a run accepts at a time between `low` and `high`. */
  function AcceptedIn(w: Option<Window>, events: seq<Event>, length: int, low: int, high: int): nat
    decreases events
  {
    if events == [] then 0
    else
      (if Accepts(w, events[0], length) && low <= events[0].now <= high then 1 else 0)
      + AcceptedIn(Next(w, events[0], length), events[1..], length, low, high)
  }

  /** Times do not run backwards and every cap is at most `cap`. */
  ghost predicate Trace(events: seq<Event>, from: int, cap: nat)
    decreases events
  {
    events == [] || (from <= events[0].now && (events[0].Attempt? ==> events[0].cap <= cap) && Trace(events[1..], events[0].now, cap))
  }

  // --- Resets ---

  predicate Resets(w: Option<Window>, e: Event, length: int) {
    Next(w, e, length).Some? && (w.None? || Next(w, e, length).value.start != w.value.start)
  }

  /** The times at which a run starts a window. */
  function Starts(w: Option<Window>, events: seq<Event>, length: int): seq<int>
    decreases events
  {
    if events == [] then []
    else (if Resets(w, events[0], length) then [events[0].now] else []) + Starts(Next(w, events[0], length), events[1..], length)
  }

  predicate AllAfter(starts: seq<int>, bound: int) {
    forall i :: 0 <= i < |starts| ==> starts[i] > bound
  }

  predicate Spaced(starts: seq<int>, length: int) {
    forall i, j :: 0 <= i < j < |starts| ==> starts[j] > starts[i] + length
  }

  /** Windows start more than one window length apart. */
  lemma {:induction false} StartsAreFarApart(w: Option<Window>, events: seq<Event>, length: int, from: int, cap: nat)
    requires 0 <= length && Trace(events, from, cap)
    ensures w.Some? ==> AllAfter(Starts(w, events, length), w.value.start + length)
    ensures Spaced(Starts(w, events, length), length)
    decreases events
  {
    if events != [] {
      var next := Next(w, events[0], length);
      StartsAreFarApart(next, events[1..], length, events[0].now, cap);
      var starts, rest := Starts(w, events, length), Starts(next, events[1..], length);
      assert next.Some? && AllAfter(rest, next.value.start + length);
      if Resets(w, events[0], length) {
        assert starts == [events[0].now] + rest && next.value.start == events[0].now;
      } else {
        assert starts == rest;
      }
    }
  }

  // --- Acceptances ---

  /** Before the window can be reset, only what is left of it is accepted. */
  lemma {:induction false} WithinOneWindow(w: Window, events: seq<Event>, length: int, from: int, cap: nat, low: int, high: int)
    requires Trace(events, from, cap) && high <= w.start + length
    ensures AcceptedIn(Some(w), events, length, low, high) <= if w.count < cap then cap - w.count else 0
    decreases events
  {
    if events != [] {
      var next := Next(Some(w), events[0], length);
      if events[0].now > high {
        PastTheEnd(Some(w), events, length, from, cap, low, high);
      } else {
        WithinOneWindow(next.value, events[1..], length, events[0].now, cap, low, high);
      }
    }
  }

  lemma {:induction false} PastTheEnd(w: Option<Window>, events: seq<Event>, length: int, from: int, cap: nat, low: int, high: int)
    requires Trace(events, from, cap) && (from > high || (events != [] && events[0].now > high))
    ensures AcceptedIn(w, events, length, low, high) == 0
    decreases events
  {
    if events != [] {
      PastTheEnd(Next(w, events[0], length), events[1..], length, events[0].now, cap, low, high);
    }
  }

  function Left(w: Option<Window>, cap: nat): nat {
    if w.None? then 0 else if w.value.count < cap then cap - w.value.count else 0
  }

  /** From inside the interval: what is left of the current window, and one window more. */
  lemma {:induction false} FromInside(w: Option<Window>, events: seq<Event>, length: int, from: int, cap: nat, low: int, high: int)
    requires 0 <= length && Trace(events, from, cap) && low <= from && high <= low + length
    ensures AcceptedIn(w, events, length, low, high) <= Left(w, cap) + cap
    decreases events
  {
    if events != [] {
      var next := Next(w, events[0], length);
      if Resets(w, events[0], length) {
        WithinOneWindow(next.value, events[1..], length, events[0].now, cap, low, high);
      } else {
        FromInside(next, events[1..], length, events[0].now, cap, low, high);
      }
    }
  }

  /** Over every trace, no interval as long as a window sees more than twice the cap. */
  lemma {:induction false} AtMostTwiceTheCap(w: Option<Window>, events: seq<Event>, length: int, from: int, cap: nat, low: int, high: int)
    requires 0 <= length && Trace(events, from, cap) && high <= low + length
    ensures AcceptedIn(w, events, length, low, high) <= 2 * cap
    decreases events
  {
    if low <= from {
      FromInside(w, events, length, from, cap, low, high);
    } else if events != [] {
      if events[0].now < low {
        AtMostTwiceTheCap(Next(w, events[0], length), events[1..], length, events[0].now, cap, low, high);
      } else {
        FromInside(w, events, length, low, cap, low, high);
      }
    }
  }

  ghost predicate Signups(events: seq<Event>, cap: nat) {
    forall e :: e in events ==> e.Attempt? && e.cap == cap
  }

  /** Signups count from the attempt that opens a window, so one less: an IP mints at most
      19 keys in any hour. */
  lemma {:induction false} SignupsBelowTwiceTheCap(w: Option<Window>, events: seq<Event>, length: int, from: int, cap: nat, low: int, high: int)
    requires 0 <= length && 1 <= cap && Trace(events, from, cap) && high <= low + length
    requires Signups(events, cap)
    requires w.Some? ==> w.value.count >= 1
    ensures AcceptedIn(w, events, length, low, high) <= 2 * cap - 1
    decreases events
  {
    if low <= from {
      FromInside(w, events, length, from, cap, low, high);
    } else if events != [] {
      assert events[0] in events && forall e :: e in events[1..] ==> e in events;
      if events[0].now < low {
        SignupsBelowTwiceTheCap(Next(w, events[0], length), events[1..], length, events[0].now, cap, low, high);
      } else {
        FromInside(w, events, length, low, cap, low, high);
      }
    }
  }

  // --- The bounds are reached ---

  function Burst(now: int, cap: nat, n: nat): seq<Event> {
    if n == 0 then [] else [Attempt(now, cap)] + Burst(now, cap, n - 1)
  }

  lemma {:induction false} BurstAccepted(w: Window, now: int, cap: nat, n: nat, later: seq<Event>, length: int, low: int, high: int)
    requires w.count + n <= cap && now - w.start <= length && low <= now <= high
    ensures AcceptedIn(Some(w), Burst(now, cap, n) + later, length, low, high)
         == n + AcceptedIn(Some(w.(count := w.count + n)), later, length, low, high)
    decreases n
  {
    if n == 0 {
      assert Burst(now, cap, n) + later == later;
    } else {
      var events := Burst(now, cap, n) + later;
      assert events[0] == Attempt(now, cap) && events[1..] == Burst(now, cap, n - 1) + later;
      BurstAccepted(w.(count := w.count + 1), now, cap, n - 1, later, length, low, high);
    }
  }

  lemma {:induction false} BurstIsTrace(now: int, cap: nat, n: nat, later: seq<Event>, from: int)
    requires from <= now && Trace(later, now, cap)
    ensures Trace(Burst(now, cap, n) + later, from, cap)
    decreases n
  {
    if n == 0 {
      assert Burst(now, cap, n) + later == later;
    } else {
      var events := Burst(now, cap, n) + later;
      assert events[0] == Attempt(now, cap) && events[1..] == Burst(now, cap, n - 1) + later;
      BurstIsTrace(now, cap, n - 1, later, now);
    }
  }

  /** A window opened by another limit's look at the key, filled at its very end and again
      just after it: twice the cap within two instants. */
  lemma TwiceTheCapIsReached(length: int, cap: nat)
    requires 1 <= length && 1 <= cap
    ensures exists events :: Trace(events, 0, cap) && AcceptedIn(None, events, length, length, length + 1) == 2 * cap
  {
    var second := Burst(length + 1, cap, cap) + [];
    var first := Burst(length, cap, cap) + second;
    var events := [Touch(0)] + first;
    BurstIsTrace(length + 1, cap, cap, [], length);
    BurstIsTrace(length, cap, cap, second, 0);
    assert events[1..] == first;
    BurstAccepted(Window(0, 0), length, cap, cap, second, length, length, length + 1);
    ReopenedBurst(Window(cap, 0), length, cap);
    assert Next(None, Touch(0), length) == Some(Window(0, 0)) && !Accepts(None, Touch(0), length);
    assert Trace(events, 0, cap);
    assert AcceptedIn(None, events, length, length, length + 1) == 2 * cap;
  }

  /** Filling a window again just after it has run out. */
  lemma ReopenedBurst(w: Window, length: int, cap: nat)
    requires 1 <= length && 1 <= cap && w.start == 0
    ensures AcceptedIn(Some(w), Burst(length + 1, cap, cap) + [], length, length, length + 1) == cap
  {
    var events := Burst(length + 1, cap, cap) + [];
    assert events[0] == Attempt(length + 1, cap) && events[1..] == Burst(length + 1, cap, cap - 1) + [];
    BurstAccepted(Window(1, length + 1), length + 1, cap, cap - 1, [], length, length, length + 1);
  }

  /** An attempt that opens the window, then two bursts, at its end and just after. */
  function SignupBursts(length: int, cap: nat): seq<Event>
    requires 1 <= cap
  {
    [Attempt(0, cap)] + (Burst(length, cap, cap - 1) + (Burst(length + 1, cap, cap) + []))
  }

  lemma BurstsAreSignups(length: int, cap: nat)
    requires 1 <= length && 1 <= cap
    ensures Trace(SignupBursts(length, cap), 0, cap) && Signups(SignupBursts(length, cap), cap)
  {
    var second := Burst(length + 1, cap, cap) + [];
    BurstIsTrace(length + 1, cap, cap, [], length);
    BurstIsTrace(length, cap, cap - 1, second, 0);
    AllAttempts(length + 1, cap, cap);
    AllAttempts(length, cap, cap - 1);
    assert SignupBursts(length, cap)[1..] == Burst(length, cap, cap - 1) + second;
  }

  /** For signups the attempt that opens the window comes before the interval. */
  lemma SignupBoundIsReached(length: int, cap: nat)
    requires 1 <= length && 1 <= cap
    ensures exists events :: Trace(events, 0, cap) && Signups(events, cap) && AcceptedIn(None, events, length, length, length + 1) == 2 * cap - 1
  {
    var second := Burst(length + 1, cap, cap) + [];
    var events := SignupBursts(length, cap);
    BurstsAreSignups(length, cap);
    assert events[1..] == Burst(length, cap, cap - 1) + second;
    BurstAccepted(Window(1, 0), length, cap, cap - 1, second, length, length, length + 1);
    ReopenedBurst(Window(cap, 0), length, cap);
    assert Next(None, Attempt(0, cap), length) == Some(Window(1, 0));
    assert AcceptedIn(None, events, length, length, length + 1) == 2 * cap - 1;
  }

  lemma {:induction false} AllAttempts(now: int, cap: nat, n: nat)
    ensures forall e :: e in Burst(now, cap, n) ==> e == Attempt(now, cap)
  {
    if n > 0 { AllAttempts(now, cap, n - 1); }
  }

  // --- The limiter ---

  class RateLimiter {
    var signups: map<string, Window>
    var usage: map<string, Window>

    constructor ()
      ensures signups == map[] && usage == map[]
    {
      signups, usage := map[], map[];
    }

    /** Each IP has its own window. */
    method TryRegisterSignup(ip: string, now: int) returns (allowed: bool)
      modifies this`signups
      ensures var w, e := old(Find(signups, ip)), Attempt(now, SIGNUP_CAP);
        allowed == Accepts(w, e, SIGNUP_WINDOW) && Find(signups, ip) == Next(w, e, SIGNUP_WINDOW)
      ensures forall other :: other != ip ==> Find(signups, other) == old(Find(signups, other))
    {
      if ip !in signups { signups := signups[ip := Window(0, now)]; }
      var w := signups[ip];
      if now - w.start > SIGNUP_WINDOW { w := Window(0, now); }
      allowed := w.count < SIGNUP_CAP;
      signups := signups[ip := if allowed then w.(count := w.count + 1) else w];
    }

    method GetOrCreate(key: string, now: int)
      modifies this`usage
      ensures Find(usage, key) == Next(old(Find(usage, key)), Touch(now), MESSAGE_WINDOW) && key in usage
      ensures forall other :: other != key ==> Find(usage, other) == old(Find(usage, other))
    {
      if key !in usage { usage := usage[key := Window(0, now)]; }
    }

    method CheckMessageRate(key: string, now: int, tier: string) returns (ok: bool)
      modifies this`usage
      ensures var w := old(Find(usage, key));
        && Find(usage, key) == Next(w, Uncounted(now), MESSAGE_WINDOW)
        && ok == Accepts(w, Attempt(now, MessageCap(tier)), MESSAGE_WINDOW)
      ensures forall other :: other != key ==> Find(usage, other) == old(Find(usage, other))
    {
      GetOrCreate(key, now);
      if now - usage[key].start > MESSAGE_WINDOW { usage := usage[key := Window(0, now)]; }
      ok := usage[key].count < MessageCap(tier);
    }

    /** A message that passes the check and is stored. */
    method CountMessage(key: string, now: int, tier: string) returns (ok: bool)
      modifies this`usage
      ensures var w, e := old(Find(usage, key)), Attempt(now, MessageCap(tier));
        ok == Accepts(w, e, MESSAGE_WINDOW) && Find(usage, key) == Next(w, e, MESSAGE_WINDOW)
      ensures forall other :: other != key ==> Find(usage, other) == old(Find(usage, other))
    {
      ok := CheckMessageRate(key, now, tier);
      if ok {
        GetOrCreate(key, now);
        usage := usage[key := usage[key].(count := usage[key].count + 1)];
      }
    }
  }
}
