/**
 Fixed-window rate limiting: the gateway's `FixedWindowRateLimiter` with the violation counter of `enter_group`
 (src/server.rs) and the per-link limit of `link_io` (src/direct.rs). Instants are nanoseconds of a clock that
 never goes back; a call reads it once to check the window and once more when it opens a new one.
 */
module RateLimiter {

  const SECOND := 1_000_000_000
  const MAX_CLIENT_MESSAGES_PER_SECOND := 24
  const MAX_CONSECUTIVE_RATE_VIOLATIONS := 5
  const MAX_DIRECT_MESSAGES_PER_SECOND := 32

  datatype Window = Window(started: nat, used: nat)

  datatype Reading = Reading(checked: nat, reopened: nat)

  /** The window after one more message. */
  function Tick(w: Window, r: Reading): Window {
    if r.checked - w.started >= SECOND then Window(r.reopened, 1) else w.(used := w.used + 1)
  }

  /** The window after the first `n` messages. */
  function After(w: Window, trace: seq<Reading>, n: nat): Window
    requires n <= |trace|
  {
    if n == 0 then w else Tick(After(w, trace, n - 1), trace[n - 1])
  }

  /** Message `i` opens a new window. */
  predicate Restarts(w: Window, trace: seq<Reading>, i: nat)
    requires i < |trace|
  {
    trace[i].checked - After(w, trace, i).started >= SECOND
  }

  predicate Allowed(w: Window, trace: seq<Reading>, limit: nat, i: nat)
    requires i < |trace|
  {
    After(w, trace, i + 1).used <= limit
  }

  /** How many of the messages i, ..., j - 1 are allowed. */
  function AllowedIn(w: Window, trace: seq<Reading>, limit: nat, i: nat, j: nat): nat
    requires i <= j <= |trace|
    decreases j - i
  {
    if i == j then 0
    else AllowedIn(w, trace, limit, i, j - 1) + if Allowed(w, trace, limit, j - 1) then 1 else 0
  }

  /** The clock never goes back, within a call and between calls. */
  predicate Nondecreasing(w: Window, trace: seq<Reading>) {
    && (trace != [] ==> w.started <= trace[0].checked)
    && (forall i :: 0 <= i < |trace| ==> trace[i].checked <= trace[i].reopened)
    && (forall i, j :: 0 <= i < j < |trace| ==> trace[i].reopened <= trace[j].checked)
  }

  // ---------- the burst bound ----------

  /** Between restarts the window counts every message. */
  lemma {:induction false} UsedWithoutRestart(w: Window, trace: seq<Reading>, i: nat, j: nat)
    requires i <= j < |trace|
    requires forall k :: i < k <= j ==> !Restarts(w, trace, k)
    ensures After(w, trace, j + 1).used == After(w, trace, i + 1).used + (j - i)
    ensures After(w, trace, j + 1).started == After(w, trace, i + 1).started
    decreases j - i
  {
    if i < j {
      UsedWithoutRestart(w, trace, i, j - 1);
      assert !Restarts(w, trace, j);
    }
  }

  lemma {:induction false} AllowedSplit(w: Window, trace: seq<Reading>, limit: nat, i: nat, k: nat, j: nat)
    requires i <= k <= j <= |trace|
    ensures AllowedIn(w, trace, limit, i, j) == AllowedIn(w, trace, limit, i, k) + AllowedIn(w, trace, limit, k, j)
    decreases j - k
  {
    if k < j {
      AllowedSplit(w, trace, limit, i, k, j - 1);
    }
  }

  /** One window allows at most `limit` messages. */
  lemma {:induction false} OneWindow(w: Window, trace: seq<Reading>, limit: nat, i: nat, j: nat)
    requires i <= j <= |trace|
    requires forall k :: i < k < j ==> !Restarts(w, trace, k)
    ensures AllowedIn(w, trace, limit, i, j) <= limit
    ensures i < j ==> AllowedIn(w, trace, limit, i, j) <= After(w, trace, j).used
    decreases j - i
  {
    if i < j {
      OneWindow(w, trace, limit, i, j - 1);
      if i < j - 1 {
        assert !Restarts(w, trace, j - 1);
      }
    }
  }

  /** The window opened by a restart starts no earlier than any message before it. */
  lemma {:induction false} StartedAfter(w: Window, trace: seq<Reading>, i: nat, k: nat)
    requires Nondecreasing(w, trace)
    requires i < k < |trace| && Restarts(w, trace, k)
    ensures After(w, trace, k + 1).started >= trace[i].checked
  {
  }

  /** The window start only moves forward. */
  lemma {:induction false} StartsGrow(w: Window, trace: seq<Reading>, i: nat, j: nat)
    requires Nondecreasing(w, trace)
    requires i <= j <= |trace|
    ensures After(w, trace, i).started <= After(w, trace, j).started
    decreases j - i
  {
    if i < j {
      StartsGrow(w, trace, i, j - 1);
      StartNotLate(w, trace, j - 1);
    }
  }

  lemma {:induction false} StartNotLate(w: Window, trace: seq<Reading>, n: nat)
    requires Nondecreasing(w, trace)
    requires n < |trace|
    ensures After(w, trace, n).started <= trace[n].checked
  {
    if n > 0 {
      StartNotLate(w, trace, n - 1);
      assert trace[n - 1].checked <= trace[n - 1].reopened <= trace[n].checked;
    }
  }

  /** Messages read within less than a second meet at most one restart after the first. */
  lemma OneRestart(w: Window, trace: seq<Reading>, i: nat, k: nat, l: nat, j: nat)
    requires Nondecreasing(w, trace)
    requires i < k < l < j <= |trace|
    requires trace[j - 1].checked < trace[i].checked + SECOND
    requires Restarts(w, trace, k)
    ensures !Restarts(w, trace, l)
  {
    StartedAfter(w, trace, i, k);
    StartsGrow(w, trace, k + 1, l);
    assert l < j - 1 ==> trace[l].checked <= trace[l].reopened <= trace[j - 1].checked;
  }

  /**
   In any half-open interval of one second at most twice the limit is allowed: 48 messages for a gateway session,
   64 for a direct link.
   */
  lemma BurstBound(w: Window, trace: seq<Reading>, limit: nat, i: nat, j: nat)
    requires Nondecreasing(w, trace)
    requires i <= j <= |trace|
    requires i < j ==> trace[j - 1].checked < trace[i].checked + SECOND
    ensures AllowedIn(w, trace, limit, i, j) <= 2 * limit
  {
    if k :| i < k < j && Restarts(w, trace, k) {
      forall l | i < l < j && l != k ensures !Restarts(w, trace, l) {
        if l < k {
          if Restarts(w, trace, l) {
            OneRestart(w, trace, i, l, k, j);
          }
        } else {
          OneRestart(w, trace, i, k, l, j);
        }
      }
      AllowedSplit(w, trace, limit, i, k, j);
      OneWindow(w, trace, limit, i, k);
      OneWindow(w, trace, limit, k, j);
    } else {
      OneWindow(w, trace, limit, i, j);
    }
  }

  /** Twenty-four messages at the end of a window and twenty-four at the start of the next. */
  function Straddling(): seq<Reading> {
    seq(48, i => if i < 24 then Reading(SECOND - 1, SECOND - 1) else Reading(SECOND, SECOND))
  }

  lemma {:induction false} StraddlingWindows(n: nat)
    requires n <= 48
    ensures After(Window(0, 0), Straddling(), n) == if n <= 24 then Window(0, n) else Window(SECOND, n - 24)
  {
    if n > 0 {
      StraddlingWindows(n - 1);
    }
  }

  lemma {:induction false} StraddlingAllAllowed(n: nat)
    requires n <= 48
    ensures AllowedIn(Window(0, 0), Straddling(), MAX_CLIENT_MESSAGES_PER_SECOND, 0, n) == n
  {
    if n > 0 {
      StraddlingAllAllowed(n - 1);
      StraddlingWindows(n);
    }
  }

  /** The burst bound is reached: a fixed window lets 48 messages through within one nanosecond. */
  lemma BurstBoundIsReached()
    ensures Nondecreasing(Window(0, 0), Straddling()) && |Straddling()| == 48
    ensures Straddling()[47].checked == Straddling()[0].checked + 1
    ensures AllowedIn(Window(0, 0), Straddling(), MAX_CLIENT_MESSAGES_PER_SECOND, 0, 48) == 48
  {
    StraddlingAllAllowed(48);
  }

  // ---------- the gateway session ----------

  datatype Session = Session(window: Window, violations: nat, closed: bool)

  function Fresh(now: nat): Session {
    Session(Window(now, 0), 0, false)
  }

  /** What the receive branch of `enter_group` does with one more message. */
  function Receive(s: Session, r: Reading): Session {
    if s.closed then s
    else
      var window := Tick(s.window, r);
      if window.used <= MAX_CLIENT_MESSAGES_PER_SECOND then Session(window, 0, false)
      else
        var violations := s.violations + 1;
        Session(window, violations, violations >= MAX_CONSECUTIVE_RATE_VIOLATIONS)
  }

  function ReceiveAll(s: Session, trace: seq<Reading>): Session {
    if trace == [] then s else Receive(ReceiveAll(s, trace[..|trace| - 1]), trace[|trace| - 1])
  }

  /**
   At every point of every session the violation counter is the excess over 24 in the current window, the session is
   closed exactly at the 29th message of one window, and no window counts further.
   */
  lemma {:induction false} ViolationsCountTheExcess(now: nat, trace: seq<Reading>)
    ensures var s := ReceiveAll(Fresh(now), trace);
            && s.violations == (if s.window.used > 24 then s.window.used - 24 else 0)
            && (s.closed <==> s.window.used == 29)
            && s.window.used <= 29
  {
    if trace != [] {
      ViolationsCountTheExcess(now, trace[..|trace| - 1]);
    }
  }

  /** While the session is open its window is the plain window of the trace. */
  lemma {:induction false} OpenSessionWindow(now: nat, trace: seq<Reading>)
    requires !ReceiveAll(Fresh(now), trace).closed
    ensures ReceiveAll(Fresh(now), trace).window == After(Window(now, 0), trace, |trace|)
  {
    if trace != [] {
      var front := trace[..|trace| - 1];
      OpenSessionWindow(now, front);
      AfterPrefix(Window(now, 0), trace, |front|, |front|);
    }
  }

  lemma {:induction false} AfterPrefix(w: Window, trace: seq<Reading>, m: nat, n: nat)
    requires n <= m <= |trace|
    ensures After(w, trace[..m], n) == After(w, trace, n)
  {
    if n > 0 {
      AfterPrefix(w, trace, m, n - 1);
    }
  }

  /** Message `i` reaches its handler: the session was open and the limiter let it through. */
  predicate Handled(now: nat, trace: seq<Reading>, i: nat)
    requires i < |trace|
  {
    && !ReceiveAll(Fresh(now), trace[..i]).closed
    && ReceiveAll(Fresh(now), trace[..i + 1]).window.used <= MAX_CLIENT_MESSAGES_PER_SECOND
  }

  function HandledIn(now: nat, trace: seq<Reading>, i: nat, j: nat): nat
    requires i <= j <= |trace|
    decreases j - i
  {
    if i == j then 0 else HandledIn(now, trace, i, j - 1) + if Handled(now, trace, j - 1) then 1 else 0
  }

  lemma HandledIsAllowed(now: nat, trace: seq<Reading>, i: nat)
    requires i < |trace| && Handled(now, trace, i)
    ensures Allowed(Window(now, 0), trace, MAX_CLIENT_MESSAGES_PER_SECOND, i)
  {
    var prefix := trace[..i + 1];
    assert prefix[..i] == trace[..i];
    OpenSessionWindow(now, prefix);
    AfterPrefix(Window(now, 0), trace, i + 1, i + 1);
  }

  /** However a client times its messages, the gateway handles at most 48 of them in any second. */
  lemma {:induction false} SessionBurstBound(now: nat, trace: seq<Reading>, i: nat, j: nat)
    requires Nondecreasing(Window(now, 0), trace)
    requires i <= j <= |trace|
    requires i < j ==> trace[j - 1].checked < trace[i].checked + SECOND
    ensures HandledIn(now, trace, i, j) <= 48
  {
    BurstBound(Window(now, 0), trace, MAX_CLIENT_MESSAGES_PER_SECOND, i, j);
    HandledAtMostAllowed(now, trace, i, j);
  }

  lemma {:induction false} HandledAtMostAllowed(now: nat, trace: seq<Reading>, i: nat, j: nat)
    requires i <= j <= |trace|
    ensures HandledIn(now, trace, i, j) <= AllowedIn(Window(now, 0), trace, MAX_CLIENT_MESSAGES_PER_SECOND, i, j)
    decreases j - i
  {
    if i < j {
      HandledAtMostAllowed(now, trace, i, j - 1);
      if Handled(now, trace, j - 1) {
        HandledIsAllowed(now, trace, j - 1);
      }
    }
  }

  /** The limiter object of a session. */
  class FixedWindowRateLimiter {
    var windowStarted: nat
    var used: nat

    function State(): Window
      reads this
    {
      Window(windowStarted, used)
    }

    constructor (now: nat)
      ensures State() == Window(now, 0)
    {
      windowStarted := now;
      used := 0;
    }

    method Allow(r: Reading) returns (allowed: bool)
      modifies this
      ensures State() == Tick(old(State()), r)
      ensures allowed <==> State().used <= MAX_CLIENT_MESSAGES_PER_SECOND
    {
      if r.checked - windowStarted >= SECOND {
        windowStarted := r.reopened;
        used := 0;
      }
      used := used + 1;
      allowed := used <= MAX_CLIENT_MESSAGES_PER_SECOND;
    }
  }

  /** The receive loop of one session: it ends when the peer stops sending or the fifth violation in a row arrives. */
  method RunSession(now: nat, trace: seq<Reading>)
    returns (limiter: FixedWindowRateLimiter, violations: nat, closed: bool)
    ensures Session(limiter.State(), violations, closed) == ReceiveAll(Fresh(now), trace)
    ensures fresh(limiter)
  {
    limiter := new FixedWindowRateLimiter(now);
    violations := 0;
    closed := false;
    var i := 0;
    assert trace[..0] == [];
    while i < |trace| && !closed
      invariant 0 <= i <= |trace|
      invariant fresh(limiter)
      invariant Session(limiter.State(), violations, closed) == ReceiveAll(Fresh(now), trace[..i])
    {
      assert trace[..i + 1][..i] == trace[..i];
      var allowed := limiter.Allow(trace[i]);
      if !allowed {
        violations := violations + 1;
        if violations >= MAX_CONSECUTIVE_RATE_VIOLATIONS {
          closed := true;
        }
      } else {
        violations := 0;
      }
      i := i + 1;
    }
    ClosedStays(Fresh(now), trace, i);
    assert trace[..|trace|] == trace;
  }

  lemma {:induction false} ClosedStays(s: Session, trace: seq<Reading>, i: nat)
    requires i <= |trace|
    requires i == |trace| || ReceiveAll(s, trace[..i]).closed
    ensures ReceiveAll(s, trace) == ReceiveAll(s, trace[..i])
    decreases |trace|
  {
    if i < |trace| {
      var front := trace[..|trace| - 1];
      assert front[..i] == trace[..i];
      ClosedStays(s, front, i);
    } else {
      assert trace[..i] == trace;
    }
  }

  // ---------- the direct link ----------

  /** The messages `link_io` forwards to the hub: all of them up to the first beyond the limit, which ends the link. */
  function Forwarded(w: Window, trace: seq<Reading>): nat {
    if exists i :: 0 <= i < |trace| && !Allowed(w, trace, MAX_DIRECT_MESSAGES_PER_SECOND, i) then
      FirstRefused(w, trace, 0)
    else |trace|
  }

  function FirstRefused(w: Window, trace: seq<Reading>, from: nat): (n: nat)
    requires exists i :: from <= i < |trace| && !Allowed(w, trace, MAX_DIRECT_MESSAGES_PER_SECOND, i)
    ensures from <= n < |trace| && !Allowed(w, trace, MAX_DIRECT_MESSAGES_PER_SECOND, n)
    ensures forall i :: from <= i < n ==> Allowed(w, trace, MAX_DIRECT_MESSAGES_PER_SECOND, i)
    decreases |trace| - from
  {
    if !Allowed(w, trace, MAX_DIRECT_MESSAGES_PER_SECOND, from) then from else FirstRefused(w, trace, from + 1)
  }

  /** The incoming branch of `link_io`. */
  method ForwardIncoming(now: nat, trace: seq<Reading>) returns (forwarded: nat, ended: bool)
    ensures forwarded == Forwarded(Window(now, 0), trace)
    ensures ended <==> forwarded < |trace|
  {
    ghost var w := Window(now, 0);
    var windowStarted, messagesInWindow := now, 0;
    forwarded := 0;
    while forwarded < |trace|
      invariant 0 <= forwarded <= |trace|
      invariant Window(windowStarted, messagesInWindow) == After(w, trace, forwarded)
      invariant forall i :: 0 <= i < forwarded ==> Allowed(w, trace, MAX_DIRECT_MESSAGES_PER_SECOND, i)
    {
      if trace[forwarded].checked - windowStarted >= SECOND {
        windowStarted := trace[forwarded].reopened;
        messagesInWindow := 0;
      }
      messagesInWindow := messagesInWindow + 1;
      if messagesInWindow > MAX_DIRECT_MESSAGES_PER_SECOND {
        assert !Allowed(w, trace, MAX_DIRECT_MESSAGES_PER_SECOND, forwarded);
        return forwarded, true;
      }
      forwarded := forwarded + 1;
    }
    return forwarded, false;
  }

  /** A link forwards at most 64 messages in any second, then it is over. */
  lemma LinkBurstBound(now: nat, trace: seq<Reading>, i: nat, j: nat)
    requires Nondecreasing(Window(now, 0), trace)
    requires i <= j <= Forwarded(Window(now, 0), trace)
    requires i < j ==> trace[j - 1].checked < trace[i].checked + SECOND
    ensures j - i <= 64
  {
    BurstBound(Window(now, 0), trace, MAX_DIRECT_MESSAGES_PER_SECOND, i, j);
    AllAllowed(Window(now, 0), trace, i, j);
  }

  lemma {:induction false} AllAllowed(w: Window, trace: seq<Reading>, i: nat, j: nat)
    requires i <= j <= |trace|
    requires forall k :: i <= k < j ==> Allowed(w, trace, MAX_DIRECT_MESSAGES_PER_SECOND, k)
    ensures AllowedIn(w, trace, MAX_DIRECT_MESSAGES_PER_SECOND, i, j) == j - i
    decreases j - i
  {
    if i < j {
      AllAllowed(w, trace, i, j - 1);
    }
  }
}
