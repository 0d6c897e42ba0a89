/**
 Polling for a device authorization (section 3.5 of RFC 8628).

 The clock and the authorization server are oracles: `lag` gives the extra time
 that passes around each step of the loop, never negative, and `reply` gives
 the server's answers in order.  Sleeping never returns early.
 */
module DevicePoll {

  const DEVICE_DEFAULT_INTERVAL: int := 5
  const DEVICE_SLOW_DOWN_INCREMENT: int := 5

  datatype Outcome = Tokens | AuthorizationPending | SlowDown | AccessDenied | ExpiredToken | Error

  /** A request to the server: the last clock reading before it, the sleep that preceded it, the answer. */
  datatype Poll = Poll(at: real, waited: int, reply: Outcome)

  /** How polling ended: with an answer of the server, or because the grant ran out. */
  datatype Result = Answered(outcome: Outcome) | TimedOut

  type Lag = r: real | r >= 0.0

  function InitialWait(interval: int): int {
    if interval > 0 then interval else DEVICE_DEFAULT_INTERVAL
  }

  predicate KeepsPolling(o: Outcome) {
    o.AuthorizationPending? || o.SlowDown?
  }

  /** How many of the first `n` answers asked the client to slow down. */
  ghost function SlowDowns(reply: nat -> Outcome, n: nat): nat {
    if n == 0 then 0 else SlowDowns(reply, n - 1) + (if reply(n - 1).SlowDown? then 1 else 0)
  }

  /** Poll `i` respects the deadline, the minimum spacing and the growing interval. */
  ghost predicate DisciplinedAt(start: real, w0: int, expiresIn: int, reply: nat -> Outcome, polls: seq<Poll>, i: nat)
    requires i < |polls|
  {
    && polls[i].reply == reply(i)
    && polls[i].waited == w0 + DEVICE_SLOW_DOWN_INCREMENT * SlowDowns(reply, i)
    && polls[i].at >= (if i == 0 then start else polls[i - 1].at) + polls[i].waited as real
    && polls[i].at < start + expiresIn as real
    && (i < |polls| - 1 ==> KeepsPolling(reply(i)))
  }

  ghost predicate Disciplined(start: real, w0: int, expiresIn: int, reply: nat -> Outcome, polls: seq<Poll>) {
    forall i {:trigger DisciplinedAt(start, w0, expiresIn, reply, polls, i)} ::
      0 <= i < |polls| ==> DisciplinedAt(start, w0, expiresIn, reply, polls, i)
  }

  /** Dropping the last poll leaves a disciplined history. */
  lemma DisciplinedPrefix(start: real, w0: int, expiresIn: int, reply: nat -> Outcome, polls: seq<Poll>)
    requires Disciplined(start, w0, expiresIn, reply, polls)
    requires polls != []
    ensures Disciplined(start, w0, expiresIn, reply, polls[..|polls| - 1])
    ensures DisciplinedAt(start, w0, expiresIn, reply, polls, |polls| - 1)
  {
    var before := polls[..|polls| - 1];
    forall i: nat | i < |before| ensures DisciplinedAt(start, w0, expiresIn, reply, before, i) {
      assert DisciplinedAt(start, w0, expiresIn, reply, polls, i);
    }
  }

  /** Appending one more well-timed poll after answers that keep polling. */
  lemma DisciplinedAppend(start: real, w0: int, expiresIn: int, reply: nat -> Outcome, polls: seq<Poll>, p: Poll)
    requires Disciplined(start, w0, expiresIn, reply, polls)
    requires polls != [] ==> KeepsPolling(reply(|polls| - 1))
    requires p.reply == reply(|polls|)
    requires p.waited == w0 + DEVICE_SLOW_DOWN_INCREMENT * SlowDowns(reply, |polls|)
    requires (if polls == [] then start else polls[|polls| - 1].at) + p.waited as real <= p.at < start + expiresIn as real
    ensures Disciplined(start, w0, expiresIn, reply, polls + [p])
  {
    var after := polls + [p];
    forall i: nat | i < |after| ensures DisciplinedAt(start, w0, expiresIn, reply, after, i) {
      if i < |polls| {
        assert DisciplinedAt(start, w0, expiresIn, reply, polls, i);
      }
    }
  }

  /** The wait before poll `k`, the answers before it being as they are. */
  ghost function WaitBefore(interval: int, reply: nat -> Outcome, k: nat): int {
    (if interval > 0 then interval else 5) + 5 * SlowDowns(reply, k)
  }

  /** When the client looks at the clock before sleeping for poll `k`, and when it wakes up for it. */
  ghost function LooksAt(start: real, interval: int, lag: nat -> Lag, reply: nat -> Outcome, k: nat): real
    decreases k, 0
  {
    if k == 0 then start + lag(0) else WakesAt(start, interval, lag, reply, k - 1) + lag(2 * k)
  }

  ghost function WakesAt(start: real, interval: int, lag: nat -> Lag, reply: nat -> Outcome, k: nat): real
    decreases k, 1
  {
    LooksAt(start, interval, lag, reply, k) + WaitBefore(interval, reply, k) as real + lag(2 * k + 1)
  }

  /** Every poll is made when the client wakes up for it. */
  ghost predicate OnTime(start: real, interval: int, lag: nat -> Lag, reply: nat -> Outcome, polls: seq<Poll>) {
    forall k: nat :: k < |polls| ==> polls[k].at == WakesAt(start, interval, lag, reply, k)
  }

  /** `poll_until_complete`: it polls whenever it wakes up before the deadline, and stops for no other reason. */
  method PollUntilComplete(start: real, interval: int, expiresIn: int, lag: nat -> Lag, reply: nat -> Outcome)
    returns (result: Result, polls: seq<Poll>, endedAt: real)
    ensures Disciplined(start, InitialWait(interval), expiresIn, reply, polls)
    ensures OnTime(start, interval, lag, reply, polls)
    ensures result.Answered? ==> polls != [] && result.outcome == reply(|polls| - 1)
    ensures result.Answered? ==> result.outcome != AuthorizationPending && result.outcome != SlowDown
    ensures result.TimedOut? ==> polls == [] || reply(|polls| - 1) == AuthorizationPending || reply(|polls| - 1) == SlowDown
    ensures result.TimedOut? ==> endedAt >= start + expiresIn as real
    ensures result.TimedOut? ==>
              || endedAt == LooksAt(start, interval, lag, reply, |polls|)
              || (endedAt == WakesAt(start, interval, lag, reply, |polls|)
                  && LooksAt(start, interval, lag, reply, |polls|) < start + expiresIn as real)
  {
    hide DisciplinedAt;
    var deadline := start + expiresIn as real;
    var wait := InitialWait(interval);
    var now, tick := start + lag(0), 1;
    polls := [];
    while now < deadline
      invariant wait == InitialWait(interval) + DEVICE_SLOW_DOWN_INCREMENT * SlowDowns(reply, |polls|)
      invariant tick == 2 * |polls| + 1 && now == LooksAt(start, interval, lag, reply, |polls|)
      invariant OnTime(start, interval, lag, reply, polls)
      invariant Disciplined(start, InitialWait(interval), expiresIn, reply, polls)
      invariant polls != [] ==> KeepsPolling(reply(|polls| - 1))
      invariant now >= (if polls == [] then start else polls[|polls| - 1].at)
      decreases deadline - now
    {
      now, tick := now + wait as real + lag(tick), tick + 1;
      assert now == WakesAt(start, interval, lag, reply, |polls|);
      if now >= deadline {
        break;
      }
      var answer := reply(|polls|);
      DisciplinedAppend(start, InitialWait(interval), expiresIn, reply, polls, Poll(now, wait, answer));
      polls := polls + [Poll(now, wait, answer)];
      if !KeepsPolling(answer) {
        return Answered(answer), polls, now;
      }
      if answer.SlowDown? {
        wait := wait + DEVICE_SLOW_DOWN_INCREMENT;
      }
      now, tick := now + lag(tick), tick + 1;
    }
    return TimedOut, polls, now;
  }

  /** The polls of a run, one by one: what each was answered, and that a wait grows by 5 after a slow-down and else stays. */
  lemma PollsAre(start: real, interval: int, expiresIn: int, reply: nat -> Outcome, polls: seq<Poll>, i: nat)
    requires Disciplined(start, InitialWait(interval), expiresIn, reply, polls) && i < |polls|
    ensures polls[i].reply == reply(i)
    ensures i == 0 ==> polls[i].waited == (if interval > 0 then interval else 5)
    ensures i > 0 ==> polls[i].waited == polls[i - 1].waited + (if reply(i - 1).SlowDown? then 5 else 0)
    ensures i > 0 ==> reply(i - 1).SlowDown? || reply(i - 1).AuthorizationPending?
    ensures start + expiresIn as real > polls[i].at >= (if i == 0 then start else polls[i - 1].at) + polls[i].waited as real
  {
    assert DisciplinedAt(start, InitialWait(interval), expiresIn, reply, polls, i);
    if i > 0 {
      assert DisciplinedAt(start, InitialWait(interval), expiresIn, reply, polls, i - 1);
    }
  }

  ghost function TotalWait(polls: seq<Poll>): int {
    if polls == [] then 0 else TotalWait(polls[..|polls| - 1]) + polls[|polls| - 1].waited
  }

  /** The sleeps before the last poll all fit between the start and that poll. */
  lemma {:induction false} WaitsFitBeforeLastPoll(start: real, w0: int, expiresIn: int, reply: nat -> Outcome, polls: seq<Poll>)
    requires Disciplined(start, w0, expiresIn, reply, polls)
    requires polls != []
    ensures start + TotalWait(polls) as real <= polls[|polls| - 1].at
  {
    if |polls| > 1 {
      var before := polls[..|polls| - 1];
      assert before[|before| - 1] == polls[|polls| - 2];
      DisciplinedPrefix(start, w0, expiresIn, reply, polls);
      WaitsFitBeforeLastPoll(start, w0, expiresIn, reply, before);
    } else {
      assert DisciplinedAt(start, w0, expiresIn, reply, polls, 0);
      assert polls[..0] == [];
    }
  }

  lemma {:induction false} SlowDownsBounds(reply: nat -> Outcome, i: nat, n: nat)
    requires i <= n
    ensures SlowDowns(reply, i) <= SlowDowns(reply, n) <= SlowDowns(reply, i) + (n - i)
    decreases n - i
  {
    if i < n {
      SlowDownsBounds(reply, i, n - 1);
    }
  }

  /** The client's wait never shrinks from one poll to a later one. */
  lemma WaitNeverShrinks(start: real, w0: int, expiresIn: int, reply: nat -> Outcome, polls: seq<Poll>, i: nat, j: nat)
    requires Disciplined(start, w0, expiresIn, reply, polls)
    requires i <= j < |polls|
    ensures w0 <= polls[i].waited <= polls[j].waited
  {
    assert DisciplinedAt(start, w0, expiresIn, reply, polls, i) && DisciplinedAt(start, w0, expiresIn, reply, polls, j);
    SlowDownsBounds(reply, i, j);
  }

  ghost predicate AllSlowDown(reply: nat -> Outcome, n: int) {
    forall k: nat :: k < n ==> reply(k).SlowDown?
  }

  lemma {:induction false} SlowDownsAll(reply: nat -> Outcome, n: nat)
    requires AllSlowDown(reply, n)
    ensures SlowDowns(reply, n) == n
  {
    if n > 0 {
      SlowDownsAll(reply, n - 1);
    }
  }

  lemma {:induction false} TotalWaitBounds(start: real, w0: int, expiresIn: int, reply: nat -> Outcome, polls: seq<Poll>)
    requires Disciplined(start, w0, expiresIn, reply, polls)
    ensures TotalWait(polls) >= |polls| * w0
    ensures AllSlowDown(reply, |polls| - 1) ==> 2 * TotalWait(polls) == 2 * |polls| * w0 + 5 * |polls| * (|polls| - 1)
  {
    if polls != [] {
      var n := |polls| - 1;
      var before := polls[..n];
      DisciplinedPrefix(start, w0, expiresIn, reply, polls);
      TotalWaitBounds(start, w0, expiresIn, reply, before);
      assert polls[n].waited >= w0;
      if AllSlowDown(reply, n) {
        SlowDownsAll(reply, n);
        assert 2 * TotalWait(polls) == 2 * n * w0 + 5 * n * (n - 1) + 2 * (w0 + 5 * n);
      }
    }
  }

  /**
   However the server answers and the clock drifts, `n` polls need more than `n` initial
   intervals of the grant's lifetime; a server that keeps saying slow down makes that quadratic.
   */
  lemma PollBudget(start: real, interval: int, expiresIn: int, reply: nat -> Outcome, polls: seq<Poll>)
    requires Disciplined(start, InitialWait(interval), expiresIn, reply, polls)
    requires polls != []
    ensures |polls| * InitialWait(interval) < expiresIn
    ensures AllSlowDown(reply, |polls| - 1) ==>
              2 * |polls| * InitialWait(interval) + 5 * |polls| * (|polls| - 1) < 2 * expiresIn
  {
    WaitsFitBeforeLastPoll(start, InitialWait(interval), expiresIn, reply, polls);
    TotalWaitBounds(start, InitialWait(interval), expiresIn, reply, polls);
    assert DisciplinedAt(start, InitialWait(interval), expiresIn, reply, polls, |polls| - 1);
    assert (TotalWait(polls) as real) < (expiresIn as real);
  }
}
