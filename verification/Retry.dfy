/** The three retry loops: database calls (pkg/commander/db.go:170-201), process starts and
    guest heartbeats (pkg/runner/runtime.go:150-216). What each attempt brings is a
    parameter; waits are in milliseconds. */
module Retry {

  const MAX_RETRIES := 20
  const MAX_START_RETRIES := 10
  const HEARTBEAT_TIMEOUT := 5000

  /** The sum 1 + 2 + ... + n. */
  function Triangle(n: nat): nat {
    if n == 0 then 0 else n + Triangle(n - 1)
  }

  lemma {:induction false} TriangleClosed(n: nat)
    ensures 2 * Triangle(n) == n * (n + 1)
  {
    if n == 0 {
    } else {
      TriangleClosed(n - 1);
    }
  }

  lemma {:induction false} TriangleGrows(m: nat, n: nat)
    requires m <= n
    ensures Triangle(m) <= Triangle(n)
    decreases n
  {
    if m < n {
      TriangleGrows(m, n - 1);
    }
  }

  // ---- database calls

  datatype Attempt = Done | Busy | Fatal

  datatype DbResult = Succeeded | Failed | GaveUp | ContextDone

  /** The first attempt that is not answered "busy" decides; otherwise the loop gives up
      after 20 attempts, or stops while waiting when the context is done. */
  method WithRetry(attempts: nat -> Attempt, cancelled: nat -> bool)
    returns (res: DbResult, calls: nat, waited: nat)
    ensures 1 <= calls <= 20
    ensures forall k :: 1 <= k < calls ==> attempts(k).Busy? && !cancelled(k)
    ensures res.Succeeded? <==> attempts(calls).Done?
    ensures res.Failed? <==> attempts(calls).Fatal?
    ensures res.GaveUp? <==> attempts(calls).Busy? && calls == 20
    ensures res.ContextDone? <==> attempts(calls).Busy? && calls < 20 && cancelled(calls)
    ensures waited == 5 * (Triangle(calls) - 1) <= 1045
    ensures calls == 20 ==> waited == 1045
  {
    calls, waited := 0, 0;
    var retries := 1;
    while true
      invariant 1 <= retries <= MAX_RETRIES && calls == retries - 1
      invariant forall k :: 1 <= k <= calls ==> attempts(k).Busy? && !cancelled(k)
      invariant waited == 5 * (Triangle(retries) - 1)
      decreases MAX_RETRIES - retries
    {
      calls := calls + 1;
      TriangleGrows(calls, MAX_RETRIES);
      TriangleClosed(MAX_RETRIES);
      match attempts(calls)
      case Done => return Succeeded, calls, waited;
      case Fatal => return Failed, calls, waited;
      case Busy =>
      if retries >= MAX_RETRIES {
        return GaveUp, calls, waited;
      }
      retries := retries + 1;
      if cancelled(calls) {
        return ContextDone, calls, waited;
      }
      waited := waited + 5 * retries;
    }
  }

  // ---- process starts

  datatype StartResult = Running | NotStarted | StillBusy

  method StartWithRetry(attempts: nat -> Attempt) returns (res: StartResult, starts: nat, slept: nat)
    ensures 1 <= starts <= 10
    ensures forall k :: 1 <= k < starts ==> attempts(k).Busy?
    ensures res.Running? <==> attempts(starts).Done?
    ensures res.NotStarted? <==> attempts(starts).Fatal?
    ensures res.StillBusy? <==> attempts(starts).Busy? && starts == 10
    ensures slept == 10 * Triangle(starts - 1) <= 450
    ensures starts == 10 ==> slept == 450
  {
    starts, slept := 0, 0;
    while true
      invariant 0 <= starts < MAX_START_RETRIES && slept == 10 * Triangle(starts)
      invariant forall k :: 1 <= k <= starts ==> attempts(k).Busy?
      decreases MAX_START_RETRIES - starts
    {
      starts := starts + 1;
      TriangleGrows(starts - 1, MAX_START_RETRIES - 1);
      TriangleClosed(MAX_START_RETRIES - 1);
      match attempts(starts)
      case Done => return Running, starts, slept;
      case Fatal => return NotStarted, starts, slept;
      case Busy =>
      if starts >= MAX_START_RETRIES {
        return StillBusy, starts, slept;
      }
      slept := slept + 10 * starts;
    }
  }

  // ---- guest heartbeats

  /** The backoffs grow so fast that only 31 of them fit into the timer. */
  lemma FewBackoffs(n: nat)
    requires 10 * Triangle(n) <= HEARTBEAT_TIMEOUT
    ensures n <= 31
  {
    if n >= 32 {
      TriangleGrows(32, n);
      TriangleClosed(32);
    }
  }

  lemma NotTooFew(n: nat)
    requires n <= 32
    ensures n < 32 ==> 10 * Triangle(n) < HEARTBEAT_TIMEOUT
  {
    if n < 32 {
      TriangleGrows(n, 31);
      TriangleClosed(31);
    }
  }

  datatype BeatResult = Alive | TimedOut | CallerGone

  /** What the first n attempts took together. */
  function Taken(took: nat -> nat, n: nat): nat {
    if n == 0 then 0 else Taken(took, n - 1) + took(n)
  }

  /** When attempt n has ended, and when the backoff after it would end. */
  function AttemptEnd(took: nat -> nat, n: nat): nat
    requires n > 0
  {
    Taken(took, n) + 10 * Triangle(n - 1)
  }

  function BackoffEnd(took: nat -> nat, n: nat): nat {
    Taken(took, n) + 10 * Triangle(n)
  }

  lemma {:induction false} NothingTaken(took: nat -> nat, n: nat)
    requires forall k: nat :: took(k) == 0
    ensures Taken(took, n) == 0
  {
    if n == 0 {
    } else {
      NothingTaken(took, n - 1);
    }
  }

  /** The timer fires before the backoff after attempt n ends; late decides a tie. */
  predicate FiresFirst(took: nat -> nat, late: nat -> bool, n: nat) {
    BackoffEnd(took, n) > 5000 || (BackoffEnd(took, n) == 5000 && late(n))
  }

  /** Attempt k takes took(k); the wait after it ends at the earlier of the timer and the
      backoff, and late(k) decides a tie. The first attempt that is answered, whose caller has
      gone or whose backoff outlasts the timer decides. Because the waits grow, at most 32
      heartbeats are sent within the timer, and exactly 32 before it fires if they all fail at
      once. */
  method WaitForHeartbeat(alive: nat -> bool, took: nat -> nat, gone: nat -> bool, late: nat -> bool)
    returns (res: BeatResult, beats: nat, now: nat)
    ensures 1 <= beats <= 32
    ensures forall k :: 1 <= k < beats ==> !alive(k) && !gone(k) && !FiresFirst(took, late, k)
    ensures res.Alive? <==> alive(beats)
    ensures res.CallerGone? <==> !alive(beats) && gone(beats)
    ensures res.TimedOut? <==> !alive(beats) && !gone(beats) && FiresFirst(took, late, beats)
    ensures !res.TimedOut? ==> now == AttemptEnd(took, beats)
    ensures res.TimedOut? ==> now == if AttemptEnd(took, beats) < 5000 then 5000 else AttemptEnd(took, beats)
    ensures res.TimedOut? && (forall k: nat :: took(k) == 0) ==> beats == 32
  {
    beats, now := 0, 0;
    while true
      invariant beats <= 31 && now == BackoffEnd(took, beats)
      invariant beats > 0 ==> now <= HEARTBEAT_TIMEOUT
      invariant forall k :: 1 <= k <= beats ==> !alive(k) && !gone(k) && !FiresFirst(took, late, k)
      decreases 32 - beats
    {
      beats := beats + 1;
      now := now + took(beats);
      if alive(beats) {
        return Alive, beats, now;
      }
      if gone(beats) {
        return CallerGone, beats, now;
      }
      if now + 10 * beats > HEARTBEAT_TIMEOUT || (now + 10 * beats == HEARTBEAT_TIMEOUT && late(beats)) {
        if forall k: nat :: took(k) == 0 {
          NothingTaken(took, beats);
          NotTooFew(beats);
        }
        now := if now < HEARTBEAT_TIMEOUT then HEARTBEAT_TIMEOUT else now;
        return TimedOut, beats, now;
      }
      now := now + 10 * beats;
      FewBackoffs(beats);
    }
  }
}
