/**
 The background job table and the statements the workers run on it.

 Every statement reads its own clock value; nothing below assumes that the values of different transactions are ordered.
 */
module JobQueue {
  import opened Options

  datatype Status = Pending | Running | Succeeded | Failed

  datatype Job = Job(
    jobType: string, status: Status, attempts: nat, maxAttempts: nat, runAt: real, lockedUntil: Option<real>,
    finishedAt: Option<real>, lastError: Option<string>, dedupeKey: Option<string>)
  {
    predicate Finished() { status == Succeeded || status == Failed }
  }

  type Table = map<nat, Job>

  /** What a worker keeps of the row it claimed, and when it claimed it. */
  datatype Claim = Claim(id: nat, attempts: nat, maxAttempts: nat, at: real, lock: real)

  // ------------------------------------------------------------ the statements

  /** Running out its lease on its last attempt. A missing lease is never in the past. */
  predicate Exhausted(j: Job, now: real) {
    j.status == Running && j.lockedUntil.Some? && j.lockedUntil.value < now && j.attempts >= j.maxAttempts
  }

  const STOPPED := " [worker stopped before finishing; out of attempts]"

  function Exhaust(j: Job, now: real): Job {
    var before := if j.lastError.Some? then j.lastError.value else "";
    j.(status := Failed, finishedAt := Some(now), lockedUntil := None, lastError := Some(before + STOPPED))
  }

  function FailExhausted(t: Table, now: real): (r: Table)
    ensures r.Keys == t.Keys
  {
    map id | id in t :: if Exhausted(t[id], now) then Exhaust(t[id], now) else t[id]
  }

  /** A job the sweep finds: running, out of lease, out of attempts.  It fails, with a note after its last error. */
  lemma SweepExactly(t: Table, now: real, id: nat)
    requires id in t
    ensures var j := t[id];
      FailExhausted(t, now)[id] == if j.status == Running && j.lockedUntil.Some? && j.lockedUntil.value < now && j.attempts >= j.maxAttempts
        then Job(j.jobType, Failed, j.attempts, j.maxAttempts, j.runAt, None, Some(now),
                 Some((if j.lastError.Some? then j.lastError.value else "") + STOPPED), j.dedupeKey)
        else j
  {
  }

  predicate Claimable(j: Job, now: real) {
    && j.attempts < j.maxAttempts
    && (|| (j.status == Pending && j.runAt <= now)
        || (j.status == Running && j.lockedUntil.Some? && j.lockedUntil.value < now))
  }

  function Take(j: Job, now: real, lock: real): Job {
    j.(status := Running, attempts := j.attempts + 1, lockedUntil := Some(now + lock))
  }

  /** A claimed job runs one more attempt under a new lease, and is otherwise as it was. */
  lemma TakeExactly(j: Job, now: real, lock: real)
    ensures Take(j, now, lock)
         == Job(j.jobType, Running, j.attempts + 1, j.maxAttempts, j.runAt, Some(now + lock), j.finishedAt, j.lastError, j.dedupeKey)
  {
  }

  /** The worker that holds claim c may still record a result: the row is at the same attempt and not finished. */
  predicate Holds(t: Table, c: Claim) {
    c.id in t && t[c.id].status == Running && t[c.id].attempts == c.attempts
  }

  function Complete(t: Table, c: Claim, now: real): Table {
    if Holds(t, c) then
      t[c.id := t[c.id].(status := Succeeded, finishedAt := Some(now), lockedUntil := None, lastError := None)]
    else t
  }

  predicate Final(c: Claim) { c.attempts >= c.maxAttempts }

  function Shortened(error: string): string {
    if |error| > 4000 then error[..4000] else error
  }

  function Fail(t: Table, c: Claim, now: real, delay: real, error: string): Table {
    if Holds(t, c) then
      t[c.id := t[c.id].(
        status := if Final(c) then Failed else Pending,
        runAt := now + delay,
        finishedAt := if Final(c) then Some(now) else None,
        lockedUntil := None,
        lastError := Some(Shortened(error)))]
    else t
  }

  function Pow2(n: nat): (p: real)
    ensures p >= 1.0
  {
    if n == 0 then 1.0 else 2.0 * Pow2(n - 1)
  }

  function RetryDelay(attempts: nat, base: real, cap: real): real {
    var grown := base * Pow2(if attempts >= 1 then attempts - 1 else 0);
    if grown <= cap then grown else cap
  }

  /** The delays start at the base and double from attempt to attempt, all held down to the cap, so they never shrink. */
  lemma RetryDelayDoubles(attempts: nat, base: real, cap: real)
    requires attempts >= 1 && base >= 0.0 && cap >= 0.0
    ensures 0.0 <= RetryDelay(attempts, base, cap) <= RetryDelay(attempts + 1, base, cap) <= cap
    ensures 2.0 * RetryDelay(attempts, base, cap) <= cap ==> RetryDelay(attempts + 1, base, cap) == 2.0 * RetryDelay(attempts, base, cap)
    ensures 2.0 * RetryDelay(attempts, base, cap) > cap ==> RetryDelay(attempts + 1, base, cap) == cap
    ensures base <= cap ==> RetryDelay(1, base, cap) == base
    ensures base > cap ==> RetryDelay(1, base, cap) == cap
    ensures RetryDelay(0, base, cap) == RetryDelay(1, base, cap)
  {
    var p := Pow2(attempts - 1);
    assert Pow2(attempts) == 2.0 * p;
    assert base * Pow2(attempts) == 2.0 * (base * p);
    assert base * p >= 0.0;
  }

  predicate KeyTaken(t: Table, key: Option<string>) {
    key.Some? && exists id | id in t :: t[id].dedupeKey == key
  }

  function NewJob(jobType: string, key: Option<string>, maxAttempts: nat, runAt: real): Job {
    Job(jobType, Pending, 0, maxAttempts, runAt, None, None, None, key)
  }

  // ------------------------------------------------------------ the table as the workers change it

  datatype Enqueued = Added(id: nat) | Duplicate | Refused

  /** The row that comes first in (run_at, id) order. */
  predicate Earlier(t: Table, a: nat, b: nat)
    requires a in t && b in t
  {
    t[a].runAt < t[b].runAt || (t[a].runAt == t[b].runAt && a <= b)
  }

  class JobTable {
    var jobs: Table
    var nextId: nat

    constructor ()
      ensures jobs == map[] && nextId == 0
    {
      jobs, nextId := map[], 0;
    }

    ghost predicate Fresh()
      reads this
    {
      forall id :: id in jobs ==> id < nextId
    }

    /** A missing or zero limit means the default; a limit below one violates the table's check. */
    method Enqueue(jobType: string, key: Option<string>, limit: Option<int>, defaultLimit: nat, now: real, delay: real) returns (r: Enqueued)
      requires Fresh() && defaultLimit >= 1
      modifies this
      ensures Fresh()
      ensures r.Refused? <==> limit.Some? && limit.value < 0
      ensures r.Duplicate? <==> !r.Refused? && key.Some? && exists id :: id in old(jobs) && old(jobs)[id].dedupeKey == key
      ensures !r.Added? ==> jobs == old(jobs) && nextId == old(nextId)
      ensures r.Added? ==> r.id == old(nextId) && r.id !in old(jobs) && nextId == old(nextId) + 1
      ensures r.Added? ==>
        var tries := if limit.Some? && limit.value > 0 then limit.value else defaultLimit;
        jobs == old(jobs)[r.id := Job(jobType, Pending, 0, tries, now + delay, None, None, None, key)]
    {
      var effective: int := if limit.Some? && limit.value != 0 then limit.value else defaultLimit;
      if effective < 1 {
        return Refused;
      }
      if KeyTaken(jobs, key) {
        return Duplicate;
      }
      jobs := jobs[nextId := NewJob(jobType, key, effective, now + delay)];
      r := Added(nextId);
      nextId := nextId + 1;
    }

    /**
     One claim transaction: jobs that ran out of attempts and lease are failed, with a note after their last error; then the first
     claimable row in (run_at, id) order that no other transaction has locked is taken, for one more attempt under a new lease.
     */
    method ClaimNext(now: real, lock: real, lockedRows: set<nat>) returns (r: Option<Claim>)
      modifies this`jobs
      ensures var swept := FailExhausted(old(jobs), now);
        && (r.None? <==> forall id :: id in swept && id !in lockedRows ==> !Claimable(swept[id], now))
        && (r.None? ==> jobs == swept)
        && (r.Some? ==>
          var c := r.value;
          && c.id in swept && c.id !in lockedRows && Claimable(swept[c.id], now)
          && (forall id :: id in swept && id !in lockedRows && Claimable(swept[id], now) ==>
            swept[c.id].runAt < swept[id].runAt || (swept[c.id].runAt == swept[id].runAt && c.id <= id))
          && jobs == swept[c.id := Take(swept[c.id], now, lock)]
          && c == Claim(c.id, jobs[c.id].attempts, jobs[c.id].maxAttempts, now, lock))
    {
      hide FailExhausted, Claimable, Take;
      jobs := FailExhausted(jobs, now);
      var candidates := set id | id in jobs && id !in lockedRows && Claimable(jobs[id], now);
      if candidates == {} {
        assert forall id :: id in jobs && id !in lockedRows && Claimable(jobs[id], now) ==> id in candidates;
        return None;
      }
      var first :| first in candidates;
      var rest := candidates - {first};
      while rest != {}
        invariant rest <= candidates && first in candidates
        invariant forall id :: id in candidates && id !in rest ==> Earlier(jobs, first, id)
        decreases |rest|
      {
        var id :| id in rest;
        if Earlier(jobs, id, first) {
          first := id;
        }
        rest := rest - {id};
      }
      ghost var swept := jobs;
      jobs := jobs[first := Take(jobs[first], now, lock)];
      r := Some(Claim(first, jobs[first].attempts, jobs[first].maxAttempts, now, lock));
      assert forall id :: id in swept && id !in lockedRows && Claimable(swept[id], now) ==> id in candidates;
    }

    /** True when the result was recorded: the job has succeeded and is over. A late result changes nothing. */
    method CompleteJob(c: Claim, now: real) returns (done: bool)
      modifies this`jobs
      ensures done <==> c.id in old(jobs) && old(jobs)[c.id].status == Running && old(jobs)[c.id].attempts == c.attempts
      ensures !done ==> jobs == old(jobs)
      ensures done ==>
        var j := old(jobs)[c.id];
        jobs == old(jobs)[c.id := Job(j.jobType, Succeeded, j.attempts, j.maxAttempts, j.runAt, None, Some(now), None, j.dedupeKey)]
      ensures jobs == Complete(old(jobs), c, now)
    {
      done := c.id in jobs && jobs[c.id].status == Running && jobs[c.id].attempts == c.attempts;
      if done {
        jobs := jobs[c.id := jobs[c.id].(status := Succeeded, finishedAt := Some(now), lockedUntil := None, lastError := None)];
      }
    }

    /** True when the failure was recorded: the last attempt fails the job, any other puts it back to run after the retry delay. */
    method FailJob(c: Claim, now: real, base: real, cap: real, error: string) returns (done: bool)
      modifies this`jobs
      ensures done <==> c.id in old(jobs) && old(jobs)[c.id].status == Running && old(jobs)[c.id].attempts == c.attempts
      ensures !done ==> jobs == old(jobs)
      ensures done ==>
        var j, dueAt := old(jobs)[c.id], now + RetryDelay(c.attempts, base, cap);
        && c.id in jobs && jobs[c.id].lastError.Some?
        && var text := jobs[c.id].lastError.value;
          && text <= error && |text| == (if |error| > 4000 then 4000 else |error|)
          && jobs == old(jobs)[c.id := if c.attempts >= c.maxAttempts
            then Job(j.jobType, Failed, j.attempts, j.maxAttempts, dueAt, None, Some(now), Some(text), j.dedupeKey)
            else Job(j.jobType, Pending, j.attempts, j.maxAttempts, dueAt, None, None, Some(text), j.dedupeKey)]
      ensures jobs == Fail(old(jobs), c, now, RetryDelay(c.attempts, base, cap), error)
    {
      var final := c.attempts >= c.maxAttempts;
      var delay := RetryDelay(c.attempts, base, cap);
      done := c.id in jobs && jobs[c.id].status == Running && jobs[c.id].attempts == c.attempts;
      if done {
        var j := jobs[c.id];
        j := j.(runAt := now + delay, lockedUntil := None, lastError := Some(if |error| > 4000 then error[..4000] else error));
        if final {
          j := j.(status := Failed, finishedAt := Some(now));
        } else {
          j := j.(status := Pending, finishedAt := None);
        }
        jobs := jobs[c.id := j];
      }
    }
  }
}
