/**
 What every run of any number of workers keeps.

 A run is a sequence of committed transactions on the job table.  The history records each claim a worker was handed and each
 result that was recorded for an attempt.
 */
module JobRuns {
  import opened JobQueue
  import opened Options

  datatype Result = Result(id: nat, attempts: nat)

  datatype State = State(jobs: Table, nextId: nat, handed: seq<Claim>, recorded: seq<Result>)

  /** `picked` is the row a claim took, if it took one; which rows other transactions had locked is left open. */
  datatype Event =
    | Enqueue(jobType: string, key: Option<string>, maxAttempts: nat, runAt: real)
    | Claimed(now: real, lock: real, picked: Option<nat>)
    | Completed(now: real, claim: Claim)
    | FailedWith(now: real, claim: Claim, delay: real, error: string)

  const Start := State(map[], 0, [], [])

  /** Workers report only on claims they were handed; a claim takes only a claimable row. */
  ghost predicate Enabled(s: State, e: Event) {
    match e
    case Enqueue(_, key, maxAttempts, _) => maxAttempts >= 1
    case Claimed(now, lock, picked) =>
      picked.Some? ==> picked.value in s.jobs && Claimable(FailExhausted(s.jobs, now)[picked.value], now)
    case Completed(_, c) => c in s.handed
    case FailedWith(_, c, _, _) => c in s.handed
  }

  /** The attempts that ran out in one sweep, in some order. */
  ghost function Swept(t: Table, now: real, ids: set<nat>): (r: seq<Result>)
    requires ids <= t.Keys
    ensures forall x :: x in r <==> x.id in ids && Exhausted(t[x.id], now) && x.attempts == t[x.id].attempts
    ensures forall i, j :: 0 <= i < j < |r| ==> r[i] != r[j]
    decreases |ids|
  {
    if ids == {} then []
    else
      var id :| id in ids;
      var rest := Swept(t, now, ids - {id});
      if Exhausted(t[id], now) then rest + [Result(id, t[id].attempts)] else rest
  }

  ghost function Apply(s: State, e: Event): State
    requires Enabled(s, e)
  {
    match e
    case Enqueue(jobType, key, maxAttempts, runAt) =>
      if KeyTaken(s.jobs, key) then s
      else s.(jobs := s.jobs[s.nextId := NewJob(jobType, key, maxAttempts, runAt)], nextId := s.nextId + 1)
    case Claimed(now, lock, picked) =>
      var swept := FailExhausted(s.jobs, now);
      var recorded := s.recorded + Swept(s.jobs, now, s.jobs.Keys);
      if picked.None? then s.(jobs := swept, recorded := recorded)
      else
        var taken := Take(swept[picked.value], now, lock);
        s.(jobs := swept[picked.value := taken], recorded := recorded,
           handed := s.handed + [Claim(picked.value, taken.attempts, taken.maxAttempts, now, lock)])
    case Completed(now, c) =>
      if Holds(s.jobs, c) then s.(jobs := Complete(s.jobs, c, now), recorded := s.recorded + [Result(c.id, c.attempts)]) else s
    case FailedWith(now, c, delay, error) =>
      if Holds(s.jobs, c) then s.(jobs := Fail(s.jobs, c, now, delay, error), recorded := s.recorded + [Result(c.id, c.attempts)]) else s
  }

  // ------------------------------------------------------------ the invariant

  predicate GoodJob(j: Job) {
    && j.maxAttempts >= 1 && j.attempts <= j.maxAttempts
    && (j.status == Pending ==> j.attempts < j.maxAttempts && j.lockedUntil.None?)
    && (j.status == Running ==> j.attempts >= 1 && j.lockedUntil.Some?)
    && (j.finishedAt.Some? <==> j.Finished())
  }

  ghost predicate JobsGood(s: State) {
    forall id :: id in s.jobs ==> id < s.nextId && GoodJob(s.jobs[id])
  }

  ghost predicate KeysUnique(s: State) {
    forall a, b :: a in s.jobs && b in s.jobs && a != b && s.jobs[a].dedupeKey.Some? ==> s.jobs[a].dedupeKey != s.jobs[b].dedupeKey
  }

  /** Every claim handed out names an attempt its job has reached, with the job's own limit. */
  ghost predicate ClaimsKnown(s: State) {
    forall c :: c in s.handed ==> c.id in s.jobs && c.maxAttempts == s.jobs[c.id].maxAttempts && 1 <= c.attempts <= s.jobs[c.id].attempts
  }

  /** Later claims of a job carry larger attempt numbers. */
  ghost predicate ClaimsIncrease(s: State) {
    forall i, j :: 0 <= i < j < |s.handed| && s.handed[i].id == s.handed[j].id ==> s.handed[i].attempts < s.handed[j].attempts
  }

  ghost predicate WasHanded(handed: seq<Claim>, id: nat, attempts: nat) {
    exists c :: c in handed && c.id == id && c.attempts == attempts
  }

  /** Every attempt a job has reached was handed out, and a running job's lease is that of its latest claim. */
  ghost predicate AttemptsHanded(s: State) {
    && (forall id, a :: id in s.jobs && 1 <= a <= s.jobs[id].attempts ==> WasHanded(s.handed, id, a))
    && (forall c :: c in s.handed && Holds(s.jobs, c) ==> s.jobs[c.id].lockedUntil == Some(c.at + c.lock))
  }

  /** Results are recorded for attempts that were reached, at most one for each, and none yet for the attempt that is running. */
  ghost predicate ResultsGood(s: State) {
    && (forall i, j :: 0 <= i < j < |s.recorded| ==> s.recorded[i] != s.recorded[j])
    && (forall r :: r in s.recorded ==> r.id in s.jobs && 1 <= r.attempts <= s.jobs[r.id].attempts)
    && (forall r :: r in s.recorded && s.jobs[r.id].status == Running ==> r.attempts < s.jobs[r.id].attempts)
    && (forall id :: id in s.jobs && s.jobs[id].status != Running && s.jobs[id].attempts >= 1 ==> Result(id, s.jobs[id].attempts) in s.recorded)
  }

  /** Two consecutive claims of a job with no result recorded in between: the second is strictly after the first lease. */
  ghost predicate LeasesRespected(s: State) {
    forall c, d :: c in s.handed && d in s.handed && c.id == d.id && d.attempts == c.attempts + 1 && Result(c.id, c.attempts) !in s.recorded
      ==> d.at > c.at + c.lock
  }

  ghost predicate Inv(s: State) {
    JobsGood(s) && KeysUnique(s) && ClaimsKnown(s) && ClaimsIncrease(s) && AttemptsHanded(s) && ResultsGood(s) && LeasesRespected(s)
  }

  // ------------------------------------------------------------ every step keeps it

  ghost function WithJob(s: State, j: Job): State {
    s.(jobs := s.jobs[s.nextId := j], nextId := s.nextId + 1)
  }

  lemma NewJobKeepsJobs(s: State, j: Job)
    requires JobsGood(s) && KeysUnique(s) && GoodJob(j) && !KeyTaken(s.jobs, j.dedupeKey)
    ensures JobsGood(WithJob(s, j)) && KeysUnique(WithJob(s, j))
  {
    hide GoodJob;
  }

  lemma NewJobKeepsHistory(s: State, j: Job)
    requires JobsGood(s) && ClaimsKnown(s) && ClaimsIncrease(s) && AttemptsHanded(s) && ResultsGood(s) && LeasesRespected(s)
    requires j.status == Pending && j.attempts == 0
    ensures ClaimsKnown(WithJob(s, j)) && ClaimsIncrease(WithJob(s, j)) && AttemptsHanded(WithJob(s, j))
    ensures ResultsGood(WithJob(s, j)) && LeasesRespected(WithJob(s, j))
  {
    hide GoodJob, WasHanded;
    assert s.nextId !in s.jobs;
  }

  lemma EnqueueKeeps(s: State, e: Event)
    requires Inv(s) && Enabled(s, e) && e.Enqueue?
    ensures Inv(Apply(s, e))
  {
    if !KeyTaken(s.jobs, e.key) {
      var j := NewJob(e.jobType, e.key, e.maxAttempts, e.runAt);
      NewJobKeepsJobs(s, j);
      NewJobKeepsHistory(s, j);
      assert Apply(s, e) == WithJob(s, j);
    }
    hide JobsGood, KeysUnique, ClaimsKnown, ClaimsIncrease, AttemptsHanded, ResultsGood, LeasesRespected, KeyTaken;
  }

  predicate Settled(j: Job, j': Job) {
    && j.status == Running && j'.status != Running && GoodJob(j')
    && j'.attempts == j.attempts && j'.maxAttempts == j.maxAttempts && j'.dedupeKey == j.dedupeKey
  }

  /** Some running jobs stop running, each with one recorded result; nothing else changes. */
  ghost predicate Settles(s: State, s': State, results: seq<Result>) {
    && s'.jobs.Keys == s.jobs.Keys && s'.nextId == s.nextId && s'.handed == s.handed && s'.recorded == s.recorded + results
    && (forall id :: id in s.jobs && s'.jobs[id] != s.jobs[id] ==> Settled(s.jobs[id], s'.jobs[id]) && Result(id, s.jobs[id].attempts) in results)
    && (forall i, j :: 0 <= i < j < |results| ==> results[i] != results[j])
    && (forall r :: r in results ==>
      r.id in s.jobs && s.jobs[r.id].status == Running && r.attempts == s.jobs[r.id].attempts && s'.jobs[r.id].status != Running)
  }

  lemma SettlingKeepsJobs(s: State, s': State, results: seq<Result>)
    requires JobsGood(s) && KeysUnique(s) && Settles(s, s', results)
    ensures JobsGood(s') && KeysUnique(s')
    ensures forall id :: id in s.jobs ==> s'.jobs[id].attempts == s.jobs[id].attempts && s'.jobs[id].maxAttempts == s.jobs[id].maxAttempts
  {
    hide GoodJob;
    assert forall id :: id in s'.jobs ==> s'.jobs[id] == s.jobs[id] || Settled(s.jobs[id], s'.jobs[id]);
  }

  lemma SettlingKeepsHistory(s: State, s': State, results: seq<Result>)
    requires ClaimsKnown(s) && ClaimsIncrease(s) && AttemptsHanded(s) && LeasesRespected(s) && Settles(s, s', results)
    requires forall id :: id in s.jobs ==> s'.jobs[id].attempts == s.jobs[id].attempts && s'.jobs[id].maxAttempts == s.jobs[id].maxAttempts
    ensures ClaimsKnown(s') && ClaimsIncrease(s') && AttemptsHanded(s') && LeasesRespected(s')
  {
    hide GoodJob, WasHanded;
    assert forall c :: Holds(s'.jobs, c) ==> Holds(s.jobs, c) && s'.jobs[c.id] == s.jobs[c.id];
    assert forall r :: r in s.recorded ==> r in s'.recorded;
  }

  lemma SettlingKeeps(s: State, s': State, results: seq<Result>)
    requires Inv(s) && Settles(s, s', results)
    ensures Inv(s')
  {
    hide JobsGood, KeysUnique, ClaimsKnown, ClaimsIncrease, AttemptsHanded, ResultsGood, LeasesRespected, Settles;
    SettlingKeepsResults(s, s', results);
    SettlingKeepsJobs(s, s', results);
    SettlingKeepsHistory(s, s', results);
  }

  lemma SettlingKeepsResults(s: State, s': State, results: seq<Result>)
    requires Inv(s) && Settles(s, s', results)
    ensures ResultsGood(s')
  {
    assert forall r :: r in s'.recorded <==> r in s.recorded || r in results;
    forall i, j | 0 <= i < j < |s'.recorded| ensures s'.recorded[i] != s'.recorded[j] {
      if i < |s.recorded| <= j {
        assert s.recorded[i] in s.recorded && results[j - |s.recorded|] in results;
      }
    }
  }

  /** The sweep alone, before anything is claimed. */
  ghost function Sweep(s: State, now: real): State {
    s.(jobs := FailExhausted(s.jobs, now), recorded := s.recorded + Swept(s.jobs, now, s.jobs.Keys))
  }

  lemma SweepSettles(s: State, now: real)
    requires JobsGood(s)
    ensures Settles(s, Sweep(s, now), Swept(s.jobs, now, s.jobs.Keys))
  {
    hide Swept;
    var s', gone := Sweep(s, now), Swept(s.jobs, now, s.jobs.Keys);
    forall id | id in s.jobs && s'.jobs[id] != s.jobs[id]
      ensures Settled(s.jobs[id], s'.jobs[id]) && Result(id, s.jobs[id].attempts) in gone
    {
      assert Result(id, s.jobs[id].attempts).id in s.jobs.Keys;
    }
  }

  lemma SweepKeeps(s: State, now: real)
    requires Inv(s)
    ensures Inv(Sweep(s, now))
  {
    hide Settles, Sweep, Swept;
    SweepSettles(s, now);
    SettlingKeeps(s, Sweep(s, now), Swept(s.jobs, now, s.jobs.Keys));
    hide Inv;
  }

  ghost function TakeOne(s: State, id: nat, now: real, lock: real): State
    requires id in s.jobs
  {
    var taken := Take(s.jobs[id], now, lock);
    s.(jobs := s.jobs[id := taken], handed := s.handed + [Claim(id, taken.attempts, taken.maxAttempts, now, lock)])
  }

  lemma TakeKeepsJobs(s: State, id: nat, now: real, lock: real)
    requires JobsGood(s) && KeysUnique(s) && id in s.jobs && Claimable(s.jobs[id], now)
    ensures JobsGood(TakeOne(s, id, now, lock)) && KeysUnique(TakeOne(s, id, now, lock))
  {
  }

  lemma TakeKeepsResults(s: State, id: nat, now: real, lock: real)
    requires ResultsGood(s) && id in s.jobs && Claimable(s.jobs[id], now)
    ensures ResultsGood(TakeOne(s, id, now, lock))
  {
  }

  lemma TakeKeepsClaims(s: State, id: nat, now: real, lock: real)
    requires ClaimsKnown(s) && ClaimsIncrease(s) && id in s.jobs && Claimable(s.jobs[id], now)
    ensures ClaimsKnown(TakeOne(s, id, now, lock)) && ClaimsIncrease(TakeOne(s, id, now, lock))
  {
    var s' := TakeOne(s, id, now, lock);
    var c := s'.handed[|s.handed|];
    assert forall x :: x in s'.handed <==> x in s.handed || x == c;
    forall i | 0 <= i < |s.handed| && s.handed[i].id == id
      ensures s.handed[i].attempts < c.attempts
    {
      assert s.handed[i] in s.handed;
    }
  }

  lemma TakeKeeps(s: State, id: nat, now: real, lock: real)
    requires Inv(s) && id in s.jobs && Claimable(s.jobs[id], now)
    ensures Inv(TakeOne(s, id, now, lock))
  {
    hide JobsGood, KeysUnique, ClaimsKnown, ClaimsIncrease, AttemptsHanded, ResultsGood, LeasesRespected, TakeOne;
    TakeKeepsJobs(s, id, now, lock);
    TakeKeepsClaims(s, id, now, lock);
    TakeKeepsResults(s, id, now, lock);
    TakeKeepsAttempts(s, id, now, lock);
    TakeKeepsLeases(s, id, now, lock);
  }

  lemma TakeKeepsAttempts(s: State, id: nat, now: real, lock: real)
    requires Inv(s) && id in s.jobs && Claimable(s.jobs[id], now)
    ensures AttemptsHanded(TakeOne(s, id, now, lock))
  {
    var s' := TakeOne(s, id, now, lock);
    var c := s'.handed[|s.handed|];
    assert forall x :: x in s'.handed <==> x in s.handed || x == c;
    forall job, a | job in s'.jobs && 1 <= a <= s'.jobs[job].attempts
      ensures WasHanded(s'.handed, job, a)
    {
      if job == id && a == c.attempts {
        assert c in s'.handed;
      } else {
        assert WasHanded(s.handed, job, a);
        var x :| x in s.handed && x.id == job && x.attempts == a;
        assert x in s'.handed;
      }
    }
  }

  lemma TakeKeepsLeases(s: State, id: nat, now: real, lock: real)
    requires Inv(s) && id in s.jobs && Claimable(s.jobs[id], now)
    ensures LeasesRespected(TakeOne(s, id, now, lock))
  {
    var s' := TakeOne(s, id, now, lock);
    var d := s'.handed[|s.handed|];
    forall c | c in s.handed && c.id == id && c.attempts + 1 == d.attempts && Result(id, c.attempts) !in s.recorded
      ensures d.at > c.at + c.lock
    {
      assert Holds(s.jobs, c);
    }
    assert forall x :: x in s'.handed <==> x in s.handed || x == d;
  }

  lemma ReportKeeps(s: State, e: Event)
    requires Inv(s) && Enabled(s, e) && (e.Completed? || e.FailedWith?)
    ensures Inv(Apply(s, e))
  {
    if Holds(s.jobs, e.claim) {
      var s' := Apply(s, e);
      var results := [Result(e.claim.id, e.claim.attempts)];
      assert GoodJob(s'.jobs[e.claim.id]);
      assert results[0] in results;
      assert Settles(s, s', results);
      hide Settles, Inv, Apply;
      SettlingKeeps(s, s', results);
    }
  }

  lemma StepKeeps(s: State, e: Event)
    requires Inv(s) && Enabled(s, e)
    ensures Inv(Apply(s, e))
  {
    match e
    case Enqueue(_, _, _, _) => EnqueueKeeps(s, e);
    case Claimed(now, lock, picked) =>
      SweepKeeps(s, now);
      if picked.Some? {
        TakeKeeps(Sweep(s, now), picked.value, now, lock);
        assert Apply(s, e) == TakeOne(Sweep(s, now), picked.value, now, lock);
      }
    case Completed(_, _) => ReportKeeps(s, e);
    case FailedWith(_, _, _, _) => ReportKeeps(s, e);
  }

  // ------------------------------------------------------------ runs

  ghost predicate IsRun(es: seq<Event>)
    decreases |es|, 0
  {
    es == [] || (IsRun(es[..|es| - 1]) && Enabled(After(es[..|es| - 1]), es[|es| - 1]))
  }

  ghost function After(es: seq<Event>): State
    requires IsRun(es)
    decreases |es|, 1
  {
    if es == [] then Start else Apply(After(es[..|es| - 1]), es[|es| - 1])
  }

  lemma {:induction false} RunsKeep(es: seq<Event>)
    requires IsRun(es)
    ensures Inv(After(es))
  {
    if es != [] {
      RunsKeep(es[..|es| - 1]);
      StepKeeps(After(es[..|es| - 1]), es[|es| - 1]);
    }
  }

  /** Over any run no (job, attempt) pair is handed out twice, and no job is started more often than its limit allows. */
  lemma HandedOnce(es: seq<Event>, i: nat, j: nat)
    requires IsRun(es) && i < j < |After(es).handed|
    ensures var h := After(es).handed; (h[i].id, h[i].attempts) != (h[j].id, h[j].attempts)
    ensures var s := After(es); var c := s.handed[j]; c.id in s.jobs && c.attempts <= c.maxAttempts == s.jobs[c.id].maxAttempts
  {
    hide Apply, Enabled;
    RunsKeep(es);
    assert After(es).handed[j] in After(es).handed;
  }

  /** Over any run, a job is claimed again without a recorded result only strictly after the earlier lease ran out. */
  lemma ReclaimedAfterLease(es: seq<Event>, c: Claim, d: Claim)
    requires IsRun(es) && c in After(es).handed && d in After(es).handed
    requires c.id == d.id && c.attempts < d.attempts && Result(c.id, c.attempts) !in After(es).recorded
    ensures exists next :: next in After(es).handed && next.id == c.id && next.attempts == c.attempts + 1 && next.at > c.at + c.lock
  {
    hide Apply, Enabled;
    RunsKeep(es);
    var s := After(es);
    assert WasHanded(s.handed, c.id, c.attempts + 1);
    var next :| next in s.handed && next.id == c.id && next.attempts == c.attempts + 1;
  }

  /** Over any run each attempt gets at most one recorded result. */
  lemma OneResultPerAttempt(es: seq<Event>, i: nat, j: nat)
    requires IsRun(es) && i < j < |After(es).recorded|
    ensures After(es).recorded[i] != After(es).recorded[j]
  {
    hide Apply, Enabled;
    RunsKeep(es);
  }

  /**
   The fence, over runs: a result changes the table exactly when its claim is the latest one of its job and has no result yet.
   A late result leaves the whole state as it is.
   */
  lemma LateResultsAreIgnored(es: seq<Event>, e: Event)
    requires IsRun(es) && (e.Completed? || e.FailedWith?) && Enabled(After(es), e)
    ensures var s, c := After(es), e.claim;
      (Apply(s, e) != s) <==>
      (Result(c.id, c.attempts) !in s.recorded && forall d :: d in s.handed && d.id == c.id ==> d.attempts <= c.attempts)
  {
    var s, c := After(es), e.claim;
    RunsKeep(es);
    if Holds(s.jobs, c) {
      assert Apply(s, e).recorded != s.recorded;
    } else if s.jobs[c.id].attempts > c.attempts {
      assert WasHanded(s.handed, c.id, s.jobs[c.id].attempts);
      var d :| d in s.handed && d.id == c.id && d.attempts == s.jobs[c.id].attempts;
    }
  }

  /** A finished job never changes again, whatever workers do. */
  lemma FinishedIsFinal(s: State, e: Event, id: nat)
    requires Inv(s) && Enabled(s, e) && id in s.jobs && s.jobs[id].Finished()
    ensures id in Apply(s, e).jobs && Apply(s, e).jobs[id] == s.jobs[id]
  {
    assert e.Enqueue? ==> id != s.nextId;
  }

  lemma {:induction false} FinishedForever(es: seq<Event>, more: seq<Event>, id: nat)
    requires IsRun(es) && IsRun(es + more) && id in After(es).jobs && After(es).jobs[id].Finished()
    ensures id in After(es + more).jobs && After(es + more).jobs[id] == After(es).jobs[id]
    decreases |more|
  {
    hide Apply, Enabled;
    if more == [] {
      assert es + more == es;
    } else {
      var n := |more| - 1;
      assert (es + more)[..|es + more| - 1] == es + more[..n];
      FinishedForever(es, more[..n], id);
      RunsKeep(es + more[..n]);
      FinishedIsFinal(After(es + more[..n]), more[n], id);
    }
  }

  /** When an unfinished job's time comes: its due time, or the end of its lease. */
  function WakesAt(j: Job): real {
    if j.status == Running && j.lockedUntil.Some? then j.lockedUntil.value else j.runAt
  }

  /** No job is stranded: once its time has passed, a pending job can be claimed and a running one can be claimed or failed. */
  lemma NoStrandedJob(es: seq<Event>, id: nat, now: real)
    requires IsRun(es) && id in After(es).jobs && !After(es).jobs[id].Finished() && now > WakesAt(After(es).jobs[id])
    ensures var j := After(es).jobs[id]; Claimable(j, now) || Exhausted(j, now)
    ensures After(es).jobs[id].status == Pending ==> Claimable(After(es).jobs[id], now)
  {
    hide Apply, Enabled;
    RunsKeep(es);
  }

  /**
   Over any run a pending job can be claimed exactly from its run time on; a running one exactly after the end of its lease, while it has
   attempts left, and once it has none it can only be failed then.
   */
  lemma ClaimableExactly(es: seq<Event>, id: nat, now: real)
    requires IsRun(es) && id in After(es).jobs
    ensures var j := After(es).jobs[id];
      && (j.status == Pending ==> (Claimable(j, now) <==> j.runAt <= now) && !Exhausted(j, now))
      && (j.status == Running ==> (
        && j.lockedUntil.Some?
        && (Claimable(j, now) <==> j.lockedUntil.value < now && j.attempts < j.maxAttempts)
        && (Exhausted(j, now) <==> j.lockedUntil.value < now && j.attempts >= j.maxAttempts)))
      && (j.Finished() ==> !Claimable(j, now) && !Exhausted(j, now))
  {
    hide Apply, Enabled;
    RunsKeep(es);
  }

  // ------------------------------------------------------------ how a job ends

  /** The event records that the job's handler returned. */
  predicate Succeeds(s: State, e: Event, id: nat) {
    && e.Completed? && e.claim.id == id
    && id in s.jobs && s.jobs[id].status == Running && s.jobs[id].attempts == e.claim.attempts
  }

  /** The event records the failure of the job's last attempt, or finds that this attempt has outlived its lease. */
  predicate Fails(s: State, e: Event, id: nat) {
    && id in s.jobs && s.jobs[id].status == Running && s.jobs[id].attempts >= s.jobs[id].maxAttempts
    && (|| (e.FailedWith? && e.claim.id == id && e.claim.attempts == s.jobs[id].attempts)
        || (e.Claimed? && s.jobs[id].lockedUntil.Some? && s.jobs[id].lockedUntil.value < e.now))
  }

  ghost predicate SucceededAt(es: seq<Event>, k: nat, id: nat) {
    k < |es| && IsRun(es[..k]) && Succeeds(After(es[..k]), es[k], id)
  }

  ghost predicate FailedAt(es: seq<Event>, k: nat, id: nat) {
    k < |es| && IsRun(es[..k]) && Fails(After(es[..k]), es[k], id)
  }

  predicate StatusIs(s: State, id: nat, status: Status) {
    id in s.jobs && s.jobs[id].status == status
  }

  lemma EndStep(s: State, e: Event, id: nat)
    requires Inv(s) && Enabled(s, e)
    ensures StatusIs(Apply(s, e), id, Succeeded) <==> StatusIs(s, id, Succeeded) || Succeeds(s, e, id)
    ensures StatusIs(Apply(s, e), id, Failed) <==> StatusIs(s, id, Failed) || Fails(s, e, id)
  {
    hide KeysUnique, ClaimsIncrease, AttemptsHanded, ResultsGood, LeasesRespected;
    assert e.Enqueue? ==> s.nextId !in s.jobs;
  }

  lemma EndsAt(es: seq<Event>, id: nat)
    requires es != []
    ensures var n := |es| - 1;
      && ((exists k :: SucceededAt(es, k, id)) <==> (exists k :: SucceededAt(es[..n], k, id)) || SucceededAt(es, n, id))
      && ((exists k :: FailedAt(es, k, id)) <==> (exists k :: FailedAt(es[..n], k, id)) || FailedAt(es, n, id))
  {
    hide IsRun, After, Succeeds, Fails;
    var n := |es| - 1;
    forall k: nat | k < n
      ensures SucceededAt(es, k, id) <==> SucceededAt(es[..n], k, id)
      ensures FailedAt(es, k, id) <==> FailedAt(es[..n], k, id)
    {
      assert es[..n][..k] == es[..k];
    }
  }

  /**
   Over any run a job has succeeded exactly when its handler returned in the attempt it was running, and has failed exactly when its last
   attempt failed or outlived its lease.
   */
  lemma {:induction false} EndsExactly(es: seq<Event>, id: nat)
    requires IsRun(es)
    ensures StatusIs(After(es), id, Succeeded) <==> exists k :: SucceededAt(es, k, id)
    ensures StatusIs(After(es), id, Failed) <==> exists k :: FailedAt(es, k, id)
  {
    hide Apply, Enabled, Succeeds, Fails, Inv;
    if es != [] {
      var n := |es| - 1;
      EndsExactly(es[..n], id);
      RunsKeep(es[..n]);
      EndStep(After(es[..n]), es[n], id);
      EndsAt(es, id);
    }
  }

  function Rank(s: Status): nat {
    match s
    case Running => 2
    case Pending => 1
    case Succeeded => 0
    case Failed => 0
  }

  /** What is left of a job: attempts not yet used, then how far the current one is from its end. */
  predicate Progressed(before: Job, after: Job) {
    || after.maxAttempts - after.attempts < before.maxAttempts - before.attempts
    || (after.maxAttempts - after.attempts == before.maxAttempts - before.attempts && Rank(after.status) < Rank(before.status))
  }

  /** Every change of a job uses up part of what is left of it, so a job changes finitely often. */
  lemma StepsProgress(s: State, e: Event, id: nat)
    requires Inv(s) && Enabled(s, e) && id in s.jobs
    ensures id in Apply(s, e).jobs
    ensures Apply(s, e).jobs[id] != s.jobs[id] ==> Progressed(s.jobs[id], Apply(s, e).jobs[id])
    ensures GoodJob(Apply(s, e).jobs[id])
  {
    StepKeeps(s, e);
    assert e.Enqueue? ==> id != s.nextId;
  }

  /** Over any run at most one job was ever added for a dedupe key. */
  lemma OneJobPerKey(es: seq<Event>, a: nat, b: nat)
    requires IsRun(es) && a in After(es).jobs && b in After(es).jobs
    requires After(es).jobs[a].dedupeKey.Some? && After(es).jobs[a].dedupeKey == After(es).jobs[b].dedupeKey
    ensures a == b
  {
    hide Apply, Enabled;
    RunsKeep(es);
  }
}
