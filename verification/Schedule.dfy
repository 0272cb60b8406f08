/** Periodic jobs: one dedupe key for each job type and time bucket, however many workers tick. */
module Schedule {
  import opened Arith
  import opened Digits
  import opened JobQueue
  import opened Options

  datatype Periodic = Periodic(jobType: string, interval: int)

  /** A scheduled job of this type in this time bucket. */
  function BucketKey(jobType: string, bucket: nat): string {
    "schedule:" + jobType + [':'] + Decimal(bucket)
  }

  /** Different types or buckets never share a key, whatever characters a type's name contains. */
  lemma BucketKeyInjective(t: string, b: nat, t': string, b': nat)
    requires BucketKey(t, b) == BucketKey(t', b')
    ensures t == t' && b == b'
  {
    ParseDecimal(b);
    ParseDecimal(b');
    SplitAtLast("schedule:" + t, Decimal(b), "schedule:" + t', Decimal(b'), ':');
    assert t == ("schedule:" + t)[9..] && t' == ("schedule:" + t')[9..];
  }

  lemma BucketKeyText(t: string, b: nat)
    ensures BucketKey(t, b) == "schedule:" + t + [':'] + Decimal(b)
  {
  }

  /** The job of one schedule for the bucket of this moment is on the table. */
  ghost predicate Queued(t: Table, p: Periodic, seconds: nat) {
    p.interval > 0 ==> KeyTaken(t, Some(BucketKey(p.jobType, seconds / p.interval)))
  }

  /** Registers a job type once; a second registration is ignored. */
  method RegisterSchedule(schedules: seq<Periodic>, p: Periodic) returns (r: seq<Periodic>)
    ensures r == if exists i :: 0 <= i < |schedules| && schedules[i].jobType == p.jobType then schedules else schedules + [p]
    ensures exists q :: q in r && q.jobType == p.jobType
    ensures (forall i, j :: 0 <= i < j < |schedules| ==> schedules[i].jobType != schedules[j].jobType)
      ==> (forall i, j :: 0 <= i < j < |r| ==> r[i].jobType != r[j].jobType)
  {
    if exists q | q in schedules :: q.jobType == p.jobType {
      r := schedules;
    } else {
      r := schedules + [p];
      assert p in r;
    }
  }

  /** When a schedule's turn comes in a tick: the process's seconds, and the database's time. */
  datatype Moment = Moment(seconds: nat, now: real)

  /** The schedules whose job for their moment's bucket is not on the table, in order. */
  function Missing(t: Table, schedules: seq<Periodic>, moments: seq<Moment>): seq<string>
    requires |schedules| == |moments|
  {
    if schedules == [] then []
    else
      var n := |schedules| - 1;
      Missing(t, schedules[..n], moments[..n]) + if Lacks(t, schedules[n], moments[n].seconds) then [schedules[n].jobType] else []
  }

  /** The schedule is enabled and has no job for its bucket. */
  predicate Lacks(t: Table, p: Periodic, seconds: nat) {
    p.interval > 0 && !KeyTaken(t, Some(BucketKey(p.jobType, seconds / p.interval)))
  }

  /** How many schedules lack their job. */
  function Lacking(t: Table, schedules: seq<Periodic>, moments: seq<Moment>): nat
    requires |schedules| == |moments|
  {
    if schedules == [] then 0
    else
      var n := |schedules| - 1;
      Lacking(t, schedules[..n], moments[..n]) + if Lacks(t, schedules[n], moments[n].seconds) then 1 else 0
  }

  lemma {:induction false} MissingCounted(t: Table, schedules: seq<Periodic>, moments: seq<Moment>)
    requires |schedules| == |moments|
    ensures |Missing(t, schedules, moments)| == Lacking(t, schedules, moments)
  {
    hide Lacks;
    if schedules != [] {
      MissingCounted(t, schedules[..|schedules| - 1], moments[..|schedules| - 1]);
    }
  }

  /** The missing types are those of the schedules that lack their job, in schedule order. */
  lemma {:induction false} MissingExactly(t: Table, schedules: seq<Periodic>, moments: seq<Moment>, i: nat)
    requires i < |schedules| == |moments| && Lacks(t, schedules[i], moments[i].seconds)
    ensures |Missing(t, schedules, moments)| == Lacking(t, schedules, moments)
    ensures var k := Lacking(t, schedules[..i], moments[..i]);
      k < |Missing(t, schedules, moments)| && Missing(t, schedules, moments)[k] == schedules[i].jobType
  {
    hide Lacks;
    var n := |schedules| - 1;
    MissingCounted(t, schedules[..n], moments[..n]);
    if i < n {
      MissingExactly(t, schedules[..n], moments[..n], i);
      assert schedules[..n][..i] == schedules[..i] && moments[..n][..i] == moments[..i];
    }
  }

  predicate TypesDistinct(schedules: seq<Periodic>) {
    forall i, j :: 0 <= i < j < |schedules| ==> schedules[i].jobType != schedules[j].jobType
  }

  /** Only jobs of these types have been added. */
  ghost predicate AddedOnly(before: Table, after: Table, types: seq<string>) {
    && (forall id :: id in before ==> id in after && after[id] == before[id])
    && (forall id :: id in after && id !in before ==>
      exists i, b :: 0 <= i < |types| && after[id].dedupeKey == Some(BucketKey(types[i], b)))
  }

  /** A schedule of another type still lacks its job. */
  lemma OtherTypesLack(before: Table, after: Table, types: seq<string>, p: Periodic, seconds: nat)
    requires AddedOnly(before, after, types) && p.jobType !in types
    ensures Lacks(after, p, seconds) <==> Lacks(before, p, seconds)
  {
    if p.interval > 0 {
      var key := BucketKey(p.jobType, seconds / p.interval);
      forall id | id in after && after[id].dedupeKey == Some(key)
        ensures id in before
      {
        if id !in before {
          var i, b :| 0 <= i < |types| && after[id].dedupeKey == Some(BucketKey(types[i], b));
          BucketKeyInjective(types[i], b, p.jobType, seconds / p.interval);
        }
      }
      hide BucketKey;
    }
  }

  function Types(schedules: seq<Periodic>): (types: seq<string>)
    ensures |types| == |schedules| && forall i :: 0 <= i < |types| ==> types[i] == schedules[i].jobType
  {
    seq(|schedules|, i requires 0 <= i < |schedules| => schedules[i].jobType)
  }

  /** One row with this key was added. */
  predicate IsAdded(before: Table, after: Table, id: nat, j: Job, key: string) {
    id !in before && after == before[id := j] && j.dedupeKey == Some(key)
  }

  lemma AddedMore(before: Table, mid: Table, after: Table, types: seq<string>, t: string, b: nat)
    requires AddedOnly(before, mid, types)
    requires after == mid || exists id: nat, j: Job :: IsAdded(mid, after, id, j, BucketKey(t, b))
    ensures AddedOnly(before, after, types + [t])
  {
    hide BucketKey;
    var more := types + [t];
    assert forall i :: 0 <= i < |types| ==> more[i] == types[i];
    assert more[|types|] == t;
    forall id | id in after && id !in before
      ensures exists i, b :: 0 <= i < |more| && after[id].dedupeKey == Some(BucketKey(more[i], b))
    {
      if id in mid && after[id] == mid[id] {
        var i, b' :| 0 <= i < |types| && mid[id].dedupeKey == Some(BucketKey(types[i], b'));
        assert after[id].dedupeKey == Some(BucketKey(more[i], b'));
      } else {
        assert after[id].dedupeKey == Some(BucketKey(more[|types|], b));
      }
    }
  }

  /** One schedule's turn: its job for the bucket is on the table afterwards, and it was added exactly when it was lacking. */
  method EnqueueOne(table: JobTable, p: Periodic, m: Moment) returns (added: bool)
    requires table.Fresh()
    modifies table
    ensures table.Fresh() && Queued(table.jobs, p, m.seconds)
    ensures added <==> Lacks(old(table.jobs), p, m.seconds)
    ensures added <==> p.interval > 0 && forall id :: id in old(table.jobs) ==>
      old(table.jobs)[id].dedupeKey != Some("schedule:" + p.jobType + [':'] + Decimal(m.seconds / p.interval))
    ensures !added ==> table.jobs == old(table.jobs)
    ensures added ==> p.interval > 0
    ensures added ==> exists id: nat, j: Job :: IsAdded(old(table.jobs), table.jobs, id, j, BucketKey(p.jobType, m.seconds / p.interval))
    ensures added ==> forall id :: id in table.jobs && id !in old(table.jobs) ==>
      table.jobs[id] == Job(p.jobType, Pending, 0, 3, m.now, None, None, None,
                            Some("schedule:" + p.jobType + [':'] + Decimal(m.seconds / p.interval)))
  {
    hide BucketKey;
    added := false;
    if p.interval > 0 {
      var key := Some(BucketKey(p.jobType, m.seconds / p.interval));
      BucketKeyText(p.jobType, m.seconds / p.interval);
      var r := table.Enqueue(p.jobType, key, Some(3), 5, m.now, 0.0);
      if r.Added? {
        added := true;
        assert IsAdded(old(table.jobs), table.jobs, r.id, table.jobs[r.id], key.value);
        assert table.jobs[r.id].dedupeKey == key;
      }
    }
  }

  /** The first n schedules have their job on the table. */
  ghost predicate AllQueued(t: Table, schedules: seq<Periodic>, moments: seq<Moment>, n: nat)
    requires n <= |schedules| == |moments|
  {
    forall k :: 0 <= k < n ==> Queued(t, schedules[k], moments[k].seconds)
  }

  lemma AllQueuedStep(before: Table, after: Table, schedules: seq<Periodic>, moments: seq<Moment>, n: nat)
    requires n < |schedules| == |moments| && AllQueued(before, schedules, moments, n) && Queued(after, schedules[n], moments[n].seconds)
    requires forall id :: id in before ==> id in after && after[id] == before[id]
    ensures AllQueued(after, schedules, moments, n + 1)
  {
    KeysStay(before, after);
    hide KeyTaken, BucketKey;
  }

  lemma MissingStep(t: Table, schedules: seq<Periodic>, moments: seq<Moment>, n: nat)
    requires n < |schedules| == |moments|
    ensures Missing(t, schedules[..n + 1], moments[..n + 1])
         == Missing(t, schedules[..n], moments[..n]) + if Lacks(t, schedules[n], moments[n].seconds) then [schedules[n].jobType] else []
  {
    assert schedules[..n + 1][..n] == schedules[..n] && moments[..n + 1][..n] == moments[..n];
    hide Lacks;
  }

  /** One schedule's turn, in the course of a tick. */
  lemma TurnKeeps(before: Table, mid: Table, after: Table, schedules: seq<Periodic>, moments: seq<Moment>, n: nat, added: bool)
    requires n < |schedules| == |moments| && AddedOnly(before, mid, Types(schedules[..n]))
    requires !added ==> after == mid
    requires added ==> Lacks(mid, schedules[n], moments[n].seconds)
    requires added ==> exists id: nat, j: Job ::
      IsAdded(mid, after, id, j, BucketKey(schedules[n].jobType, moments[n].seconds / schedules[n].interval))
    ensures AddedOnly(before, after, Types(schedules[..n + 1]))
    ensures TypesDistinct(schedules) ==>
      (Lacks(mid, schedules[n], moments[n].seconds) <==> Lacks(before, schedules[n], moments[n].seconds))
  {
    hide BucketKey, KeyTaken, AddedOnly, IsAdded;
    var p, m := schedules[n], moments[n];
    assert Types(schedules[..n + 1]) == Types(schedules[..n]) + [p.jobType];
    AddedMore(before, mid, after, Types(schedules[..n]), p.jobType, if p.interval > 0 then m.seconds / p.interval else 0);
    if TypesDistinct(schedules) {
      OtherTypesLack(before, mid, Types(schedules[..n]), p, m.seconds);
    }
    hide Types, Lacks;
  }

  /**
   One tick: every enabled schedule has its job for its moment's bucket afterwards, no other row is touched, and, as registration keeps
   the types apart, the jobs reported as added are exactly those that were missing.
   */
  method EnqueueDue(table: JobTable, schedules: seq<Periodic>, moments: seq<Moment>) returns (enqueued: seq<string>)
    requires table.Fresh() && |moments| == |schedules|
    modifies table
    ensures table.Fresh()
    ensures forall id :: id in old(table.jobs) ==> id in table.jobs && table.jobs[id] == old(table.jobs[id])
    ensures AllQueued(table.jobs, schedules, moments, |schedules|)
    ensures AllQueued(old(table.jobs), schedules, moments, |schedules|) ==> table.jobs == old(table.jobs) && enqueued == []
    ensures TypesDistinct(schedules) ==> enqueued == Missing(old(table.jobs), schedules, moments)
  {
    hide BucketKey, KeyTaken, AllQueued, Missing, TypesDistinct, AddedOnly, Lacks, Queued, IsAdded, Types;
    enqueued := [];
    ghost var before := table.jobs;
    Beginning(before, schedules, moments);
    for i := 0 to |schedules|
      invariant table.Fresh() && AddedOnly(before, table.jobs, Types(schedules[..i])) && AllQueued(table.jobs, schedules, moments, i)
      invariant AllQueued(before, schedules, moments, |schedules|) ==> table.jobs == before && enqueued == []
      invariant TypesDistinct(schedules) ==> enqueued == Missing(before, schedules[..i], moments[..i])
    {
      var p, m := schedules[i], moments[i];
      ghost var mid := table.jobs;
      var added := EnqueueOne(table, p, m);
      if added {
        enqueued := enqueued + [p.jobType];
      }
      TurnKeeps(before, mid, table.jobs, schedules, moments, i, added);
      MissingStep(before, schedules, moments, i);
      RowsStay(mid, table.jobs, p, m, added);
      AllQueuedStep(mid, table.jobs, schedules, moments, i);
      QueuedLacksNothing(mid, schedules, moments, i);
    }
    assert schedules[..|schedules|] == schedules && moments[..|moments|] == moments;
    RowsStayed(before, table.jobs, Types(schedules));
  }

  lemma Beginning(t: Table, schedules: seq<Periodic>, moments: seq<Moment>)
    requires |schedules| == |moments|
    ensures AddedOnly(t, t, Types(schedules[..0])) && AllQueued(t, schedules, moments, 0)
    ensures Missing(t, schedules[..0], moments[..0]) == []
  {
  }

  lemma RowsStayed(before: Table, after: Table, types: seq<string>)
    requires AddedOnly(before, after, types)
    ensures forall id :: id in before ==> id in after && after[id] == before[id]
  {
  }

  lemma RowsStay(mid: Table, after: Table, p: Periodic, m: Moment, added: bool)
    requires !added ==> after == mid
    requires added ==> p.interval > 0 && exists id: nat, j: Job :: IsAdded(mid, after, id, j, BucketKey(p.jobType, m.seconds / p.interval))
    ensures forall id :: id in mid ==> id in after && after[id] == mid[id]
  {
    hide BucketKey;
  }

  lemma QueuedLacksNothing(t: Table, schedules: seq<Periodic>, moments: seq<Moment>, n: nat)
    requires n < |schedules| == |moments|
    ensures AllQueued(t, schedules, moments, |schedules|) ==> !Lacks(t, schedules[n], moments[n].seconds)
  {
    hide BucketKey, KeyTaken;
    assert AllQueued(t, schedules, moments, |schedules|) ==> Queued(t, schedules[n], moments[n].seconds);
  }

  /** A key that was taken stays taken while rows stay. */
  lemma KeysStay(before: Table, after: Table)
    requires forall id :: id in before ==> id in after && after[id] == before[id]
    ensures forall key :: KeyTaken(before, key) ==> KeyTaken(after, key)
  {
  }

  /** Two ticks, at t and a step later, leave out a whole bucket between them. */
  predicate Skips(interval: nat, step: nat, t: nat)
    requires interval > 0
  {
    (t + step) / interval > t / interval + 1
  }

  ghost predicate NeverSkips(interval: nat, step: nat)
    requires interval > 0
  {
    forall t: nat :: !Skips(interval, step, t)
  }

  /**
   When a bucket is skipped: two ticks `step` apart never skip a bucket of length `interval`, whatever the phase, exactly when
   the step is at most the interval.
   */
  lemma NoBucketSkipped(interval: nat, step: nat)
    requires interval > 0
    ensures NeverSkips(interval, step) <==> step <= interval
  {
    if step <= interval {
      forall t: nat ensures !Skips(interval, step, t) {
        StepWithin(interval, step, t);
      }
    } else {
      StepBeyond(interval, step);
      assert Skips(interval, step, interval - 1);
    }
  }

  lemma StepWithin(interval: nat, step: nat, t: nat)
    requires 0 < interval && step <= interval
    ensures !Skips(interval, step, t)
  {
    DivMod(t, interval);
    DivMod(t + step, interval);
    NextQuotient(interval, t / interval, t % interval, (t + step) / interval, (t + step) % interval, step);
  }

  lemma NextQuotient(d: nat, q: int, r: int, q': int, r': int, step: nat)
    requires d > 0 && 0 <= r < d && 0 <= r' && step <= d && d * q' + r' == d * q + r + step
    ensures q' <= q + 1
  {
    assert d * (q + 1) == d * q + d;
    WithinOne(d, q', q + 1);
  }

  lemma StepBeyond(interval: nat, step: nat)
    requires 0 < interval < step
    ensures Skips(interval, step, interval - 1)
  {
    DivUnique(interval - 1, interval, 0, interval - 1);
    DivMod(interval - 1 + step, interval);
    var q := (interval - 1 + step) / interval;
    assert interval * (q + 1) == interval * q + interval;
    WithinOne(interval, 2, q);
  }

  /** The scheduler's pause between ticks, in milliseconds: half the shortest interval, at least a second. */
  function Tick(seconds: nat): nat {
    if 500 * seconds > 1000 then 500 * seconds else 1000
  }

  /**
   What the pause leaves for the tick itself: with a shortest interval of whole seconds, ticks that take `busy` milliseconds never
   skip a bucket exactly when busy is at most half the interval; with an interval of one second a tick has no time at all.
   */
  lemma TickAllowance(seconds: nat, busy: nat)
    requires seconds > 0
    ensures NeverSkips(1000 * seconds, Tick(seconds) + busy) <==> busy <= if seconds == 1 then 0 else 500 * seconds
  {
    hide NeverSkips;
    NoBucketSkipped(1000 * seconds, Tick(seconds) + busy);
  }
}
