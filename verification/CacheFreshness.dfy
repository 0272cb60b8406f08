/**
 Freshness told by the events of a run alone: where an answer was loaded, and which commits that load came after.
 */
module CacheFreshness {
  import opened Options
  import opened ResponseCache

  /** How many commits a run has. */
  function CommitsIn(es: seq<Event>): nat {
    if es == [] then 0 else CommitsIn(es[..|es| - 1]) + if es[|es| - 1].Commit? then 1 else 0
  }

  lemma {:induction false} CommitsCounted(es: seq<Event>)
    requires IsRun(es)
    ensures After(es).commits == CommitsIn(es)
  {
    hide Enabled;
    if es != [] {
      var n := |es| - 1;
      CommitsCounted(es[..n]);
      CommitStep(After(es[..n]), es[n]);
      hide Apply;
    }
  }

  lemma CommitStep(s: State, e: Event)
    requires Enabled(s, e)
    ensures Apply(s, e).commits == s.commits + if e.Commit? then 1 else 0
  {
    if OfReader(e) {
      ReadersLeaveWrites(s, e);
      hide Apply;
    } else {
      hide Incr, SetNx;
      WriterCommits(s, e);
    }
  }

  lemma WriterCommits(s: State, e: Event)
    requires Enabled(s, e) && !OfReader(e)
    ensures Apply(s, e).commits == s.commits + if e.Commit? then 1 else 0
  {
  }

  lemma {:induction false} CommitsGrow(es: seq<Event>, m: nat, n: nat)
    requires m <= n <= |es|
    ensures CommitsIn(es[..m]) <= CommitsIn(es[..n])
    decreases n
  {
    if m < n {
      CommitsGrow(es, m, n - 1);
      assert es[..n][..n - 1] == es[..n - 1];
    }
  }

  // ------------------------------------------------------------ where payloads come from

  /** The event loads this payload from the database: a leader's load, or a follower's own one after its leader's failed. */
  predicate LoadsNow(s: State, e: Event, p: Payload) {
    && p.commits == s.commits
    && (|| (e.Load? && e.reader in s.readers && p.key == s.readers[e.reader].key)
        || (e.TakeShared? && Enabled(s, e) && s.futures[PhaseOf(s, e.reader).leader].result.None? && p.key == s.readers[e.reader].key))
  }

  ghost predicate LoadedAt(es: seq<Event>, m: nat, p: Payload) {
    m < |es| && IsRun(es[..m]) && LoadsNow(After(es[..m]), es[m], p)
  }

  ghost predicate Sourced(es: seq<Event>, p: Payload) {
    exists m: nat :: LoadedAt(es, m, p)
  }

  predicate Carries(phase: Phase, p: Payload) {
    (phase.Loaded? && phase.payload == p) || (phase.Storing? && phase.payload == p)
  }

  ghost predicate InEntries(s: State, p: Payload) {
    exists k :: k in s.entries && s.entries[k].payload == p
  }

  ghost predicate InPhases(s: State, p: Payload) {
    exists r :: r in s.readers && Carries(PhaseOf(s, r), p)
  }

  ghost predicate InResults(s: State, p: Payload) {
    exists i :: i in s.futures && s.futures[i].result == Some(p)
  }

  ghost predicate InAnswers(s: State, p: Payload) {
    exists i :: 0 <= i < |s.served| && s.served[i].payload == p
  }

  /** The payload is somewhere in the state. */
  ghost predicate Occurs(s: State, p: Payload) {
    InEntries(s, p) || InPhases(s, p) || InResults(s, p) || InAnswers(s, p)
  }

  lemma EntryStep(s: State, e: Event, p: Payload)
    requires Enabled(s, e) && InEntries(Apply(s, e), p)
    ensures InEntries(s, p) || InPhases(s, p)
  {
    var k :| k in Apply(s, e).entries && Apply(s, e).entries[k].payload == p;
    if e.Store? {
      assert k == s.readers[e.reader].key ==> Carries(PhaseOf(s, e.reader), p);
    } else {
      EntriesStay(s, e);
      hide Apply, Enabled;
    }
  }

  lemma CarriedByAnswer(s: State, e: Event, p: Payload)
    requires Enabled(s, e) && (e.Store? || e.StoreFails? || e.TakeShared? || e.Ask? || e.ReadClock? || e.GetVersion? || e.InitVersion?)
    requires e.reader in Apply(s, e).readers
    ensures !Carries(PhaseOf(Apply(s, e), e.reader), p)
  {
  }

  lemma PhaseSet(s: State, r: nat, phase: Phase)
    requires r in s.readers
    ensures var s' := SetPhase(s, r, phase);
      && s'.readers == s.readers[r := Reader(s.readers[r].process, s.readers[r].key, phase)]
      && s'.invalidated == s.invalidated
  {
  }

  lemma ReadEntryPhase(s: State, r: nat)
    requires r in s.readers
    ensures ReadEntry(s, r).invalidated == s.invalidated && r in ReadEntry(s, r).readers
    ensures var k, phase := s.readers[r].key, PhaseOf(ReadEntry(s, r), r);
      && ReadEntry(s, r).readers[r].key == k
      && (phase == NeedsClock || phase == Answered || (s.version.Some? && phase == Got(s.version.value, s.invalidated)))
  {
    hide SetPhase;
    PhaseSet(s, r, NeedsClock);
    PhaseSet(s, r, Answered);
    if s.version.Some? {
      PhaseSet(s, r, Got(s.version.value, s.invalidated));
    }
  }

  lemma CarriedByRead(s: State, r: nat, p: Payload)
    requires r in s.readers && r in ReadEntry(s, r).readers
    ensures !Carries(PhaseOf(ReadEntry(s, r), r), p)
  {
    ReadEntryPhase(s, r);
    hide ReadEntry;
  }

  lemma InitMoves(s: State, r: nat)
    requires Enabled(s, InitVersion(r))
    ensures var s' := Apply(s, InitVersion(r)); r in s'.readers && s'.readers == s.readers[r := s'.readers[r]]
  {
  }

  lemma CarriedByOthers(s: State, e: Event, r: nat, p: Payload)
    requires Enabled(s, e) && !e.JoinOrLead? && !e.Load? && !e.LoadFails? && !e.Publish?
    requires r in Apply(s, e).readers && Carries(PhaseOf(Apply(s, e), r), p)
    ensures r in s.readers && s.readers[r] == Apply(s, e).readers[r]
  {
    if e.ReadBoth? {
      ReadIssuesNothing(s, e);
      CarriedByRead(s, e.reader, p);
    } else if e.Store? || e.StoreFails? || e.TakeShared? {
      AnswerIssuesNothing(s, e);
      CarriedByAnswer(s, e, p);
    } else if e.Ask? || e.ReadClock? || e.GetVersion? {
      ReadIssuesNothing(s, e);
      CarriedByAnswer(s, e, p);
    } else if e.InitVersion? {
      InitMoves(s, e.reader);
      CarriedByAnswer(s, e, p);
    }
    hide ReadEntry, SetPhase, Issue, Carries, Enabled;
  }

  lemma CarriedBefore(s: State, e: Event, r: nat, p: Payload)
    requires Enabled(s, e) && r in Apply(s, e).readers && Carries(PhaseOf(Apply(s, e), r), p)
    ensures (r in s.readers && Carries(PhaseOf(s, r), p)) || LoadsNow(s, e, p)
  {
    if e.JoinOrLead? || e.Load? || e.LoadFails? || e.Publish? {
      LoadIssuesNothing(s, e);
      hide LoadsNow;
      assert r != e.reader ==> s.readers[r] == Apply(s, e).readers[r];
      if r == e.reader {
        CarriedByOwn(s, e, p);
      }
    } else {
      CarriedByOthers(s, e, r, p);
    }
    hide Apply, Enabled, LoadsNow, Carries;
  }

  lemma CarriedByOwn(s: State, e: Event, p: Payload)
    requires Enabled(s, e) && (e.JoinOrLead? || e.Load? || e.LoadFails? || e.Publish?)
    requires e.reader in Apply(s, e).readers && Carries(PhaseOf(Apply(s, e), e.reader), p)
    ensures Carries(PhaseOf(s, e.reader), p) || LoadsNow(s, e, p)
  {
  }

  lemma PhaseStep(s: State, e: Event, p: Payload)
    requires Enabled(s, e) && InPhases(Apply(s, e), p)
    ensures InPhases(s, p) || LoadsNow(s, e, p)
  {
    hide Apply, Enabled, LoadsNow, Carries;
    var r :| r in Apply(s, e).readers && Carries(PhaseOf(Apply(s, e), r), p);
    CarriedBefore(s, e, r, p);
  }

  lemma ResultFrom(s: State, e: Event, p: Payload)
    requires Enabled(s, e) && InResults(Apply(s, e), p)
    ensures InResults(s, p) || InPhases(s, p)
  {
    var s' := Apply(s, e);
    var i :| i in s'.futures && s'.futures[i].result == Some(p);
    if i !in s.futures || s.futures[i] != s'.futures[i] {
      assert e == Publish(i) && Carries(PhaseOf(s, i), p);
    }
  }

  lemma AnswerFrom(s: State, e: Event, p: Payload)
    requires Enabled(s, e) && InAnswers(Apply(s, e), p)
    ensures Occurs(s, p) || LoadsNow(s, e, p)
  {
    if !Answers(e) {
      if OfReader(e) {
        NobodyAnswered(s, e);
      } else {
        WritersLeaveReads(s, e);
      }
      hide Apply, Enabled, InEntries, InPhases, InResults;
    } else {
      AnswerAdded(s, e);
      var s' := Apply(s, e);
      var i :| 0 <= i < |s'.served| && s'.served[i].payload == p;
      if i < |s.served| {
        assert s'.served[i] == s.served[i];
      } else {
        AnsweredWith(s, e, p);
      }
      hide Apply, Enabled, InEntries, InPhases, InResults, Occurs, Seen;
    }
  }

  lemma HitWith(s: State, r: nat, p: Payload)
    requires Enabled(s, ReadBoth(r)) && |ReadEntry(s, r).served| == |s.served| + 1 && ReadEntry(s, r).served[|s.served|].payload == p
    ensures InEntries(s, p)
  {
    hide SetPhase;
    PhaseLeaves(s, r, NeedsClock);
    PhaseLeaves(s, r, Answered);
    if s.version.Some? {
      PhaseLeaves(s, r, Got(s.version.value, s.invalidated));
    }
  }

  lemma TakenWith(s: State, r: nat, p: Payload)
    requires Enabled(s, TakeShared(r)) && |Apply(s, TakeShared(r)).served| == |s.served| + 1 && Apply(s, TakeShared(r)).served[|s.served|].payload == p
    ensures InResults(s, p) || LoadsNow(s, TakeShared(r), p)
  {
    hide SetPhase;
    PhaseLeaves(s, r, Answered);
  }

  lemma StoredWith(s: State, e: Event, p: Payload)
    requires Enabled(s, e) && (e.Store? || e.StoreFails?)
    requires |Apply(s, e).served| == |s.served| + 1 && Apply(s, e).served[|s.served|].payload == p
    ensures Carries(PhaseOf(s, e.reader), p)
  {
    hide SetPhase;
    PhaseLeaves(s, e.reader, Answered);
  }

  lemma AnsweredWith(s: State, e: Event, p: Payload)
    requires Enabled(s, e) && Answers(e)
    requires |Apply(s, e).served| == |s.served| + 1 && Apply(s, e).served[|s.served|].payload == p
    ensures Occurs(s, p) || LoadsNow(s, e, p)
  {
    hide InEntries, InResults, LoadsNow, ReadEntry, SetPhase;
    if e.ReadBoth? {
      HitWith(s, e.reader, p);
    } else if e.TakeShared? {
      TakenWith(s, e.reader, p);
    } else {
      StoredWith(s, e, p);
    }
    hide Apply;
  }

  lemma PayloadStep(s: State, e: Event, p: Payload)
    requires Enabled(s, e) && Occurs(Apply(s, e), p)
    ensures Occurs(s, p) || LoadsNow(s, e, p)
  {
    hide InEntries, InPhases, InResults, InAnswers, Apply, Enabled, LoadsNow;
    if InEntries(Apply(s, e), p) {
      EntryStep(s, e, p);
    } else if InPhases(Apply(s, e), p) {
      PhaseStep(s, e, p);
    } else if InResults(Apply(s, e), p) {
      ResultFrom(s, e, p);
    } else {
      AnswerFrom(s, e, p);
    }
  }

  lemma SourcedStays(es: seq<Event>, p: Payload)
    requires es != [] && Sourced(es[..|es| - 1], p)
    ensures Sourced(es, p)
  {
    hide IsRun, After, LoadsNow;
    var n := |es| - 1;
    var m: nat :| LoadedAt(es[..n], m, p);
    assert es[..n][..m] == es[..m];
    assert LoadedAt(es, m, p);
  }

  /** Over any run every payload anywhere, in an answer or in the cache, was loaded by an event of the run. */
  lemma {:induction false} EverythingIsLoaded(es: seq<Event>, p: Payload)
    requires IsRun(es) && Occurs(After(es), p)
    ensures Sourced(es, p)
  {
    hide Apply, Enabled, LoadsNow;
    if es != [] {
      var n := |es| - 1;
      hide Occurs;
      PayloadStep(After(es[..n]), es[n], p);
      if Occurs(After(es[..n]), p) {
        EverythingIsLoaded(es[..n], p);
        SourcedStays(es, p);
      } else {
        assert LoadedAt(es, n, p);
      }
    }
  }

  // ------------------------------------------------------------ a write from its commit to its invalidation

  /** The write is known to be invalidated, or will be by the next INCR of its process. */
  predicate Announced(s: State, p: nat, c: nat) {
    c in s.invalidated || c in MissedBy(s, p)
  }

  lemma AnnouncedStep(s: State, e: Event, p: nat, c: nat)
    requires Enabled(s, e)
    ensures Announced(s, p, c) ==> Announced(Apply(s, e), p, c)
    ensures c in s.invalidated ==> c in Apply(s, e).invalidated
    ensures Announced(s, p, c) && e.Increment? && s.pipelines[e.replay].process == p ==> c in Apply(s, e).invalidated
    ensures e == Commit(p) ==> Announced(Apply(s, e), p, s.commits + 1)
  {
    if OfReader(e) {
      ReadersLeaveWrites(s, e);
    } else {
      AnnouncedByWriter(s, e, p, c);
    }
    hide Apply;
  }

  lemma AnnouncedByWriter(s: State, e: Event, p: nat, c: nat)
    requires Enabled(s, e) && !OfReader(e)
    ensures Announced(s, p, c) ==> Announced(Apply(s, e), p, c)
    ensures c in s.invalidated ==> c in Apply(s, e).invalidated
    ensures Announced(s, p, c) && e.Increment? && s.pipelines[e.replay].process == p ==> c in Apply(s, e).invalidated
    ensures e == Commit(p) ==> Announced(Apply(s, e), p, s.commits + 1)
  {
  }

  /** Over a run a write stays announced, and from the INCR of its process on it is invalidated. */
  lemma {:induction false} StaysAnnounced(es: seq<Event>, k: nat, p: nat, c: nat)
    requires IsRun(es) && k <= |es| && IsRun(es[..k])
    ensures Announced(After(es[..k]), p, c) ==> Announced(After(es), p, c)
    ensures c in After(es[..k]).invalidated ==> c in After(es).invalidated
    decreases |es|
  {
    hide Apply, Enabled, Announced;
    if k == |es| {
      assert es[..k] == es;
    } else {
      var n := |es| - 1;
      assert es[..n][..k] == es[..k];
      StaysAnnounced(es[..n], k, p, c);
      AnnouncedStep(After(es[..n]), es[n], p, c);
    }
  }

  lemma {:induction false} PrefixIsRun(es: seq<Event>, k: nat)
    requires IsRun(es) && k <= |es|
    ensures IsRun(es[..k])
    ensures k < |es| ==> Enabled(After(es[..k]), es[k]) && IsRun(es[..k + 1]) && After(es[..k + 1]) == Apply(After(es[..k]), es[k])
    decreases |es|
  {
    hide Apply, Enabled;
    if k == |es| {
      assert es[..k] == es;
    } else {
      var n := |es| - 1;
      assert es[..n][..k] == es[..k];
      if k == n {
        assert es[..k + 1] == es;
      } else {
        assert es[..n][..k + 1] == es[..k + 1];
        PrefixIsRun(es[..n], k);
      }
    }
  }

  /** Over any run: once a process commits a write and then runs INCR, the write is invalidated. */
  lemma CommitThenIncrement(es: seq<Event>, i: nat, j: nat)
    requires IsRun(es) && i < j < |es| && es[i].Commit? && es[j].Increment?
    requires IsRun(es[..j]) && es[j].replay in After(es[..j]).pipelines && After(es[..j]).pipelines[es[j].replay].process == es[i].process
    ensures CommitsIn(es[..i]) + 1 in After(es).invalidated
  {
    hide Apply, Enabled, Announced, IsRun, After;
    var p, c := es[i].process, CommitsIn(es[..i]) + 1;
    PrefixIsRun(es, i);
    PrefixIsRun(es, j);
    PrefixIsRun(es, i + 1);
    PrefixIsRun(es, j + 1);
    CommitsCounted(es[..i]);
    AnnouncedStep(After(es[..i]), es[i], p, c);
    assert es[..j][..i + 1] == es[..i + 1];
    StaysAnnounced(es[..j], i + 1, p, c);
    AnnouncedStep(After(es[..j]), es[j], p, c);
    StaysAnnounced(es, j + 1, p, c);
  }

  // ------------------------------------------------------------ what a reader that asks later sees

  /** The writes that had been invalidated when the reader read the version it goes by. */
  function Seen(phase: Phase): Option<set<nat>> {
    match phase
    case Got(_, seen) => Some(seen)
    case Leading(_, seen) => Some(seen)
    case Loaded(_, seen, _) => Some(seen)
    case Storing(_, seen, _) => Some(seen)
    case Waiting(_, seen, _) => Some(seen)
    case _ => None
  }

  /** A reader goes by nothing, by what it went by, or by what it reads now. */
  predicate SeenFrom(before: Phase, after: Phase, now: set<nat>) {
    Seen(after) == None || Seen(after) == Seen(before) || Seen(after) == Some(now)
  }

  predicate Moved(s: State, s': State, r: nat) {
    && r in s.readers && r in s'.readers && s'.readers == s.readers[r := s'.readers[r]]
    && s'.readers[r].key == s.readers[r].key && SeenFrom(PhaseOf(s, r), PhaseOf(s', r), s.invalidated)
  }

  lemma PhaseMoves(s: State, r: nat, phase: Phase)
    requires r in s.readers && SeenFrom(PhaseOf(s, r), phase, s.invalidated)
    ensures Moved(s, SetPhase(s, r, phase), r)
  {
    PhaseLeaves(s, r, phase);
    hide SetPhase, SeenFrom;
  }

  lemma ReadMoves(s: State, r: nat)
    requires Enabled(s, ReadBoth(r))
    ensures Moved(s, ReadEntry(s, r), r)
  {
    hide SetPhase;
    PhaseLeaves(s, r, NeedsClock);
    PhaseLeaves(s, r, Answered);
    if s.version.Some? {
      PhaseLeaves(s, r, Got(s.version.value, s.invalidated));
    }
  }

  lemma InitMoved(s: State, r: nat)
    requires Enabled(s, InitVersion(r))
    ensures Moved(s, Apply(s, InitVersion(r)), r)
  {
    hide SetPhase, SetNx;
    NxLeaves(s, PhaseOf(s, r).start);
    PhaseMoves(SetNx(s, PhaseOf(s, r).start), r, NeedsVersion);
  }

  lemma FlightMoves(s: State, e: Event)
    requires Enabled(s, e) && (e.JoinOrLead? || e.LoadFails? || e.Publish?)
    ensures Moved(s, Apply(s, e), e.reader) && Apply(s, e).served == s.served
  {
    LoadIssuesNothing(s, e);
    FlightMovesOwn(s, e);
    hide Apply, SeenFrom;
  }

  lemma FlightMovesOwn(s: State, e: Event)
    requires Enabled(s, e) && (e.JoinOrLead? || e.LoadFails? || e.Publish?)
    ensures e.reader in s.readers && e.reader in Apply(s, e).readers && Apply(s, e).served == s.served
    ensures Apply(s, e).readers[e.reader].key == s.readers[e.reader].key
    ensures SeenFrom(PhaseOf(s, e.reader), PhaseOf(Apply(s, e), e.reader), s.invalidated)
  {
  }

  lemma PhaseOnlyMoves(s: State, e: Event)
    requires Enabled(s, e) && (e.ReadClock? || e.GetVersion? || e.Load? || e.Store? || e.StoreFails? || e.TakeShared?)
    ensures Moved(s, Apply(s, e), e.reader)
  {
  }

  /** A step of a reader that is there moves that reader only. */
  lemma ReaderMoves(s: State, e: Event)
    requires Enabled(s, e) && OfReader(e) && !e.Ask?
    ensures Moved(s, Apply(s, e), e.reader)
  {
    hide Moved, Enabled, ReadEntry;
    if e.ReadBoth? {
      ReadMoves(s, e.reader);
    } else if e.InitVersion? {
      InitMoved(s, e.reader);
      hide Apply;
    } else if e.JoinOrLead? || e.LoadFails? || e.Publish? {
      FlightMoves(s, e);
      hide Apply;
    } else {
      PhaseOnlyMoves(s, e);
      hide Apply;
    }
  }

  predicate Answers(e: Event) {
    e.ReadBoth? || e.Store? || e.StoreFails? || e.TakeShared?
  }

  /** What this step of reader r adds to the answers, if it adds one: its own, for what it goes by. */
  predicate AddsOwn(s: State, s': State, r: nat, reading: bool)
    requires r in s.readers
  {
    s'.served == s.served || (
      && |s'.served| == |s.served| + 1 && s'.served[..|s.served|] == s.served
      && var a := s'.served[|s.served|];
        a.reader == r && a.key == s.readers[r].key && if reading then a.seen == s.invalidated else Seen(PhaseOf(s, r)) == Some(a.seen))
  }

  lemma HitAdds(s: State, r: nat)
    requires Enabled(s, ReadBoth(r))
    ensures AddsOwn(s, ReadEntry(s, r), r, true)
  {
    hide SetPhase;
    PhaseLeaves(s, r, NeedsClock);
    PhaseLeaves(s, r, Answered);
    if s.version.Some? {
      PhaseLeaves(s, r, Got(s.version.value, s.invalidated));
    }
  }

  lemma AnswerAdded(s: State, e: Event)
    requires Enabled(s, e) && Answers(e)
    ensures AddsOwn(s, Apply(s, e), e.reader, e.ReadBoth?)
  {
    hide SetPhase, ReadEntry;
    if e.ReadBoth? {
      HitAdds(s, e.reader);
    } else {
      PhaseLeaves(s, e.reader, Answered);
    }
  }

  lemma NobodyAnswered(s: State, e: Event)
    requires Enabled(s, e) && OfReader(e) && !Answers(e)
    ensures Apply(s, e).served == s.served
  {
    hide SetPhase, SetNx, Lead, Join, EndLoad;
    match e
    case Ask(_, _, _) =>
    case InitVersion(r) =>
      NxLeaves(s, PhaseOf(s, r).start);
      PhaseLeaves(SetNx(s, PhaseOf(s, r).start), r, NeedsVersion);
    case JoinOrLead(_) => FlightMoves(s, e);
    case LoadFails(_) => FlightMoves(s, e);
    case Publish(_) => FlightMoves(s, e);
    case ReadClock(r) => PhaseLeaves(s, r, NeedsInit(s.clock));
    case GetVersion(r) => PhaseLeaves(s, r, if s.version.Some? then Got(s.version.value, s.invalidated) else Broken);
    case Load(r) => PhaseLeaves(s, r, Loaded(PhaseOf(s, r).version, PhaseOf(s, r).seen, Payload(s.readers[r].key, s.commits)));
  }

  predicate GoesBy(phase: Phase, c: nat) {
    Seen(phase).Some? ==> c in Seen(phase).value
  }

  /** The reader asks for k, and whatever version it goes by or answer it gets stands for this write too. */
  predicate Sees(s: State, r: nat, k: Key, c: nat) {
    && c in s.invalidated && r in s.readers && s.readers[r].key == k && GoesBy(PhaseOf(s, r), c)
    && forall i :: 0 <= i < |s.served| && s.served[i].reader == r ==> s.served[i].key == k && c in s.served[i].seen
  }

  lemma SeesStep(s: State, e: Event, r: nat, k: Key, c: nat)
    requires Enabled(s, e) && Sees(s, r, k, c)
    ensures Sees(Apply(s, e), r, k, c)
  {
    if !OfReader(e) {
      WritersLeaveReads(s, e);
      AnnouncedByWriter(s, e, 0, c);
      hide Apply;
    } else if e.Ask? {
    } else {
      ReadersLeaveWrites(s, e);
      ReaderMoves(s, e);
      hide Apply, Enabled, SeenFrom;
      SeenStays(s, Apply(s, e), e.reader, r, c);
      if Answers(e) {
        AnswerAdded(s, e);
        AnswersSeen(s, Apply(s, e), e.reader, e.ReadBoth?, r, k, c);
      } else {
        NobodyAnswered(s, e);
      }
    }
  }

  lemma SeenStays(s: State, s': State, moved: nat, r: nat, c: nat)
    requires Moved(s, s', moved) && r in s.readers && c in s.invalidated && GoesBy(PhaseOf(s, r), c)
    ensures r in s'.readers && s'.readers[r].key == s.readers[r].key && GoesBy(PhaseOf(s', r), c)
  {
  }

  lemma AnswersSeen(s: State, s': State, moved: nat, reading: bool, r: nat, k: Key, c: nat)
    requires moved in s.readers && AddsOwn(s, s', moved, reading) && Sees(s, r, k, c)
    ensures forall i :: 0 <= i < |s'.served| && s'.served[i].reader == r ==> s'.served[i].key == k && c in s'.served[i].seen
  {
    forall i | 0 <= i < |s'.served| && s'.served[i].reader == r
      ensures s'.served[i].key == k && c in s'.served[i].seen
    {
      if i < |s.served| {
        assert s'.served[i] == s.served[i];
      }
    }
    hide Seen;
  }

  ghost predicate AnswersKnown(s: State) {
    forall i :: 0 <= i < |s.served| ==> s.served[i].reader in s.readers
  }

  lemma AnswersStep(s: State, e: Event)
    requires Enabled(s, e) && AnswersKnown(s)
    ensures AnswersKnown(Apply(s, e))
  {
    if !OfReader(e) {
      WritersLeaveReads(s, e);
      hide Apply;
    } else if e.Ask? {
    } else {
      ReaderMoves(s, e);
      hide Apply, Enabled, SeenFrom;
      if Answers(e) {
        AnswerAdded(s, e);
        AnswersStillKnown(s, Apply(s, e), e.reader, e.ReadBoth?);
      } else {
        NobodyAnswered(s, e);
      }
    }
  }

  lemma AnswersStillKnown(s: State, s': State, moved: nat, reading: bool)
    requires AnswersKnown(s) && Moved(s, s', moved) && AddsOwn(s, s', moved, reading)
    ensures AnswersKnown(s')
  {
    forall i | 0 <= i < |s'.served|
      ensures s'.served[i].reader in s'.readers
    {
      if i < |s.served| {
        assert s'.served[i] == s.served[i];
      }
    }
    hide Seen;
  }

  lemma {:induction false} AnswersHaveReaders(es: seq<Event>)
    requires IsRun(es)
    ensures AnswersKnown(After(es))
  {
    hide Apply, Enabled, AnswersKnown;
    if es == [] {
      assert AnswersKnown(Start) by { NoAnswers(); }
    } else {
      AnswersHaveReaders(es[..|es| - 1]);
      AnswersStep(After(es[..|es| - 1]), es[|es| - 1]);
    }
  }

  lemma NoAnswers()
    ensures AnswersKnown(Start)
  {
  }

  lemma AskingSees(s: State, e: Event, c: nat)
    requires Enabled(s, e) && e.Ask? && AnswersKnown(s) && c in s.invalidated
    ensures Sees(Apply(s, e), e.reader, e.key, c)
  {
  }

  lemma {:induction false} GoesOnSeeing(es: seq<Event>, k: nat, r: nat, key: Key, c: nat)
    requires IsRun(es) && k <= |es| && IsRun(es[..k]) && Sees(After(es[..k]), r, key, c)
    ensures Sees(After(es), r, key, c)
    decreases |es|
  {
    hide Apply, Enabled, Sees;
    if k == |es| {
      assert es[..k] == es;
    } else {
      var n := |es| - 1;
      assert es[..n][..k] == es[..k];
      GoesOnSeeing(es[..n], k, r, key, c);
      SeesStep(After(es[..n]), es[n], r, key, c);
    }
  }

  /**
   Freshness from the outside, over any run whose versions advance: a process commits a write, then its INCR runs, then a reader asks.
   Whatever that reader is served answers its question, and was loaded from the database after the commit.
   */
  lemma LaterReadersAreFresh(es: seq<Event>, i: nat, j: nat, k: nat, a: Served)
    requires IsRun(es) && Advancing(es) && i < j < k < |es|
    requires es[i].Commit? && es[j].Increment? && es[k].Ask?
    requires IsRun(es[..j]) && es[j].replay in After(es[..j]).pipelines && After(es[..j]).pipelines[es[j].replay].process == es[i].process
    requires a in After(es).served && a.reader == es[k].reader
    ensures a.key == a.payload.key == es[k].key
    ensures exists m: nat :: i < m && LoadedAt(es, m, a.payload)
  {
    hide Apply, Enabled, Advancing, IsRun, After, Sees, LoadsNow;
    var c, r := CommitsIn(es[..i]) + 1, es[k].reader;
    PrefixIsRun(es, k);
    PrefixIsRun(es, k + 1);
    assert es[..k][..i] == es[..i] && es[..k][..j] == es[..j];
    CommitThenIncrement(es[..k], i, j);
    AnswersHaveReaders(es[..k]);
    AskingSees(After(es[..k]), es[k], c);
    GoesOnSeeing(es, k + 1, r, es[k].key, c);
    var n :| 0 <= n < |After(es).served| && After(es).served[n] == a;
    AnswerSeen(After(es), n, r, es[k].key, c);
    NoStaleAnswer(es, n);
    EverythingIsLoaded(es, a.payload);
    var m: nat :| LoadedAt(es, m, a.payload);
    LoadCounted(es, m, a.payload);
    if m <= i {
      CommitsGrow(es, m, i);
    }
  }

  lemma AnswerSeen(s: State, n: nat, r: nat, k: Key, c: nat)
    requires Sees(s, r, k, c) && n < |s.served| && s.served[n].reader == r
    ensures c in s.served[n].seen && s.served[n].key == k
    ensures Occurs(s, s.served[n].payload)
  {
  }

  lemma LoadCounted(es: seq<Event>, m: nat, p: Payload)
    requires LoadedAt(es, m, p)
    ensures p.commits == CommitsIn(es[..m])
  {
    hide IsRun, After;
    CommitsCounted(es[..m]);
  }
}
