/** Sharing one load: what joins what, how many loads are in flight, and what the followers get. */
module CacheFlights {
  import opened Options
  import opened ResponseCache

  /** The reader leads a load that has not ended. */
  predicate Flying(s: State, r: nat) {
    r in s.readers && (PhaseOf(s, r).Leading? || PhaseOf(s, r).Loaded?)
  }

  /** Phases of readers that lead a load or have led one. */
  predicate HasLed(p: Phase) {
    p.Leading? || p.Loaded? || p.Storing? || p.Answered? || p.Broken?
  }

  /** Every registered flight is that of its leader, who is still loading. */
  ghost predicate LeadersKnown(s: State) {
    forall f :: f in s.inflight ==> Flying(s, s.inflight[f]) && LedFlight(s, s.inflight[f]) == f
  }

  predicate Registered(s: State, r: nat)
    requires Flying(s, r)
  {
    var f := LedFlight(s, r);
    f in s.inflight && s.inflight[f] == r && r in s.futures && s.futures[r] == Future(f, false, None)
  }

  /** Whoever is loading is registered, with an undecided result. */
  ghost predicate FlightsKnown(s: State) {
    forall r :: Flying(s, r) ==> Registered(s, r)
  }

  /** Results belong to readers that lead or have led, and are decided when the load has ended. */
  ghost predicate FuturesKnown(s: State) {
    forall i :: i in s.futures ==> i in s.readers && HasLed(PhaseOf(s, i)) && (s.futures[i].done <==> !Flying(s, i))
  }

  predicate FollowsKnown(s: State, r: nat)
    requires r in s.readers && PhaseOf(s, r).Waiting?
  {
    var w := PhaseOf(s, r);
    w.leader in s.futures && s.futures[w.leader].flight == Flight(s.readers[r].process, s.readers[r].key, w.version)
  }

  ghost predicate WaitersKnown(s: State) {
    forall r :: r in s.readers && PhaseOf(s, r).Waiting? ==> FollowsKnown(s, r)
  }

  ghost predicate FlightInv(s: State) {
    LeadersKnown(s) && FlightsKnown(s) && FuturesKnown(s) && WaitersKnown(s)
  }

  /** A step that leaves flights and results alone, and moves at most one reader between phases that lead nothing. */
  ghost predicate Aside(s: State, s': State, r: nat) {
    && s'.inflight == s.inflight && s'.futures == s.futures
    && s.readers.Keys <= s'.readers.Keys && (forall q :: q in s'.readers && q != r ==> q in s.readers && s'.readers[q] == s.readers[q])
    && (r in s.readers ==> s'.readers[r].process == s.readers[r].process && s'.readers[r].key == s.readers[r].key)
    && (r in s.readers && r in s.futures ==> HasLed(PhaseOf(s', r)))
    && (r in s.readers ==> (Flying(s, r) <==> Flying(s', r)) && (Flying(s, r) ==> LedFlight(s', r) == LedFlight(s, r)))
    && (r in s'.readers && r !in s.readers ==> !Flying(s', r))
    && (r in s'.readers && PhaseOf(s', r).Waiting? ==> FollowsKnown(s', r))
  }

  lemma AsideKeeps(s: State, s': State, r: nat)
    requires FlightInv(s) && Aside(s, s', r)
    ensures FlightInv(s')
  {
    assert forall q :: Flying(s', q) <==> Flying(s, q);
  }

  /** Steps of writers and of Redis move no reader. */
  lemma OutsideAside(s: State, e: Event, r: nat)
    requires Enabled(s, e) && FlightInv(s)
    requires e.Tick? || e.Commit? || e.StartReplay? || e.SetInitial? || e.Increment? || e.LoseVersion? || e.LoseEntry?
    ensures Aside(s, Apply(s, e), r)
  {
    WritersLeaveReads(s, e);
    hide Apply, LeadersKnown, FlightsKnown;
  }

  /** Where a phase that leads nothing may lead. */
  predicate Apart(before: Phase, after: Phase) {
    && !before.Leading? && !before.Loaded? && !after.Leading? && !after.Loaded? && !after.Waiting? && (HasLed(before) ==> HasLed(after))
  }

  lemma PhaseAside(s: State, r: nat, phase: Phase)
    requires r in s.readers && Apart(PhaseOf(s, r), phase) && (r in s.futures ==> HasLed(PhaseOf(s, r)))
    ensures Aside(s, SetPhase(s, r, phase), r)
  {
  }

  /** Only fields that no flight depends on differ. */
  lemma AsideToo(s: State, s': State, s'': State, r: nat)
    requires Aside(s, s', r) && s''.inflight == s'.inflight && s''.futures == s'.futures && s''.readers == s'.readers
    ensures Aside(s, s'', r)
  {
  }

  lemma ReadBothAside(s: State, r: nat)
    requires Enabled(s, ReadBoth(r)) && (r in s.futures ==> HasLed(PhaseOf(s, r)))
    ensures Aside(s, ReadEntry(s, r), r)
  {
    hide Aside, SetPhase;
    ReadEntryLeaves(s, r);
    PhaseAside(s, r, NeedsClock);
    PhaseAside(s, r, Answered);
    PhaseLeaves(s, r, Answered);
    if s.version.Some? {
      PhaseAside(s, r, Got(s.version.value, s.invalidated));
    }
    if PhaseOf(ReadEntry(s, r), r).Answered? {
      AsideToo(s, SetPhase(s, r, Answered), ReadEntry(s, r), r);
    }
  }

  lemma InitAside(s: State, r: nat)
    requires Enabled(s, InitVersion(r)) && (r in s.futures ==> HasLed(PhaseOf(s, r)))
    ensures Aside(s, Apply(s, InitVersion(r)), r)
  {
    hide Aside;
    PhaseAside(s, r, NeedsVersion);
    AsideToo(s, SetPhase(s, r, NeedsVersion), Apply(s, InitVersion(r)), r);
  }

  /** Steps of a reader that read. */
  lemma ReadAside(s: State, e: Event)
    requires Enabled(s, e) && FlightInv(s) && (e.ReadBoth? || e.ReadClock? || e.InitVersion? || e.GetVersion?)
    ensures Aside(s, Apply(s, e), e.reader)
  {
    hide Aside, LeadersKnown, FlightsKnown, WaitersKnown, ReadEntry, SetPhase, SetNx;
    assert e.reader in s.futures ==> HasLed(PhaseOf(s, e.reader));
    match e
    case ReadBoth(r) => ReadBothAside(s, r);
    case InitVersion(r) => InitAside(s, r);
    case ReadClock(r) => PhaseAside(s, r, NeedsInit(s.clock));
    case GetVersion(r) => PhaseAside(s, r, if s.version.Some? then Got(s.version.value, s.invalidated) else Broken);
  }

  /** Steps of a reader that answer. */
  lemma AnswerAside(s: State, e: Event)
    requires Enabled(s, e) && FlightInv(s) && (e.Store? || e.StoreFails? || e.TakeShared?)
    ensures Aside(s, Apply(s, e), e.reader)
  {
    hide Aside, LeadersKnown, FlightsKnown, WaitersKnown;
    PhaseAside(s, e.reader, Answered);
    AsideToo(s, SetPhase(s, e.reader, Answered), Apply(s, e), e.reader);
  }

  lemma AskOrLoadAside(s: State, e: Event)
    requires Enabled(s, e) && FlightInv(s) && (e.Ask? || e.Load?)
    ensures Aside(s, Apply(s, e), e.reader)
  {
    hide LeadersKnown, FlightsKnown, WaitersKnown;
  }

  lemma ReaderAside(s: State, e: Event)
    requires Enabled(s, e) && FlightInv(s)
    requires e.Ask? || e.ReadBoth? || e.ReadClock? || e.InitVersion? || e.GetVersion? || e.Load? || e.Store? || e.StoreFails? || e.TakeShared?
    ensures Aside(s, Apply(s, e), e.reader)
  {
    hide Aside, FlightInv, Apply, Enabled;
    if e.Ask? || e.Load? {
      AskOrLoadAside(s, e);
    } else if e.Store? || e.StoreFails? || e.TakeShared? {
      AnswerAside(s, e);
    } else {
      ReadAside(s, e);
    }
  }

  lemma JoinAside(s: State, r: nat)
    requires FlightInv(s) && r in s.readers && PhaseOf(s, r).Got? && FlightOf(s, r) in s.inflight
    ensures Aside(s, Join(s, r), r)
  {
  }

  lemma LeadKeepsFlights(s: State, r: nat)
    requires FlightInv(s) && r in s.readers && PhaseOf(s, r).Got? && FlightOf(s, r) !in s.inflight
    ensures FlightInv(Lead(s, r))
  {
    var s' := Lead(s, r);
    PhaseLeaves(s, r, Leading(PhaseOf(s, r).version, PhaseOf(s, r).seen));
    hide SetPhase;
    assert s'.readers == s.readers[r := s'.readers[r]] && LedFlight(s', r) == FlightOf(s, r);
    assert s'.inflight == s.inflight[FlightOf(s, r) := r] && s'.futures == s.futures[r := Future(FlightOf(s, r), false, None)];
    hide Lead;
    LeaderRegistered(s, s', r);
    LeaderOthers(s, s', r);
    hide LeadersKnown, FlightsKnown, FuturesKnown, WaitersKnown, Leads;
  }

  /** Reader r has become the leader of its flight, and nothing else has changed. */
  ghost predicate Leads(s: State, s': State, r: nat) {
    && r in s.readers && PhaseOf(s, r).Got? && r in s'.readers && s'.readers == s.readers[r := s'.readers[r]]
    && PhaseOf(s', r).Leading? && LedFlight(s', r) == FlightOf(s, r)
    && s'.inflight == s.inflight[FlightOf(s, r) := r] && s'.futures == s.futures[r := Future(FlightOf(s, r), false, None)]
  }

  lemma LeaderRegistered(s: State, s': State, r: nat)
    requires FlightInv(s) && Leads(s, s', r) && FlightOf(s, r) !in s.inflight
    ensures LeadersKnown(s') && FlightsKnown(s')
  {
    hide WaitersKnown;
    assert forall q :: q != r ==> (Flying(s', q) <==> Flying(s, q));
    assert r !in s.futures;
  }

  lemma LeaderOthers(s: State, s': State, r: nat)
    requires FlightInv(s) && Leads(s, s', r)
    ensures FuturesKnown(s') && WaitersKnown(s')
  {
    hide LeadersKnown, FlightsKnown;
    assert forall q :: q != r ==> (Flying(s', q) <==> Flying(s, q));
    assert r !in s.futures;
  }

  lemma EndLoadKeepsFlights(s: State, r: nat, phase: Phase, result: Option<Payload>)
    requires FlightInv(s) && Flying(s, r) && (phase.Broken? || phase.Storing?)
    ensures FlightInv(EndLoad(s, r, phase, result))
  {
    var s' := EndLoad(s, r, phase, result);
    assert forall q :: q != r ==> (Flying(s', q) <==> Flying(s, q));
    assert Registered(s, r);
  }

  lemma FlightStep(s: State, e: Event)
    requires Enabled(s, e) && FlightInv(s)
    ensures FlightInv(Apply(s, e))
  {
    hide FlightInv, Aside;
    match e
    case JoinOrLead(r) =>
      if FlightOf(s, r) in s.inflight {
        JoinAside(s, r);
        AsideKeeps(s, Join(s, r), r);
      } else {
        LeadKeepsFlights(s, r);
      }
    case LoadFails(r) => EndLoadKeepsFlights(s, r, Broken, None);
    case Publish(r) =>
      var done := PhaseOf(s, r);
      EndLoadKeepsFlights(s, r, Storing(done.version, done.seen, done.payload), Some(done.payload));
    case Ask(_, _, _) => ReaderAside(s, e); AsideKeeps(s, Apply(s, e), e.reader);
    case ReadBoth(_) => ReaderAside(s, e); AsideKeeps(s, Apply(s, e), e.reader);
    case ReadClock(_) => ReaderAside(s, e); AsideKeeps(s, Apply(s, e), e.reader);
    case InitVersion(_) => ReaderAside(s, e); AsideKeeps(s, Apply(s, e), e.reader);
    case GetVersion(_) => ReaderAside(s, e); AsideKeeps(s, Apply(s, e), e.reader);
    case Load(_) => ReaderAside(s, e); AsideKeeps(s, Apply(s, e), e.reader);
    case Store(_) => ReaderAside(s, e); AsideKeeps(s, Apply(s, e), e.reader);
    case StoreFails(_) => ReaderAside(s, e); AsideKeeps(s, Apply(s, e), e.reader);
    case TakeShared(_) => ReaderAside(s, e); AsideKeeps(s, Apply(s, e), e.reader);
    case _ => OutsideAside(s, e, 0); AsideKeeps(s, Apply(s, e), 0);
  }

  lemma {:induction false} FlightsKept(es: seq<Event>)
    requires IsRun(es)
    ensures FlightInv(After(es))
  {
    hide Apply, Enabled;
    if es != [] {
      hide FlightInv;
      FlightsKept(es[..|es| - 1]);
      FlightStep(After(es[..|es| - 1]), es[|es| - 1]);
    }
  }

  /** Two readers of one process ask for one key at one version. */
  predicate SameFlight(s: State, q: nat, version: nat, r: nat)
    requires q in s.readers && r in s.readers
  {
    s.readers[q].process == s.readers[r].process && s.readers[q].key == s.readers[r].key
      && (PhaseOf(s, r).Got? || PhaseOf(s, r).Leading? || PhaseOf(s, r).Loaded?) && PhaseOf(s, r).version == version
  }

  /** Over any run at most one load is in flight for a process, key and version. */
  lemma OneLoadInFlight(es: seq<Event>, q: nat, r: nat)
    requires IsRun(es) && Flying(After(es), q) && Flying(After(es), r)
    requires SameFlight(After(es), q, PhaseOf(After(es), q).version, r)
    ensures q == r
  {
    hide Apply, Enabled, IsRun, After;
    FlightsKept(es);
    var s := After(es);
    assert Registered(s, q) && Registered(s, r);
  }

  /**
   Over any run a reader that has missed waits for the load of another reader of its process, key and version when there is one, and loads
   itself when there is none.
   */
  lemma MissJoinsOrLeads(es: seq<Event>, r: nat)
    requires IsRun(es) && r in After(es).readers && PhaseOf(After(es), r).Got?
    ensures var s := After(es);
      var got, s' := PhaseOf(s, r), Apply(s, JoinOrLead(r));
      && (forall q :: Flying(s, q) && SameFlight(s, q, PhaseOf(s, q).version, r) ==> PhaseOf(s', r) == Waiting(got.version, got.seen, q))
      && ((forall q :: Flying(s, q) ==> !SameFlight(s, q, PhaseOf(s, q).version, r)) ==> PhaseOf(s', r) == Leading(got.version, got.seen))
      && (forall q :: q in s.readers && q != r ==> s'.readers[q] == s.readers[q])
  {
    hide IsRun, After;
    FlightsKept(es);
    var s := After(es);
    assert forall q :: Flying(s, q) && SameFlight(s, q, PhaseOf(s, q).version, r) ==> Registered(s, q) && LedFlight(s, q) == FlightOf(s, r);
    if FlightOf(s, r) in s.inflight {
      assert Flying(s, s.inflight[FlightOf(s, r)]);
    }
  }

  // ------------------------------------------------------------ what followers get

  /** The event ends reader q's load with this result: what it has loaded, or nothing when the load fails. */
  predicate Ends(s: State, e: Event, q: nat, result: Option<Payload>) {
    Flying(s, q) && (if e == Publish(q) then PhaseOf(s, q).Loaded? && result == Some(PhaseOf(s, q).payload) else e == LoadFails(q) && result == None)
  }

  ghost predicate EndedAt(es: seq<Event>, n: nat, q: nat, result: Option<Payload>) {
    n < |es| && IsRun(es[..n]) && Ends(After(es[..n]), es[n], q, result)
  }

  ghost predicate Ended(es: seq<Event>, q: nat, result: Option<Payload>) {
    exists n: nat :: EndedAt(es, n, q, result)
  }

  ghost predicate DoneAreEnded(es: seq<Event>)
    requires IsRun(es)
  {
    forall i :: i in After(es).futures && After(es).futures[i].done ==> Ended(es, i, After(es).futures[i].result)
  }

  lemma EndedStays(front: seq<Event>, e: Event, q: nat, result: Option<Payload>)
    requires Ended(front, q, result)
    ensures Ended(front + [e], q, result)
  {
    hide IsRun, After, Ends;
    var n: nat :| EndedAt(front, n, q, result);
    assert (front + [e])[..n] == front[..n];
    assert EndedAt(front + [e], n, q, result);
  }

  /** A result is decided by the end of its load and never changed. */
  lemma ResultStep(s: State, e: Event, i: nat)
    requires Enabled(s, e) && FlightInv(s) && i in Apply(s, e).futures && Apply(s, e).futures[i].done
    ensures (i in s.futures && s.futures[i] == Apply(s, e).futures[i]) || Ends(s, e, i, Apply(s, e).futures[i].result)
  {
    hide LeadersKnown, FlightsKnown, WaitersKnown;
    if e.LoadFails? || e.Publish? || e.JoinOrLead? {
      ResultDecided(s, e, i);
    } else {
      ResultsSame(s, e);
    }
    hide Apply, Enabled;
  }

  lemma ResultDecided(s: State, e: Event, i: nat)
    requires Enabled(s, e) && FuturesKnown(s) && (e.LoadFails? || e.Publish? || e.JoinOrLead?)
    requires i in Apply(s, e).futures && Apply(s, e).futures[i].done
    ensures (i in s.futures && s.futures[i] == Apply(s, e).futures[i]) || Ends(s, e, i, Apply(s, e).futures[i].result)
  {
  }

  lemma ResultsSame(s: State, e: Event)
    requires Enabled(s, e) && !e.LoadFails? && !e.Publish? && !e.JoinOrLead?
    ensures Apply(s, e).futures == s.futures
  {
    hide SetPhase, ReadEntry, SetNx;
    if !OfReader(e) {
      WritersLeaveReads(s, e);
    } else if e.ReadBoth? {
      ReadEntryLeaves(s, e.reader);
    } else if e.InitVersion? {
      NxLeaves(s, PhaseOf(s, e.reader).start);
      PhaseLeaves(SetNx(s, PhaseOf(s, e.reader).start), e.reader, NeedsVersion);
    } else if !e.Ask? {
      OnlyPhase(s, e);
    }
  }

  lemma {:induction false} ResultsEnded(es: seq<Event>)
    requires IsRun(es)
    ensures DoneAreEnded(es)
  {
    hide Apply, Enabled;
    if es != [] {
      var n := |es| - 1;
      var front, e := es[..n], es[n];
      assert es == front + [e];
      ResultsEnded(front);
      FlightsKept(front);
      hide FlightInv, EndedAt, Ends;
      forall i | i in After(es).futures && After(es).futures[i].done
        ensures Ended(es, i, After(es).futures[i].result)
      {
        var result := After(es).futures[i].result;
        ResultStep(After(front), e, i);
        if i in After(front).futures && After(front).futures[i] == After(es).futures[i] {
          EndedStays(front, e, i, result);
        } else {
          EndsNow(es, i, result);
        }
      }
    }
  }

  lemma EndsNow(es: seq<Event>, i: nat, result: Option<Payload>)
    requires IsRun(es) && es != []
    requires IsRun(es[..|es| - 1]) && Ends(After(es[..|es| - 1]), es[|es| - 1], i, result)
    ensures Ended(es, i, result)
  {
    hide IsRun, After;
    assert EndedAt(es, |es| - 1, i, result);
  }

  /** What a follower is served: the leader's payload, or what it loads itself when there is none. */
  function FollowersAnswer(s: State, r: nat, result: Option<Payload>): Served
    requires r in s.readers && PhaseOf(s, r).Waiting?
  {
    var k, seen := s.readers[r].key, PhaseOf(s, r).seen;
    if result.Some? then Served(r, k, result.value, seen, Shared) else Served(r, k, Payload(k, s.commits), seen, OwnLoad)
  }

  /**
   Over any run a follower that stops waiting does so after its leader's load has ended; it gets exactly what the leader loaded, or loads
   for itself when the leader's load failed.
   */
  lemma FollowerGetsTheLoad(es: seq<Event>, r: nat)
    requires IsRun(es) && Enabled(After(es), TakeShared(r))
    ensures exists result ::
      && Ended(es, PhaseOf(After(es), r).leader, result)
      && Apply(After(es), TakeShared(r)).served == After(es).served + [FollowersAnswer(After(es), r, result)]
  {
    hide IsRun, After;
    ResultsEnded(es);
    var result := After(es).futures[PhaseOf(After(es), r).leader].result;
    assert Ended(es, PhaseOf(After(es), r).leader, result);
  }

  /** Over any run nobody waits for nothing: the load a follower waits for is still under way, or the follower can take its result. */
  lemma NobodyWaitsInVain(es: seq<Event>, r: nat)
    requires IsRun(es) && r in After(es).readers && PhaseOf(After(es), r).Waiting?
    ensures Enabled(After(es), TakeShared(r)) <==> !Flying(After(es), PhaseOf(After(es), r).leader)
    ensures Flying(After(es), PhaseOf(After(es), r).leader) ==>
      LedFlight(After(es), PhaseOf(After(es), r).leader)
      == Flight(After(es).readers[r].process, After(es).readers[r].key, PhaseOf(After(es), r).version)
  {
    hide IsRun, After;
    FlightsKept(es);
    var s := After(es);
    assert FollowsKnown(s, r);
    if Flying(s, PhaseOf(s, r).leader) {
      assert Registered(s, PhaseOf(s, r).leader);
    }
  }

  // ------------------------------------------------------------ when the cache answers

  /** A reader is answered from the cache exactly when the entry for its key carries the current version, and with that entry's payload. */
  lemma HitExactly(s: State, r: nat)
    requires Enabled(s, ReadBoth(r))
    ensures var k, s' := s.readers[r].key, Apply(s, ReadBoth(r));
      && (PhaseOf(s', r).Answered? <==> s.version.Some? && k in s.entries && s.entries[k].version == s.version.value)
      && (PhaseOf(s', r).Answered? ==> s'.served == s.served + [Served(r, k, s.entries[k].payload, s.invalidated, Hit)])
      && (!PhaseOf(s', r).Answered? ==>
        s'.served == s.served && PhaseOf(s', r) == if s.version.Some? then Got(s.version.value, s.invalidated) else NeedsClock)
  {
  }

  /** A reader that finds no version starts one from the clock, unless another has by then, and goes by the version it finds after that. */
  lemma MissingVersionStarted(s: State, r: nat)
    requires Enabled(s, ReadClock(r))
    ensures var read := Apply(s, ReadClock(r));
      && Enabled(read, InitVersion(r))
      && var begun := Apply(read, InitVersion(r));
        && begun.version == Some(if s.version.Some? then s.version.value else s.clock)
        && Enabled(begun, GetVersion(r)) && PhaseOf(Apply(begun, GetVersion(r)), r) == Got(begun.version.value, begun.invalidated)
  {
  }

  /** A reader that has loaded answers with what it has loaded, whether or not the cache takes the entry. */
  lemma LoadedIsAnswered(s: State, r: nat)
    requires r in s.readers && PhaseOf(s, r).Storing?
    ensures Enabled(s, Store(r)) && Enabled(s, StoreFails(r))
    ensures var done, k := PhaseOf(s, r), s.readers[r].key;
      var answer := Served(r, k, done.payload, done.seen, OwnLoad);
      && Apply(s, Store(r)).served == s.served + [answer] == Apply(s, StoreFails(r)).served
      && Apply(s, Store(r)).entries == s.entries[k := Entry(done.version, done.payload)] && Apply(s, StoreFails(r)).entries == s.entries
  {
  }

  /** What a reader has loaded is found by the next one that asks for the key, as long as the version stays. */
  lemma StoredIsHit(s: State, r: nat, q: nat)
    requires Enabled(s, Store(r)) && s.version == Some(PhaseOf(s, r).version)
    requires q in s.readers && q != r && PhaseOf(s, q).Asked? && s.readers[q].key == s.readers[r].key
    ensures Enabled(Apply(s, Store(r)), ReadBoth(q))
    ensures var s' := Apply(Apply(s, Store(r)), ReadBoth(q));
      && PhaseOf(s', q).Answered? && |s'.served| == |s.served| + 2
      && s'.served[|s.served|].payload == s'.served[|s.served| + 1].payload == PhaseOf(s, r).payload
      && s'.served[|s.served|].reader == r && s'.served[|s.served| + 1].reader == q
  {
  }
}
