/**
 The versioned response cache, as interleaved steps of any number of processes, readers and writers on one namespace.

 Redis commands, database loads and commits are the atomic steps.  Commits are numbered; a payload remembers how many commits it was
 loaded after.  The history records, for every version that was ever current, which writes had been invalidated by then.
 */
module ResponseCache {
  import opened Options

  type Key = nat

  datatype Payload = Payload(key: Key, commits: nat)
  datatype Entry = Entry(version: nat, payload: Payload)

  /** The process-local key under which identical misses share one load. */
  datatype Flight = Flight(process: nat, key: Key, version: nat)

  /** `seen` is the set of writes already invalidated when the reader read the version. */
  datatype Phase =
    | Asked
    | NeedsClock
    | NeedsInit(start: nat)
    | NeedsVersion
    | Got(version: nat, seen: set<nat>)
    | Leading(version: nat, seen: set<nat>)
    | Loaded(version: nat, seen: set<nat>, payload: Payload)
    | Storing(version: nat, seen: set<nat>, payload: Payload)
    | Waiting(version: nat, seen: set<nat>, leader: nat)
    | Answered
    | Broken

  /** The shared result of one load: undecided, or a payload, or nothing when the load failed. */
  datatype Future = Future(flight: Flight, done: bool, result: Option<Payload>)

  datatype Reader = Reader(process: nat, key: Key, phase: Phase)

  /** A writer's SET NX and INCR on their way: the clock value they start from was read when they were put together. */
  datatype Pipeline = Pipeline(process: nat, start: nat, sent: bool)

  datatype Source = Hit | Shared | OwnLoad
  datatype Served = Served(reader: nat, key: Key, payload: Payload, seen: set<nat>, source: Source)

  datatype State = State(
    clock: nat,
    commits: nat,
    version: Option<nat>,
    entries: map<Key, Entry>,
    missed: map<nat, set<nat>>,
    pipelines: map<nat, Pipeline>,
    readers: map<nat, Reader>,
    inflight: map<Flight, nat>,
    futures: map<nat, Future>,
    served: seq<Served>,
    invalidated: set<nat>,
    invalidatedAt: map<nat, set<nat>>,
    lastIssue: int)

  const Start := State(0, 0, None, map[], map[], map[], map[], map[], map[], [], {}, map[], -1)

  datatype Event =
    | Tick
    | Commit(process: nat)
    | StartReplay(replay: nat, process: nat)
    | SetInitial(replay: nat)
    | Increment(replay: nat)
    | LoseVersion
    | LoseEntry(key: Key)
    | Ask(reader: nat, process: nat, key: Key)
    | ReadBoth(reader: nat)
    | ReadClock(reader: nat)
    | InitVersion(reader: nat)
    | GetVersion(reader: nat)
    | JoinOrLead(reader: nat)
    | Load(reader: nat)
    | LoadFails(reader: nat)
    | Publish(reader: nat)
    | Store(reader: nat)
    | StoreFails(reader: nat)
    | TakeShared(reader: nat)

  function PhaseOf(s: State, r: nat): Phase
    requires r in s.readers
  {
    s.readers[r].phase
  }

  function FlightOf(s: State, r: nat): Flight
    requires r in s.readers && PhaseOf(s, r).Got?
  {
    Flight(s.readers[r].process, s.readers[r].key, PhaseOf(s, r).version)
  }

  /** The flight a leader opened; it closes it when its load ends. */
  function LedFlight(s: State, r: nat): Flight
    requires r in s.readers && (PhaseOf(s, r).Leading? || PhaseOf(s, r).Loaded?)
  {
    Flight(s.readers[r].process, s.readers[r].key, PhaseOf(s, r).version)
  }

  function MissedBy(s: State, p: nat): set<nat> {
    if p in s.missed then s.missed[p] else {}
  }

  predicate Enabled(s: State, e: Event) {
    match e
    case Tick => true
    case Commit(_) => true
    case StartReplay(w, _) => w !in s.pipelines
    case SetInitial(w) => w in s.pipelines && !s.pipelines[w].sent
    case Increment(w) => w in s.pipelines && s.pipelines[w].sent
    case LoseVersion => true
    case LoseEntry(_) => true
    case Ask(r, _, _) => r !in s.readers
    case ReadBoth(r) => r in s.readers && PhaseOf(s, r).Asked?
    case ReadClock(r) => r in s.readers && PhaseOf(s, r).NeedsClock?
    case InitVersion(r) => r in s.readers && PhaseOf(s, r).NeedsInit?
    case GetVersion(r) => r in s.readers && PhaseOf(s, r).NeedsVersion?
    case JoinOrLead(r) => r in s.readers && PhaseOf(s, r).Got?
    case Load(r) => r in s.readers && PhaseOf(s, r).Leading?
    case LoadFails(r) => r in s.readers && PhaseOf(s, r).Leading?
    case Publish(r) => r in s.readers && PhaseOf(s, r).Loaded?
    case Store(r) => r in s.readers && PhaseOf(s, r).Storing?
    case StoreFails(r) => r in s.readers && PhaseOf(s, r).Storing?
    case TakeShared(r) => r in s.readers && PhaseOf(s, r).Waiting? && PhaseOf(s, r).leader in s.futures && s.futures[PhaseOf(s, r).leader].done
  }

  // ------------------------------------------------------------ the steps

  function SetPhase(s: State, r: nat, phase: Phase): State
    requires r in s.readers
  {
    s.(readers := s.readers[r := s.readers[r].(phase := phase)])
  }

  /** A version that was not there becomes current. */
  function Issue(s: State, v: nat): State {
    s.(version := Some(v), invalidatedAt := s.invalidatedAt[v := s.invalidated], lastIssue := s.clock)
  }

  /** SET NX with a clock value read earlier: nothing happens while the key exists. */
  function SetNx(s: State, start: nat): State {
    if s.version.None? then Issue(s, start) else s
  }

  /** INCR, by a writer of this process: its committed writes are invalidated. */
  function Incr(s: State, process: nat): State {
    Issue(s.(invalidated := s.invalidated + MissedBy(s, process), missed := s.missed[process := {}]), NextVersion(s))
  }

  /** What INCR makes current: one more, or 1 when the key is gone. */
  function NextVersion(s: State): nat {
    if s.version.Some? then s.version.value + 1 else 1
  }

  function ReadEntry(s: State, r: nat): State
    requires r in s.readers
  {
    if s.version.None? then SetPhase(s, r, NeedsClock)
    else
      var k, v := s.readers[r].key, s.version.value;
      if k in s.entries && s.entries[k].version == v then
        SetPhase(s, r, Answered).(served := s.served + [Served(r, k, s.entries[k].payload, s.invalidated, Hit)])
      else SetPhase(s, r, Got(v, s.invalidated))
  }

  /** Waits for the load that is already in flight. */
  function Join(s: State, r: nat): State
    requires r in s.readers && PhaseOf(s, r).Got? && FlightOf(s, r) in s.inflight
  {
    SetPhase(s, r, Waiting(PhaseOf(s, r).version, PhaseOf(s, r).seen, s.inflight[FlightOf(s, r)]))
  }

  function Lead(s: State, r: nat): State
    requires r in s.readers && PhaseOf(s, r).Got?
  {
    var f := FlightOf(s, r);
    SetPhase(s, r, Leading(PhaseOf(s, r).version, PhaseOf(s, r).seen)).(
      inflight := s.inflight[f := r], futures := s.futures[r := Future(f, false, None)])
  }

  /** The leader's future is decided and its flight is over. */
  function EndLoad(s: State, r: nat, phase: Phase, result: Option<Payload>): State
    requires r in s.readers && (PhaseOf(s, r).Leading? || PhaseOf(s, r).Loaded?)
  {
    SetPhase(s, r, phase).(futures := s.futures[r := Future(LedFlight(s, r), true, result)], inflight := s.inflight - {LedFlight(s, r)})
  }

  function Apply(s: State, e: Event): State
    requires Enabled(s, e)
  {
    match e
    case Tick => s.(clock := s.clock + 1)
    case Commit(p) => s.(commits := s.commits + 1, missed := s.missed[p := MissedBy(s, p) + {s.commits + 1}])
    case StartReplay(w, p) => s.(pipelines := s.pipelines[w := Pipeline(p, s.clock, false)])
    case SetInitial(w) => SetNx(s.(pipelines := s.pipelines[w := s.pipelines[w].(sent := true)]), s.pipelines[w].start)
    case Increment(w) => Incr(s.(pipelines := s.pipelines - {w}), s.pipelines[w].process)
    case LoseVersion => s.(version := None)
    case LoseEntry(k) => s.(entries := s.entries - {k})
    case Ask(r, p, k) => s.(readers := s.readers[r := Reader(p, k, Asked)])
    case ReadBoth(r) => ReadEntry(s, r)
    case ReadClock(r) => SetPhase(s, r, NeedsInit(s.clock))
    case InitVersion(r) => SetPhase(SetNx(s, PhaseOf(s, r).start), r, NeedsVersion)
    case GetVersion(r) => SetPhase(s, r, if s.version.Some? then Got(s.version.value, s.invalidated) else Broken)
    case JoinOrLead(r) => if FlightOf(s, r) in s.inflight then Join(s, r) else Lead(s, r)
    case Load(r) =>
      var lead := PhaseOf(s, r);
      SetPhase(s, r, Loaded(lead.version, lead.seen, Payload(s.readers[r].key, s.commits)))
    case LoadFails(r) => EndLoad(s, r, Broken, None)
    case Publish(r) =>
      var done := PhaseOf(s, r);
      EndLoad(s, r, Storing(done.version, done.seen, done.payload), Some(done.payload))
    case Store(r) =>
      var done := PhaseOf(s, r);
      SetPhase(s, r, Answered).(
        entries := s.entries[s.readers[r].key := Entry(done.version, done.payload)],
        served := s.served + [Served(r, s.readers[r].key, done.payload, done.seen, OwnLoad)])
    case StoreFails(r) =>
      var done := PhaseOf(s, r);
      SetPhase(s, r, Answered).(served := s.served + [Served(r, s.readers[r].key, done.payload, done.seen, OwnLoad)])
    case TakeShared(r) =>
      var wait := PhaseOf(s, r);
      var k, shared := s.readers[r].key, s.futures[wait.leader].result;
      SetPhase(s, r, Answered).(served := s.served + [
        if shared.Some? then Served(r, k, shared.value, wait.seen, Shared)
        else Served(r, k, Payload(k, s.commits), wait.seen, OwnLoad)])
  }

  // ------------------------------------------------------------ the invariant

  /** Loaded after every write in `seen`. */
  predicate Covers(p: Payload, seen: set<nat>) {
    forall c :: c in seen ==> c <= p.commits
  }

  ghost predicate WritesKnown(s: State) {
    && (forall c :: c in s.invalidated ==> c <= s.commits)
    && (forall p, c :: p in s.missed && c in s.missed[p] ==> c <= s.commits)
    && (forall v, c :: v in s.invalidatedAt && c in s.invalidatedAt[v] ==> c <= s.commits)
  }

  /** The current version is the largest ever, and stands for exactly the writes invalidated so far. */
  ghost predicate VersionCurrent(s: State) {
    s.version.Some? ==> Holds(s, s.version.value, s.invalidated) && forall v :: v in s.invalidatedAt ==> v <= s.version.value
  }

  ghost predicate EntriesGood(s: State) {
    forall k :: k in s.entries ==>
      var e := s.entries[k]; e.version in s.invalidatedAt && e.payload.key == k && Covers(e.payload, s.invalidatedAt[e.version])
  }

  /** A version a reader holds stands for what was invalidated when it was read. */
  ghost predicate Holds(s: State, version: nat, seen: set<nat>) {
    version in s.invalidatedAt && s.invalidatedAt[version] == seen
  }

  predicate FutureOf(s: State, i: nat, f: Flight) {
    i in s.futures && s.futures[i].flight == f
  }

  ghost predicate ReaderGood(s: State, r: nat)
    requires r in s.readers
  {
    match PhaseOf(s, r)
    case Asked => r !in s.futures
    case NeedsClock => r !in s.futures
    case NeedsInit(_) => r !in s.futures
    case NeedsVersion => r !in s.futures
    case Got(v, seen) => r !in s.futures && Holds(s, v, seen)
    case Leading(v, seen) => Holds(s, v, seen) && FutureOf(s, r, LedFlight(s, r))
    case Loaded(v, seen, p) => Holds(s, v, seen) && FutureOf(s, r, LedFlight(s, r)) && Covers(p, seen) && p.key == s.readers[r].key
    case Storing(v, seen, p) => Holds(s, v, seen) && Covers(p, seen) && p.key == s.readers[r].key
    case Waiting(v, seen, leader) =>
      Holds(s, v, seen) && FutureOf(s, leader, Flight(s.readers[r].process, s.readers[r].key, v))
    case _ => true
  }

  ghost predicate ReadersGood(s: State) {
    forall r :: r in s.readers ==> ReaderGood(s, r)
  }

  /** A shared result is for its flight's key and covers what its flight's version stands for. */
  ghost predicate FutureGood(s: State, f: Future) {
    f.flight.version in s.invalidatedAt &&
    (f.result.Some? ==> f.result.value.key == f.flight.key && Covers(f.result.value, s.invalidatedAt[f.flight.version]))
  }

  ghost predicate FuturesGood(s: State) {
    forall i :: i in s.futures ==> FutureGood(s, s.futures[i])
  }

  ghost predicate FlightsGood(s: State) {
    && (forall f :: f in s.inflight ==> FutureOf(s, s.inflight[f], f))
    && (forall i :: i in s.futures ==> i in s.readers)
  }

  ghost predicate NothingStale(s: State) {
    forall i :: 0 <= i < |s.served| ==> Covers(s.served[i].payload, s.served[i].seen) && s.served[i].payload.key == s.served[i].key
  }

  ghost predicate Inv(s: State) {
    WritesKnown(s) && VersionCurrent(s) && EntriesGood(s) && ReadersGood(s) && FuturesGood(s) && FlightsGood(s) && NothingStale(s)
  }

  /** The version an event makes current, if it makes one current. */
  function Issued(s: State, e: Event): Option<nat> {
    if e.Increment? then Some(NextVersion(s))
    else if s.version.Some? then None
    else if e.SetInitial? && e.replay in s.pipelines then Some(s.pipelines[e.replay].start)
    else if e.InitVersion? && e.reader in s.readers && PhaseOf(s, e.reader).NeedsInit? then Some(PhaseOf(s, e.reader).start)
    else None
  }

  /** The event makes no version current that is not larger than all earlier ones. */
  ghost predicate Advances(s: State, e: Event) {
    Issued(s, e).Some? ==> forall v :: v in s.invalidatedAt ==> v < Issued(s, e).value
  }

  // ------------------------------------------------------------ every step keeps it

  /** What versions stand for, and which flight a future is for, does not change. */
  ghost predicate SameMeaning(s: State, s': State) {
    && (forall v :: v in s.invalidatedAt ==> v in s'.invalidatedAt && s'.invalidatedAt[v] == s.invalidatedAt[v])
    && (forall i :: i in s.futures ==> i in s'.futures && s'.futures[i].flight == s.futures[i].flight)
  }

  /** At most one reader changes; everybody else keeps what they hold. */
  lemma OthersKeep(s: State, s': State, r: nat)
    requires ReadersGood(s) && SameMeaning(s, s')
    requires forall q :: q in s'.readers && q != r ==> q in s.readers && s'.readers[q] == s.readers[q]
    requires forall q :: q in s'.futures && q != r ==> q in s.futures
    requires r in s'.readers ==> ReaderGood(s', r)
    ensures ReadersGood(s')
  {
    forall q | q in s'.readers && q != r ensures ReaderGood(s', q) {
      assert ReaderGood(s, q);
    }
  }

  lemma ReadersKeep(s: State, s': State)
    requires ReadersGood(s) && SameMeaning(s, s') && s'.readers == s.readers && s'.futures == s.futures
    ensures ReadersGood(s')
  {
    forall q | q in s'.readers ensures ReaderGood(s', q) {
      assert ReaderGood(s, q);
    }
  }

  /** What the steps of a reader on its own leave alone. */
  predicate SameStore(s: State, s': State) {
    && s'.commits == s.commits && s'.version == s.version && s'.entries == s.entries && s'.missed == s.missed
    && s'.served == s.served && s'.invalidated == s.invalidated && s'.invalidatedAt == s.invalidatedAt
  }

  lemma StoreKept(s: State, s': State)
    requires Inv(s) && SameStore(s, s')
    ensures WritesKnown(s') && VersionCurrent(s') && EntriesGood(s') && NothingStale(s')
    ensures s'.futures == s.futures ==> FuturesGood(s')
    ensures s'.futures == s.futures && s'.inflight == s.inflight && s.readers.Keys <= s'.readers.Keys ==> FlightsGood(s')
  {
    hide ReadersGood, Covers;
  }

  /** A reader moves to another phase on its own. */
  lemma PhaseKeeps(s: State, r: nat, phase: Phase)
    requires Inv(s) && r in s.readers && ReaderGood(SetPhase(s, r, phase), r)
    ensures Inv(SetPhase(s, r, phase))
  {
    hide ReadersGood, WritesKnown, VersionCurrent, EntriesGood, NothingStale, FuturesGood, FlightsGood, ReaderGood;
    OthersKeep(s, SetPhase(s, r, phase), r);
    StoreKept(s, SetPhase(s, r, phase));
  }

  lemma IssueKeeps(s: State, v: nat)
    requires WritesKnown(s) && EntriesGood(s) && ReadersGood(s) && FuturesGood(s) && FlightsGood(s) && NothingStale(s)
    requires forall u :: u in s.invalidatedAt ==> u < v
    ensures Inv(Issue(s, v))
  {
    ReadersKeep(s, Issue(s, v));
    hide ReadersGood;
  }

  /** Pipelines carry no promise of their own. */
  lemma PipelinesKeep(s: State, pipelines: map<nat, Pipeline>)
    requires Inv(s)
    ensures Inv(s.(pipelines := pipelines))
  {
    hide ReadersGood, WritesKnown, VersionCurrent, EntriesGood, NothingStale, FuturesGood, FlightsGood;
    ReadersKeep(s, s.(pipelines := pipelines));
    StoreKept(s, s.(pipelines := pipelines));
  }

  lemma SetInitialKeeps(s: State, w: nat)
    requires Inv(s) && Enabled(s, SetInitial(w)) && Advances(s, SetInitial(w))
    ensures Inv(Apply(s, SetInitial(w)))
  {
    var t := s.(pipelines := s.pipelines[w := s.pipelines[w].(sent := true)]);
    PipelinesKeep(s, t.pipelines);
    hide ReadersGood, FuturesGood, EntriesGood, WritesKnown, NothingStale, FlightsGood, Issue;
    if s.version.None? {
      IssueKeeps(t, s.pipelines[w].start);
    }
    hide VersionCurrent;
  }

  lemma MissedKept(s: State, p: nat)
    requires Inv(s)
    ensures var t := s.(invalidated := s.invalidated + MissedBy(s, p), missed := s.missed[p := {}]);
      WritesKnown(t) && EntriesGood(t) && ReadersGood(t) && FuturesGood(t) && FlightsGood(t) && NothingStale(t)
  {
    ReadersKeep(s, s.(invalidated := s.invalidated + MissedBy(s, p), missed := s.missed[p := {}]));
    hide ReadersGood, Covers;
  }

  lemma IncrementKeeps(s: State, w: nat)
    requires Inv(s) && Enabled(s, Increment(w)) && Advances(s, Increment(w))
    ensures Inv(Apply(s, Increment(w)))
  {
    hide ReadersGood, FuturesGood, EntriesGood, WritesKnown, NothingStale, FlightsGood, VersionCurrent, Inv;
    var t := s.(pipelines := s.pipelines - {w});
    var p := s.pipelines[w].process;
    PipelinesKeep(s, t.pipelines);
    MissedKept(t, p);
    var u := t.(invalidated := t.invalidated + MissedBy(t, p), missed := t.missed[p := {}]);
    IssueKeeps(u, NextVersion(s));
    assert Apply(s, Increment(w)) == Issue(u, NextVersion(s));
    hide Issue, Apply;
  }

  lemma OutsideStepStore(s: State, e: Event)
    requires Inv(s) && Enabled(s, e) && (e.Tick? || e.Commit? || e.LoseVersion? || e.LoseEntry?)
    ensures WritesKnown(Apply(s, e)) && VersionCurrent(Apply(s, e)) && EntriesGood(Apply(s, e)) && NothingStale(Apply(s, e))
  {
    hide ReadersGood, FuturesGood, FlightsGood, Covers;
  }

  lemma OutsideStepKeeps(s: State, e: Event)
    requires Inv(s) && Enabled(s, e) && (e.Tick? || e.Commit? || e.LoseVersion? || e.LoseEntry?)
    ensures Inv(Apply(s, e))
  {
    hide ReadersGood, WritesKnown, VersionCurrent, EntriesGood, NothingStale;
    OutsideStepStore(s, e);
    ReadersKeep(s, Apply(s, e));
  }

  lemma AskKeeps(s: State, r: nat, p: nat, k: Key)
    requires Inv(s) && Enabled(s, Ask(r, p, k))
    ensures Inv(Apply(s, Ask(r, p, k)))
  {
    var s' := Apply(s, Ask(r, p, k));
    assert ReaderGood(s', r) by { hide WritesKnown, VersionCurrent, EntriesGood, NothingStale, FuturesGood; }
    hide ReadersGood, WritesKnown, VersionCurrent, EntriesGood, NothingStale, FuturesGood, FlightsGood, ReaderGood;
    OthersKeep(s, s', r);
    StoreKept(s, s');
  }

  lemma GetVersionKeeps(s: State, r: nat)
    requires Inv(s) && Enabled(s, GetVersion(r))
    ensures Inv(Apply(s, GetVersion(r)))
  {
    hide WritesKnown, EntriesGood, NothingStale, FuturesGood, FlightsGood;
    assert ReaderGood(s, r);
    PhaseKeeps(s, r, if s.version.Some? then Got(s.version.value, s.invalidated) else Broken);
    hide ReadersGood, VersionCurrent;
  }

  /** Reader r gets answer a. */
  function Serve(s: State, r: nat, a: Served): State
    requires r in s.readers
  {
    SetPhase(s, r, Answered).(served := s.served + [a])
  }

  lemma ServeKeeps(s: State, r: nat, a: Served)
    requires Inv(s) && r in s.readers && Covers(a.payload, a.seen) && a.payload.key == a.key
    ensures Inv(Serve(s, r, a))
  {
    PhaseKeeps(s, r, Answered);
    AnswerKeeps(SetPhase(s, r, Answered), a);
    hide Inv;
  }

  lemma AnswerKeeps(s: State, a: Served)
    requires Inv(s) && Covers(a.payload, a.seen) && a.payload.key == a.key
    ensures Inv(s.(served := s.served + [a]))
  {
    hide Covers, ReadersGood, ReaderGood;
    ReadersKeep(s, s.(served := s.served + [a]));
  }

  predicate Matches(s: State, k: Key) {
    s.version.Some? && k in s.entries && s.entries[k].version == s.version.value
  }

  /** An entry of the current version was loaded after every invalidated write. */
  lemma MatchCovers(s: State, k: Key)
    requires Inv(s) && Matches(s, k)
    ensures Covers(s.entries[k].payload, s.invalidated) && s.entries[k].payload.key == k
  {
    hide Covers, ReadersGood, FuturesGood;
  }

  lemma MissKeeps(s: State, r: nat)
    requires Inv(s) && r in s.readers && PhaseOf(s, r).Asked? && !Matches(s, s.readers[r].key)
    ensures Inv(ReadEntry(s, r))
  {
    hide WritesKnown, EntriesGood, NothingStale, FuturesGood, FlightsGood;
    assert ReaderGood(s, r);
    PhaseKeeps(s, r, if s.version.None? then NeedsClock else Got(s.version.value, s.invalidated));
    hide ReadersGood, VersionCurrent;
  }

  lemma ReadBothKeeps(s: State, r: nat)
    requires Inv(s) && Enabled(s, ReadBoth(r))
    ensures Inv(Apply(s, ReadBoth(r)))
  {
    var k := s.readers[r].key;
    hide Inv, Covers;
    if Matches(s, k) {
      MatchCovers(s, k);
      ServeKeeps(s, r, Served(r, k, s.entries[k].payload, s.invalidated, Hit));
    } else {
      MissKeeps(s, r);
    }
  }

  lemma ReadClockKeeps(s: State, r: nat)
    requires Inv(s) && Enabled(s, ReadClock(r))
    ensures Inv(Apply(s, ReadClock(r)))
  {
    hide WritesKnown, VersionCurrent, EntriesGood, NothingStale, FuturesGood, FlightsGood;
    assert ReaderGood(s, r);
    PhaseKeeps(s, r, NeedsInit(s.clock));
    hide ReadersGood;
  }

  lemma InitVersionKeeps(s: State, r: nat)
    requires Inv(s) && Enabled(s, InitVersion(r)) && Advances(s, InitVersion(r))
    ensures Inv(Apply(s, InitVersion(r)))
  {
    var t, start := SetPhase(s, r, NeedsVersion), PhaseOf(s, r).start;
    assert ReaderGood(s, r) by { hide WritesKnown, VersionCurrent, EntriesGood, NothingStale, FuturesGood, FlightsGood; }
    PhaseKeeps(s, r, NeedsVersion);
    if s.version.None? {
      IssueKeeps(t, start);
      assert Apply(s, InitVersion(r)) == Issue(t, start);
    }
    hide ReadersGood, WritesKnown, VersionCurrent, EntriesGood, NothingStale, FuturesGood, FlightsGood, ReaderGood;
  }

  lemma JoinKeeps(s: State, r: nat)
    requires Inv(s) && r in s.readers && PhaseOf(s, r).Got? && FlightOf(s, r) in s.inflight
    ensures Inv(Join(s, r))
  {
    hide WritesKnown, EntriesGood, NothingStale, FuturesGood, VersionCurrent;
    assert ReaderGood(s, r);
    PhaseKeeps(s, r, Waiting(PhaseOf(s, r).version, PhaseOf(s, r).seen, s.inflight[FlightOf(s, r)]));
    hide ReadersGood, FlightsGood;
  }

  lemma LeadFlights(s: State, r: nat)
    requires FuturesGood(s) && FlightsGood(s) && r in s.readers && PhaseOf(s, r).Got? && ReaderGood(s, r)
    ensures FuturesGood(Lead(s, r)) && FlightsGood(Lead(s, r)) && ReaderGood(Lead(s, r), r) && SameMeaning(s, Lead(s, r))
  {
    hide Covers;
  }

  lemma LeadKeeps(s: State, r: nat)
    requires Inv(s) && r in s.readers && PhaseOf(s, r).Got?
    ensures Inv(Lead(s, r))
  {
    hide Covers, WritesKnown, EntriesGood, NothingStale, VersionCurrent, FuturesGood, FlightsGood;
    assert ReaderGood(s, r);
    hide ReadersGood, ReaderGood;
    LeadFlights(s, r);
    OthersKeep(s, Lead(s, r), r);
    StoreKept(s, Lead(s, r));
    hide SameMeaning;
  }

  lemma LoadKeeps(s: State, r: nat)
    requires Inv(s) && Enabled(s, Load(r))
    ensures Inv(Apply(s, Load(r)))
  {
    hide EntriesGood, NothingStale, FuturesGood, FlightsGood;
    assert ReaderGood(s, r);
    PhaseKeeps(s, r, Loaded(PhaseOf(s, r).version, PhaseOf(s, r).seen, Payload(s.readers[r].key, s.commits)));
    hide ReadersGood, WritesKnown, VersionCurrent;
  }

  /** A load's result is good when it is the one its leader loaded. */
  lemma EndOfLoadFutures(s: State, r: nat, phase: Phase, result: Option<Payload>)
    requires ReadersGood(s) && FuturesGood(s) && FlightsGood(s)
    requires r in s.readers && (PhaseOf(s, r).Leading? || PhaseOf(s, r).Loaded?)
    requires result.Some? ==> PhaseOf(s, r).Loaded? && result == Some(PhaseOf(s, r).payload)
    ensures FuturesGood(EndLoad(s, r, phase, result)) && FlightsGood(EndLoad(s, r, phase, result))
  {
    assert ReaderGood(s, r);
    hide ReadersGood, Covers;
  }

  lemma EndOfLoadKeeps(s: State, r: nat, phase: Phase, result: Option<Payload>)
    requires Inv(s) && r in s.readers && (PhaseOf(s, r).Leading? || PhaseOf(s, r).Loaded?)
    requires (phase == Broken && result.None?) || (PhaseOf(s, r).Loaded? && result == Some(PhaseOf(s, r).payload)
      && phase == Storing(PhaseOf(s, r).version, PhaseOf(s, r).seen, PhaseOf(s, r).payload))
    ensures Inv(EndLoad(s, r, phase, result))
  {
    hide WritesKnown, EntriesGood, NothingStale, VersionCurrent, FuturesGood, FlightsGood, Covers;
    assert ReaderGood(s, r);
    OthersKeep(s, EndLoad(s, r, phase, result), r);
    StoreKept(s, EndLoad(s, r, phase, result));
    EndOfLoadFutures(s, r, phase, result);
    hide ReadersGood;
  }

  lemma EntryKeeps(s: State, k: Key, e: Entry)
    requires Inv(s) && e.version in s.invalidatedAt && e.payload.key == k && Covers(e.payload, s.invalidatedAt[e.version])
    ensures Inv(s.(entries := s.entries[k := e]))
  {
    hide Covers, ReadersGood, ReaderGood, NothingStale;
    ReadersKeep(s, s.(entries := s.entries[k := e]));
    assert NothingStale(s.(entries := s.entries[k := e])) by { SameAnswers(s, s.(entries := s.entries[k := e])); }
  }

  lemma SameAnswers(s: State, s': State)
    requires NothingStale(s) && s'.served == s.served
    ensures NothingStale(s')
  {
    hide Covers;
  }

  lemma StoreKeeps(s: State, r: nat)
    requires Inv(s) && r in s.readers && PhaseOf(s, r).Storing?
    ensures Inv(Apply(s, Store(r))) && Inv(Apply(s, StoreFails(r)))
  {
    hide WritesKnown, VersionCurrent, EntriesGood, NothingStale, FuturesGood, FlightsGood, Covers;
    var done, k := PhaseOf(s, r), s.readers[r].key;
    assert ReaderGood(s, r);
    hide ReadersGood;
    var t := Serve(s, r, Served(r, k, done.payload, done.seen, OwnLoad));
    ServeKeeps(s, r, Served(r, k, done.payload, done.seen, OwnLoad));
    EntryKeeps(t, k, Entry(done.version, done.payload));
    assert Apply(s, StoreFails(r)) == t;
    assert Apply(s, Store(r)) == t.(entries := t.entries[k := Entry(done.version, done.payload)]);
    hide Inv;
  }

  lemma TakeSharedKeeps(s: State, r: nat)
    requires Inv(s) && Enabled(s, TakeShared(r))
    ensures Inv(Apply(s, TakeShared(r)))
  {
    var wait, k := PhaseOf(s, r), s.readers[r].key;
    var shared := s.futures[wait.leader].result;
    assert ReaderGood(s, r) && FutureGood(s, s.futures[wait.leader]);
    ServeKeeps(s, r, if shared.Some? then Served(r, k, shared.value, wait.seen, Shared) else Served(r, k, Payload(k, s.commits), wait.seen, OwnLoad));
  }

  lemma StepKeeps(s: State, e: Event)
    requires Inv(s) && Enabled(s, e) && Advances(s, e)
    ensures Inv(Apply(s, e))
  {
    hide Inv, Join, Lead, EndLoad, SetPhase, Issue, ReadEntry;
    match e
    case StartReplay(w, p) => PipelinesKeep(s, s.pipelines[w := Pipeline(p, s.clock, false)]);
    case SetInitial(w) => SetInitialKeeps(s, w);
    case Increment(w) => IncrementKeeps(s, w);
    case ReadClock(r) => ReadClockKeeps(s, r);
    case Ask(r, p, k) => AskKeeps(s, r, p, k);
    case GetVersion(r) => GetVersionKeeps(s, r);
    case ReadBoth(r) => ReadBothKeeps(s, r);
    case InitVersion(r) => InitVersionKeeps(s, r);
    case JoinOrLead(r) =>
      if FlightOf(s, r) in s.inflight {
        JoinKeeps(s, r);
      } else {
        LeadKeeps(s, r);
      }
    case Load(r) => LoadKeeps(s, r);
    case LoadFails(r) => EndOfLoadKeeps(s, r, Broken, None);
    case Publish(r) =>
      var done := PhaseOf(s, r);
      EndOfLoadKeeps(s, r, Storing(done.version, done.seen, done.payload), Some(done.payload));
    case Store(r) => StoreKeeps(s, r);
    case StoreFails(r) => StoreKeeps(s, r);
    case TakeShared(r) => TakeSharedKeeps(s, r);
    case _ => OutsideStepKeeps(s, e);
  }

  // ------------------------------------------------------------ what a step leaves alone

  /** Nothing happened to the writes. */
  predicate WritesSame(s: State, s': State) {
    s'.commits == s.commits && s'.missed == s.missed && s'.pipelines == s.pipelines && s'.invalidated == s.invalidated
  }

  /** Nothing happened to readers, loads and answers. */
  predicate ReadsSame(s: State, s': State) {
    s'.readers == s.readers && s'.inflight == s.inflight && s'.futures == s.futures && s'.served == s.served
  }

  predicate OfReader(e: Event) {
    !e.Tick? && !e.Commit? && !e.StartReplay? && !e.SetInitial? && !e.Increment? && !e.LoseVersion? && !e.LoseEntry?
  }

  lemma NxLeaves(s: State, start: nat)
    ensures WritesSame(s, SetNx(s, start)) && ReadsSame(s, SetNx(s, start)) && SetNx(s, start).entries == s.entries
  {
  }

  lemma PhaseLeaves(s: State, r: nat, phase: Phase)
    requires r in s.readers
    ensures WritesSame(s, SetPhase(s, r, phase))
    ensures var s' := SetPhase(s, r, phase);
      && s'.readers == s.readers[r := Reader(s.readers[r].process, s.readers[r].key, phase)]
      && s'.inflight == s.inflight && s'.futures == s.futures && s'.served == s.served && s'.entries == s.entries
  {
  }

  lemma ReadEntryLeaves(s: State, r: nat)
    requires r in s.readers
    ensures WritesSame(s, ReadEntry(s, r)) && ReadEntry(s, r).inflight == s.inflight && ReadEntry(s, r).futures == s.futures
    ensures ReadEntry(s, r).entries == s.entries
  {
    hide SetPhase;
    PhaseLeaves(s, r, NeedsClock);
    PhaseLeaves(s, r, Answered);
    if s.version.Some? {
      PhaseLeaves(s, r, Got(s.version.value, s.invalidated));
    }
  }

  lemma FlightLeaves(s: State, r: nat)
    requires r in s.readers && PhaseOf(s, r).Got?
    ensures WritesSame(s, Lead(s, r)) && Lead(s, r).served == s.served && Lead(s, r).entries == s.entries
    ensures FlightOf(s, r) in s.inflight ==>
      WritesSame(s, Join(s, r)) && Join(s, r).served == s.served && Join(s, r).entries == s.entries
  {
    hide SetPhase;
    PhaseLeaves(s, r, Leading(PhaseOf(s, r).version, PhaseOf(s, r).seen));
    if FlightOf(s, r) in s.inflight {
      PhaseLeaves(s, r, Waiting(PhaseOf(s, r).version, PhaseOf(s, r).seen, s.inflight[FlightOf(s, r)]));
    }
  }

  lemma EndLoadLeaves(s: State, r: nat, phase: Phase, result: Option<Payload>)
    requires r in s.readers && (PhaseOf(s, r).Leading? || PhaseOf(s, r).Loaded?)
    ensures WritesSame(s, EndLoad(s, r, phase, result)) && EndLoad(s, r, phase, result).served == s.served
    ensures EndLoad(s, r, phase, result).entries == s.entries
  {
    hide SetPhase;
    PhaseLeaves(s, r, phase);
  }

  /** Readers do nothing to the writes. */
  lemma ReadersLeaveWrites(s: State, e: Event)
    requires Enabled(s, e) && OfReader(e)
    ensures WritesSame(s, Apply(s, e))
  {
    hide SetPhase, ReadEntry, Lead, Join, EndLoad, SetNx;
    match e
    case Ask(_, _, _) =>
    case ReadBoth(r) => ReadEntryLeaves(s, r);
    case InitVersion(r) =>
      NxLeaves(s, PhaseOf(s, r).start);
      PhaseLeaves(SetNx(s, PhaseOf(s, r).start), r, NeedsVersion);
    case JoinOrLead(r) => FlightLeaves(s, r);
    case LoadFails(r) => EndLoadLeaves(s, r, Broken, None);
    case Publish(r) =>
      EndLoadLeaves(s, r, Storing(PhaseOf(s, r).version, PhaseOf(s, r).seen, PhaseOf(s, r).payload), Some(PhaseOf(s, r).payload));
    case _ => OnlyPhase(s, e);
  }

  /** These steps change the phase of their reader, and what is stored or answered. */
  lemma OnlyPhase(s: State, e: Event)
    requires Enabled(s, e) && (e.ReadClock? || e.GetVersion? || e.Load? || e.Store? || e.StoreFails? || e.TakeShared?)
    ensures e.reader in Apply(s, e).readers
    ensures WritesSame(s, Apply(s, e)) && Apply(s, e).inflight == s.inflight && Apply(s, e).futures == s.futures
    ensures !e.Store? ==> Apply(s, e).entries == s.entries
  {
  }

  /** Only a store changes an entry; a loss takes one away. */
  lemma EntriesStay(s: State, e: Event)
    requires Enabled(s, e) && !e.Store?
    ensures Apply(s, e).entries == if e.LoseEntry? then s.entries - {e.key} else s.entries
  {
    hide SetPhase, ReadEntry, Lead, Join, EndLoad, SetNx;
    match e
    case SetInitial(w) => NxLeaves(s.(pipelines := s.pipelines[w := s.pipelines[w].(sent := true)]), s.pipelines[w].start);
    case ReadBoth(r) => ReadEntryLeaves(s, r);
    case InitVersion(r) =>
      NxLeaves(s, PhaseOf(s, r).start);
      PhaseLeaves(SetNx(s, PhaseOf(s, r).start), r, NeedsVersion);
    case JoinOrLead(r) => FlightLeaves(s, r);
    case LoadFails(r) => EndLoadLeaves(s, r, Broken, None);
    case Publish(r) =>
      EndLoadLeaves(s, r, Storing(PhaseOf(s, r).version, PhaseOf(s, r).seen, PhaseOf(s, r).payload), Some(PhaseOf(s, r).payload));
    case ReadClock(_) => OnlyPhase(s, e);
    case GetVersion(_) => OnlyPhase(s, e);
    case Load(_) => OnlyPhase(s, e);
    case StoreFails(_) => OnlyPhase(s, e);
    case TakeShared(_) => OnlyPhase(s, e);
    case _ =>
  }

  /** Writers and losses do nothing to readers, loads and answers. */
  lemma WritersLeaveReads(s: State, e: Event)
    requires Enabled(s, e) && !OfReader(e)
    ensures ReadsSame(s, Apply(s, e))
  {
    hide SetNx;
    if e.SetInitial? {
      var t := s.(pipelines := s.pipelines[e.replay := s.pipelines[e.replay].(sent := true)]);
      NxLeaves(t, s.pipelines[e.replay].start);
    }
  }

  // ------------------------------------------------------------ runs

  predicate IsRun(es: seq<Event>)
    decreases |es|, 0
  {
    es == [] || (IsRun(es[..|es| - 1]) && Enabled(After(es[..|es| - 1]), es[|es| - 1]))
  }

  function After(es: seq<Event>): State
    requires IsRun(es)
    decreases |es|, 1
  {
    if es == [] then Start else Apply(After(es[..|es| - 1]), es[|es| - 1])
  }

  /** Every version that becomes current exceeds all earlier ones. */
  ghost predicate Advancing(es: seq<Event>)
    requires IsRun(es)
  {
    es == [] || (Advancing(es[..|es| - 1]) && Advances(After(es[..|es| - 1]), es[|es| - 1]))
  }

  lemma {:induction false} RunsKeep(es: seq<Event>)
    requires IsRun(es) && Advancing(es)
    ensures Inv(After(es))
  {
    if es != [] {
      hide Inv, Apply, Enabled;
      RunsKeep(es[..|es| - 1]);
      StepKeeps(After(es[..|es| - 1]), es[|es| - 1]);
    } else {
      hide Apply, Enabled;
    }
  }

  /**
   No stale answer: whatever is served, from the cache, from another request's load or from an own load, was loaded after the commit
   of every write that had been invalidated when its reader read the version, and is the answer to the question asked.
   */
  lemma NoStaleAnswer(es: seq<Event>, i: nat)
    requires IsRun(es) && Advancing(es) && i < |After(es).served|
    ensures var a := After(es).served[i]; a.payload.key == a.key && forall c :: c in a.seen ==> c <= a.payload.commits
  {
    hide Apply, Enabled;
    RunsKeep(es);
  }

  // ------------------------------------------------------------ when versions advance

  /**
   KeyKept: INCR never finds its key gone.  BelowClock: INCR never takes the counter past the clock.  Timely: a SET NX that takes effect
   carries a clock value read after the last version became current.
   */
  datatype Condition = KeyKept | BelowClock | Timely

  predicate Meets(c: Condition, s: State, e: Event) {
    match c
    case KeyKept => e.Increment? ==> s.version.Some?
    case BelowClock => e.Increment? && s.version.Some? ==> s.version.value < s.clock
    case Timely => !e.Increment? && Issued(s, e).Some? ==> s.lastIssue < Issued(s, e).value
  }

  ghost predicate AllMeet(c: Condition, es: seq<Event>)
    requires IsRun(es)
  {
    es == [] || (AllMeet(c, es[..|es| - 1]) && Meets(c, After(es[..|es| - 1]), es[|es| - 1]))
  }

  ghost predicate Paced(es: seq<Event>)
    requires IsRun(es)
  {
    forall c :: AllMeet(c, es)
  }

  /** No version has overtaken the clock of the last time one was issued, and clock values on their way were read in the past. */
  ghost predicate BehindClock(s: State) {
    && s.lastIssue <= s.clock
    && (forall v :: v in s.invalidatedAt ==> v <= s.lastIssue)
    && (s.version.Some? ==> s.version.value in s.invalidatedAt && forall v :: v in s.invalidatedAt ==> v <= s.version.value)
    && StartsIn(s, s.clock)
  }

  lemma PacedIssue(s: State, v: nat)
    requires BehindClock(s) && v <= s.clock && forall u :: u in s.invalidatedAt ==> u < v
    ensures BehindClock(Issue(s, v))
  {
  }

  /** What a step that makes no version current leaves of the versions. */
  predicate VersionsKept(s: State, s': State) {
    && s'.lastIssue == s.lastIssue && s.clock <= s'.clock && s'.invalidatedAt == s.invalidatedAt
    && (s'.version == s.version || s'.version.None?)
  }

  /** Only this reader has moved, and any clock value it carries was read by now. */
  predicate ReaderMoved(s: State, s': State, r: nat) {
    && r in s'.readers && s'.readers == s.readers[r := s'.readers[r]] && s'.pipelines == s.pipelines
    && (PhaseOf(s', r).NeedsInit? ==> PhaseOf(s', r).start <= s.clock)
  }

  predicate StartsIn(s: State, clock: nat) {
    && (forall w :: w in s.pipelines ==> s.pipelines[w].start <= clock)
    && (forall r :: r in s.readers && PhaseOf(s, r).NeedsInit? ==> PhaseOf(s, r).start <= clock)
  }

  lemma StartsKept(s: State, s': State, r: nat)
    requires StartsIn(s, s.clock) && ReaderMoved(s, s', r)
    ensures StartsIn(s', s.clock)
  {
  }

  lemma PhaseIssuesNothing(s: State, r: nat, phase: Phase)
    requires r in s.readers && (phase.NeedsInit? ==> phase.start <= s.clock)
    ensures VersionsKept(s, SetPhase(s, r, phase)) && ReaderMoved(s, SetPhase(s, r, phase), r)
  {
  }

  lemma AnswerMoves(s: State, s': State, r: nat, served: seq<Served>)
    requires VersionsKept(s, s') && ReaderMoved(s, s', r)
    ensures VersionsKept(s, s'.(served := served)) && ReaderMoved(s, s'.(served := served), r)
  {
  }

  lemma ReadEntryIssuesNothing(s: State, r: nat)
    requires r in s.readers
    ensures VersionsKept(s, ReadEntry(s, r)) && ReaderMoved(s, ReadEntry(s, r), r)
  {
    hide SetPhase, VersionsKept, ReaderMoved;
    PhaseIssuesNothing(s, r, NeedsClock);
    PhaseIssuesNothing(s, r, Answered);
    if s.version.Some? {
      var k := s.readers[r].key;
      PhaseIssuesNothing(s, r, Got(s.version.value, s.invalidated));
      if Matches(s, k) {
        AnswerMoves(s, SetPhase(s, r, Answered), r,
                    SetPhase(s, r, Answered).served + [Served(r, k, s.entries[k].payload, s.invalidated, Hit)]);
        assert SetPhase(s, r, Answered).served == s.served by { PhaseKeepsAnswers(s, r, Answered); }
      }
    }
  }

  lemma PhaseKeepsAnswers(s: State, r: nat, phase: Phase)
    requires r in s.readers
    ensures SetPhase(s, r, phase).served == s.served
  {
  }

  lemma EndLoadIssuesNothing(s: State, r: nat, phase: Phase, result: Option<Payload>)
    requires r in s.readers && (PhaseOf(s, r).Leading? || PhaseOf(s, r).Loaded?) && !phase.NeedsInit?
    ensures VersionsKept(s, EndLoad(s, r, phase, result)) && ReaderMoved(s, EndLoad(s, r, phase, result), r)
  {
  }

  lemma FlightIssuesNothing(s: State, r: nat)
    requires r in s.readers && PhaseOf(s, r).Got?
    ensures VersionsKept(s, Lead(s, r)) && ReaderMoved(s, Lead(s, r), r)
    ensures FlightOf(s, r) in s.inflight ==> VersionsKept(s, Join(s, r)) && ReaderMoved(s, Join(s, r), r)
  {
  }

  lemma LoadIssuesNothing(s: State, e: Event)
    requires Enabled(s, e) && (e.JoinOrLead? || e.Load? || e.LoadFails? || e.Publish?)
    ensures VersionsKept(s, Apply(s, e)) && ReaderMoved(s, Apply(s, e), e.reader)
  {
    if e.JoinOrLead? {
      FlightIssuesNothing(s, e.reader);
      hide VersionsKept, ReaderMoved;
    } else if e.Load? {
    } else if e.LoadFails? {
      EndLoadIssuesNothing(s, e.reader, Broken, None);
    } else {
      var done := PhaseOf(s, e.reader);
      EndLoadIssuesNothing(s, e.reader, Storing(done.version, done.seen, done.payload), Some(done.payload));
    }
    hide EndLoad, Lead, Join;
  }

  lemma AnswerIssuesNothing(s: State, e: Event)
    requires Enabled(s, e) && (e.Store? || e.StoreFails? || e.TakeShared?)
    ensures VersionsKept(s, Apply(s, e)) && ReaderMoved(s, Apply(s, e), e.reader)
  {
  }

  lemma ReadIssuesNothing(s: State, e: Event)
    requires Enabled(s, e) && (e.Ask? || e.ReadBoth? || e.ReadClock? || e.GetVersion?)
    ensures VersionsKept(s, Apply(s, e)) && ReaderMoved(s, Apply(s, e), e.reader)
  {
    if e.ReadBoth? {
      ReadEntryIssuesNothing(s, e.reader);
    }
    hide ReadEntry;
  }

  lemma SetNxIssuesNothing(s: State, e: Event)
    requires Enabled(s, e) && Issued(s, e).None? && StartsIn(s, s.clock) && (e.SetInitial? || e.InitVersion? || e.StartReplay?)
    ensures VersionsKept(s, Apply(s, e)) && StartsIn(Apply(s, e), s.clock)
  {
  }

  lemma NoVersionIssued(s: State, e: Event)
    requires Enabled(s, e) && Issued(s, e).None? && StartsIn(s, s.clock)
    ensures VersionsKept(s, Apply(s, e)) && StartsIn(Apply(s, e), s.clock)
  {
    if e.JoinOrLead? || e.Load? || e.LoadFails? || e.Publish? {
      LoadIssuesNothing(s, e);
      StartsKept(s, Apply(s, e), e.reader);
    } else if e.Store? || e.StoreFails? || e.TakeShared? {
      AnswerIssuesNothing(s, e);
      StartsKept(s, Apply(s, e), e.reader);
    } else if e.Ask? || e.ReadBoth? || e.ReadClock? || e.GetVersion? {
      ReadIssuesNothing(s, e);
      StartsKept(s, Apply(s, e), e.reader);
    } else if e.SetInitial? || e.InitVersion? || e.StartReplay? {
      SetNxIssuesNothing(s, e);
    }
    hide EndLoad, Join, Lead, ReadEntry, Covers, SetPhase, SetNx, ReaderMoved, Incr;
  }

  lemma KeptBehind(s: State, s': State)
    requires BehindClock(s) && VersionsKept(s, s') && StartsIn(s', s.clock)
    ensures BehindClock(s')
  {
  }

  lemma PacedWithoutIssue(s: State, e: Event)
    requires BehindClock(s) && Enabled(s, e) && Issued(s, e).None?
    ensures BehindClock(Apply(s, e))
  {
    NoVersionIssued(s, e);
    hide Apply, Issued, Enabled, StartsIn, VersionsKept;
    KeptBehind(s, Apply(s, e));
  }

  lemma IssuedLater(s: State, e: Event)
    requires BehindClock(s) && Enabled(s, e) && (forall c :: Meets(c, s, e)) && Issued(s, e).Some?
    ensures Issued(s, e).value <= s.clock && Advances(s, e)
  {
    assert Meets(KeyKept, s, e) && Meets(BelowClock, s, e) && Meets(Timely, s, e);
  }

  /** The state a step issues its version in. */
  lemma IssuingState(s: State, e: Event) returns (t: State)
    requires BehindClock(s) && Enabled(s, e) && Issued(s, e).Some?
    ensures BehindClock(t) && t.clock == s.clock && t.invalidatedAt == s.invalidatedAt
    ensures Apply(s, e) == Issue(t, Issued(s, e).value)
  {
    if e.Increment? {
      var p := s.pipelines[e.replay].process;
      t := s.(pipelines := s.pipelines - {e.replay});
      t := t.(invalidated := s.invalidated + MissedBy(s, p), missed := s.missed[p := {}]);
    } else if e.SetInitial? {
      t := s.(pipelines := s.pipelines[e.replay := s.pipelines[e.replay].(sent := true)]);
    } else {
      t := SetPhase(s, e.reader, NeedsVersion);
    }
  }

  lemma PacedStep(s: State, e: Event)
    requires BehindClock(s) && Enabled(s, e) && forall c :: Meets(c, s, e)
    ensures Advances(s, e) && BehindClock(Apply(s, e))
  {
    if Issued(s, e).None? {
      PacedWithoutIssue(s, e);
    } else {
      IssuedLater(s, e);
      var t := IssuingState(s, e);
      PacedIssue(t, Issued(s, e).value);
    }
    hide Apply, BehindClock, Meets, Issue;
  }

  /** The clock-based start stays ahead of every earlier version in every run that meets the three conditions. */
  lemma {:induction false} PacedRunsAdvance(es: seq<Event>)
    requires IsRun(es) && Paced(es)
    ensures Advancing(es) && BehindClock(After(es))
  {
    if es != [] {
      hide Apply, Enabled, Meets, BehindClock, Advances;
      var front, last := es[..|es| - 1], es[|es| - 1];
      forall c
        ensures AllMeet(c, front) && Meets(c, After(front), last)
      {
        assert AllMeet(c, es);
      }
      PacedRunsAdvance(front);
      PacedStep(After(front), last);
    } else {
      hide Apply, Enabled;
    }
  }

  // ------------------------------------------------------------ each condition is needed

  lemma Extend(es: seq<Event>, e: Event) returns (es': seq<Event>)
    requires IsRun(es) && Enabled(After(es), e)
    ensures IsRun(es') && After(es') == Apply(After(es), e)
    ensures forall c :: AllMeet(c, es') <==> AllMeet(c, es) && Meets(c, After(es), e)
  {
    hide Apply, Enabled, Meets;
    es' := es + [e];
    assert es'[..|es'| - 1] == es;
  }

  /** What a run has done to the versions and the writes, with everything else as it was. */
  ghost predicate Wrote(s: State, s': State, version: nat, clock: nat) {
    && s'.version == Some(version) && s'.clock == clock && s'.lastIssue == clock
    && s'.commits == s.commits + 1 && s'.invalidated == s.invalidated + MissedBy(s, 0) + {s.commits + 1} && MissedBy(s', 0) == {}
    && s'.entries == s.entries && s'.readers == s.readers && s'.inflight == s.inflight && s'.served == s.served
    && s'.pipelines.Keys == s.pipelines.Keys
  }

  /** The commit and the SET NX of a writer of process 0. */
  function Begun(s: State, w: nat): State {
    SetNx(s.(commits := s.commits + 1, missed := s.missed[0 := MissedBy(s, 0) + {s.commits + 1}],
             pipelines := s.pipelines[w := Pipeline(0, s.clock, true)]), s.clock)
  }

  /** Steps other than SET NX and INCR meet every condition: they issue no version. */
  lemma QuietStep(es: seq<Event>, e: Event) returns (es': seq<Event>)
    requires IsRun(es) && Enabled(After(es), e) && !e.Increment? && !e.SetInitial? && !e.InitVersion?
    ensures IsRun(es') && After(es') == Apply(After(es), e) && forall c :: AllMeet(c, es') <==> AllMeet(c, es)
  {
    hide Apply, Enabled, AllMeet;
    es' := Extend(es, e);
  }

  /** A writer commits and sends its SET NX. */
  lemma BeginWrite(es: seq<Event>, w: nat) returns (es': seq<Event>)
    requires IsRun(es) && w !in After(es).pipelines
    ensures IsRun(es')
    ensures After(es') == Begun(After(es), w)
    ensures forall c :: AllMeet(c, es') <==> AllMeet(c, es) && (c == Timely && After(es).version.None? ==> After(es).lastIssue < After(es).clock)
  {
    hide IsRun, After, AllMeet, Issue;
    es' := QuietStep(es, Commit(0));
    es' := QuietStep(es', StartReplay(w, 0));
    var t := After(es');
    assert t.pipelines[w := Pipeline(0, t.clock, true)] == After(es).pipelines[w := Pipeline(0, t.clock, true)];
    es' := Extend(es', SetInitial(w));
  }

  /** A whole write while the version key exists. */
  lemma WriteOn(es: seq<Event>, w: nat) returns (es': seq<Event>)
    requires IsRun(es) && w !in After(es).pipelines && After(es).version.Some?
    ensures IsRun(es')
    ensures var s := After(es); Wrote(s, After(es'), s.version.value + 1, s.clock)
    ensures forall c :: AllMeet(c, es') <==> AllMeet(c, es) && (c == BelowClock ==> After(es).version.value < After(es).clock)
  {
    hide IsRun, After;
    es' := BeginWrite(es, w);
    es' := Extend(es', Increment(w));
    assert After(es').pipelines.Keys == After(es).pipelines.Keys;
  }

  /** A whole write that starts the version from the clock and increments it a microsecond later. */
  lemma WriteAfresh(es: seq<Event>, w: nat) returns (es': seq<Event>)
    requires IsRun(es) && w !in After(es).pipelines && After(es).version.None? && After(es).lastIssue < After(es).clock
    ensures IsRun(es')
    ensures var s := After(es); Wrote(s, After(es'), s.clock + 1, s.clock + 1)
    ensures forall c :: AllMeet(c, es') <==> AllMeet(c, es)
  {
    hide IsRun, After;
    es' := BeginWrite(es, w);
    es' := Extend(es', Tick);
    es' := Extend(es', Increment(w));
    assert After(es').pipelines.Keys == After(es).pipelines.Keys;
  }

  /** The version key is lost, and the INCR on its way restarts it at 1. */
  lemma LoseAndIncrement(es: seq<Event>, w: nat) returns (es': seq<Event>)
    requires IsRun(es) && w in After(es).pipelines && After(es).pipelines[w].sent && After(es).pipelines[w].process == 0
    ensures IsRun(es')
    ensures var s := After(es); After(es') == Incr(s.(version := None, pipelines := s.pipelines - {w}), 0)
    ensures !AllMeet(KeyKept, es') && forall c :: c != KeyKept ==> (AllMeet(c, es') <==> AllMeet(c, es))
  {
    hide IsRun, After, AllMeet;
    es' := Extend(es, LoseVersion);
    es' := Extend(es', Increment(w));
  }

  lemma BegunFields(s: State, w: nat)
    ensures var t := Begun(s, w);
      && MissedBy(t, 0) == MissedBy(s, 0) + {s.commits + 1} && t.commits == s.commits + 1 && t.invalidated == s.invalidated
      && t.entries == s.entries && t.readers == s.readers && t.inflight == s.inflight && t.served == s.served
      && t.pipelines == s.pipelines[w := Pipeline(0, s.clock, true)]
  {
  }

  lemma IncrFields(s: State)
    ensures var t := Incr(s, 0);
      && t.version == Some(NextVersion(s)) && t.clock == s.clock == t.lastIssue && t.commits == s.commits
      && t.invalidated == s.invalidated + MissedBy(s, 0) && MissedBy(t, 0) == {}
      && t.entries == s.entries && t.readers == s.readers && t.inflight == s.inflight && t.served == s.served
      && t.pipelines == s.pipelines
  {
  }

  lemma LosingWrites(s: State, w: nat)
    requires w !in s.pipelines
    ensures var t := Begun(s, w);
      Wrote(s, Incr(t.(clock := s.clock + 1, version := None, pipelines := t.pipelines - {w}), 0), 1, s.clock + 1)
  {
    hide Begun, Incr;
    var t := Begun(s, w);
    BegunFields(s, w);
    assert (t.pipelines - {w}).Keys == s.pipelines.Keys;
    IncrFields(t.(clock := s.clock + 1, version := None, pipelines := t.pipelines - {w}));
  }

  /** A whole write that loses the version key between SET NX and INCR. */
  lemma WriteLosingKey(es: seq<Event>, w: nat) returns (es': seq<Event>)
    requires IsRun(es) && w !in After(es).pipelines && After(es).lastIssue < After(es).clock
    ensures IsRun(es')
    ensures var s := After(es); Wrote(s, After(es'), 1, s.clock + 1)
    ensures !AllMeet(KeyKept, es') && forall c :: c != KeyKept ==> (AllMeet(c, es') <==> AllMeet(c, es))
  {
    hide IsRun, After, AllMeet, Incr, Wrote, Meets;
    es' := BeginWrite(es, w);
    assert After(es') == Begun(After(es), w) && w in After(es').pipelines && After(es').pipelines[w] == Pipeline(0, After(es).clock, true);
    es' := QuietStep(es', Tick);
    es' := LoseAndIncrement(es', w);
    LosingWrites(After(es), w);
    hide Begun, SetNx;
  }

  lemma ReadMiss(es: seq<Event>, r: nat, k: Key) returns (es': seq<Event>)
    requires IsRun(es)
    requires var s := After(es); s.version.Some? && r !in s.readers && k !in s.entries
    ensures IsRun(es') && forall c :: AllMeet(c, es') <==> AllMeet(c, es)
    ensures var s := After(es);
      After(es') == s.(readers := s.readers[r := Reader(0, k, Got(s.version.value, s.invalidated))])
  {
    hide IsRun, After, AllMeet;
    es' := QuietStep(es, Ask(r, 0, k));
    es' := QuietStep(es', ReadBoth(r));
  }

  lemma ReadAndLoad(es: seq<Event>, r: nat, k: Key) returns (es': seq<Event>)
    requires IsRun(es)
    requires var s := After(es); s.version.Some? && r !in s.readers && k !in s.entries && s.inflight == map[]
    ensures IsRun(es') && forall c :: AllMeet(c, es') <==> AllMeet(c, es)
    ensures var s, s' := After(es), After(es'); s' == s.(
      readers := s.readers[r := Reader(0, k, Loaded(s.version.value, s.invalidated, Payload(k, s.commits)))],
      inflight := map[Flight(0, k, s.version.value) := r], futures := s.futures[r := Future(Flight(0, k, s.version.value), false, None)])
  {
    hide IsRun, After, AllMeet;
    es' := ReadMiss(es, r, k);
    es' := QuietStep(es', JoinOrLead(r));
    es' := QuietStep(es', Load(r));
  }

  /** What one reader's load and store leave, besides the answer. */
  ghost predicate Stored(s: State, s': State, r: nat, k: Key) {
    && s'.version == s.version && s'.clock == s.clock && s'.lastIssue == s.lastIssue
    && s'.commits == s.commits && s'.invalidated == s.invalidated && s'.missed == s.missed && s'.pipelines == s.pipelines
    && s.version.Some? && k in s'.entries && s'.entries[k] == Entry(s.version.value, Payload(k, s.commits))
    && s'.readers.Keys == s.readers.Keys + {r} && (forall q :: q in s.readers && q != r ==> s'.readers[q] == s.readers[q])
    && |s'.served| == |s.served| + 1
  }

  lemma LoadedStores(es: seq<Event>, r: nat) returns (es': seq<Event>)
    requires IsRun(es) && r in After(es).readers && PhaseOf(After(es), r).Loaded?
    ensures IsRun(es') && forall c :: AllMeet(c, es') <==> AllMeet(c, es)
    ensures var s, done := After(es), PhaseOf(After(es), r);
      var k := s.readers[r].key;
      After(es') == s.(
        readers := s.readers[r := s.readers[r].(phase := Answered)], entries := s.entries[k := Entry(done.version, done.payload)],
        futures := s.futures[r := Future(LedFlight(s, r), true, Some(done.payload))], inflight := s.inflight - {LedFlight(s, r)},
        served := s.served + [Served(r, k, done.payload, done.seen, OwnLoad)])
  {
    hide IsRun, After, AllMeet;
    es' := QuietStep(es, Publish(r));
    es' := QuietStep(es', Store(r));
  }

  /** A reader that finds no entry loads and stores one. */
  lemma ReadAndStore(es: seq<Event>, r: nat, k: Key) returns (es': seq<Event>)
    requires IsRun(es)
    requires var s := After(es); s.version.Some? && r !in s.readers && k !in s.entries && s.inflight == map[]
    ensures IsRun(es') && forall c :: AllMeet(c, es') <==> AllMeet(c, es)
    ensures Stored(After(es), After(es'), r, k)
  {
    hide IsRun, After, AllMeet;
    es' := ReadAndLoad(es, r, k);
    es' := LoadedStores(es', r);
  }

  lemma ReadHit(es: seq<Event>, r: nat, k: Key) returns (es': seq<Event>)
    requires IsRun(es) && r !in After(es).readers && Matches(After(es), k)
    ensures IsRun(es') && forall c :: AllMeet(c, es') <==> AllMeet(c, es)
    ensures After(es').served == After(es).served + [Served(r, k, After(es).entries[k].payload, After(es).invalidated, Hit)]
  {
    hide IsRun, After, AllMeet;
    es' := QuietStep(es, Ask(r, 0, k));
    es' := QuietStep(es', ReadBoth(r));
  }

  /** The second answer is a hit loaded before a write that had been invalidated when its reader read the version. */
  ghost predicate ServesStale(es: seq<Event>) {
    IsRun(es) && |After(es).served| == 2 && var a := After(es).served[1]; a.source == Hit && a.payload.commits + 1 in a.seen
  }

  ghost predicate OnlyBreaks(c: Condition, es: seq<Event>)
    requires IsRun(es)
  {
    !AllMeet(c, es) && forall d :: d != c ==> AllMeet(d, es)
  }

  lemma EmptyRun()
    ensures IsRun([]) && After([]) == Start && Paced([])
  {
  }

  /** One tick from the start. */
  lemma FirstTick() returns (es: seq<Event>)
    ensures IsRun(es) && After(es) == Start.(clock := 1) && Paced(es)
  {
    hide IsRun, After, AllMeet;
    EmptyRun();
    es := QuietStep([], Tick);
  }

  /** Twice a writer loses the key between its SET NX and its INCR, so version 1 is issued twice. */
  lemma LostKeyServesStale() returns (es: seq<Event>)
    ensures ServesStale(es) && OnlyBreaks(KeyKept, es)
  {
    hide IsRun, After, AllMeet;
    es := FirstTick();
    es := WriteLosingKey(es, 0);
    es := ReadAndStore(es, 1, 7);
    es := QuietStep(es, Tick);
    es := WriteLosingKey(es, 0);
    es := ReadHit(es, 2, 7);
  }

  /** Three writes within a microsecond take the counter past the clock; after a loss the clock leads to the same version again. */
  lemma FastWritesServeStale() returns (es: seq<Event>)
    ensures ServesStale(es) && OnlyBreaks(BelowClock, es)
  {
    hide IsRun, After, AllMeet;
    es := FirstTick();
    es := WriteAfresh(es, 0);
    es := WriteOn(es, 0);
    es := WriteOn(es, 0);
    es := ReadAndStore(es, 1, 7);
    es := QuietStep(es, LoseVersion);
    es := QuietStep(es, Tick);
    es := WriteAfresh(es, 0);
    es := ReadHit(es, 2, 7);
  }

  /** A reader finds no version, reads the clock, and is slow to send its SET NX. */
  lemma SlowReader(es: seq<Event>, r: nat, k: Key) returns (es': seq<Event>)
    requires IsRun(es) && r !in After(es).readers && After(es).version.None?
    ensures IsRun(es') && forall c :: AllMeet(c, es') <==> AllMeet(c, es)
    ensures var s := After(es); After(es') == s.(readers := s.readers[r := Reader(0, k, NeedsInit(s.clock))])
  {
    hide IsRun, After, AllMeet;
    es' := QuietStep(es, Ask(r, 0, k));
    es' := QuietStep(es', ReadBoth(r));
    es' := QuietStep(es', ReadClock(r));
  }

  /** After a loss, a SET NX that was put together long before takes effect. */
  lemma LateStart(es: seq<Event>, r: nat) returns (es': seq<Event>)
    requires IsRun(es) && r in After(es).readers && PhaseOf(After(es), r).NeedsInit? && PhaseOf(After(es), r).start <= After(es).lastIssue
    ensures IsRun(es') && !AllMeet(Timely, es') && forall c :: c != Timely ==> (AllMeet(c, es') <==> AllMeet(c, es))
    ensures var s := After(es);
      After(es') == SetPhase(Issue(s.(version := None), PhaseOf(s, r).start), r, NeedsVersion)
  {
    hide IsRun, After, AllMeet;
    es' := QuietStep(es, LoseVersion);
    es' := Extend(es', InitVersion(r));
  }

  /** A reader's SET NX that was put together before everything else takes effect after the key was lost. */
  lemma LateStartServesStale() returns (es: seq<Event>)
    ensures ServesStale(es) && OnlyBreaks(Timely, es)
  {
    hide IsRun, After, AllMeet;
    es := FirstTick();
    es := SlowReader(es, 0, 9);
    es := QuietStep(es, Tick);
    es := WriteAfresh(es, 0);
    es := ReadAndStore(es, 1, 7);
    es := LateStart(es, 0);
    es := WriteOn(es, 0);
    es := WriteOn(es, 0);
    es := ReadHit(es, 2, 7);
  }

  /** No run that meets these conditions serves a stale answer. */
  ghost predicate KeepsFresh(cs: set<Condition>) {
    forall es :: IsRun(es) && (forall c :: c in cs ==> AllMeet(c, es)) ==> NothingStale(After(es))
  }

  lemma PacedIsFresh(es: seq<Event>)
    requires IsRun(es) && Paced(es)
    ensures NothingStale(After(es))
  {
    hide Apply, Enabled, AllMeet, Advances;
    PacedRunsAdvance(es);
    RunsKeep(es);
  }

  /** A run that breaks this condition only, and serves a stale answer. */
  lemma BreakingServesStale(c: Condition) returns (es: seq<Event>)
    ensures ServesStale(es) && OnlyBreaks(c, es) && !NothingStale(After(es))
  {
    hide IsRun, After, AllMeet;
    match c {
      case KeyKept => es := LostKeyServesStale();
      case BelowClock => es := FastWritesServeStale();
      case Timely => es := LateStartServesStale();
    }
    assert !Covers(After(es).served[1].payload, After(es).served[1].seen);
  }

  /** Meeting a set of these conditions rules stale answers out exactly when it is all three. */
  lemma ConditionsExactly(cs: set<Condition>)
    ensures KeepsFresh(cs) <==> forall c :: c in cs
  {
    hide IsRun, After, AllMeet, NothingStale;
    if forall c :: c in cs {
      forall es | IsRun(es) && forall c :: c in cs ==> AllMeet(c, es)
        ensures NothingStale(After(es))
      {
        PacedIsFresh(es);
      }
    } else {
      var c :| c !in cs;
      var es := BreakingServesStale(c);
      assert forall d :: d in cs ==> AllMeet(d, es);
    }
  }
}
