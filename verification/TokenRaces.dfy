/**
 Refresh requests that overlap.

 A refresh locks the row of the presented token, decides, and commits later; what it writes is visible to nobody before that.  A revocation
 of many tokens takes those that are unrevoked and committed when its statement starts, waits for their rows, and revokes them when it
 commits; tokens that others commit in the meantime are not among them.  A logout reads its token without locking it and revokes it later,
 if it was unrevoked when it was read.
 */
module TokenRaces {
  import opened Options
  import opened Sets
  import opened TokenFamilies

  /** What an open transaction has done so far: `own` are the rows it holds besides its targets. */
  datatype Work =
    | Looking(jti: nat)
    | Exchanging(jti: nat, replay: bool, now: int, minted: Minted)
    | Revoking(own: set<nat>, targets: set<nat>)

  /** The committed tokens with their history, and the open transactions. */
  datatype Scene = Scene(state: State, open: map<nat, Work>)

  datatype Act =
    | SignIn(user: nat, family: nat, minted: Minted)
    | Look(tx: nat, presented: Presented)
    | Decide(tx: nat, now: int, userActive: bool, minted: Minted)
    | StartRevokeAll(tx: nat, user: nat)
    | StartSignOut(tx: nat, presented: Presented)
    | Finish(tx: nat)
    | Fail(tx: nat)

  function Locks(w: Work): set<nat> {
    match w
    case Looking(j) => {j}
    case Exchanging(j, _, _, _) => {j}
    case Revoking(own, _) => own
  }

  predicate LockedBy(x: Scene, t: nat, j: nat) {
    t in x.open && j in Locks(x.open[t])
  }

  /** No transaction but t holds row j. */
  ghost predicate FreeFor(x: Scene, j: nat, t: nat) {
    forall u :: u != t ==> !LockedBy(x, u, j)
  }

  predicate Mints(x: Scene, t: nat, jti: nat) {
    t in x.open && x.open[t].Exchanging? && x.open[t].minted.jti == jti
  }

  /** Minted ids are new, among the committed tokens and those on their way. */
  ghost predicate NewId(x: Scene, jti: nat) {
    jti !in x.state.tokens && forall t :: !Mints(x, t, jti)
  }

  ghost predicate Possible(x: Scene, a: Act) {
    match a
    case SignIn(_, family, m) => NewId(x, m.jti) && family !in x.state.families
    case Look(t, p) => t !in x.open && Stored(x.state.tokens, p).Some? && FreeFor(x, Stored(x.state.tokens, p).value, t)
    case Decide(t, _, _, m) => t in x.open && x.open[t].Looking? && NewId(x, m.jti)
    case StartRevokeAll(t, _) => t !in x.open
    case StartSignOut(t, _) => t !in x.open
    case Finish(t) =>
      && t in x.open
      && (x.open[t].Exchanging? || (x.open[t].Revoking? && forall j :: j in x.open[t].targets ==> FreeFor(x, j, t)))
    case Fail(t) => t in x.open
  }

  function RevokeAll(tokens: Tokens, targets: set<nat>): (r: Tokens)
    ensures r.Keys == tokens.Keys
  {
    map j | j in tokens :: if j in targets then tokens[j].(revoked := true) else tokens[j]
  }

  function ActiveOf(tokens: Tokens, user: nat): set<nat> {
    set j | j in tokens && tokens[j].user == user && !tokens[j].revoked
  }

  /** What a logout means to revoke: the presented token, if it is unrevoked when it is read. */
  function ToSignOut(tokens: Tokens, p: Presented): set<nat> {
    if p.Decoded? && p.jti.Some? && p.jti.value in tokens && !tokens[p.jti.value].revoked then {p.jti.value} else {}
  }

  function Close(x: Scene, t: nat, state: State): Scene {
    Scene(state, x.open - {t})
  }

  /** What the locked row and the family come to when the request decides. */
  function Decided(c: Config, x: Scene, t: nat, now: int, userActive: bool, m: Minted): Scene
    requires t in x.open && x.open[t].Looking? && x.open[t].jti in x.state.tokens
  {
    var j := x.open[t].jti;
    match Judge(c, x.state.tokens, Decoded(true, Some(j)), now, userActive)
    case Refused => Close(x, t, x.state)
    case Reuse => x.(open := x.open[t := Revoking({j}, ActiveIn(x.state.tokens, x.state.tokens[j].family))])
    case Replays => x.(open := x.open[t := Exchanging(j, true, now, m)])
    case Rotates => x.(open := x.open[t := Exchanging(j, false, now, m)])
  }

  function Finished(x: Scene, t: nat): Scene
    requires t in x.open && (x.open[t].Exchanging? ==> x.open[t].jti in x.state.tokens)
  {
    match x.open[t]
    case Looking(_) => x
    case Exchanging(j, replay, now, m) => Close(x, t, if replay then Replayed(x.state, j, m) else Rotated(x.state, j, now, m))
    case Revoking(_, targets) => Close(x, t, x.state.(tokens := RevokeAll(x.state.tokens, targets)))
  }

  ghost function Perform(c: Config, x: Scene, a: Act): Scene
    requires Sound(c, x) && Possible(x, a)
  {
    match a
    case SignIn(user, family, m) => x.(state := LoggedInState(x.state, user, family, m))
    case Look(t, p) => x.(open := x.open[t := Looking(Stored(x.state.tokens, p).value)])
    case Decide(t, now, userActive, m) => assert WorkSound(c, x, t); Decided(c, x, t, now, userActive, m)
    case StartRevokeAll(t, user) => x.(open := x.open[t := Revoking({}, ActiveOf(x.state.tokens, user))])
    case StartSignOut(t, p) => x.(open := x.open[t := Revoking({}, ToSignOut(x.state.tokens, p))])
    case Finish(t) => assert WorkSound(c, x, t); Finished(x, t)
    case Fail(t) => Close(x, t, x.state)
  }

  // ------------------------------------------------------------ the invariant

  /** A decision stays good until its transaction ends, because nobody else changes the row it locked. */
  predicate WorkSound(c: Config, x: Scene, t: nat)
    requires t in x.open
  {
    var tokens := x.state.tokens;
    match x.open[t]
    case Looking(j) => j in tokens
    case Exchanging(j, replay, _, m) =>
      && j in tokens && m.jti !in tokens
      && (if replay then tokens[j].revoked && tokens[j].rotatedAt.Some? && tokens[j].graceReplays < c.maxReplays else !tokens[j].revoked)
    case Revoking(own, targets) => own <= tokens.Keys && targets <= tokens.Keys
  }

  ghost predicate WorksSound(c: Config, x: Scene) {
    forall t :: t in x.open ==> WorkSound(c, x, t)
  }

  ghost predicate LocksApart(x: Scene) {
    forall t, u, j :: t != u && LockedBy(x, t, j) ==> !LockedBy(x, u, j)
  }

  ghost predicate MintsApart(x: Scene) {
    forall t, u, j :: t != u && Mints(x, t, j) ==> !Mints(x, u, j)
  }

  ghost predicate Sound(c: Config, x: Scene) {
    Inv(c, x.state) && x.state.reused == {} && WorksSound(c, x) && LocksApart(x) && MintsApart(x)
  }

  // ------------------------------------------------------------ every step keeps it

  /** Ending a transaction, whatever it leaves committed, when the rows and ids of the others are untouched. */
  lemma CloseKeeps(c: Config, x: Scene, t: nat, state: State)
    requires Sound(c, x) && Inv(c, state) && state.reused == {}
    requires forall u :: u in x.open && u != t ==> WorkSound(c, Scene(state, x.open), u)
    ensures Sound(c, Close(x, t, state))
  {
    hide Inv, Locks;
    var y := Close(x, t, state);
    assert forall u, j :: LockedBy(y, u, j) ==> LockedBy(x, u, j);
    assert forall u, j :: Mints(y, u, j) ==> Mints(x, u, j);
    forall u | u in y.open
      ensures WorkSound(c, y, u)
    {
      assert WorkSound(c, Scene(state, x.open), u);
    }
  }

  /** A transaction goes on to other work on rows it may have. */
  lemma WorkKeeps(c: Config, x: Scene, t: nat, w: Work)
    requires Sound(c, x) && WorkSound(c, x.(open := x.open[t := w]), t)
    requires forall j :: j in Locks(w) ==> FreeFor(x, j, t)
    requires w.Exchanging? ==> NewId(x, w.minted.jti)
    ensures Sound(c, x.(open := x.open[t := w]))
  {
    hide Inv, Locks;
    var y := x.(open := x.open[t := w]);
    forall u | u in y.open
      ensures WorkSound(c, y, u)
    {
      if u != t {
        assert WorkSound(c, x, u);
      }
    }
    assert forall u, j :: u != t ==> (LockedBy(y, u, j) <==> LockedBy(x, u, j));
    assert forall u, j :: u != t ==> (Mints(y, u, j) <==> Mints(x, u, j));
    assert forall j :: LockedBy(y, t, j) ==> FreeFor(x, j, t);
  }

  /** The committed tokens change while no transaction moves. */
  lemma StateKeeps(c: Config, x: Scene, state: State)
    requires Sound(c, x) && Inv(c, state) && state.reused == {} && WorksSound(c, x.(state := state))
    ensures Sound(c, x.(state := state))
  {
    hide Inv, Locks, WorksSound;
    var y := x.(state := state);
    assert forall u, j :: LockedBy(y, u, j) <==> LockedBy(x, u, j);
    assert forall u, j :: Mints(y, u, j) <==> Mints(x, u, j);
  }

  lemma NewTokenKeeps(c: Config, x: Scene, state: State, jti: nat)
    requires WorksSound(c, x) && NewId(x, jti) && state.tokens.Keys == x.state.tokens.Keys + {jti}
    requires forall j :: j in x.state.tokens ==> state.tokens[j] == x.state.tokens[j]
    ensures WorksSound(c, x.(state := state))
  {
    forall u | u in x.open
      ensures WorkSound(c, x.(state := state), u)
    {
      assert WorkSound(c, x, u) && !Mints(x, u, jti);
    }
  }

  lemma LoggedInFields(s: State, user: nat, family: nat, m: Minted)
    requires m.jti !in s.tokens
    ensures var after := LoggedInState(s, user, family, m);
      && after.reused == s.reused && after.tokens.Keys == s.tokens.Keys + {m.jti}
      && forall j :: j in s.tokens ==> after.tokens[j] == s.tokens[j]
  {
  }

  lemma SignInKeeps(c: Config, x: Scene, user: nat, family: nat, m: Minted)
    requires Sound(c, x) && Possible(x, SignIn(user, family, m))
    ensures Sound(c, x.(state := LoggedInState(x.state, user, family, m)))
  {
    hide Inv, LocksApart, MintsApart, LoggedInState, WorksSound, NewId;
    NewIdIsNew(x, m.jti);
    LoggedInFields(x.state, user, family, m);
    LoginKeeps(c, x.state, user, family, m);
    NewTokenKeeps(c, x, LoggedInState(x.state, user, family, m), m.jti);
    StateKeeps(c, x, LoggedInState(x.state, user, family, m));
  }

  lemma NewIdIsNew(x: Scene, jti: nat)
    requires NewId(x, jti)
    ensures jti !in x.state.tokens
  {
  }

  lemma DecideKeeps(c: Config, x: Scene, t: nat, now: int, userActive: bool, m: Minted)
    requires Sound(c, x) && Possible(x, Decide(t, now, userActive, m))
    requires x.open[t].jti in x.state.tokens
    ensures Sound(c, Decided(c, x, t, now, userActive, m))
  {
    hide Inv, FamilyHasActive;
    var j := x.open[t].jti;
    var p := Decoded(true, Some(j));
    Judged(c, x.state.tokens, p, now, userActive);
    assert LockedBy(x, t, j) && FreeFor(x, j, t);
    match Judge(c, x.state.tokens, p, now, userActive)
    case Refused =>
      assert forall u :: u in x.open && u != t ==> WorkSound(c, x, u);
      CloseKeeps(c, x, t, x.state);
    case Reuse => WorkKeeps(c, x, t, Revoking({j}, ActiveIn(x.state.tokens, x.state.tokens[j].family)));
    case Replays => WorkKeeps(c, x, t, Exchanging(j, true, now, m));
    case Rotates => WorkKeeps(c, x, t, Exchanging(j, false, now, m));
  }

  /** An exchange touches one row and adds one: what the others rely on stays. */
  lemma OthersUntouched(c: Config, x: Scene, t: nat, state: State)
    requires Sound(c, x) && t in x.open && x.open[t].Exchanging?
    requires var w := x.open[t]; state.tokens.Keys == x.state.tokens.Keys + {w.minted.jti}
    requires forall j :: j in x.state.tokens && j != x.open[t].jti ==> state.tokens[j] == x.state.tokens[j]
    ensures forall u :: u in x.open && u != t ==> WorkSound(c, Scene(state, x.open), u)
  {
    hide Inv;
    forall u | u in x.open && u != t
      ensures WorkSound(c, Scene(state, x.open), u)
    {
      assert WorkSound(c, x, u) && LockedBy(x, t, x.open[t].jti) && Mints(x, t, x.open[t].minted.jti);
      assert !LockedBy(x, u, x.open[t].jti) && !Mints(x, u, x.open[t].minted.jti);
    }
  }

  lemma ExchangeTokens(s: State, j: nat, now: int, m: Minted)
    requires j in s.tokens && m.jti !in s.tokens
    ensures Rotated(s, j, now, m).tokens.Keys == s.tokens.Keys + {m.jti} == Replayed(s, j, m).tokens.Keys
    ensures forall i :: i in s.tokens && i != j ==> Rotated(s, j, now, m).tokens[i] == s.tokens[i] == Replayed(s, j, m).tokens[i]
    ensures Rotated(s, j, now, m).reused == s.reused == Replayed(s, j, m).reused
    ensures Replayed(s, j, m).tokens[m.jti] == Fresh(s.tokens[j].user, s.tokens[j].family, m)
  {
  }

  lemma ExchangeFinishes(c: Config, x: Scene, t: nat)
    requires Sound(c, x) && t in x.open && x.open[t].Exchanging?
    requires WorkSound(c, x, t)
    ensures Sound(c, Finished(x, t))
  {
    var w := x.open[t];
    ExchangeTokens(x.state, w.jti, w.now, w.minted);
    if w.replay {
      ReplayedKeeps(c, x.state, w.jti, w.minted);
      OthersUntouched(c, x, t, Replayed(x.state, w.jti, w.minted));
      CloseKeeps(c, x, t, Replayed(x.state, w.jti, w.minted));
    } else {
      RotateKeeps(c, x.state, w.jti, w.now, w.minted);
      RotatedIs(x.state, w.jti, w.now, w.minted);
      OthersUntouched(c, x, t, Rotated(x.state, w.jti, w.now, w.minted));
      CloseKeeps(c, x, t, Rotated(x.state, w.jti, w.now, w.minted));
    }
    hide Inv, Sound, Rotated, Replayed;
  }

  lemma RevocationFinishes(c: Config, x: Scene, t: nat)
    requires Sound(c, x) && Possible(x, Finish(t)) && x.open[t].Revoking?
    ensures Sound(c, Finished(x, t))
  {
    var targets := x.open[t].targets;
    var state := x.state.(tokens := RevokeAll(x.state.tokens, targets));
    RevokingKeeps(c, x.state, state.tokens);
    hide Inv;
    assert forall u, j :: u != t && j in targets ==> !LockedBy(x, u, j);
    forall u | u in x.open && u != t
      ensures WorkSound(c, Scene(state, x.open), u)
    {
      assert WorkSound(c, x, u);
      assert x.open[u].Exchanging? ==> LockedBy(x, u, x.open[u].jti);
    }
    CloseKeeps(c, x, t, state);
  }

  /** Every step of every request keeps the scene sound. */
  lemma PerformKeeps(c: Config, x: Scene, a: Act)
    requires Sound(c, x) && Possible(x, a)
    ensures Sound(c, Perform(c, x, a))
  {
    hide Inv, LocksApart, MintsApart, Decided, Finished;
    match a
    case SignIn(user, family, m) => SignInKeeps(c, x, user, family, m);
    case Look(t, p) => WorkKeeps(c, x, t, Looking(Stored(x.state.tokens, p).value));
    case Decide(t, now, userActive, m) =>
      assert WorkSound(c, x, t);
      DecideKeeps(c, x, t, now, userActive, m);
    case StartRevokeAll(t, user) => WorkKeeps(c, x, t, Revoking({}, ActiveOf(x.state.tokens, user)));
    case StartSignOut(t, p) => WorkKeeps(c, x, t, Revoking({}, ToSignOut(x.state.tokens, p)));
    case Finish(t) =>
      assert WorkSound(c, x, t);
      if x.open[t].Exchanging? {
        ExchangeFinishes(c, x, t);
      } else {
        RevocationFinishes(c, x, t);
      }
    case Fail(t) =>
      assert forall u :: u in x.open && u != t ==> WorkSound(c, Scene(x.state, x.open), u);
      CloseKeeps(c, x, t, x.state);
  }

  // ------------------------------------------------------------ histories

  /** The acts can be performed one after the other from this scene. */
  ghost predicate Continues(c: Config, x: Scene, acts: seq<Act>)
    requires Sound(c, x)
    decreases |acts|, 0
  {
    || acts == []
    || (var n := |acts| - 1; Continues(c, x, acts[..n]) && Possible(Then(c, x, acts[..n]), acts[n]))
  }

  /** The scene after one act, sound again. */
  ghost function Next(c: Config, x: Scene, a: Act): (y: Scene)
    requires Sound(c, x) && Possible(x, a)
    ensures Sound(c, y)
  {
    PerformKeeps(c, x, a);
    Perform(c, x, a)
  }

  ghost function Then(c: Config, x: Scene, acts: seq<Act>): (y: Scene)
    requires Sound(c, x) && Continues(c, x, acts)
    ensures Sound(c, y)
    decreases |acts|, 1
  {
    if acts == [] then x
    else
      Next(c, Then(c, x, acts[..|acts| - 1]), acts[|acts| - 1])
  }

  lemma EmptyIsSound(c: Config)
    ensures Sound(c, Scene(Start, map[]))
  {
  }

  /** No tokens and no open transactions. */
  ghost function Opening(c: Config): (x: Scene)
    ensures Sound(c, x)
  {
    EmptyIsSound(c);
    Scene(Start, map[])
  }

  /** Even when requests overlap, a family has at most one unrevoked token and one more for each accepted replay. */
  lemma OverlappingFamilyBound(c: Config, acts: seq<Act>, family: nat)
    requires Continues(c, Opening(c), acts)
    ensures var s := Then(c, Opening(c), acts).state; |ActiveIn(s.tokens, family)| <= 1 + Accepted(s, family)
  {
    hide Possible, Perform, Continues, WorksSound, LocksApart, MintsApart;
    var s := Then(c, Opening(c), acts).state;
    if family !in s.families {
      ActiveNone(s.tokens, family);
    }
    hide Then;
  }

  /** Even when requests overlap, a token is exchanged at most once and replayed at most maxReplays times, within its family. */
  lemma OverlappingSuccessorBound(c: Config, acts: seq<Act>, j: nat)
    requires Continues(c, Opening(c), acts) && j in Then(c, Opening(c), acts).state.tokens
    ensures var s := Then(c, Opening(c), acts).state;
      && |Successors(s.parents, j)| <= 1 + c.maxReplays
      && forall i :: i in Successors(s.parents, j) ==> i in s.tokens && s.tokens[i].family == s.tokens[j].family
  {
    hide Possible, Perform, Continues, WorksSound, LocksApart, MintsApart;
    var s := Then(c, Opening(c), acts).state;
    assert TokenGood(c, s.tokens[j]) && SuccessorCount(s.parents, j) == Exchanges(s.tokens[j]);
    hide Then;
  }

  // ------------------------------------------------------------ when a family is dead

  /** A granted replay of a token of the family is on its way. */
  predicate ReplayUnderWay(x: Scene, t: nat, family: nat) {
    && t in x.open && x.open[t].Exchanging? && x.open[t].replay
    && x.open[t].jti in x.state.tokens && x.state.tokens[x.open[t].jti].family == family
  }

  /** No unrevoked token, and no granted replay on its way. */
  ghost predicate Quiet(x: Scene, family: nat) {
    !FamilyHasActive(x.state.tokens, family) && forall t :: !ReplayUnderWay(x, t, family)
  }

  /** Whatever follows, the family has no unrevoked token. */
  ghost predicate Dead(c: Config, x: Scene, family: nat)
    requires Sound(c, x)
  {
    forall acts :: Continues(c, x, acts) ==> !FamilyHasActive(Then(c, x, acts).state.tokens, family)
  }

  /** Open exchanges of a quiet family there are none: a rotation needs an unrevoked token. */
  lemma NothingUnderWay(c: Config, x: Scene, t: nat, family: nat)
    requires Sound(c, x) && Quiet(x, family) && t in x.open && x.open[t].Exchanging?
    ensures x.open[t].jti in x.state.tokens && x.state.tokens[x.open[t].jti].family != family
  {
    hide Inv, LocksApart, MintsApart;
    assert WorkSound(c, x, t) && !ReplayUnderWay(x, t, family);
  }

  /** In a quiet family a request decides for no exchange. */
  lemma QuietDecides(c: Config, x: Scene, t: nat, now: int, userActive: bool, m: Minted, family: nat)
    requires Sound(c, x) && Possible(x, Decide(t, now, userActive, m)) && Quiet(x, family) && x.open[t].jti in x.state.tokens
    ensures Quiet(Decided(c, x, t, now, userActive, m), family)
  {
    hide Inv, LocksApart, MintsApart, WorksSound;
    var y, j := Decided(c, x, t, now, userActive, m), x.open[t].jti;
    assert y.state == x.state;
    forall u
      ensures !ReplayUnderWay(y, u, family)
    {
      assert u != t ==> (ReplayUnderWay(y, u, family) <==> ReplayUnderWay(x, u, family));
      if u == t && x.state.tokens[j].family == family {
        assert x.state.tokens[j].revoked;
      }
    }
  }

  lemma QuietExchange(c: Config, x: Scene, t: nat, family: nat)
    requires Sound(c, x) && t in x.open && x.open[t].Exchanging? && Quiet(x, family) && WorkSound(c, x, t)
    ensures Quiet(Finished(x, t), family)
  {
    NothingUnderWay(c, x, t, family);
    var w := x.open[t];
    ExchangeTokens(x.state, w.jti, w.now, w.minted);
    ExchangeFamilies(x.state, w.jti, w.now, w.minted, family);
    hide Sound, Rotated, Replayed, WorkSound;
    QuietAfter(x, Finished(x, t), t, family);
  }

  lemma ExchangeFamilies(s: State, j: nat, now: int, m: Minted, family: nat)
    requires j in s.tokens && m.jti !in s.tokens && s.tokens[j].family != family
    ensures FamilyHasActive(Rotated(s, j, now, m).tokens, family) ==> FamilyHasActive(s.tokens, family)
    ensures FamilyHasActive(Replayed(s, j, m).tokens, family) ==> FamilyHasActive(s.tokens, family)
    ensures Rotated(s, j, now, m).tokens[j].family == s.tokens[j].family == Replayed(s, j, m).tokens[j].family
  {
  }

  /** Closing a transaction whose changes leave the family without an unrevoked token leaves it quiet. */
  lemma QuietAfter(x: Scene, y: Scene, t: nat, family: nat)
    requires Quiet(x, family) && y.open == x.open - {t} && !FamilyHasActive(y.state.tokens, family)
    requires forall j :: j in x.state.tokens ==> j in y.state.tokens && y.state.tokens[j].family == x.state.tokens[j].family
    requires forall u :: u in x.open && x.open[u].Exchanging? ==> x.open[u].jti in x.state.tokens
    ensures Quiet(y, family)
  {
    forall u
      ensures !ReplayUnderWay(y, u, family)
    {
      assert !ReplayUnderWay(x, u, family);
    }
  }

  lemma OpenTokensKnown(c: Config, x: Scene)
    requires Sound(c, x)
    ensures forall u :: u in x.open && x.open[u].Exchanging? ==> x.open[u].jti in x.state.tokens
  {
    hide Inv, LocksApart, MintsApart;
    assert forall u :: u in x.open ==> WorkSound(c, x, u);
  }

  /** Revocations leave a quiet family quiet. */
  lemma QuietRevocation(c: Config, x: Scene, t: nat, family: nat)
    requires Sound(c, x) && t in x.open && x.open[t].Revoking? && Quiet(x, family)
    ensures Quiet(Finished(x, t), family)
  {
    OpenTokensKnown(c, x);
    hide Sound;
    QuietAfter(x, Finished(x, t), t, family);
  }

  lemma QuietSignIn(c: Config, x: Scene, user: nat, other: nat, m: Minted, family: nat)
    requires Sound(c, x) && Possible(x, SignIn(user, other, m)) && Quiet(x, family) && family in x.state.families
    ensures Quiet(x.(state := LoggedInState(x.state, user, other, m)), family)
  {
    OpenTokensKnown(c, x);
    hide Sound;
    var y := x.(state := LoggedInState(x.state, user, other, m));
    assert forall u :: ReplayUnderWay(y, u, family) ==> ReplayUnderWay(x, u, family);
  }

  lemma QuietStart(x: Scene, t: nat, w: Work, family: nat)
    requires Quiet(x, family) && !w.Exchanging?
    ensures Quiet(x.(open := x.open[t := w]), family)
  {
    var y := x.(open := x.open[t := w]);
    assert forall u :: ReplayUnderWay(y, u, family) ==> ReplayUnderWay(x, u, family);
  }

  lemma QuietClose(x: Scene, t: nat, family: nat)
    requires Quiet(x, family)
    ensures Quiet(Close(x, t, x.state), family)
  {
    assert forall u :: ReplayUnderWay(Close(x, t, x.state), u, family) ==> ReplayUnderWay(x, u, family);
  }

  /** A quiet family stays quiet, whatever is done next. */
  lemma QuietStep(c: Config, x: Scene, a: Act, family: nat)
    requires Sound(c, x) && Possible(x, a) && Quiet(x, family) && family in x.state.families
    ensures Quiet(Perform(c, x, a), family)
  {
    hide Inv, LocksApart, MintsApart, Quiet, Decided, Finished, LoggedInState, Judge;
    match a
    case SignIn(user, other, m) => QuietSignIn(c, x, user, other, m, family);
    case Look(t, p) => QuietStart(x, t, Looking(Stored(x.state.tokens, p).value), family);
    case Decide(t, now, userActive, m) =>
      assert WorkSound(c, x, t);
      QuietDecides(c, x, t, now, userActive, m, family);
    case StartRevokeAll(t, user) => QuietStart(x, t, Revoking({}, ActiveOf(x.state.tokens, user)), family);
    case StartSignOut(t, p) => QuietStart(x, t, Revoking({}, ToSignOut(x.state.tokens, p)), family);
    case Finish(t) =>
      assert WorkSound(c, x, t);
      if x.open[t].Exchanging? {
        QuietExchange(c, x, t, family);
      } else {
        QuietRevocation(c, x, t, family);
      }
    case Fail(t) => QuietClose(x, t, family);
  }

  lemma ExchangeStays(s: State, j: nat, now: int, m: Minted)
    requires j in s.tokens
    ensures s.families.Keys <= Rotated(s, j, now, m).families.Keys && s.families.Keys <= Replayed(s, j, m).families.Keys
  {
  }

  lemma FamiliesStay(c: Config, x: Scene, a: Act)
    requires Sound(c, x) && Possible(x, a)
    ensures x.state.families.Keys <= Perform(c, x, a).state.families.Keys
  {
    hide Inv, LocksApart, MintsApart, Judge, Rotated, Replayed;
    if a.Finish? && x.open[a.tx].Exchanging? {
      assert WorkSound(c, x, a.tx);
      ExchangeStays(x.state, x.open[a.tx].jti, x.open[a.tx].now, x.open[a.tx].minted);
    }
    if a.Decide? {
      assert WorkSound(c, x, a.tx);
    }
  }

  lemma {:induction false} QuietForever(c: Config, x: Scene, acts: seq<Act>, family: nat)
    requires Sound(c, x) && Quiet(x, family) && family in x.state.families && Continues(c, x, acts)
    ensures Quiet(Then(c, x, acts), family) && family in Then(c, x, acts).state.families
    decreases |acts|
  {
    hide Sound, Possible, Perform, Quiet;
    if acts != [] {
      var n := |acts| - 1;
      QuietForever(c, x, acts[..n], family);
      QuietStep(c, Then(c, x, acts[..n]), acts[n], family);
      FamiliesStay(c, Then(c, x, acts[..n]), acts[n]);
    }
  }

  /** The commit of a granted replay brings an unrevoked token. */
  lemma ReplayRevives(c: Config, x: Scene, t: nat, family: nat)
    requires Sound(c, x) && ReplayUnderWay(x, t, family)
    ensures Possible(x, Finish(t)) && FamilyHasActive(Perform(c, x, Finish(t)).state.tokens, family)
  {
    hide Inv, LocksApart, MintsApart;
    var w := x.open[t];
    assert WorkSound(c, x, t);
    ExchangeTokens(x.state, w.jti, w.now, w.minted);
    var tokens := Replayed(x.state, w.jti, w.minted).tokens;
    assert w.minted.jti in tokens && !tokens[w.minted.jti].revoked && tokens[w.minted.jti].family == family;
    hide Replayed, Rotated;
  }

  lemma NoActs(c: Config, x: Scene)
    requires Sound(c, x)
    ensures Continues(c, x, []) && Then(c, x, []) == x
  {
  }

  lemma OneAct(c: Config, x: Scene, a: Act)
    requires Sound(c, x) && Possible(x, a)
    ensures Continues(c, x, [a]) && Then(c, x, [a]) == Perform(c, x, a)
  {
    hide Sound, Possible, Perform;
    NoActs(c, x);
    assert [a][..0] == [];
  }

  /** A family is dead exactly when it has no unrevoked token and no granted replay on its way. */
  lemma DeadExactly(c: Config, x: Scene, family: nat)
    requires Sound(c, x) && family in x.state.families
    ensures Dead(c, x, family) <==> Quiet(x, family)
  {
    hide Sound, Possible, Perform, Then, Continues, ReplayUnderWay, FamilyHasActive;
    if Quiet(x, family) {
      forall acts | Continues(c, x, acts)
        ensures !FamilyHasActive(Then(c, x, acts).state.tokens, family)
      {
        QuietForever(c, x, acts, family);
      }
    } else {
      NoActs(c, x);
      if !FamilyHasActive(x.state.tokens, family) {
        var t :| ReplayUnderWay(x, t, family);
        ReplayRevives(c, x, t, family);
        OneAct(c, x, Finish(t));
      }
    }
  }

  // ------------------------------------------------------------ when reuse detection ends its family

  /** The revocation finds every unrevoked token among its targets, and no granted replay is on its way. */
  ghost predicate CatchesAll(x: Scene, t: nat, family: nat)
    requires t in x.open && x.open[t].Revoking?
  {
    ActiveIn(x.state.tokens, family) <= x.open[t].targets && forall u :: !ReplayUnderWay(x, u, family)
  }

  lemma SurvivorIsNoTarget(x: Scene, t: nat, family: nat)
    requires t in x.open && x.open[t].Revoking?
    ensures FamilyHasActive(Finished(x, t).state.tokens, family) <==> !(ActiveIn(x.state.tokens, family) <= x.open[t].targets)
  {
    var after, targets := Finished(x, t).state.tokens, x.open[t].targets;
    if FamilyHasActive(after, family) {
      var j :| j in after && after[j].family == family && !after[j].revoked;
      assert j in ActiveIn(x.state.tokens, family) && j !in targets;
    }
    if !(ActiveIn(x.state.tokens, family) <= targets) {
      var j :| j in ActiveIn(x.state.tokens, family) && j !in targets;
      assert j in after && after[j] == x.state.tokens[j];
    }
  }

  lemma RevocationMovesNoReplay(x: Scene, t: nat, family: nat)
    requires t in x.open && x.open[t].Revoking?
    requires forall u :: u in x.open && x.open[u].Exchanging? ==> x.open[u].jti in x.state.tokens
    ensures forall u :: ReplayUnderWay(Finished(x, t), u, family) <==> ReplayUnderWay(x, u, family)
  {
  }

  lemma QuietExactly(c: Config, x: Scene, t: nat, family: nat)
    requires Sound(c, x) && t in x.open && x.open[t].Revoking?
    ensures Quiet(Finished(x, t), family) <==> CatchesAll(x, t, family)
  {
    OpenTokensKnown(c, x);
    SurvivorIsNoTarget(x, t, family);
    RevocationMovesNoReplay(x, t, family);
    hide Sound, Finished, ReplayUnderWay, FamilyHasActive;
  }

  /**
   What the commit of a revocation leaves of a family: it is dead exactly when every token that is unrevoked now was already unrevoked
   when the revocation started, and no granted replay is on its way.
   */
  lemma ReuseEndsExactly(c: Config, x: Scene, t: nat, family: nat)
    requires Sound(c, x) && Possible(x, Finish(t)) && x.open[t].Revoking? && family in x.state.families
    ensures Dead(c, Next(c, x, Finish(t)), family) <==> CatchesAll(x, t, family)
  {
    assert WorkSound(c, x, t);
    var y := Next(c, x, Finish(t));
    assert y == Finished(x, t);
    hide *;
    FamiliesStay(c, x, Finish(t));
    NextIsPerform(c, x, Finish(t));
    DeadExactly(c, y, family);
    QuietExactly(c, x, t, family);
  }

  lemma NextIsPerform(c: Config, x: Scene, a: Act)
    requires Sound(c, x) && Possible(x, a)
    ensures Next(c, x, a) == Perform(c, x, a)
  {
    hide Perform, Sound, Possible;
  }

  /** A request that decides for reuse takes every token of the family that is unrevoked then. */
  lemma ReuseDecided(c: Config, x: Scene, t: nat, now: int, userActive: bool, m: Minted)
    requires Sound(c, x) && Possible(x, Decide(t, now, userActive, m)) && x.open[t].jti in x.state.tokens
    requires Judge(c, x.state.tokens, Decoded(true, Some(x.open[t].jti)), now, userActive) == Reuse
    ensures var j := x.open[t].jti;
      Next(c, x, Decide(t, now, userActive, m))
      == Scene(x.state, x.open[t := Revoking({j}, ActiveIn(x.state.tokens, x.state.tokens[j].family))])
    ensures x.state.tokens[x.open[t].jti].family in x.state.families
  {
    hide Judge, LocksApart, MintsApart, WorksSound;
  }

  /** Without other open transactions reuse detection always ends its family. */
  lemma AloneReuseEnds(c: Config, x: Scene, t: nat, now: int, userActive: bool, m: Minted)
    requires Sound(c, x) && Possible(x, Decide(t, now, userActive, m)) && x.open.Keys == {t} && x.open[t].jti in x.state.tokens
    requires Judge(c, x.state.tokens, Decoded(true, Some(x.open[t].jti)), now, userActive) == Reuse
    ensures var y := Next(c, x, Decide(t, now, userActive, m));
      Possible(y, Finish(t)) && Dead(c, Next(c, y, Finish(t)), x.state.tokens[x.open[t].jti].family)
  {
    hide Sound, Dead, Judge, Next, NewId;
    var f := x.state.tokens[x.open[t].jti].family;
    ReuseDecided(c, x, t, now, userActive, m);
    var y := Next(c, x, Decide(t, now, userActive, m));
    assert y.open == map[t := Revoking({x.open[t].jti}, ActiveIn(x.state.tokens, f))];
    assert CatchesAll(y, t, f);
    ReuseEndsExactly(c, y, t, f);
  }

  // ------------------------------------------------------------ requests that nothing overlaps

  /** A whole refresh: the row is locked, the request decides, and what it has to write is committed. */
  ghost function WholeRefresh(c: Config, x: Scene, t: nat, p: Presented, now: int, userActive: bool, m: Minted): Scene
    requires Sound(c, x) && x.open == map[] && Stored(x.state.tokens, p).Some? && NewId(x, m.jti)
  {
    var looked := Next(c, x, Look(t, p));
    assert Possible(looked, Decide(t, now, userActive, m)) by { LookedPossible(c, x, t, p, now, userActive, m); }
    var decided := Next(c, looked, Decide(t, now, userActive, m));
    if t in decided.open then
      assert Possible(decided, Finish(t)) by { DecidedPossible(c, x, t, p, now, userActive, m); }
      Next(c, decided, Finish(t))
    else decided
  }

  lemma LookedPossible(c: Config, x: Scene, t: nat, p: Presented, now: int, userActive: bool, m: Minted)
    requires Sound(c, x) && x.open == map[] && Stored(x.state.tokens, p).Some? && NewId(x, m.jti)
    ensures Possible(x, Look(t, p))
    ensures Next(c, x, Look(t, p)) == Scene(x.state, map[t := Looking(Stored(x.state.tokens, p).value)])
    ensures Possible(Next(c, x, Look(t, p)), Decide(t, now, userActive, m))
  {
    NextIsPerform(c, x, Look(t, p));
    hide Inv, LocksApart, MintsApart, WorksSound, Next;
  }

  lemma DecidedPossible(c: Config, x: Scene, t: nat, p: Presented, now: int, userActive: bool, m: Minted)
    requires Sound(c, x) && x.open == map[] && Stored(x.state.tokens, p).Some? && NewId(x, m.jti)
    requires Possible(x, Look(t, p)) && Possible(Next(c, x, Look(t, p)), Decide(t, now, userActive, m))
    ensures var j := Stored(x.state.tokens, p).value;
      var y, family := Next(c, Next(c, x, Look(t, p)), Decide(t, now, userActive, m)), x.state.tokens[j].family;
      && y.state == x.state
      && y.open == (match Judge(c, x.state.tokens, p, now, userActive)
        case Refused => map[]
        case Reuse => map[t := Revoking({j}, ActiveIn(x.state.tokens, family))]
        case Replays => map[t := Exchanging(j, true, now, m)]
        case Rotates => map[t := Exchanging(j, false, now, m)])
      && (t in y.open ==> Possible(y, Finish(t)))
  {
    hide Sound, Next, Judge, Perform, Possible, Decided, NewId;
    LookedPossible(c, x, t, p, now, userActive, m);
    var j, looked := Stored(x.state.tokens, p).value, Next(c, x, Look(t, p));
    SameJudgement(c, x.state.tokens, p, now, userActive);
    NextIsPerform(c, looked, Decide(t, now, userActive, m));
    PerformDecides(c, looked, t, now, userActive, m);
    DecidedIs(c, x.state, j, t, now, userActive, m);
    if Judge(c, x.state.tokens, p, now, userActive) != Refused {
      AloneFinishes(Decided(c, looked, t, now, userActive, m), t);
    }
  }

  lemma PerformDecides(c: Config, x: Scene, t: nat, now: int, userActive: bool, m: Minted)
    requires Sound(c, x) && Possible(x, Decide(t, now, userActive, m))
    ensures t in x.open && x.open[t].Looking? && x.open[t].jti in x.state.tokens
    ensures Perform(c, x, Decide(t, now, userActive, m)) == Decided(c, x, t, now, userActive, m)
  {
    assert WorkSound(c, x, t);
    hide Inv, LocksApart, MintsApart, Decided;
  }

  lemma DecidedIs(c: Config, s: State, j: nat, t: nat, now: int, userActive: bool, m: Minted)
    requires j in s.tokens
    ensures Decided(c, Scene(s, map[t := Looking(j)]), t, now, userActive, m) == Scene(s, match Judge(c, s.tokens, Decoded(true, Some(j)), now, userActive)
      case Refused => map[]
      case Reuse => map[t := Revoking({j}, ActiveIn(s.tokens, s.tokens[j].family))]
      case Replays => map[t := Exchanging(j, true, now, m)]
      case Rotates => map[t := Exchanging(j, false, now, m)])
  {
    hide Judge;
    assert map[t := Looking(j)] - {t} == map[];
  }

  lemma AloneFinishes(y: Scene, t: nat)
    requires t in y.open && !y.open[t].Looking? && y.open.Keys == {t}
    ensures Possible(y, Finish(t))
  {
  }

  lemma SameJudgement(c: Config, tokens: Tokens, p: Presented, now: int, userActive: bool)
    requires Stored(tokens, p).Some?
    ensures Stored(tokens, p).value in tokens && p == Decoded(true, Some(Stored(tokens, p).value))
  {
  }

  /** A refresh that nothing overlaps comes to the same as a refresh in one piece. */
  lemma UndisturbedRefresh(c: Config, x: Scene, t: nat, p: Presented, now: int, userActive: bool, m: Minted)
    requires Sound(c, x) && x.open == map[] && Stored(x.state.tokens, p).Some? && NewId(x, m.jti)
    ensures var y, whole := WholeRefresh(c, x, t, p, now, userActive, m), Apply(c, x.state, Refreshed(p, now, userActive, m));
      && y.open == map[]
      && y.state.tokens == whole.tokens && y.state.parents == whole.parents && y.state.families == whole.families
  {
    hide Sound, Next, Judge, Rotated, Replayed, Apply, RevokeFamily, RevokeAll;
    var j := Stored(x.state.tokens, p).value;
    LookedPossible(c, x, t, p, now, userActive, m);
    DecidedPossible(c, x, t, p, now, userActive, m);
    var decided := Next(c, Next(c, x, Look(t, p)), Decide(t, now, userActive, m));
    NewIdIsNew(x, m.jti);
    RefreshedState(c, x.state, p, now, userActive, m);
    if t in decided.open {
      NextIsPerform(c, decided, Finish(t));
      ActiveIsRest(x.state.tokens, x.state.tokens[j].family);
    }
  }

  /** Revoking the unrevoked tokens of a family revokes the family. */
  lemma ActiveIsRest(tokens: Tokens, family: nat)
    ensures RevokeAll(tokens, ActiveIn(tokens, family)) == RevokeFamily(tokens, family)
  {
  }

  /** So do a logout and the revocation of all tokens of a user. */
  lemma UndisturbedRevocations(c: Config, x: Scene, t: nat, p: Presented, user: nat)
    requires Sound(c, x) && x.open == map[]
    ensures Possible(x, StartSignOut(t, p)) && Possible(Next(c, x, StartSignOut(t, p)), Finish(t))
    ensures Possible(x, StartRevokeAll(t, user)) && Possible(Next(c, x, StartRevokeAll(t, user)), Finish(t))
    ensures Next(c, Next(c, x, StartSignOut(t, p)), Finish(t)) == Scene(Apply(c, x.state, LoggedOut(p)), map[])
    ensures Next(c, Next(c, x, StartRevokeAll(t, user)), Finish(t)) == Scene(Apply(c, x.state, RevokedAll(user)), map[])
  {
    hide Sound, Next, Possible, Perform, Logout, RevokeUser, RevokeAll, ToSignOut, ActiveOf;
    StartsRevoking(c, x, t, p, user);
    var out, all := Next(c, x, StartSignOut(t, p)), Next(c, x, StartRevokeAll(t, user));
    AloneRevokes(c, out, t, {}, ToSignOut(x.state.tokens, p));
    AloneRevokes(c, all, t, {}, ActiveOf(x.state.tokens, user));
    OneRevoked(x.state.tokens, p, user);
  }

  lemma StartsRevoking(c: Config, x: Scene, t: nat, p: Presented, user: nat)
    requires Sound(c, x) && x.open == map[]
    ensures Possible(x, StartSignOut(t, p)) && Possible(x, StartRevokeAll(t, user))
    ensures Next(c, x, StartSignOut(t, p)) == Scene(x.state, map[t := Revoking({}, ToSignOut(x.state.tokens, p))])
    ensures Next(c, x, StartRevokeAll(t, user)) == Scene(x.state, map[t := Revoking({}, ActiveOf(x.state.tokens, user))])
  {
    NextIsPerform(c, x, StartSignOut(t, p));
    NextIsPerform(c, x, StartRevokeAll(t, user));
    hide Sound, Next, ToSignOut, ActiveOf;
  }

  lemma AloneRevokes(c: Config, x: Scene, t: nat, own: set<nat>, targets: set<nat>)
    requires Sound(c, x) && x.open == map[t := Revoking(own, targets)]
    ensures Possible(x, Finish(t))
    ensures Next(c, x, Finish(t)) == Scene(x.state.(tokens := RevokeAll(x.state.tokens, targets)), map[])
  {
    NextIsPerform(c, x, Finish(t));
    hide Inv, LocksApart, MintsApart, RevokeAll, Next;
  }

  lemma OneRevoked(tokens: Tokens, p: Presented, user: nat)
    ensures RevokeAll(tokens, ToSignOut(tokens, p)) == Logout(tokens, p)
    ensures RevokeAll(tokens, ActiveOf(tokens, user)) == RevokeUser(tokens, user)
  {
  }

  // ------------------------------------------------------------ when logout ends its family

  predicate Of(t: nat, a: Act) {
    match a
    case SignIn(_, _, _) => false
    case _ => a.tx == t
  }

  /** While only others act, a transaction stands where it stood. */
  lemma {:induction false} WorkStays(c: Config, x: Scene, t: nat, acts: seq<Act>)
    requires Sound(c, x) && t in x.open && Continues(c, x, acts) && forall a :: a in acts ==> !Of(t, a)
    ensures var y := Then(c, x, acts); t in y.open && y.open[t] == x.open[t]
    decreases |acts|
  {
    hide Sound, Possible;
    if acts != [] {
      var n := |acts| - 1;
      WorkStays(c, x, t, acts[..n]);
      WorkStep(c, Then(c, x, acts[..n]), t, acts[n]);
    }
  }

  lemma WorkStep(c: Config, x: Scene, t: nat, a: Act)
    requires Sound(c, x) && Possible(x, a) && t in x.open && !Of(t, a)
    ensures var y := Perform(c, x, a); t in y.open && y.open[t] == x.open[t]
  {
    hide Inv, LocksApart, MintsApart, Judge, Rotated, Replayed, RevokeAll, LoggedInState;
    if a.Decide? || a.Finish? {
      assert WorkSound(c, x, a.tx);
    }
  }

  /**
   What a logout leaves of a family, whatever others do between its reading the token and its commit: the family is dead exactly when no
   token but the one that was read as unrevoked is unrevoked now, and no granted replay is on its way.
   */
  lemma LogoutEndsExactly(c: Config, x: Scene, t: nat, p: Presented, others: seq<Act>, family: nat)
    requires Sound(c, x) && Possible(x, StartSignOut(t, p)) && family in x.state.families
    requires Continues(c, Next(c, x, StartSignOut(t, p)), others) && forall a :: a in others ==> !Of(t, a)
    requires Possible(Then(c, Next(c, x, StartSignOut(t, p)), others), Finish(t))
    ensures var y := Then(c, Next(c, x, StartSignOut(t, p)), others);
      Dead(c, Next(c, y, Finish(t)), family)
      <==> ActiveIn(y.state.tokens, family) <= ToSignOut(x.state.tokens, p) && forall u :: !ReplayUnderWay(y, u, family)
  {
    hide Sound, Possible, Dead, Then, Continues, ToSignOut, ReplayUnderWay, Next;
    NextIsPerform(c, x, StartSignOut(t, p));
    var z := Next(c, x, StartSignOut(t, p));
    WorkStays(c, z, t, others);
    FamiliesRemain(c, z, others);
    ReuseEndsExactly(c, Then(c, z, others), t, family);
  }

  lemma {:induction false} FamiliesRemain(c: Config, x: Scene, acts: seq<Act>)
    requires Sound(c, x) && Continues(c, x, acts)
    ensures x.state.families.Keys <= Then(c, x, acts).state.families.Keys
    decreases |acts|
  {
    hide Sound, Possible, Perform;
    if acts != [] {
      var n := |acts| - 1;
      FamiliesRemain(c, x, acts[..n]);
      FamiliesStay(c, Then(c, x, acts[..n]), acts[n]);
    }
  }

  /** Reading a token for logout changes no row, no lock and no exchange. */
  lemma ReadForLogout(x: Scene, t: nat, p: Presented, family: nat)
    requires t !in x.open && p.Decoded? && p.jti.Some? && FreeFor(x, p.jti.value, t)
    ensures var y := x.(open := x.open[t := Revoking({}, ToSignOut(x.state.tokens, p))]);
      && (forall i :: i in y.open[t].targets ==> FreeFor(y, i, t))
      && forall u :: ReplayUnderWay(y, u, family) <==> ReplayUnderWay(x, u, family)
    ensures ActiveIn(x.state.tokens, family) <= ToSignOut(x.state.tokens, p) <==> ActiveIn(x.state.tokens, family) <= {p.jti.value}
  {
    var y := x.(open := x.open[t := Revoking({}, ToSignOut(x.state.tokens, p))]);
    assert forall u, i :: u != t ==> (LockedBy(y, u, i) <==> LockedBy(x, u, i));
  }

  lemma TokensFamilyKnown(c: Config, x: Scene, j: nat)
    requires Sound(c, x) && j in x.state.tokens
    ensures x.state.tokens[j].family in x.state.families
  {
  }

  /** A logout that nothing comes between, with a token of any state: when it ends the token's family. */
  lemma LogoutAtOnce(c: Config, x: Scene, t: nat, isRefresh: bool, j: nat)
    requires Sound(c, x) && t !in x.open && FreeFor(x, j, t) && j in x.state.tokens
    ensures var y, f := Next(c, x, StartSignOut(t, Decoded(isRefresh, Some(j)))), x.state.tokens[j].family;
      && Possible(y, Finish(t))
      && (Dead(c, Next(c, y, Finish(t)), f) <==> ActiveIn(x.state.tokens, f) <= {j} && forall u :: !ReplayUnderWay(x, u, f))
  {
    hide Sound, Dead, Next, ToSignOut, ReplayUnderWay, FreeFor;
    var p, f := Decoded(isRefresh, Some(j)), x.state.tokens[j].family;
    TokensFamilyKnown(c, x, j);
    ReadForLogout(x, t, p, f);
    NextIsPerform(c, x, StartSignOut(t, p));
    var y := Next(c, x, StartSignOut(t, p));
    assert y == x.(open := x.open[t := Revoking({}, ToSignOut(x.state.tokens, p))]);
    ReuseEndsExactly(c, y, t, f);
  }

  /** With no other request under way, an unrevoked token of a family without granted replays ends its family. */
  lemma AloneLogoutEnds(c: Config, acts: seq<Act>, t: nat, isRefresh: bool, j: nat)
    requires Continues(c, Opening(c), acts)
    requires var x := Then(c, Opening(c), acts);
      x.open == map[] && j in x.state.tokens && !x.state.tokens[j].revoked && Accepted(x.state, x.state.tokens[j].family) == 0
    ensures var x := Then(c, Opening(c), acts);
      var y := Next(c, x, StartSignOut(t, Decoded(isRefresh, Some(j))));
      Possible(y, Finish(t)) && Dead(c, Next(c, y, Finish(t)), x.state.tokens[j].family)
  {
    hide Continues, Then, Next, Dead;
    var x := Then(c, Opening(c), acts);
    var f := x.state.tokens[j].family;
    assert f in x.state.families;
    OverlappingFamilyBound(c, acts, f);
    OnlyMember(ActiveIn(x.state.tokens, f), j);
    hide Sound;
    LogoutAtOnce(c, x, t, isRefresh, j);
  }

  // ------------------------------------------------------------ a rotation that outlives detection and logout

  lemma More(c: Config, x: Scene, acts: seq<Act>, a: Act) returns (acts': seq<Act>)
    requires Sound(c, x) && Continues(c, x, acts) && Possible(Then(c, x, acts), a)
    ensures Continues(c, x, acts') && Then(c, x, acts') == Perform(c, Then(c, x, acts), a)
    ensures acts' == acts + [a]
  {
    hide Sound, Possible, Perform;
    acts' := acts + [a];
    assert acts'[..|acts'| - 1] == acts;
  }

  const First := Token(3, 7, 100, false, None, 0)

  /** A family whose first token was rotated: token 0 is revoked, token 1 is not. */
  lemma RotatedOnce(c: Config) returns (acts: seq<Act>)
    ensures Continues(c, Opening(c), acts)
    ensures var x := Then(c, Opening(c), acts);
      x.open == map[] && x.state.tokens == map[0 := First.(revoked := true, rotatedAt := Some(5)), 1 := First] && 7 in x.state.families
  {
    hide Continues, Then, Sound;
    NoActs(c, Opening(c));
    acts := [];
    acts := More(c, Opening(c), acts, SignIn(3, 7, Minted(0, 100)));
    assert Then(c, Opening(c), acts).state.tokens == map[0 := First];
    acts := More(c, Opening(c), acts, Look(1, Decoded(true, Some(0))));
    acts := More(c, Opening(c), acts, Decide(1, 5, true, Minted(1, 100)));
    assert Then(c, Opening(c), acts).open[1] == Exchanging(0, false, 5, Minted(1, 100));
    acts := More(c, Opening(c), acts, Finish(1));
  }

  /** A rotation commits between a logout's reading of the token and its commit: the new token stays usable. */
  lemma RotationOutlivesLogout(c: Config) returns (before: seq<Act>, others: seq<Act>)
    ensures Continues(c, Opening(c), before)
    ensures var x := Then(c, Opening(c), before);
      && x.state.tokens == map[0 := First] && 7 in x.state.families && x.open == map[]
      && var z := Next(c, x, StartSignOut(2, Decoded(true, Some(0))));
      && Continues(c, z, others) && (forall a :: a in others ==> !Of(2, a))
      && Possible(Then(c, z, others), Finish(2))
      && FamilyHasActive(Next(c, Then(c, z, others), Finish(2)).state.tokens, 7)
  {
    hide Continues, Then, Sound;
    NoActs(c, Opening(c));
    before := More(c, Opening(c), [], SignIn(3, 7, Minted(0, 100)));
    var x := Then(c, Opening(c), before);
    assert x.state.tokens == map[0 := First];
    NextIsPerform(c, x, StartSignOut(2, Decoded(true, Some(0))));
    var z := Next(c, x, StartSignOut(2, Decoded(true, Some(0))));
    assert z.open == map[2 := Revoking({}, {0})];
    NoActs(c, z);
    others := More(c, z, [], Look(1, Decoded(true, Some(0))));
    others := More(c, z, others, Decide(1, 5, true, Minted(1, 100)));
    assert Then(c, z, others).open == map[1 := Exchanging(0, false, 5, Minted(1, 100)), 2 := Revoking({}, {0})];
    others := More(c, z, others, Finish(1));
    var y := Then(c, z, others);
    assert y.open == map[2 := Revoking({}, {0})] && y.state.tokens[1] == First;
    NextIsPerform(c, y, Finish(2));
    var after := Next(c, y, Finish(2)).state.tokens;
    assert 1 in after && after[1] == First;
  }

  /** Two overlapping requests: token 1 is being rotated while token 0, rotated long ago, is presented again. */
  lemma ReuseWhileRotating(c: Config) returns (acts: seq<Act>)
    ensures Continues(c, Opening(c), acts)
    ensures var x := Then(c, Opening(c), acts);
      && x.open == map[2 := Exchanging(1, false, 6, Minted(2, 100)), 3 := Revoking({0}, {1})]
      && x.state.tokens == map[0 := First.(revoked := true, rotatedAt := Some(5)), 1 := First] && 7 in x.state.families
  {
    hide Continues, Then, Sound;
    acts := RotatedOnce(c);
    acts := More(c, Opening(c), acts, Look(2, Decoded(true, Some(1))));
    acts := More(c, Opening(c), acts, Look(3, Decoded(true, Some(0))));
    var x := Then(c, Opening(c), acts);
    assert ActiveIn(x.state.tokens, 7) == {1};
    acts := More(c, Opening(c), acts, Decide(3, 6 + c.graceSeconds, true, Minted(9, 100)));
    acts := More(c, Opening(c), acts, Decide(2, 6, true, Minted(2, 100)));
  }

  /** The rotation commits while the revocation waits for its row: the new token is no target and stays usable. */
  lemma RotationOutlivesReuse(c: Config) returns (acts: seq<Act>)
    ensures Continues(c, Opening(c), acts)
    ensures var x := Then(c, Opening(c), acts);
      && x.open == map[3 := Revoking({0}, {1})] && Possible(x, Finish(3))
      && FamilyHasActive(Next(c, x, Finish(3)).state.tokens, 7)
  {
    hide Continues, Then, Sound;
    acts := ReuseWhileRotating(c);
    acts := More(c, Opening(c), acts, Finish(2));
    var x := Then(c, Opening(c), acts);
    assert x.open == map[3 := Revoking({0}, {1})];
    assert x.state.tokens[2] == First;
    NextIsPerform(c, x, Finish(3));
    var after := Next(c, x, Finish(3)).state.tokens;
    assert 2 in after && after[2] == First;
  }
}
