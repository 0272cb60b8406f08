/**
 Refresh tokens in families: rotation, reuse detection, benign replays, logout and revocation.

 Each request is one transaction; the revocation of a family on reuse is committed before the request is refused.
 */
module TokenFamilies {
  import opened Options
  import opened Sets

  datatype Token = Token(user: nat, family: nat, expiresAt: int, revoked: bool, rotatedAt: Option<int>, graceReplays: nat)

  type Tokens = map<nat, Token>

  datatype Config = Config(graceSeconds: nat, maxReplays: nat)

  /** A presented token after decoding: unusable, or its claims. */
  datatype Presented = Undecodable | Decoded(isRefresh: bool, jti: Option<nat>)

  /** What the server would mint for this request. */
  datatype Minted = Minted(jti: nat, expiresAt: int)

  datatype Verdict = Rotates | Replays | Reuse | Refused

  function Stored(tokens: Tokens, p: Presented): Option<nat> {
    if p.Decoded? && p.isRefresh && p.jti.Some? && p.jti.value in tokens then Some(p.jti.value) else None
  }

  predicate FamilyHasActive(tokens: Tokens, family: nat) {
    exists j | j in tokens :: tokens[j].family == family && !tokens[j].revoked
  }

  /** A revoked token that was rotated a moment ago, presented again not too often, in a family that has not been shut down. */
  predicate Benign(c: Config, tokens: Tokens, t: Token, now: int) {
    && c.graceSeconds > 0
    && t.rotatedAt.Some? && now - t.rotatedAt.value <= c.graceSeconds
    && t.graceReplays < c.maxReplays
    && FamilyHasActive(tokens, t.family)
  }

  /** What a refresh request comes to; userActive says whether the token's user exists and is active. */
  function Judge(c: Config, tokens: Tokens, p: Presented, now: int, userActive: bool): Verdict {
    var found := Stored(tokens, p);
    if found.None? then Refused
    else
      var t := tokens[found.value];
      if t.revoked && !Benign(c, tokens, t, now) then Reuse
      else if t.expiresAt < now || !userActive then Refused
      else if t.revoked then Replays
      else Rotates
  }

  function RevokeFamily(tokens: Tokens, family: nat): (r: Tokens)
    ensures r.Keys == tokens.Keys
  {
    map j | j in tokens :: if tokens[j].family == family then tokens[j].(revoked := true) else tokens[j]
  }

  function RevokeUser(tokens: Tokens, user: nat): (r: Tokens)
    ensures r.Keys == tokens.Keys
  {
    map j | j in tokens :: if tokens[j].user == user then tokens[j].(revoked := true) else tokens[j]
  }

  function Fresh(user: nat, family: nat, m: Minted): Token {
    Token(user, family, m.expiresAt, false, None, 0)
  }

  function Refresh(c: Config, tokens: Tokens, p: Presented, now: int, userActive: bool, m: Minted): Tokens {
    match Judge(c, tokens, p, now, userActive)
    case Refused => tokens
    case Reuse => RevokeFamily(tokens, tokens[Stored(tokens, p).value].family)
    case Replays =>
      var j := Stored(tokens, p).value;
      var t := tokens[j];
      tokens[j := t.(graceReplays := t.graceReplays + 1)][m.jti := Fresh(t.user, t.family, m)]
    case Rotates =>
      var j := Stored(tokens, p).value;
      var t := tokens[j];
      tokens[j := t.(revoked := true, rotatedAt := Some(now))][m.jti := Fresh(t.user, t.family, m)]
  }

  /** Logout takes any decodable token with a jti, of either type. */
  function Logout(tokens: Tokens, p: Presented): Tokens {
    if p.Decoded? && p.jti.Some? && p.jti.value in tokens then tokens[p.jti.value := tokens[p.jti.value].(revoked := true)] else tokens
  }

  // ------------------------------------------------------------ histories

  /** A family: the user it was started for, and how many grace replays it has had. */
  datatype Family = Family(user: nat, accepted: nat)

  /** parents: which token each token was exchanged for; reused: families in which reuse was detected. */
  datatype State = State(tokens: Tokens, parents: map<nat, nat>, families: map<nat, Family>, reused: set<nat>)

  const Start := State(map[], map[], map[], {})

  datatype Event =
    | LoggedIn(user: nat, family: nat, minted: Minted)
    | Refreshed(presented: Presented, now: int, userActive: bool, minted: Minted)
    | LoggedOut(presented: Presented)
    | RevokedAll(user: nat)

  /** Minted ids and new families are new. */
  predicate Enabled(s: State, e: Event) {
    match e
    case LoggedIn(_, family, m) => m.jti !in s.tokens && family !in s.families
    case Refreshed(_, _, _, m) => m.jti !in s.tokens
    case LoggedOut(_) => true
    case RevokedAll(_) => true
  }

  function Accepted(s: State, family: nat): nat {
    if family in s.families then s.families[family].accepted else 0
  }

  function Apply(c: Config, s: State, e: Event): State
    requires Enabled(s, e)
  {
    match e
    case LoggedIn(user, family, m) => s.(tokens := s.tokens[m.jti := Fresh(user, family, m)], families := s.families[family := Family(user, 0)])
    case Refreshed(p, now, userActive, m) =>
      var tokens := Refresh(c, s.tokens, p, now, userActive, m);
      (match Judge(c, s.tokens, p, now, userActive)
       case Refused => s.(tokens := tokens)
       case Reuse => s.(tokens := tokens, reused := s.reused + {s.tokens[Stored(s.tokens, p).value].family})
       case Replays =>
         var j := Stored(s.tokens, p).value;
         var family := s.tokens[j].family;
         s.(tokens := tokens, parents := s.parents[m.jti := j],
           families := s.families[family := Family(s.tokens[j].user, Accepted(s, family) + 1)])
       case Rotates => s.(tokens := tokens, parents := s.parents[m.jti := Stored(s.tokens, p).value]))
    case LoggedOut(p) => s.(tokens := Logout(s.tokens, p))
    case RevokedAll(user) => s.(tokens := RevokeUser(s.tokens, user))
  }

  // ------------------------------------------------------------ the invariant

  function ActiveIn(tokens: Tokens, family: nat): set<nat> {
    set j | j in tokens && tokens[j].family == family && !tokens[j].revoked
  }

  function ActiveCount(tokens: Tokens, family: nat): nat {
    |ActiveIn(tokens, family)|
  }

  function Successors(parents: map<nat, nat>, j: nat): set<nat> {
    set x | x in parents && parents[x] == j
  }

  function SuccessorCount(parents: map<nat, nat>, j: nat): nat {
    |Successors(parents, j)|
  }

  ghost predicate TokensGood(c: Config, s: State) {
    forall j :: j in s.tokens ==> TokenGood(c, s.tokens[j])
  }

  predicate TokenGood(c: Config, t: Token) {
    && (t.rotatedAt.Some? ==> t.revoked)
    && (t.graceReplays > 0 ==> t.rotatedAt.Some?)
    && t.graceReplays <= c.maxReplays
  }

  /** Every token belongs to the user its family was started for. */
  ghost predicate FamiliesGood(s: State) {
    forall j :: j in s.tokens ==> s.tokens[j].family in s.families && s.families[s.tokens[j].family].user == s.tokens[j].user
  }

  /** At most one unrevoked token in a family, and one more for each accepted replay. */
  ghost predicate ActiveBounded(s: State) {
    forall f :: f in s.families ==> ActiveCount(s.tokens, f) <= 1 + s.families[f].accepted
  }

  /** Tokens are exchanged within their family. */
  ghost predicate ParentsGood(s: State) {
    forall x :: x in s.parents ==> x in s.tokens && s.parents[x] in s.tokens && s.tokens[x].family == s.tokens[s.parents[x]].family
  }

  function Exchanges(t: Token): nat {
    t.graceReplays + (if t.rotatedAt.Some? then 1 else 0)
  }

  /** A token's successors are its rotation and its replays. */
  ghost predicate SuccessorsCounted(s: State) {
    forall j :: j in s.tokens ==> SuccessorCount(s.parents, j) == Exchanges(s.tokens[j])
  }

  ghost predicate ReusedDead(s: State) {
    forall f :: f in s.reused ==> ActiveCount(s.tokens, f) == 0 && f in s.families
  }

  ghost predicate Inv(c: Config, s: State) {
    TokensGood(c, s) && FamiliesGood(s) && ActiveBounded(s) && ParentsGood(s) && SuccessorsCounted(s) && ReusedDead(s)
  }

  // ------------------------------------------------------------ counting

  lemma ActiveAfter(tokens: Tokens, x: nat, t: Token, f: nat)
    requires x !in tokens && !t.revoked
    ensures ActiveCount(tokens[x := t], f) == ActiveCount(tokens, f) + (if t.family == f then 1 else 0)
  {
    assert ActiveIn(tokens[x := t], f) == ActiveIn(tokens, f) + (if t.family == f then {x} else {});
    assert x !in ActiveIn(tokens, f);
  }

  lemma ActiveAfterAdd(tokens: Tokens, x: nat, t: Token)
    requires x !in tokens && !t.revoked
    ensures forall f :: ActiveCount(tokens[x := t], f) == ActiveCount(tokens, f) + (if t.family == f then 1 else 0)
  {
    hide ActiveCount;
    forall f
      ensures ActiveCount(tokens[x := t], f) == ActiveCount(tokens, f) + (if t.family == f then 1 else 0)
    {
      ActiveAfter(tokens, x, t, f);
    }
  }

  lemma ActiveAfterRevoke(tokens: Tokens, j: nat, t: Token)
    requires j in tokens && t.family == tokens[j].family && t.revoked
    ensures forall f ::
      ActiveCount(tokens[j := t], f) == ActiveCount(tokens, f) - (if t.family == f && !tokens[j].revoked then 1 else 0)
  {
    forall f ensures ActiveCount(tokens[j := t], f) == ActiveCount(tokens, f) - (if t.family == f && !tokens[j].revoked then 1 else 0) {
      if t.family == f && !tokens[j].revoked {
        assert ActiveIn(tokens[j := t], f) == ActiveIn(tokens, f) - {j} && j in ActiveIn(tokens, f);
      } else {
        assert ActiveIn(tokens[j := t], f) == ActiveIn(tokens, f);
      }
    }
  }

  lemma ActiveWithin(tokens: Tokens, tokens': Tokens)
    requires tokens'.Keys == tokens.Keys
    requires forall j :: j in tokens ==> tokens'[j].family == tokens[j].family && (tokens[j].revoked ==> tokens'[j].revoked)
    ensures forall f :: ActiveCount(tokens', f) <= ActiveCount(tokens, f)
  {
    forall f ensures ActiveCount(tokens', f) <= ActiveCount(tokens, f) {
      SubsetSmaller(ActiveIn(tokens', f), ActiveIn(tokens, f));
    }
  }

  lemma ActiveNone(tokens: Tokens, family: nat)
    ensures ActiveCount(tokens, family) == 0 <==> forall j :: j in tokens && tokens[j].family == family ==> tokens[j].revoked
  {
    if ActiveCount(tokens, family) == 0 {
      forall j | j in tokens && tokens[j].family == family ensures tokens[j].revoked {
        assert j !in ActiveIn(tokens, family);
      }
    } else {
      var j :| j in ActiveIn(tokens, family);
    }
  }

  lemma HasActive(tokens: Tokens, family: nat)
    ensures FamilyHasActive(tokens, family) <==> ActiveCount(tokens, family) > 0
  {
    ActiveNone(tokens, family);
  }

  lemma SuccessorsAfter(parents: map<nat, nat>, x: nat, j: nat, i: nat)
    requires x !in parents
    ensures SuccessorCount(parents[x := j], i) == SuccessorCount(parents, i) + (if i == j then 1 else 0)
  {
    assert Successors(parents[x := j], i) == Successors(parents, i) + (if i == j then {x} else {});
    assert x !in Successors(parents, i);
  }

  lemma SuccessorsAfterAdd(parents: map<nat, nat>, x: nat, j: nat)
    requires x !in parents
    ensures forall i :: SuccessorCount(parents[x := j], i) == SuccessorCount(parents, i) + (if i == j then 1 else 0)
  {
    hide SuccessorCount;
    forall i
      ensures SuccessorCount(parents[x := j], i) == SuccessorCount(parents, i) + (if i == j then 1 else 0)
    {
      SuccessorsAfter(parents, x, j, i);
    }
  }

  lemma NoSuccessors(parents: map<nat, nat>, j: nat)
    requires forall x :: x in parents ==> parents[x] != j
    ensures SuccessorCount(parents, j) == 0
  {
    assert Successors(parents, j) == {};
  }

  // ------------------------------------------------------------ every request keeps it

  ghost function LoggedInState(s: State, user: nat, family: nat, m: Minted): State {
    s.(tokens := s.tokens[m.jti := Fresh(user, family, m)], families := s.families[family := Family(user, 0)])
  }

  lemma LoginKeepsTokens(c: Config, s: State, user: nat, family: nat, m: Minted)
    requires TokensGood(c, s) && FamiliesGood(s) && ParentsGood(s) && m.jti !in s.tokens && family !in s.families
    ensures var s' := LoggedInState(s, user, family, m); TokensGood(c, s') && FamiliesGood(s') && ParentsGood(s')
  {
    hide TokenGood;
    assert TokenGood(c, Fresh(user, family, m)) by { FreshIsGood(c, user, family, m); }
  }

  lemma LoginKeepsCounts(s: State, user: nat, family: nat, m: Minted)
    requires FamiliesGood(s) && ParentsGood(s) && ActiveBounded(s) && SuccessorsCounted(s) && ReusedDead(s)
    requires m.jti !in s.tokens && family !in s.families
    ensures var s' := LoggedInState(s, user, family, m); ActiveBounded(s') && SuccessorsCounted(s') && ReusedDead(s')
  {
    hide ActiveCount, SuccessorCount, Exchanges;
    assert Exchanges(Fresh(user, family, m)) == 0 by { FreshIsGood(Config(0, 0), user, family, m); }
    ActiveAfterAdd(s.tokens, m.jti, Fresh(user, family, m));
    ActiveNone(s.tokens, family);
    NoSuccessors(s.parents, m.jti);
  }

  lemma LoginKeeps(c: Config, s: State, user: nat, family: nat, m: Minted)
    requires Inv(c, s) && m.jti !in s.tokens && family !in s.families
    ensures Inv(c, LoggedInState(s, user, family, m))
  {
    hide TokensGood, FamiliesGood, ParentsGood, ActiveBounded, SuccessorsCounted, ReusedDead, LoggedInState;
    LoginKeepsTokens(c, s, user, family, m);
    LoginKeepsCounts(s, user, family, m);
  }

  /** Some tokens are revoked; nothing else changes. */
  predicate OnlyRevokes(before: Tokens, after: Tokens) {
    && after.Keys == before.Keys
    && forall j :: j in after ==> after[j] == before[j].(revoked := after[j].revoked) && (before[j].revoked ==> after[j].revoked)
  }

  lemma RevokingKeepsTokens(c: Config, s: State, tokens: Tokens)
    requires TokensGood(c, s) && FamiliesGood(s) && ParentsGood(s) && OnlyRevokes(s.tokens, tokens)
    ensures var s' := s.(tokens := tokens); TokensGood(c, s') && FamiliesGood(s') && ParentsGood(s')
  {
  }

  lemma RevokingKeepsCounts(s: State, tokens: Tokens)
    requires ActiveBounded(s) && SuccessorsCounted(s) && ReusedDead(s) && OnlyRevokes(s.tokens, tokens)
    ensures var s' := s.(tokens := tokens); ActiveBounded(s') && SuccessorsCounted(s') && ReusedDead(s')
  {
    hide ActiveCount, SuccessorCount;
    ActiveWithin(s.tokens, tokens);
  }

  /** Revoking tokens, whichever, keeps everything. */
  lemma RevokingKeeps(c: Config, s: State, tokens: Tokens)
    requires Inv(c, s) && OnlyRevokes(s.tokens, tokens)
    ensures Inv(c, s.(tokens := tokens))
  {
    hide OnlyRevokes, TokensGood, FamiliesGood, ParentsGood, ActiveBounded, SuccessorsCounted, ReusedDead;
    RevokingKeepsTokens(c, s, tokens);
    RevokingKeepsCounts(s, tokens);
  }

  lemma RevokeFamilyKills(tokens: Tokens, f: nat)
    ensures ActiveCount(RevokeFamily(tokens, f), f) == 0
    ensures var after := RevokeFamily(tokens, f);
      forall j :: j in after ==> after[j] == tokens[j].(revoked := after[j].revoked) && (tokens[j].revoked ==> after[j].revoked)
  {
    assert ActiveIn(RevokeFamily(tokens, f), f) == {};
  }

  lemma ReuseKeeps(c: Config, s: State, f: nat)
    requires Inv(c, s) && f in s.families
    ensures Inv(c, s.(tokens := RevokeFamily(s.tokens, f), reused := s.reused + {f}))
  {
    hide ActiveCount, SuccessorCount, RevokeFamily, TokenGood;
    RevokeFamilyKills(s.tokens, f);
    RevokingKeeps(c, s, RevokeFamily(s.tokens, f));
  }

  /** The state after token j, now t, was exchanged for a new token. */
  function Exchange(s: State, j: nat, t: Token, m: Minted, families: map<nat, Family>): State {
    State(s.tokens[j := t][m.jti := Fresh(t.user, t.family, m)], s.parents[m.jti := j], families, s.reused)
  }

  lemma FreshIsGood(c: Config, user: nat, family: nat, m: Minted)
    ensures TokenGood(c, Fresh(user, family, m)) && Exchanges(Fresh(user, family, m)) == 0
  {
  }

  lemma ExchangeKeepsTokens(c: Config, s: State, j: nat, t: Token, m: Minted, families: map<nat, Family>)
    requires TokensGood(c, s) && FamiliesGood(s) && ParentsGood(s) && SuccessorsCounted(s)
    requires j in s.tokens && m.jti !in s.tokens && TokenGood(c, t)
    requires t.user == s.tokens[j].user && t.family == s.tokens[j].family && Exchanges(t) == Exchanges(s.tokens[j]) + 1
    requires families.Keys == s.families.Keys && forall f :: f in families ==> families[f].user == s.families[f].user
    ensures var s' := Exchange(s, j, t, m, families); TokensGood(c, s') && FamiliesGood(s') && ParentsGood(s') && SuccessorsCounted(s')
  {
    hide SuccessorCount, TokenGood, Exchanges;
    assert TokenGood(c, Fresh(t.user, t.family, m)) && Exchanges(Fresh(t.user, t.family, m)) == 0 by { FreshIsGood(c, t.user, t.family, m); }
    SuccessorsAfterAdd(s.parents, m.jti, j);
    NoSuccessors(s.parents, m.jti);
  }

  /** An exchange adds one unrevoked token to its family, less the exchanged one if it was unrevoked. */
  lemma ExchangeActive(tokens: Tokens, j: nat, t: Token, m: Minted)
    requires j in tokens && m.jti !in tokens && t.family == tokens[j].family && t.revoked
    ensures var after := tokens[j := t][m.jti := Fresh(t.user, t.family, m)];
      forall f :: ActiveCount(after, f) == ActiveCount(tokens, f) + (if f == t.family && tokens[j].revoked then 1 else 0)
  {
    ActiveAfterRevoke(tokens, j, t);
    ActiveAfterAdd(tokens[j := t], m.jti, Fresh(t.user, t.family, m));
    hide ActiveCount;
  }

  lemma RotateKeeps(c: Config, s: State, j: nat, now: int, m: Minted)
    requires Inv(c, s) && j in s.tokens && m.jti !in s.tokens && !s.tokens[j].revoked
    ensures Inv(c, Exchange(s, j, s.tokens[j].(revoked := true, rotatedAt := Some(now)), m, s.families))
  {
    var t := s.tokens[j].(revoked := true, rotatedAt := Some(now));
    assert TokenGood(c, s.tokens[j]);
    ExchangeKeepsTokens(c, s, j, t, m, s.families);
    ExchangeActive(s.tokens, j, t, m);
    hide ActiveCount, TokensGood, FamiliesGood, ParentsGood, SuccessorsCounted;
  }

  lemma ReplayKeepsActive(s: State, s': State, family: nat)
    requires ActiveBounded(s) && ReusedDead(s) && family in s.families
    requires ActiveCount(s.tokens, family) > 0 || family !in s.reused
    requires s'.reused == s.reused && s'.families.Keys == s.families.Keys
    requires forall f :: f in s.families ==> s'.families[f].accepted == s.families[f].accepted + (if f == family then 1 else 0)
    requires forall f :: ActiveCount(s'.tokens, f) == ActiveCount(s.tokens, f) + (if f == family then 1 else 0)
    ensures ActiveBounded(s') && ReusedDead(s')
  {
    hide ActiveCount;
  }

  lemma ReplayKeeps(c: Config, s: State, j: nat, t: Token, m: Minted, families: map<nat, Family>)
    requires Inv(c, s) && j in s.tokens && m.jti !in s.tokens && s.tokens[j].revoked && s.tokens[j].rotatedAt.Some?
    requires s.tokens[j].graceReplays < c.maxReplays
    requires FamilyHasActive(s.tokens, s.tokens[j].family) || s.tokens[j].family !in s.reused
    requires t == s.tokens[j].(graceReplays := s.tokens[j].graceReplays + 1)
    requires families == s.families[t.family := Family(t.user, Accepted(s, t.family) + 1)]
    ensures Inv(c, Exchange(s, j, t, m, families))
  {
    hide ActiveCount, FamilyHasActive, ActiveBounded, ReusedDead;
    assert TokenGood(c, s.tokens[j]) && t.family in s.families;
    ExchangeKeepsTokens(c, s, j, t, m, families);
    ExchangeActive(s.tokens, j, t, m);
    HasActive(s.tokens, t.family);
    hide TokensGood, FamiliesGood, ParentsGood, SuccessorsCounted, TokenGood;
    ReplayKeepsActive(s, Exchange(s, j, t, m, families), t.family);
  }

  lemma StepKeeps(c: Config, s: State, e: Event)
    requires Inv(c, s) && Enabled(s, e)
    ensures Inv(c, Apply(c, s, e))
  {
    hide Refresh, Judge, Stored, Accepted;
    match e
    case LoggedIn(user, family, m) =>
      hide Inv;
      LoginKeeps(c, s, user, family, m);
    case LoggedOut(p) =>
      hide Inv;
      RevokingKeeps(c, s, Logout(s.tokens, p));
    case RevokedAll(user) =>
      hide Inv;
      RevokingKeeps(c, s, RevokeUser(s.tokens, user));
    case Refreshed(p, now, userActive, m) => RefreshKeeps(c, s, p, now, userActive, m);
  }

  /** What each verdict says of the presented token. */
  lemma Judged(c: Config, tokens: Tokens, p: Presented, now: int, userActive: bool)
    ensures var verdict, found := Judge(c, tokens, p, now, userActive), Stored(tokens, p);
      && (verdict != Refused ==> found.Some? && found.value in tokens)
      && (verdict == Rotates ==> !tokens[found.value].revoked)
      && (verdict == Replays ==>
        var t := tokens[found.value];
        t.revoked && t.rotatedAt.Some? && t.graceReplays < c.maxReplays && FamilyHasActive(tokens, t.family))
  {
    hide FamilyHasActive;
  }

  /** The state a replayed token's exchange leaves. */
  function Replayed(s: State, j: nat, m: Minted): State
    requires j in s.tokens
  {
    var t := s.tokens[j];
    Exchange(s, j, t.(graceReplays := t.graceReplays + 1), m, s.families[t.family := Family(t.user, Accepted(s, t.family) + 1)])
  }

  function Rotated(s: State, j: nat, now: int, m: Minted): State
    requires j in s.tokens
  {
    Exchange(s, j, s.tokens[j].(revoked := true, rotatedAt := Some(now)), m, s.families)
  }

  /** What a refresh request does to the state, by its verdict. */
  lemma RefreshedState(c: Config, s: State, p: Presented, now: int, userActive: bool, m: Minted)
    requires m.jti !in s.tokens
    ensures var after, verdict := Apply(c, s, Refreshed(p, now, userActive, m)), Judge(c, s.tokens, p, now, userActive);
      && (verdict == Refused ==> after == s)
      && (verdict != Refused ==>
        var found := Stored(s.tokens, p);
        && found.Some? && found.value in s.tokens
        && (verdict == Reuse ==>
          var f := s.tokens[found.value].family;
          after == s.(tokens := RevokeFamily(s.tokens, f), reused := s.reused + {f}))
        && (verdict == Replays ==> after == Replayed(s, found.value, m))
        && (verdict == Rotates ==> after == Rotated(s, found.value, now, m)))
  {
    Judged(c, s.tokens, p, now, userActive);
    hide Judge, Stored, RevokeFamily, FamilyHasActive, Accepted;
  }

  lemma ReplayedKeeps(c: Config, s: State, j: nat, m: Minted)
    requires Inv(c, s) && j in s.tokens && m.jti !in s.tokens && s.tokens[j].revoked && s.tokens[j].rotatedAt.Some?
    requires s.tokens[j].graceReplays < c.maxReplays
    requires FamilyHasActive(s.tokens, s.tokens[j].family) || s.tokens[j].family !in s.reused
    ensures Inv(c, Replayed(s, j, m))
  {
    hide Inv, FamilyHasActive, Exchange;
    var t := s.tokens[j];
    ReplayKeeps(c, s, j, t.(graceReplays := t.graceReplays + 1), m,
                s.families[t.family := Family(t.user, Accepted(s, t.family) + 1)]);
  }

  lemma RefreshKeeps(c: Config, s: State, p: Presented, now: int, userActive: bool, m: Minted)
    requires Inv(c, s) && m.jti !in s.tokens
    ensures Inv(c, Apply(c, s, Refreshed(p, now, userActive, m)))
  {
    var verdict, found := Judge(c, s.tokens, p, now, userActive), Stored(s.tokens, p);
    Judged(c, s.tokens, p, now, userActive);
    RefreshedState(c, s, p, now, userActive, m);
    assert verdict == Reuse ==> s.tokens[found.value].family in s.families by {
      hide Judge, Stored, Apply, TokensGood, ActiveBounded, ParentsGood, SuccessorsCounted, ReusedDead, Rotated, Replayed, RevokeFamily;
    }
    hide *;
    if verdict == Reuse {
      ReuseKeeps(c, s, s.tokens[found.value].family);
    } else if verdict == Replays {
      ReplayedKeeps(c, s, found.value, m);
    } else if verdict == Rotates {
      RotateKeeps(c, s, found.value, now, m);
      RotatedIs(s, found.value, now, m);
    }
  }

  lemma RotatedIs(s: State, j: nat, now: int, m: Minted)
    requires j in s.tokens
    ensures Rotated(s, j, now, m) == Exchange(s, j, s.tokens[j].(revoked := true, rotatedAt := Some(now)), m, s.families)
  {
    hide Exchange;
  }

  // ------------------------------------------------------------ runs

  predicate IsRun(c: Config, es: seq<Event>)
    decreases |es|, 0
  {
    es == [] || (IsRun(c, es[..|es| - 1]) && Enabled(After(c, es[..|es| - 1]), es[|es| - 1]))
  }

  function After(c: Config, es: seq<Event>): State
    requires IsRun(c, es)
    decreases |es|, 1
  {
    if es == [] then Start else Apply(c, After(c, es[..|es| - 1]), es[|es| - 1])
  }

  lemma {:induction false} RunsKeep(c: Config, es: seq<Event>)
    requires IsRun(c, es)
    ensures Inv(c, After(c, es))
  {
    hide Apply, Enabled;
    if es != [] {
      RunsKeep(c, es[..|es| - 1]);
      StepKeeps(c, After(c, es[..|es| - 1]), es[|es| - 1]);
    }
  }

  /** Over any run, the unrevoked tokens of a family number at most one plus its accepted replays. */
  lemma FamilyBound(c: Config, es: seq<Event>, family: nat)
    requires IsRun(c, es)
    ensures |ActiveIn(After(c, es).tokens, family)| <= 1 + Accepted(After(c, es), family)
  {
    hide Apply, Enabled;
    RunsKeep(c, es);
    var s := After(c, es);
    if family !in s.families {
      ActiveNone(s.tokens, family);
    }
  }

  /** Without a grace window, or without replays allowed in it, a family never has more than one unrevoked token. */
  lemma {:induction false} NoGraceNoReplays(c: Config, es: seq<Event>, family: nat)
    requires IsRun(c, es) && (c.graceSeconds == 0 || c.maxReplays == 0)
    ensures Accepted(After(c, es), family) == 0
    ensures |ActiveIn(After(c, es).tokens, family)| <= 1
  {
    if es != [] {
      NoGraceNoReplays(c, es[..|es| - 1], family);
      hide Refresh, RevokeUser, Logout;
    }
    FamilyBound(c, es, family);
  }

  /** Over any run, a token is exchanged at most once and then replayed at most maxReplays times, within its own family. */
  lemma SuccessorBound(c: Config, es: seq<Event>, j: nat)
    requires IsRun(c, es) && j in After(c, es).tokens
    ensures |Successors(After(c, es).parents, j)| <= 1 + c.maxReplays
    ensures var s := After(c, es);
      forall x :: x in Successors(s.parents, j) ==> x in s.tokens && s.tokens[x].family == s.tokens[j].family && s.tokens[x].user == s.tokens[j].user
  {
    hide Apply, Enabled;
    RunsKeep(c, es);
  }

  /** The event exchanged token j for token x: a refresh token that had not expired, of an active user. */
  predicate Exchanged(e: Event, j: nat, x: nat, expiresAt: int) {
    e.Refreshed? && e.minted.jti == x && e.presented == Decoded(true, Some(j)) && e.now <= expiresAt && e.userActive
  }

  ghost predicate ExchangedIn(es: seq<Event>, j: nat, x: nat, expiresAt: int) {
    exists k :: 0 <= k < |es| && Exchanged(es[k], j, x, expiresAt)
  }

  lemma ExpiryStays(c: Config, s: State, e: Event, j: nat)
    requires Enabled(s, e) && j in s.tokens
    ensures j in Apply(c, s, e).tokens && Apply(c, s, e).tokens[j].expiresAt == s.tokens[j].expiresAt
  {
    hide FamilyHasActive, Accepted;
  }

  lemma ParentStep(c: Config, s: State, e: Event, x: nat)
    requires Enabled(s, e) && x in Apply(c, s, e).parents && (x in s.parents ==> x in s.tokens)
    ensures (x in s.parents && Apply(c, s, e).parents[x] == s.parents[x])
      || (Apply(c, s, e).parents[x] in s.tokens
          && Exchanged(e, Apply(c, s, e).parents[x], x, s.tokens[Apply(c, s, e).parents[x]].expiresAt))
  {
    hide FamilyHasActive, Accepted, Benign;
  }

  /** Over any run a token that has expired, or whose user is not active, gains no successor. */
  lemma {:induction false} OnlyLiveTokensAreExchanged(c: Config, es: seq<Event>, x: nat)
    requires IsRun(c, es) && x in After(c, es).parents
    ensures var s := After(c, es); s.parents[x] in s.tokens && ExchangedIn(es, s.parents[x], x, s.tokens[s.parents[x]].expiresAt)
  {
    hide Apply, Enabled, Exchanged;
    if es != [] {
      var n := |es| - 1;
      var before, after := After(c, es[..n]), After(c, es);
      RunsKeep(c, es[..n]);
      ParentStep(c, before, es[n], x);
      if x in before.parents && after.parents[x] == before.parents[x] {
        OnlyLiveTokensAreExchanged(c, es[..n], x);
        var k :| 0 <= k < n && Exchanged(es[..n][k], after.parents[x], x, before.tokens[after.parents[x]].expiresAt);
        assert Exchanged(es[k], after.parents[x], x, before.tokens[after.parents[x]].expiresAt);
      } else {
        assert Exchanged(es[n], after.parents[x], x, before.tokens[after.parents[x]].expiresAt);
      }
      ExpiryStays(c, before, es[n], after.parents[x]);
      hide Inv;
    }
  }

  /** After a password change, say, every token of the user is revoked, and nothing else has changed. */
  lemma RevokedAllExactly(c: Config, s: State, user: nat)
    ensures var s' := Apply(c, s, RevokedAll(user));
      && s'.tokens.Keys == s.tokens.Keys && s'.parents == s.parents && s'.families == s.families && s'.reused == s.reused
      && forall j :: j in s.tokens ==>
        var t := s.tokens[j];
        s'.tokens[j] == Token(t.user, t.family, t.expiresAt, t.revoked || t.user == user, t.rotatedAt, t.graceReplays)
  {
  }

  /** The tokens a family has, in any state. */
  function Members(tokens: Tokens, family: nat): set<nat> {
    set j | j in tokens && tokens[j].family == family
  }

  /** In a dead family every presented token is refused, and at most revokes the family again. */
  lemma DeadIsRefused(c: Config, s: State, p: Presented, now: int, userActive: bool)
    requires Inv(c, s) && Stored(s.tokens, p).Some? && s.tokens[Stored(s.tokens, p).value].family in s.reused
    ensures Judge(c, s.tokens, p, now, userActive) == Reuse
  {
    var j := Stored(s.tokens, p).value;
    var f := s.tokens[j].family;
    ActiveNone(s.tokens, f);
  }

  /** A refresh adds no token to a family other than the presented token's. */
  lemma RefreshElsewhere(c: Config, tokens: Tokens, p: Presented, now: int, userActive: bool, m: Minted, family: nat)
    requires m.jti !in tokens
    requires Judge(c, tokens, p, now, userActive) == Reuse || (Stored(tokens, p).Some? ==> tokens[Stored(tokens, p).value].family != family)
    ensures Members(Refresh(c, tokens, p, now, userActive, m), family) == Members(tokens, family)
  {
    Judged(c, tokens, p, now, userActive);
    hide Judge, Stored, FamilyHasActive;
  }

  lemma DeadRefresh(c: Config, s: State, e: Event, family: nat)
    requires Inv(c, s) && Enabled(s, e) && family in s.reused && e.Refreshed?
    ensures family in Apply(c, s, e).reused && Members(Apply(c, s, e).tokens, family) == Members(s.tokens, family)
  {
    var found := Stored(s.tokens, e.presented);
    if found.Some? && s.tokens[found.value].family == family {
      DeadIsRefused(c, s, e.presented, e.now, e.userActive);
    }
    hide Inv, Refresh, Judge, Stored, Members;
    RefreshElsewhere(c, s.tokens, e.presented, e.now, e.userActive, e.minted, family);
  }

  lemma DeadStep(c: Config, s: State, e: Event, family: nat)
    requires Inv(c, s) && Enabled(s, e) && family in s.reused
    ensures family in Apply(c, s, e).reused && Members(Apply(c, s, e).tokens, family) == Members(s.tokens, family)
  {
    assert family in s.families;
    hide Inv;
    if e.Refreshed? {
      DeadRefresh(c, s, e, family);
    }
    hide Refresh, Judge, Stored;
  }

  /** Once reuse has been detected in a family it is dead: whatever follows, all its tokens stay revoked and it gains none. */
  lemma {:induction false} ReuseKillsForever(c: Config, es: seq<Event>, more: seq<Event>, family: nat)
    requires IsRun(c, es) && IsRun(c, es + more) && family in After(c, es).reused
    ensures family in After(c, es + more).reused && ActiveCount(After(c, es + more).tokens, family) == 0
    ensures Members(After(c, es + more).tokens, family) == Members(After(c, es).tokens, family)
    decreases |more|
  {
    hide Apply, Enabled;
    RunsKeep(c, es + more);
    if more == [] {
      assert es + more == es;
    } else {
      var n := |more| - 1;
      assert (es + more)[..|es + more| - 1] == es + more[..n];
      ReuseKillsForever(c, es, more[..n], family);
      RunsKeep(c, es + more[..n]);
      DeadStep(c, After(c, es + more[..n]), more[n], family);
    }
  }

  /** Logging out with an unrevoked token leaves at most one unrevoked token for each replay its family was granted. */
  lemma LogoutLeaves(c: Config, es: seq<Event>, p: Presented)
    requires IsRun(c, es) && p.Decoded? && p.jti.Some? && p.jti.value in After(c, es).tokens && !After(c, es).tokens[p.jti.value].revoked
    ensures var s := After(c, es); var f := s.tokens[p.jti.value].family;
      |ActiveIn(Logout(s.tokens, p), f)| <= Accepted(s, f)
  {
    hide Apply, Enabled;
    var s, j := After(c, es), p.jti.value;
    FamilyBound(c, es, s.tokens[j].family);
    ActiveAfterRevoke(s.tokens, j, s.tokens[j].(revoked := true));
    assert ActiveCount(Logout(s.tokens, p), s.tokens[j].family) == ActiveCount(s.tokens, s.tokens[j].family) - 1;
  }

  lemma Extend(c: Config, es: seq<Event>, e: Event) returns (es': seq<Event>)
    requires IsRun(c, es) && Enabled(After(c, es), e)
    ensures IsRun(c, es') && After(c, es') == Apply(c, After(c, es), e)
  {
    es' := es + [e];
    assert es'[..|es'| - 1] == es;
  }

  /** A logout, with a token of any state, ends the token's family exactly when no other token of the family is unrevoked. */
  lemma LogoutEndsWhen(tokens: Tokens, isRefresh: bool, j: nat)
    requires j in tokens
    ensures !FamilyHasActive(Logout(tokens, Decoded(isRefresh, Some(j))), tokens[j].family) <==> ActiveIn(tokens, tokens[j].family) <= {j}
  {
    var after, f := Logout(tokens, Decoded(isRefresh, Some(j))), tokens[j].family;
    if FamilyHasActive(after, f) {
      var i :| i in after && after[i].family == f && !after[i].revoked;
      assert i in ActiveIn(tokens, f) && i != j;
    } else {
      forall i | i in ActiveIn(tokens, f)
        ensures i == j
      {
        assert i in after;
      }
    }
  }

  /** Whatever the configuration, a logout with a token that was rotated before leaves its family usable. */
  lemma OldTokenLogsNobodyOut(c: Config) returns (es: seq<Event>)
    ensures IsRun(c, es)
    ensures var s := After(c, es);
      && 0 in s.tokens && s.tokens[0].family == 7 && s.tokens[0].revoked
      && FamilyHasActive(Logout(s.tokens, Decoded(true, Some(0))), 7)
  {
    hide IsRun, After;
    EmptyRun(c);
    es := Extend(c, [], LoggedIn(3, 7, Minted(0, 100)));
    assert After(c, es).tokens == map[0 := Token(3, 7, 100, false, None, 0)];
    es := Extend(c, es, Refreshed(Decoded(true, Some(0)), 5, true, Minted(1, 100)));
    var s := After(c, es);
    assert 1 in ActiveIn(s.tokens, 7);
    LogoutEndsWhen(s.tokens, true, 0);
  }

  /** Replays can be granted at all. */
  predicate GrantsReplays(c: Config) {
    c.graceSeconds > 0 && c.maxReplays > 0
  }

  ghost predicate LogoutEndsFamily(tokens: Tokens, p: Presented) {
    (p.Decoded? && p.jti.Some? && p.jti.value in tokens && !tokens[p.jti.value].revoked) ==>
      !FamilyHasActive(Logout(tokens, p), tokens[p.jti.value].family)
  }

  /** In every run, logging out with an unrevoked token leaves its family without one. */
  ghost predicate LogoutAlwaysEnds(c: Config) {
    forall es, p :: IsRun(c, es) ==> LogoutEndsFamily(After(c, es).tokens, p)
  }

  /** Requests one after the other: a logout with an unrevoked token ends its family in every run exactly when no replay is ever granted. */
  lemma LogoutEndsExactly(c: Config)
    ensures LogoutAlwaysEnds(c) <==> !GrantsReplays(c)
  {
    hide IsRun, After, Logout, FamilyHasActive;
    if GrantsReplays(c) {
      var es := LogoutCanLeaveTheFamily(c);
      assert !LogoutEndsFamily(After(c, es).tokens, Decoded(true, Some(1)));
    } else {
      forall es, p | IsRun(c, es)
        ensures LogoutEndsFamily(After(c, es).tokens, p)
      {
        LogoutEnds(c, es, p);
      }
    }
  }

  lemma LogoutEnds(c: Config, es: seq<Event>, p: Presented)
    requires IsRun(c, es) && !GrantsReplays(c)
    ensures LogoutEndsFamily(After(c, es).tokens, p)
  {
    hide IsRun, After, Logout, FamilyHasActive;
    var s := After(c, es);
    if p.Decoded? && p.jti.Some? && p.jti.value in s.tokens && !s.tokens[p.jti.value].revoked {
      var f := s.tokens[p.jti.value].family;
      NoGraceNoReplays(c, es, f);
      LogoutLeaves(c, es, p);
      HasActive(Logout(s.tokens, p), f);
    }
  }

  /** Logout ends the presented token only: after a granted replay the family lives on in its other token. */
  lemma LogoutCanLeaveTheFamily(c: Config) returns (es: seq<Event>)
    requires GrantsReplays(c)
    ensures IsRun(c, es)
    ensures var s := After(c, es);
      && 1 in s.tokens && s.tokens[1].family == 7 && !s.tokens[1].revoked
      && FamilyHasActive(Logout(s.tokens, Decoded(true, Some(1))), 7)
  {
    hide IsRun, After;
    assert IsRun(c, []) && After(c, []) == Start by { EmptyRun(c); }
    es := Extend(c, [], LoggedIn(3, 7, Minted(0, 100)));
    var first := After(c, es);
    assert first.tokens == map[0 := Token(3, 7, 100, false, None, 0)];
    es := Extend(c, es, Refreshed(Decoded(true, Some(0)), 5, true, Minted(1, 100)));
    var second := After(c, es);
    assert second.tokens[0] == Token(3, 7, 100, true, Some(5), 0) && second.tokens[1] == Token(3, 7, 100, false, None, 0);
    assert FamilyHasActive(second.tokens, 7);
    es := Extend(c, es, Refreshed(Decoded(true, Some(0)), 5, true, Minted(2, 100)));
    var s := After(c, es);
    assert s.tokens[2] == Token(3, 7, 100, false, None, 0) && s.tokens[1] == second.tokens[1];
    var after := Logout(s.tokens, Decoded(true, Some(1)));
    assert 2 in after && after[2] == s.tokens[2];
  }

  lemma EmptyRun(c: Config)
    ensures IsRun(c, []) && After(c, []) == Start
  {
  }

  // ------------------------------------------------------------ the table as the requests change it

  class TokenTable {
    var tokens: Tokens

    constructor ()
      ensures tokens == map[]
    {
      tokens := map[];
    }

    /** A login's family has exactly the new token unrevoked; every other family has the unrevoked tokens it had. */
    method IssueTokens(user: nat, family: nat, m: Minted)
      requires m.jti !in tokens && forall j :: j in tokens ==> tokens[j].family != family
      modifies this
      ensures tokens == old(tokens)[m.jti := Token(user, family, m.expiresAt, false, None, 0)]
      ensures ActiveIn(tokens, family) == Members(tokens, family) == {m.jti}
      ensures forall f :: f != family ==> ActiveIn(tokens, f) == old(ActiveIn(tokens, f))
    {
      tokens := tokens[m.jti := Token(user, family, m.expiresAt, false, None, 0)];
    }

    /** Rotated a moment ago, presented again not too often, and the family has an unrevoked token. */
    ghost predicate IsBenign(c: Config, j: nat, now: int)
      requires j in tokens
      reads this
    {
      var t := tokens[j];
      && c.graceSeconds > 0 && t.graceReplays < c.maxReplays
      && t.rotatedAt.Some? && now <= t.rotatedAt.value + c.graceSeconds
      && exists i :: i in tokens && tokens[i].family == t.family && !tokens[i].revoked
    }

    /** A stored refresh token that is revoked, and whose presentation is not benign. */
    ghost predicate IsReuse(c: Config, p: Presented, now: int)
      reads this
    {
      p.Decoded? && p.isRefresh && p.jti.Some? && p.jti.value in tokens && tokens[p.jti.value].revoked && !IsBenign(c, p.jti.value, now)
    }

    method IsBenignReplay(c: Config, t: Token, now: int) returns (benign: bool)
      ensures benign <==>
        && c.graceSeconds > 0 && t.graceReplays < c.maxReplays
        && t.rotatedAt.Some? && now <= t.rotatedAt.value + c.graceSeconds
        && exists j :: j in tokens && tokens[j].family == t.family && !tokens[j].revoked
    {
      if c.graceSeconds == 0 {
        return false;
      }
      if t.rotatedAt.None? || now - t.rotatedAt.value > c.graceSeconds {
        return false;
      }
      if t.graceReplays >= c.maxReplays {
        return false;
      }
      benign := exists j | j in tokens :: tokens[j].family == t.family && !tokens[j].revoked;
    }

    /**
     A pair is issued exactly for a stored refresh token that has not expired, of an active user, when the token is unrevoked or its replay
     is benign.  A refused request has changed nothing except the revocation of the family, committed when the token was revoked and its
     presentation not benign.
     */
    method RefreshPair(c: Config, p: Presented, now: int, userActive: bool, m: Minted) returns (issued: bool)
      requires m.jti !in tokens
      modifies this
      ensures tokens == Refresh(c, old(tokens), p, now, userActive, m)
      ensures issued <==> (
        && p.Decoded? && p.isRefresh && p.jti.Some? && p.jti.value in old(tokens)
        && now <= old(tokens)[p.jti.value].expiresAt && userActive
        && (!old(tokens)[p.jti.value].revoked || old(IsBenign(c, p.jti.value, now))))
      ensures issued ==>
        var j := p.jti.value;
        var t := old(tokens)[j];
        tokens == old(tokens)[m.jti := Token(t.user, t.family, m.expiresAt, false, None, 0)][j :=
          if t.revoked then Token(t.user, t.family, t.expiresAt, true, t.rotatedAt, t.graceReplays + 1)
          else Token(t.user, t.family, t.expiresAt, true, Some(now), t.graceReplays)]
      ensures !issued && old(IsReuse(c, p, now)) ==>
        && tokens.Keys == old(tokens).Keys
        && forall j :: j in tokens ==>
          var t := old(tokens)[j];
          tokens[j] == Token(t.user, t.family, t.expiresAt, t.revoked || t.family == old(tokens)[p.jti.value].family, t.rotatedAt, t.graceReplays)
      ensures !issued && !old(IsReuse(c, p, now)) ==> tokens == old(tokens)
    {
      if p.Undecodable? || !p.isRefresh || p.jti.None? || p.jti.value !in tokens {
        return false;
      }
      var j := p.jti.value;
      var stored := tokens[j];
      var replay := false;
      if stored.revoked {
        replay := IsBenignReplay(c, stored, now);
        if !replay {
          tokens := RevokeFamily(tokens, stored.family);
          return false;
        }
      }
      if stored.expiresAt < now || !userActive {
        return false;
      }
      if replay {
        tokens := tokens[j := stored.(graceReplays := stored.graceReplays + 1)];
      } else {
        tokens := tokens[j := stored.(revoked := true, rotatedAt := Some(now))];
      }
      tokens := tokens[m.jti := Token(stored.user, stored.family, m.expiresAt, false, None, 0)];
      issued := true;
    }

    method LogoutToken(p: Presented)
      modifies this
      ensures tokens == Logout(old(tokens), p)
      ensures tokens.Keys == old(tokens).Keys
      ensures forall j :: j in tokens ==>
        var t := old(tokens)[j];
        tokens[j] == Token(t.user, t.family, t.expiresAt, t.revoked || p == Decoded(true, Some(j)) || p == Decoded(false, Some(j)), t.rotatedAt, t.graceReplays)
    {
      if p.Undecodable? || p.jti.None? || p.jti.value !in tokens {
        return;
      }
      var stored := tokens[p.jti.value];
      if !stored.revoked {
        tokens := tokens[p.jti.value := stored.(revoked := true)];
      }
    }
  }
}
