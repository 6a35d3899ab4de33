/** The authentication calls as the code runs them, each against everybody else's steps. */
module AuthService {
  import opened Options
  import opened Sessions
  import opened SessionTheorems

  predicate HasCall(l: Label) {
    l.Start? || l.MeasureStart? || l.Create? || l.Parse? || l.Validate? || l.MeasureRefresh? || l.Consume? || l.Sign?
      || l.Drop?
  }

  /** The others never act for call c and never draw its session identifier. */
  predicate Foreign(ls: seq<Label>, c: nat, sid: string) {
    forall k :: 0 <= k < |ls| ==> (HasCall(ls[k]) ==> ls[k].c != c) && (ls[k].Start? ==> ls[k].sid != sid)
  }

  ghost predicate CallKept(s: State, t: State, c: nat, sid: string) {
    SameCall(s, t, c) && (sid !in s.sids ==> sid !in t.sids)
  }

  ghost predicate HistoryKept(s: State, t: State) {
    && s.issued <= t.issued && s.now <= t.now && |s.redemptions| <= |t.redemptions|
    && forall k | 0 <= k < |s.redemptions| :: t.redemptions[k].claims == s.redemptions[k].claims
  }

  ghost predicate Untouched(s: State, t: State, c: nat, sid: string) {
    CallKept(s, t, c, sid) && HistoryKept(s, t)
  }

  lemma HistoryStep(s: State, l: Label)
    ensures HistoryKept(s, Step(s, l))
  {
    ClaimsStay(s, l);
  }

  ghost predicate SameCall(s: State, t: State, c: nat) {
    (c in t.calls <==> c in s.calls) && (c in s.calls ==> t.calls[c] == s.calls[c])
  }

  lemma ForeignStart(s: State, l: Label, c: nat)
    requires Starts(l) && l.c != c
    ensures SameCall(s, Step(s, l), c)
  {
  }

  lemma ForeignRefresh(s: State, l: Label, c: nat)
    requires Refreshes(l) && l.c != c
    ensures SameCall(s, Step(s, l), c)
  {
  }

  lemma ForeignCall(s: State, l: Label, c: nat)
    requires HasCall(l) ==> l.c != c
    ensures SameCall(s, Step(s, l), c)
  {
    if Starts(l) { ForeignStart(s, l, c); } else if Refreshes(l) { ForeignRefresh(s, l, c); }
  }

  lemma ForeignSid(s: State, l: Label, sid: string)
    requires l.Start? ==> l.sid != sid
    ensures sid !in s.sids ==> sid !in Step(s, l).sids
  {
  }

  lemma ForeignStep(s: State, l: Label, c: nat, sid: string)
    requires HasCall(l) ==> l.c != c
    requires l.Start? ==> l.sid != sid
    ensures CallKept(s, Step(s, l), c, sid)
  {
    ForeignCall(s, l, c);
    ForeignSid(s, l, sid);
  }

  lemma {:induction false} RunConcat(s: State, a: seq<Label>, b: seq<Label>)
    ensures Run(s, a + b) == Run(Run(s, a), b)
    decreases |a|
  {
    if a == [] {
      assert a + b == b;
    } else {
      assert (a + b)[1..] == a[1..] + b;
      RunConcat(Step(s, a[0]), a[1..], b);
    }
  }

  /** Step k of the run was a logout of the session that got as far as the revocation. */
  ghost predicate LoggedOutAt(start: State, trace: seq<Label>, k: nat, sid: string) {
    && k < |trace| && trace[k].Logout? && trace[k].access.sid == sid
    && LogoutAllowed(Run(start, trace[..k]), trace[k].access, trace[k].refresh)
  }

  ghost predicate LoggedOut(start: State, trace: seq<Label>, sid: string) {
    exists k: nat :: LoggedOutAt(start, trace, k, sid)
  }

  /** After k steps the account had moved past the version of this token, or was gone. */
  ghost predicate OutdatedAt(start: State, trace: seq<Label>, k: nat, t: Token) {
    k <= |trace| && t in Run(start, trace[..k]).issued && !AccountValid(Run(start, trace[..k]), t)
  }

  ghost predicate Outdated(start: State, trace: seq<Label>, sid: string) {
    exists k: nat, t: Token :: t.sid == sid && OutdatedAt(start, trace, k, t)
  }

  lemma PrefixRun(start: State, trace: seq<Label>, k: nat)
    requires Initial(start) && k <= |trace|
    ensures Reachable(Run(start, trace[..k])) && Run(start, trace) == Run(Run(start, trace[..k]), trace[k..])
  {
    assert trace == trace[..k] + trace[k..];
    RunConcat(start, trace[..k], trace[k..]);
  }

  /** A session that was logged out at any time is inactive for everybody. */
  lemma LoggedOutIsInactive(start: State, trace: seq<Label>, sid: string, userId: int)
    requires Initial(start) && LoggedOut(start, trace, sid)
    ensures !SessionActive(Run(start, trace), sid, userId)
  {
    var k: nat :| LoggedOutAt(start, trace, k, sid);
    PrefixRun(start, trace, k);
    var m := Run(start, trace[..k]);
    assert trace[k..][1..] == trace[k + 1..];
    assert Run(m, trace[k..]) == Run(Step(m, trace[k]), trace[k + 1..]);
    LogoutIsFinal(m, trace[k].access, trace[k].refresh, trace[k + 1..], userId);
  }

  /** No token of a session that was outdated at any time passes the account check again. */
  lemma OutdatedIsInvalid(start: State, trace: seq<Label>, claims: Token)
    requires Initial(start) && Outdated(start, trace, claims.sid) && claims in Run(start, trace).issued
    ensures !AccountValid(Run(start, trace), claims)
  {
    var k: nat, t: Token :| t.sid == claims.sid && OutdatedAt(start, trace, k, t);
    PrefixRun(start, trace, k);
    OldVersionNeverValid(Run(start, trace[..k]), t, trace[k..], claims);
  }

  /** Nobody else acts during the call. */
  ghost predicate Alone(gap: nat -> seq<Label>) {
    forall k :: gap(k) == []
  }

  /**
   * What a start needs: a verified user, positive timeouts, an unused identifier, and a deadline that is still ahead.
   */
  ghost predicate CanStart(s: State, userId: int, version: int, sid: string, jtiA: string, jtiR: string) {
    && userId > 0 && version > 0 && s.accessTimeout > 0 && s.refreshTimeout > 0
    && sid != "" && jtiA != "" && jtiR != "" && sid !in s.sids
    && (userId in s.users ==> version <= s.users[userId].version)
    && Millis(WholeSecond(s.now + Max(s.refreshTimeout, s.accessTimeout)) - s.now) > 0
  }

  /** The lifetime measured earlier is positive, and no live key has the identifier. */
  predicate CanCreate(s: State, c: nat)
    requires c in s.calls && s.calls[c].Creating?
  {
    var sid := s.calls[c].pair.refresh.sid;
    && Millis(s.calls[c].origin.deadline - s.calls[c].asOf) > 0
    && !(sid in s.sessions && Live(s.now, s.sessions[sid].when))
  }

  class Service {
    var s: State
    /** Every step since the service started. */
    ghost var trace: seq<Label>
    ghost const start: State

    ghost predicate Valid()
      reads this
    {
      Initial(start) && s == Run(start, trace)
    }

    constructor (s: State)
      requires Initial(s)
      ensures Valid() && this.s == s && start == s
    {
      this.s, trace, start := s, [], s;
    }

    method Do(l: Label)
      requires Valid()
      modifies this
      ensures Valid() && s == Step(old(s), l)
    {
      RunConcat(start, trace, [l]);
      assert Run(s, [l]) == Run(Step(s, l), [l][1..]);
      s := Step(s, l);
      trace := trace + [l];
    }

    method Wait(ls: seq<Label>, ghost c: nat, ghost sid: string)
      requires Valid() && Foreign(ls, c, sid)
      modifies this
      ensures Valid() && Untouched(old(s), s, c, sid) && (ls == [] ==> s == old(s))
    {
      for k := 0 to |ls|
        invariant Valid() && Untouched(old(s), s, c, sid) && (k == 0 ==> s == old(s))
      {
        ForeignStep(s, ls[k], c, sid);
        HistoryStep(s, ls[k]);
        Do(ls[k]);
      }
    }

    /**
     * The account is checked against the current credential version, and the claims get the current role. Once a
     * session was outdated, no token of it passes again.
     */
    method ValidateAccount(claims: Token) returns (ok: bool, checked: Token)
      requires Valid()
      ensures claims in s.issued && Outdated(start, trace, claims.sid) ==> !ok
      ensures ok <==> AccountValid(s, claims)
      ensures checked == if ok then claims.(role := s.users[claims.userId].role) else claims
    {
      checked := claims;
      ok := claims.userId > 0 && claims.version > 0 && claims.userId in s.users
        && s.users[claims.userId].version == claims.version;
      if ok {
        checked := claims.(role := s.users[claims.userId].role);
      }
      if claims in s.issued && Outdated(start, trace, claims.sid) {
        OutdatedIsInvalid(start, trace, claims);
      }
    }

    /** Only the access token of an active session passes; once the session was logged out, none does. */
    method ValidateSession(claims: Token) returns (ok: bool)
      requires Valid()
      ensures LoggedOut(start, trace, claims.sid) ==> !ok
      ensures ok <==>
              claims.kind == Access && claims.sid != "" && claims.jti != "" && claims.userId > 0
                && SessionActive(s, claims.sid, claims.userId)
    {
      if claims.sid == "" || claims.jti == "" || claims.userId <= 0 || claims.kind != Access {
        return false;
      }
      ok := SessionActive(s, claims.sid, claims.userId);
      if LoggedOut(start, trace, claims.sid) {
        LoggedOutIsInactive(start, trace, claims.sid, claims.userId);
      }
    }

    /** A returned pair belongs to a session that is active for its user, under the verified version. */
    method StartSession(c: nat, userId: int, version: int, role: string, sid: string, jtiA: string, jtiR: string,
        lost: bool, gap: nat -> seq<Label>)
      returns (r: Option<Pair>)
      requires Valid() && c !in s.calls && forall k :: Foreign(gap(k), c, sid)
      modifies this
      ensures Valid() && c !in s.calls
      ensures r.Some? ==> r.value.access in s.issued && r.value.refresh in s.issued
      ensures r.Some? ==>
                r.value.access.sid == sid && r.value.refresh.version == version && SessionActive(s, sid, userId)
      ensures Alone(gap) && !lost ==> (r.Some? <==> old(CanStart(s, userId, version, sid, jtiA, jtiR)))
    {
      if sid in s.sessions { KeyIsUsed(s, sid); }
      Do(Start(c, userId, version, role, sid, jtiA, jtiR));
      if c !in s.calls {
        return None;
      }
      r := Some(s.calls[c].pair);
      var created := MeasureAndCreate(c, sid, lost, gap);
      if !created {
        r := None;
      }
    }

    /** Measures the remaining lifetime and creates the session key with it. */
    method MeasureAndCreate(c: nat, ghost sid: string, lost: bool, gap: nat -> seq<Label>) returns (created: bool)
      requires Valid() && c in s.calls && s.calls[c].Signed? && s.calls[c].pair.refresh.sid == sid
      requires forall k :: Foreign(gap(k), c, sid)
      modifies this
      ensures Valid() && c !in s.calls
      ensures var pair := old(s.calls[c].pair);
              created ==>
                && pair.access in s.issued && pair.refresh in s.issued
                && SessionActive(s, sid, old(s.calls[c].origin.userId))
      ensures Alone(gap) && !lost && old(sid !in s.sessions) ==>
                (created <==> old(Millis(s.calls[c].origin.deadline - s.now) > 0))
    {
      Wait(gap(0), c, sid);
      Do(MeasureStart(c));
      Wait(gap(1), c, sid);
      created := CreateSession(c, lost);
    }

    method CreateSession(c: nat, lost: bool) returns (created: bool)
      requires Valid() && c in s.calls && s.calls[c].Creating?
      modifies this
      ensures Valid() && c !in s.calls
      ensures var pair, origin := old(s.calls[c].pair), old(s.calls[c].origin);
              created ==>
                pair.access in s.issued && pair.refresh in s.issued && SessionActive(s, pair.refresh.sid, origin.userId)
      ensures created <==> !lost && old(CanCreate(s, c))
    {
      var pair := s.calls[c].pair;
      var fits := Millis(s.calls[c].origin.deadline - s.calls[c].asOf) > 0;
      var taken := pair.refresh.sid in s.sessions && Live(s.now, s.sessions[pair.refresh.sid].when);
      Do(Create(c, lost));
      created := fits && !taken && !lost;
    }

    /** Parses the token and checks its account; the call goes on only if both succeed. */
    method CheckRefresh(c: nat, token: Token, gap: nat -> seq<Label>)
      requires Valid() && c !in s.calls && forall k :: Foreign(gap(k), c, token.sid)
      modifies this
      ensures Valid()
      ensures (c in s.calls ==> s.calls[c].Validated? && token.kind == Refresh && SameToken(s.calls[c].claims, token))
      ensures Alone(gap) ==>
                (c in s.calls <==> old(Parses(s, token, Refresh) && AccountValid(s, token)))
                  && s == old(s).(calls := s.calls)
    {
      Do(Parse(c, token));
      if c in s.calls {
        CheckAccount(c, token, gap);
      }
    }

    /** The account check of a parsed refresh token. */
    method CheckAccount(c: nat, token: Token, gap: nat -> seq<Label>)
      requires Valid() && c in s.calls && s.calls[c] == Parsed(token) && forall k :: Foreign(gap(k), c, token.sid)
      modifies this
      ensures Valid() && (c in s.calls ==> s.calls[c].Validated? && SameToken(s.calls[c].claims, token))
      ensures Alone(gap) ==> (c in s.calls <==> old(AccountValid(s, token))) && s == old(s).(calls := s.calls)
    {
      Wait(gap(0), c, token.sid);
      Do(Validate(c));
    }

    /** Burns the token of a checked call in one atomic operation. */
    method ConsumeRefresh(c: nat, ghost token: Token, lost: bool, gap: nat -> seq<Label>)
      requires Valid() && c in s.calls && s.calls[c].Validated? && SameToken(s.calls[c].claims, token)
      requires forall k :: Foreign(gap(k), c, token.sid)
      modifies this
      ensures Valid() && (c in s.calls ==> s.calls[c].Consumed? && Redeems(s, s.calls[c].k, token))
      ensures Alone(gap) && !lost ==> (c in s.calls <==> old(CanConsume(s, token, s.now)))
    {
      Wait(gap(1), c, token.sid);
      Do(MeasureRefresh(c));
      BurnToken(c, token, lost, gap);
    }

    method BurnToken(c: nat, ghost token: Token, lost: bool, gap: nat -> seq<Label>)
      requires Valid() && c in s.calls && s.calls[c].Consuming? && SameToken(s.calls[c].claims, token)
      requires forall k :: Foreign(gap(k), c, token.sid)
      modifies this
      ensures Valid() && (c in s.calls ==> s.calls[c].Consumed? && Redeems(s, s.calls[c].k, token))
      ensures Alone(gap) && !lost ==> (c in s.calls <==> old(CanConsume(s, token, s.calls[c].asOf)))
    {
      Wait(gap(2), c, token.sid);
      Do(Consume(c, lost));
    }

    /** A returned pair descends from the presented token: same session, same version, same deadline. */
    method RefreshSession(c: nat, token: Token, jtiA: string, jtiR: string, lost: bool, gap: nat -> seq<Label>)
      returns (r: Option<Pair>)
      requires Valid() && c !in s.calls && jtiA != "" && jtiR != "" && forall k :: Foreign(gap(k), c, token.sid)
      modifies this
      ensures Valid() && c !in s.calls
      ensures r.Some? ==> r.value.access in s.issued && r.value.refresh in s.issued
      ensures r.Some? ==> PairFits(r.value, token.sid, Origin(token.userId, token.version, token.exp))
      ensures Alone(gap) && !lost ==>
                (r.Some? <==> old(Parses(s, token, Refresh) && AccountValid(s, token) && CanConsume(s, token, s.now)))
    {
      CheckRefresh(c, token, gap);
      if c in s.calls {
        ConsumeRefresh(c, token, lost, gap);
      }
      if c !in s.calls {
        return None;
      }
      Wait(gap(3), c, token.sid);
      r := SignDescendant(c, token, jtiA, jtiR);
    }

    method SignDescendant(c: nat, ghost token: Token, jtiA: string, jtiR: string) returns (r: Option<Pair>)
      requires Valid() && c in s.calls && s.calls[c].Consumed? && Redeems(s, s.calls[c].k, token) && jtiA != ""
      requires jtiR != "" && token.kind == Refresh
      modifies this
      ensures Valid() && c !in s.calls
      ensures r.Some? && r.value.access in s.issued && r.value.refresh in s.issued
      ensures PairFits(r.value, token.sid, Origin(token.userId, token.version, token.exp))
    {
      var k, role := s.calls[c].k, s.calls[c].role;
      var claims := s.redemptions[k].claims;
      r := Some(SignPair(s, claims.userId, role, claims.version, claims.sid, jtiA, jtiR, claims.exp));
      RedeemedFits(s, c, token, jtiA, jtiR);
      Do(Sign(c, jtiA, jtiR));
    }

    /**
     * Success means that the session is inactive, for good by the theorem about logouts; a foreign refresh token
     * changes nothing.
     */
    method SignOut(access: Token, refresh: Option<Token>) returns (ok: bool)
      requires Valid() && access in s.issued
      modifies this
      ensures Valid() && s == LogoutStep(old(s), access, refresh)
      ensures ok <==> LogoutAllowed(old(s), access, refresh)
      ensures ok ==> !SessionActive(s, access.sid, access.userId)
      ensures !ok ==> s == old(s)
    {
      if access.sid == "" || access.userId <= 0 || access.jti == "" || access.kind != Access {
        return false;
      }
      if refresh.Some? && Parses(s, refresh.value, Refresh)
        && (refresh.value.userId != access.userId || refresh.value.sid != access.sid) {
        return false;
      }
      LogoutIsFinal(s, access, refresh, [], access.userId);
      ok := RevokeSucceeds(s, access.sid, access.userId);
      Do(Logout(access, refresh));
    }
  }

  lemma KeyIsUsed(s: State, sid: string)
    requires Reachable(s) && sid in s.sessions
    ensures sid in s.sids
  {
    ReachableInv(s);
    assert s.sessions[sid].owner == s.origins[sid].userId;
  }

  /** The claims of the token, with the role of the account in place of the signed one. */
  ghost predicate SameToken(claims: Token, token: Token) {
    claims.(role := token.role) == token
  }

  /** Redemption k burned this token. */
  ghost predicate Redeems(s: State, k: nat, token: Token) {
    k < |s.redemptions| && SameToken(s.redemptions[k].claims, token)
  }

  lemma RedeemedFits(s: State, c: nat, token: Token, jtiA: string, jtiR: string)
    requires Reachable(s) && c in s.calls && s.calls[c].Consumed? && Redeems(s, s.calls[c].k, token)
    requires token.kind == Refresh
    ensures var t := s.redemptions[s.calls[c].k].claims;
            PairFits(SignPair(s, t.userId, s.calls[c].role, t.version, t.sid, jtiA, jtiR, t.exp), token.sid,
                     Origin(token.userId, token.version, token.exp))
  {
    ReachableInv(s);
    var t := s.redemptions[s.calls[c].k].claims;
    assert RedemptionOk(s, s.redemptions[s.calls[c].k]);
    SignedPairFits(s, s.origins[t.sid], s.calls[c].role, t.sid, jtiA, jtiR);
  }
}
