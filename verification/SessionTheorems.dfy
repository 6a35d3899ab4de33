/** What every run of the session store keeps, and what follows for tokens, refreshes and logout. */
module SessionTheorems {
  import opened Options
  import opened Sessions

  // ------------------------------------------------------------------- clock

  lemma WholeSecondFacts(t: int)
    ensures WholeSecond(t) <= t < WholeSecond(t) + SECOND
    ensures WholeSecond(t) % SECOND == 0
  {
  }

  /** Rounding to the token's precision is exact on a whole second. */
  lemma NumericDateRoundTrip(t: int)
    requires t % SECOND == 0
    ensures WholeSecond(t) == t
  {
  }

  /** A lifetime measured before the key is set, in whole milliseconds, still covers everything before the deadline. */
  lemma MeasuredLifetimeCovers(deadline: int, asOf: int, now: int)
    requires deadline % SECOND == 0 && asOf <= now && Millis(deadline - asOf) > 0
    ensures Covers(now / MILLI + Millis(deadline - asOf), deadline)
  {
    WholeMillis(deadline);
    RestCovers(deadline / MILLI, asOf);
    DivMonotone(asOf, now);
  }

  lemma WholeMillis(t: int)
    requires t % SECOND == 0
    ensures t == t / MILLI * MILLI
  {
    var s := t / SECOND;
    assert t == s * SECOND == s * 1000 * MILLI;
  }

  lemma DivMonotone(a: int, b: int)
    requires a <= b
    ensures a / MILLI <= b / MILLI
  {
  }

  /** The whole milliseconds left until d, counted from the current one, miss d by at most one. */
  lemma RestCovers(d: int, asOf: int)
    requires Millis(d * MILLI - asOf) > 0
    ensures asOf / MILLI + Millis(d * MILLI - asOf) >= d - 1
  {
    var rest := d * MILLI - asOf;
    assert asOf < (asOf / MILLI + 1) * MILLI;
    assert rest < (rest / MILLI + 1) * MILLI;
  }

  lemma CoveredIsLive(when: int, deadline: int, now: int)
    requires deadline % SECOND == 0 && Covers(when, deadline) && now < deadline
    ensures Live(now, when)
  {
    WholeMillis(deadline);
  }

  // ---------------------------------------------------------------- invariant

  ghost predicate OriginOk(o: Origin) {
    o.userId > 0 && o.version > 0 && o.deadline % SECOND == 0
  }

  /** A token agrees with the origin of its session. */
  ghost predicate TokenFits(t: Token, o: Origin) {
    && t.userId == o.userId && t.version == o.version
    && (if t.kind == Refresh then t.exp == o.deadline else t.exp <= o.deadline)
  }

  ghost predicate PairFits(p: Pair, sid: string, o: Origin) {
    && p.access.kind == Access && p.refresh.kind == Refresh && p.access.sid == sid && p.refresh.sid == sid
    && TokenFits(p.access, o) && TokenFits(p.refresh, o)
  }

  ghost predicate Belongs(s: State, t: Token) {
    t.sid in s.origins && TokenFits(t, s.origins[t.sid])
  }

  /** The version a session was started with is not ahead of its account. */
  ghost predicate NotAhead(s: State, o: Origin) {
    o.userId in s.users ==> o.version <= s.users[o.userId].version
  }

  ghost predicate OriginsOk(s: State) {
    forall sid {:trigger s.origins[sid]} | sid in s.origins ::
      sid in s.sids && OriginOk(s.origins[sid]) && NotAhead(s, s.origins[sid])
  }

  ghost predicate KeysOk(s: State) {
    forall sid {:trigger s.sessions[sid]} :: sid in s.sessions ==>
      sid in s.origins && s.sessions[sid].owner == s.origins[sid].userId
        && Covers(s.sessions[sid].when, s.origins[sid].deadline)
  }

  ghost predicate TokensOk(s: State) {
    forall t :: t in s.issued ==> Belongs(s, t)
  }

  ghost predicate Starting(c: Call) {
    c.Signed? || c.Creating?
  }

  ghost predicate CallOk(s: State, c: nat)
    requires c in s.calls
  {
    match s.calls[c]
    case Signed(p, o) => StartOk(s, p, o)
    case Creating(p, o, asOf) => StartOk(s, p, o) && asOf <= s.now
    case Parsed(t) => t.kind == Refresh && Belongs(s, t)
    case Validated(t) => t.kind == Refresh && Belongs(s, t)
    case Consuming(t, asOf) => t.kind == Refresh && Belongs(s, t) && asOf <= s.now
    case Consumed(k, _) => k < |s.redemptions| && s.redemptions[k].pair.None?
  }

  /** A session under construction has an identifier of its own, of which nothing is known yet. */
  ghost predicate StartOk(s: State, p: Pair, o: Origin) {
    && OriginOk(o) && PairFits(p, p.refresh.sid, o) && p.refresh.sid in s.sids && p.refresh.sid !in s.origins
    && NotAhead(s, o)
  }

  ghost predicate StartsDistinct(s: State) {
    forall c, d | c in s.calls && d in s.calls && Starting(s.calls[c]) && Starting(s.calls[d]) && c != d ::
      s.calls[c].pair.refresh.sid != s.calls[d].pair.refresh.sid
  }

  ghost predicate SignersDistinct(s: State) {
    forall c, d | c in s.calls && d in s.calls && s.calls[c].Consumed? && s.calls[d].Consumed?
      && c != d :: s.calls[c].k != s.calls[d].k
  }

  ghost predicate CallsOk(s: State) {
    (forall c {:trigger CallOk(s, c)} :: c in s.calls ==> CallOk(s, c)) && StartsDistinct(s) && SignersDistinct(s)
  }

  /** A token consumed before its deadline stays burned at least until then. */
  ghost predicate RedemptionOk(s: State, r: Redemption) {
    && r.claims.kind == Refresh && Belongs(s, r.claims) && r.at <= s.now
    && (r.at < r.claims.exp ==> Mark(r) in s.burned && Covers(s.burned[Mark(r)], r.claims.exp))
    && (r.pair.Some? ==> r.at <= r.signedAt && PairFits(r.pair.value, r.claims.sid, s.origins[r.claims.sid]))
  }

  function Mark(r: Redemption): (string, string) {
    (r.claims.sid, r.claims.jti)
  }

  ghost predicate RedemptionsOk(s: State) {
    && (forall k {:trigger RedemptionOk(s, s.redemptions[k])} :: 0 <= k < |s.redemptions| ==>
        RedemptionOk(s, s.redemptions[k]))
    && (forall i, j | 0 <= i < j < |s.redemptions| && Mark(s.redemptions[i]) == Mark(s.redemptions[j]) ::
          s.redemptions[j].at >= s.redemptions[j].claims.exp)
  }

  ghost predicate Inv(s: State) {
    s.now >= 0 && OriginsOk(s) && KeysOk(s) && TokensOk(s) && CallsOk(s) && RedemptionsOk(s)
  }

  // ------------------------------------------------------------- preservation

  /** Nothing that the invariant looks up is lost, and accounts only move forward. */
  ghost predicate Grows(s: State, t: State) {
    && s.now <= t.now && s.sids <= t.sids
    && (forall sid :: sid in s.origins ==> sid in t.origins && t.origins[sid] == s.origins[sid])
    && (forall u :: u in t.users ==> u in s.users && s.users[u].version <= t.users[u].version)
  }

  lemma SignedPairFits(s: State, o: Origin, role: string, sid: string, jtiA: string, jtiR: string)
    requires OriginOk(o)
    ensures PairFits(SignPair(s, o.userId, role, o.version, sid, jtiA, jtiR, o.deadline), sid, o)
  {
    NumericDateRoundTrip(o.deadline);
    WholeSecondFacts(Min(s.now + s.accessTimeout, o.deadline));
  }

  lemma AccountGrows(s: State, l: Label)
    requires l.ChangePassword? || l.SetRole? || l.DeleteAccount?
    ensures Grows(s, AccountStep(s, l)) && AccountStep(s, l) == s.(users := AccountStep(s, l).users)
  {
  }

  lemma AccountKeeps(s: State, l: Label)
    requires Inv(s) && (l.ChangePassword? || l.SetRole? || l.DeleteAccount?)
    ensures Inv(AccountStep(s, l)) && Grows(s, AccountStep(s, l))
  {
    var t := AccountStep(s, l);
    AccountGrows(s, l);
    forall c | c in t.calls ensures CallOk(t, c) { assert CallOk(s, c); }
    forall k | 0 <= k < |t.redemptions|
      ensures RedemptionOk(t, t.redemptions[k])
    {
      assert RedemptionOk(s, s.redemptions[k]);
    }
  }

  lemma TickKeeps(s: State, ns: nat)
    requires Inv(s)
    ensures Inv(s.(now := s.now + ns))
  {
    var t := s.(now := s.now + ns);
    forall c | c in t.calls ensures CallOk(t, c) { assert CallOk(s, c); }
    forall k | 0 <= k < |t.redemptions|
      ensures RedemptionOk(t, t.redemptions[k])
    {
      assert RedemptionOk(s, s.redemptions[k]);
    }
  }

  /** Steps that only move a call. */
  lemma CallMoves(s: State, t: State)
    requires Inv(s) && t == s.(calls := t.calls) && CallsOk(t)
    ensures Inv(t)
  {
    forall k | 0 <= k < |t.redemptions|
      ensures RedemptionOk(t, t.redemptions[k])
    {
      assert RedemptionOk(s, s.redemptions[k]);
    }
  }

  lemma RemoveKeeps(s: State, c: nat)
    requires Inv(s)
    ensures Inv(Remove(s, c))
  {
    var t := Remove(s, c);
    forall d | d in t.calls ensures CallOk(t, d) { assert CallOk(s, d); }
    CallMoves(s, t);
  }

  lemma StartKeeps(s: State, c: nat, userId: int, version: int, role: string, sid: string, jtiA: string, jtiR: string)
    requires Inv(s)
    ensures Inv(StartStep(s, c, userId, version, role, sid, jtiA, jtiR))
  {
    var t := StartStep(s, c, userId, version, role, sid, jtiA, jtiR);
    if t != s {
      var o := t.calls[c].origin;
      WholeSecondFacts(s.now + Max(s.refreshTimeout, s.accessTimeout));
      SignedPairFits(s, o, role, sid, jtiA, jtiR);
      forall d | d in t.calls ensures CallOk(t, d) { if d != c { assert CallOk(s, d); } }
      forall d | d in s.calls && Starting(s.calls[d])
        ensures s.calls[d].pair.refresh.sid != sid
      {
        assert CallOk(s, d);
      }
      forall k | 0 <= k < |t.redemptions|
        ensures RedemptionOk(t, t.redemptions[k])
      {
        assert RedemptionOk(s, s.redemptions[k]);
      }
    }
  }

  /** A call that moves on without taking a session identifier or a redemption of another one. */
  lemma PutKeeps(s: State, c: nat, call: Call)
    requires Inv(s) && CallOk(Put(s, c, call), c) && !call.Consumed?
    requires Starting(call) ==> c in s.calls && Starting(s.calls[c]) && s.calls[c].pair == call.pair
    ensures Inv(Put(s, c, call))
  {
    var t := Put(s, c, call);
    forall d | d in t.calls ensures CallOk(t, d) { if d != c { assert CallOk(s, d); } }
    CallMoves(s, t);
  }

  lemma MeasureStartKeeps(s: State, c: nat)
    requires Inv(s)
    ensures Inv(MeasureStartStep(s, c))
  {
    if c in s.calls && s.calls[c].Signed? {
      assert CallOk(s, c);
      PutKeeps(s, c, Creating(s.calls[c].pair, s.calls[c].origin, s.now));
    }
  }

  lemma MeasureRefreshKeeps(s: State, c: nat)
    requires Inv(s)
    ensures Inv(MeasureRefreshStep(s, c))
  {
    if c in s.calls && s.calls[c].Validated? {
      assert CallOk(s, c);
      PutKeeps(s, c, Consuming(s.calls[c].claims, s.now));
    }
  }

  lemma ParseKeeps(s: State, c: nat, token: Token)
    requires Inv(s)
    ensures Inv(ParseStep(s, c, token))
  {
    if c !in s.calls && Parses(s, token, Refresh) {
      PutKeeps(s, c, Parsed(token));
    }
  }

  lemma ValidateKeeps(s: State, c: nat)
    requires Inv(s)
    ensures Inv(ValidateStep(s, c))
  {
    if c in s.calls && s.calls[c].Parsed? {
      assert CallOk(s, c);
      RemoveKeeps(s, c);
      var t := s.calls[c].claims;
      if AccountValid(s, t) { PutKeeps(s, c, Validated(t.(role := s.users[t.userId].role))); }
    }
  }

  /** A new session takes its place beside the others. */
  lemma SessionAdded(s: State, sid: string, o: Origin, when: int)
    requires Inv(s) && OriginOk(o) && NotAhead(s, o) && sid in s.sids && sid !in s.origins && Covers(when, o.deadline)
    requires forall c | c in s.calls && Starting(s.calls[c]) :: s.calls[c].pair.refresh.sid != sid
    ensures Inv(AddSession(s, sid, o, when))
  {
    var t := AddSession(s, sid, o, when);
    forall c | c in t.calls ensures CallOk(t, c) { assert CallOk(s, c); }
    forall k | 0 <= k < |t.redemptions|
      ensures RedemptionOk(t, t.redemptions[k])
    {
      assert RedemptionOk(s, s.redemptions[k]);
    }
  }

  lemma PairIssued(s: State, p: Pair, sid: string)
    requires Inv(s) && sid in s.origins && PairFits(p, sid, s.origins[sid])
    ensures Inv(Issue(s, p))
  {
    var t := Issue(s, p);
    forall c | c in t.calls ensures CallOk(t, c) { assert CallOk(s, c); }
    forall k | 0 <= k < |t.redemptions|
      ensures RedemptionOk(t, t.redemptions[k])
    {
      assert RedemptionOk(s, s.redemptions[k]);
    }
  }

  lemma CreatedKeeps(s: State, c: nat, when: int)
    requires Inv(s) && c in s.calls && s.calls[c].Creating? && Covers(when, s.calls[c].origin.deadline)
    ensures var t := AddSession(Remove(s, c), s.calls[c].pair.refresh.sid, s.calls[c].origin, when);
            Inv(t) && Inv(Issue(t, s.calls[c].pair))
  {
    assert CallOk(s, c);
    var pair, o := s.calls[c].pair, s.calls[c].origin;
    RemoveKeeps(s, c);
    SessionAdded(Remove(s, c), pair.refresh.sid, o, when);
    PairIssued(AddSession(Remove(s, c), pair.refresh.sid, o, when), pair, pair.refresh.sid);
  }

  /** The state in which the session key was just created. */
  function Created(s: State, c: nat): State
    requires c in s.calls && s.calls[c].Creating?
  {
    var Creating(pair, origin, asOf) := s.calls[c];
    AddSession(Remove(s, c), pair.refresh.sid, origin, s.now / MILLI + Millis(origin.deadline - asOf))
  }

  lemma CreateCases(s: State, c: nat, lost: bool)
    requires c in s.calls && s.calls[c].Creating?
    ensures var t := CreateStep(s, c, lost);
            t == Remove(s, c) || (Millis(s.calls[c].origin.deadline - s.calls[c].asOf) > 0 &&
                                  (t == Created(s, c) || t == Issue(Created(s, c), s.calls[c].pair)))
  {
  }

  lemma CreateKeeps(s: State, c: nat, lost: bool)
    requires Inv(s)
    ensures Inv(CreateStep(s, c, lost))
  {
    if c in s.calls && s.calls[c].Creating? {
      CreateCases(s, c, lost);
      RemoveKeeps(s, c);
      if Millis(s.calls[c].origin.deadline - s.calls[c].asOf) > 0 { CreateSucceeds(s, c); }
    }
  }

  lemma CreateSucceeds(s: State, c: nat)
    requires Inv(s) && c in s.calls && s.calls[c].Creating?
    requires Millis(s.calls[c].origin.deadline - s.calls[c].asOf) > 0
    ensures Inv(Created(s, c)) && Inv(Issue(Created(s, c), s.calls[c].pair))
  {
    LifetimeCovers(s, c);
    CreatedKeeps(s, c, s.now / MILLI + Millis(s.calls[c].origin.deadline - s.calls[c].asOf));
  }

  lemma LifetimeCovers(s: State, c: nat)
    requires Inv(s) && c in s.calls && s.calls[c].Creating?
    requires Millis(s.calls[c].origin.deadline - s.calls[c].asOf) > 0
    ensures var o := s.calls[c].origin; Covers(s.now / MILLI + Millis(o.deadline - s.calls[c].asOf), o.deadline)
  {
    assert CallOk(s, c);
    MeasuredLifetimeCovers(s.calls[c].origin.deadline, s.calls[c].asOf, s.now);
  }

  /** Before the deadline an identifier is burned at most once, because its mark is still live. */
  lemma FirstConsumption(s: State, t: Token, i: nat)
    requires Inv(s) && t.kind == Refresh && Belongs(s, t) && i < |s.redemptions|
    requires Mark(s.redemptions[i]) == (t.sid, t.jti) && s.now < t.exp
    ensures (t.sid, t.jti) in s.burned && Live(s.now, s.burned[(t.sid, t.jti)])
  {
    assert RedemptionOk(s, s.redemptions[i]);
    CoveredIsLive(s.burned[(t.sid, t.jti)], t.exp, s.now);
  }

  /** The mark lives at least as long as the session key or the deadline, whichever it was cut to. */
  lemma MarkCovers(s: State, t: Token, asOf: int)
    requires Inv(s) && t.kind == Refresh && Belongs(s, t) && asOf <= s.now && t.sid in s.sessions
    requires Millis(t.exp - asOf) > 0
    ensures Covers(MarkUntil(s, t, asOf), t.exp)
  {
    MeasuredLifetimeCovers(t.exp, asOf, s.now);
  }

  lemma BurnKeeps(s: State, t: Token, when: int)
    requires Inv(s) && t.kind == Refresh && Belongs(s, t) && Covers(when, t.exp)
    requires (t.sid, t.jti) in s.burned ==> !Live(s.now, s.burned[(t.sid, t.jti)])
    ensures Inv(Burn(s, t, when))
  {
    var b := Burn(s, t, when);
    forall c | c in b.calls ensures CallOk(b, c) { assert CallOk(s, c); }
    forall k | 0 <= k < |b.redemptions| ensures RedemptionOk(b, b.redemptions[k]) {
      if k < |s.redemptions| { assert RedemptionOk(s, s.redemptions[k]); }
    }
    forall i | 0 <= i < |s.redemptions| && Mark(s.redemptions[i]) == (t.sid, t.jti) ensures s.now >= t.exp {
      if s.now < t.exp { FirstConsumption(s, t, i); }
    }
  }

  /** The call that burned the latest identifier is its only signer. */
  lemma SignerKeeps(s: State, c: nat, k: nat, role: string)
    requires Inv(s) && c !in s.calls && k < |s.redemptions| && s.redemptions[k].pair.None?
    requires forall d | d in s.calls && s.calls[d].Consumed? :: s.calls[d].k != k
    ensures Inv(Put(s, c, Consumed(k, role)))
  {
    var t := Put(s, c, Consumed(k, role));
    forall d | d in t.calls ensures CallOk(t, d) { if d != c { assert CallOk(s, d); } }
    CallMoves(s, t);
  }

  lemma BurnAndSignKeeps(s: State, c: nat, t: Token, when: int)
    requires Inv(s) && c !in s.calls && t.kind == Refresh && Belongs(s, t) && Covers(when, t.exp)
    requires (t.sid, t.jti) in s.burned ==> !Live(s.now, s.burned[(t.sid, t.jti)])
    ensures Inv(Burn(s, t, when)) && Inv(Put(Burn(s, t, when), c, Consumed(|s.redemptions|, t.role)))
  {
    BurnKeeps(s, t, when);
    forall d | d in s.calls && s.calls[d].Consumed? ensures s.calls[d].k != |s.redemptions| { assert CallOk(s, d); }
    SignerKeeps(Burn(s, t, when), c, |s.redemptions|, t.role);
  }

  lemma ConsumeKeeps(s: State, c: nat, lost: bool)
    requires Inv(s)
    ensures Inv(ConsumeStep(s, c, lost))
  {
    if c in s.calls && s.calls[c].Consuming? {
      assert CallOk(s, c);
      RemoveKeeps(s, c);
      var t, asOf := s.calls[c].claims, s.calls[c].asOf;
      if CanConsume(s, t, asOf) {
        MarkCovers(s, t, asOf);
        BurnAndSignKeeps(Remove(s, c), c, t, MarkUntil(s, t, asOf));
      }
    }
  }

  lemma SignKeeps(s: State, c: nat, jtiA: string, jtiR: string)
    requires Inv(s)
    ensures Inv(SignStep(s, c, jtiA, jtiR))
  {
    var t := SignStep(s, c, jtiA, jtiR);
    if c in s.calls && s.calls[c].Consumed? && jtiA != "" && jtiR != "" {
      assert CallOk(s, c);
      var k := s.calls[c].k;
      assert RedemptionOk(s, s.redemptions[k]);
      var claims := s.redemptions[k].claims;
      SignedPairFits(s, s.origins[claims.sid], s.calls[c].role, claims.sid, jtiA, jtiR);
      forall d | d in t.calls ensures CallOk(t, d) { assert CallOk(s, d); }
      forall j | 0 <= j < |t.redemptions|
        ensures RedemptionOk(t, t.redemptions[j])
      {
        assert RedemptionOk(s, s.redemptions[j]);
      }
    }
  }

  lemma LogoutKeeps(s: State, access: Token, refresh: Option<Token>)
    requires Inv(s)
    ensures Inv(LogoutStep(s, access, refresh))
  {
    var t := LogoutStep(s, access, refresh);
    forall c | c in t.calls ensures CallOk(t, c) { assert CallOk(s, c); }
    forall k | 0 <= k < |t.redemptions|
      ensures RedemptionOk(t, t.redemptions[k])
    {
      assert RedemptionOk(s, s.redemptions[k]);
    }
  }

  lemma StepKeeps(s: State, l: Label)
    requires Inv(s)
    ensures Inv(Step(s, l))
  {
    match l
    case Tick(ns) => TickKeeps(s, ns);
    case ChangePassword(_, _) => AccountKeeps(s, l);
    case SetRole(_, _) => AccountKeeps(s, l);
    case DeleteAccount(_) => AccountKeeps(s, l);
    case Start(c, userId, version, role, sid, jtiA, jtiR) => StartKeeps(s, c, userId, version, role, sid, jtiA, jtiR);
    case MeasureStart(c) => MeasureStartKeeps(s, c);
    case Create(c, lost) => CreateKeeps(s, c, lost);
    case Parse(c, token) => ParseKeeps(s, c, token);
    case Validate(c) => ValidateKeeps(s, c);
    case MeasureRefresh(c) => MeasureRefreshKeeps(s, c);
    case Consume(c, lost) => ConsumeKeeps(s, c, lost);
    case Sign(c, jtiA, jtiR) => SignKeeps(s, c, jtiA, jtiR);
    case Logout(access, refresh) => LogoutKeeps(s, access, refresh);
    case Drop(c) => RemoveKeeps(s, c);
  }

  lemma {:induction false} RunKeeps(s: State, ls: seq<Label>)
    requires Inv(s)
    ensures Inv(Run(s, ls))
    decreases |ls|
  {
    if ls != [] {
      StepKeeps(s, ls[0]);
      RunKeeps(Step(s, ls[0]), ls[1..]);
    }
  }

  ghost predicate Reachable(s: State) {
    exists start, ls :: Initial(start) && s == Run(start, ls)
  }

  lemma ReachableInv(s: State)
    requires Reachable(s)
    ensures Inv(s)
  {
    var start, ls :| Initial(start) && s == Run(start, ls);
    RunKeeps(start, ls);
  }

  // ------------------------------------------------------------- fixed deadline

  /** A creation never meets an earlier session of the same identifier. */
  ghost predicate CreatesFresh(s: State, l: Label) {
    l.Create? && l.c in s.calls && s.calls[l.c].Creating? ==> s.calls[l.c].pair.refresh.sid !in s.origins
  }

  lemma AlwaysFresh(s: State, l: Label)
    requires Inv(s)
    ensures CreatesFresh(s, l)
  {
    if l.Create? && l.c in s.calls { assert CallOk(s, l.c); }
  }

  predicate Starts(l: Label) {
    l.Start? || l.MeasureStart? || l.Create?
  }

  predicate Refreshes(l: Label) {
    l.Parse? || l.Validate? || l.MeasureRefresh? || l.Consume? || l.Sign?
  }

  lemma StartGrows(s: State, l: Label)
    requires CreatesFresh(s, l) && Starts(l)
    ensures Grows(s, Step(s, l))
  {
  }

  lemma RefreshGrows(s: State, l: Label)
    requires Refreshes(l)
    ensures Grows(s, Step(s, l))
  {
  }

  lemma StepGrows(s: State, l: Label)
    requires CreatesFresh(s, l)
    ensures Grows(s, Step(s, l))
  {
    if Starts(l) { StartGrows(s, l); } else if Refreshes(l) { RefreshGrows(s, l); }
  }

  lemma {:induction false} RunGrows(s: State, ls: seq<Label>)
    requires Inv(s)
    ensures Grows(s, Run(s, ls))
    decreases |ls|
  {
    if ls != [] {
      StepKeeps(s, ls[0]);
      AlwaysFresh(s, ls[0]);
      StepGrows(s, ls[0]);
      RunGrows(Step(s, ls[0]), ls[1..]);
    }
  }

  /**
   * Any two tokens of a session, however many rotations apart, carry the same user and verified version; its refresh
   * tokens expire exactly at one whole-second deadline and no access token outlives it.
   */
  lemma OneDeadlinePerSession(s: State, later: seq<Label>, t: Token, u: Token)
    requires Reachable(s) && t in s.issued && u in Run(s, later).issued && t.sid == u.sid
    ensures u.userId == t.userId && u.version == t.version
    ensures t.kind == u.kind == Refresh ==> t.exp == u.exp && t.exp % SECOND == 0
    ensures t.kind == Refresh && u.kind == Access ==> u.exp <= t.exp
    ensures t.kind == Access && u.kind == Refresh ==> t.exp <= u.exp
  {
    ReachableInv(s);
    RunKeeps(s, later);
    RunGrows(s, later);
    assert Belongs(s, t) && Belongs(Run(s, later), u);
  }

  /** A session ends at most one second before its configured lifetime, and never after it. */
  lemma DeadlineNearLifetime(s: State, c: nat, userId: int, version: int, role: string, sid: string, jtiA: string,
      jtiR: string)
    requires c !in s.calls && c in StartStep(s, c, userId, version, role, sid, jtiA, jtiR).calls
    ensures var exp := StartStep(s, c, userId, version, role, sid, jtiA, jtiR).calls[c].pair.refresh.exp;
            s.now + s.refreshTimeout - SECOND < exp && exp <= s.now + Max(s.refreshTimeout, s.accessTimeout)
  {
    var deadline := WholeSecond(s.now + Max(s.refreshTimeout, s.accessTimeout));
    WholeSecondFacts(s.now + Max(s.refreshTimeout, s.accessTimeout));
    NumericDateRoundTrip(deadline);
  }

  // --------------------------------------------------------------- one rotation

  /** A redemption whose pair could still be used when it was signed. */
  predicate YieldsUsablePair(r: Redemption) {
    r.pair.Some? && (r.signedAt < r.pair.value.access.exp || r.signedAt < r.pair.value.refresh.exp)
  }

  /** However many refreshes race, and although marks expire, at most one redemption of a token yields a usable pair. */
  lemma OneUsableRedemption(s: State, i: nat, j: nat)
    requires Reachable(s) && i < |s.redemptions| && j < |s.redemptions|
    requires s.redemptions[i].claims.sid == s.redemptions[j].claims.sid
    requires s.redemptions[i].claims.jti == s.redemptions[j].claims.jti
    requires YieldsUsablePair(s.redemptions[i]) && YieldsUsablePair(s.redemptions[j])
    ensures i == j
  {
    ReachableInv(s);
    assert RedemptionOk(s, s.redemptions[i]) && RedemptionOk(s, s.redemptions[j]);
    assert Mark(s.redemptions[i]) == Mark(s.redemptions[j]);
  }

  // --------------------------------------------------------------------- logout

  /** The session was created once and is not active now. */
  ghost predicate Closed(s: State, sid: string) {
    sid in s.origins && (sid in s.sessions ==> !Live(s.now, s.sessions[sid].when) || !s.sessions[sid].active)
  }

  lemma ClosedStep(s: State, l: Label, sid: string)
    requires CreatesFresh(s, l) && Closed(s, sid)
    ensures Closed(Step(s, l), sid)
    ensures forall k | |s.redemptions| <= k < |Step(s, l).redemptions| :: Step(s, l).redemptions[k].claims.sid != sid
  {
    if Starts(l) { ClosedStart(s, l, sid); } else if Refreshes(l) { ClosedRefresh(s, l, sid); }
  }

  lemma ClosedStart(s: State, l: Label, sid: string)
    requires CreatesFresh(s, l) && Closed(s, sid) && Starts(l)
    ensures Closed(Step(s, l), sid) && Step(s, l).redemptions == s.redemptions
  {
  }

  lemma ClosedRefresh(s: State, l: Label, sid: string)
    requires Closed(s, sid) && Refreshes(l)
    ensures Closed(Step(s, l), sid)
    ensures forall k | |s.redemptions| <= k < |Step(s, l).redemptions| :: Step(s, l).redemptions[k].claims.sid != sid
  {
  }

  /** No redemption of the session from the n-th on. */
  ghost predicate NoneSince(s: State, n: nat, sid: string) {
    n <= |s.redemptions| && forall k | n <= k < |s.redemptions| :: s.redemptions[k].claims.sid != sid
  }

  lemma SinceStep(s: State, l: Label, n: nat, sid: string)
    requires CreatesFresh(s, l) && Closed(s, sid) && NoneSince(s, n, sid)
    ensures NoneSince(Step(s, l), n, sid)
  {
    ClosedStep(s, l, sid);
    ClaimsStay(s, l);
  }

  lemma ClaimsStay(s: State, l: Label)
    ensures |s.redemptions| <= |Step(s, l).redemptions|
    ensures forall k | 0 <= k < |s.redemptions| :: Step(s, l).redemptions[k].claims == s.redemptions[k].claims
  {
  }

  lemma {:induction false} ClosedRun(s: State, ls: seq<Label>, n: nat, sid: string)
    requires Inv(s) && Closed(s, sid) && NoneSince(s, n, sid)
    ensures Closed(Run(s, ls), sid) && NoneSince(Run(s, ls), n, sid)
    decreases |ls|
  {
    if ls != [] {
      StepKeeps(s, ls[0]);
      AlwaysFresh(s, ls[0]);
      ClosedStep(s, ls[0], sid);
      SinceStep(s, ls[0], n, sid);
      ClosedRun(Step(s, ls[0]), ls[1..], n, sid);
    }
  }

  /**
   * A logout that gets as far as the revocation always succeeds, and from then on no token of the session, also one
   * that a racing refresh signs later, passes the session check for any user or is redeemed again.
   */
  lemma LogoutIsFinal(s: State, access: Token, refresh: Option<Token>, later: seq<Label>, userId: int)
    requires Reachable(s) && LogoutAllowed(s, access, refresh)
    ensures RevokeSucceeds(s, access.sid, access.userId)
    ensures !SessionActive(Run(LogoutStep(s, access, refresh), later), access.sid, userId)
    ensures NoneSince(Run(LogoutStep(s, access, refresh), later), |s.redemptions|, access.sid)
  {
    ReachableInv(s);
    assert Belongs(s, access);
    LogoutKeeps(s, access, refresh);
    ClosedRun(LogoutStep(s, access, refresh), later, |s.redemptions|, access.sid);
  }

  /** The other half of the promise: a logout touches no session but its own. */
  lemma LogoutTouchesOneSession(s: State, access: Token, refresh: Option<Token>, sid: string)
    requires sid != access.sid
    ensures forall userId :: SessionActive(LogoutStep(s, access, refresh), sid, userId) <==>
            SessionActive(s, sid, userId)
    ensures !LogoutAllowed(s, access, refresh) ==> LogoutStep(s, access, refresh) == s
  {
  }

  // -------------------------------------------------------- credential version

  /**
   * Once the account has moved past the verified version, or is gone, no token of the session passes the account check.
   */
  lemma OldVersionNeverValid(s: State, t: Token, later: seq<Label>, u: Token)
    requires Reachable(s) && t in s.issued && !AccountValid(s, t)
    requires u in Run(s, later).issued && u.sid == t.sid
    ensures !AccountValid(Run(s, later), u)
  {
    ReachableInv(s);
    assert Belongs(s, t);
    OneDeadlinePerSession(s, later, t, u);
    RunGrows(s, later);
  }
}
