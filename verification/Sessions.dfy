/**
 * Sessions with a fixed deadline and rotating refresh tokens: a clock, a key
 * store whose keys expire, and any number of racing calls.
 */
module Sessions {
  import opened Options

  // Instants are nanoseconds; the key store keeps milliseconds and tokens keep whole seconds.
  const SECOND := 1_000_000_000
  const MILLI := 1_000_000

  datatype Kind = Access | Refresh

  datatype Token = Token(kind: Kind, userId: int, role: string, version: int, sid: string, jti: string, exp: int)

  datatype Pair = Pair(access: Token, refresh: Token)

  datatype Account = Account(version: int, role: string)

  datatype SessionKey = SessionKey(owner: int, active: bool, when: int)

  /** What a session was started with. */
  datatype Origin = Origin(userId: int, version: int, deadline: int)

  /** One consumed refresh token, and the pair it yielded once that pair is signed. */
  datatype Redemption = Redemption(claims: Token, at: int, pair: Option<Pair>, signedAt: int)

  /** A call between two of its steps; asOf is when it measured the remaining lifetime. */
  datatype Call =
    | Signed(pair: Pair, origin: Origin)
    | Creating(pair: Pair, origin: Origin, asOf: int)
    | Parsed(claims: Token)
    | Validated(claims: Token)
    | Consuming(claims: Token, asOf: int)
    | Consumed(k: nat, role: string)

  datatype State = State(
    accessTimeout: int, refreshTimeout: int, now: int,
    users: map<int, Account>, sessions: map<string, SessionKey>, burned: map<(string, string), int>,
    calls: map<nat, Call>, sids: set<string>, origins: map<string, Origin>,
    issued: set<Token>, redemptions: seq<Redemption>)

  datatype Label =
    | Tick(ns: nat)
    | ChangePassword(userId: int, expected: int)
    | SetRole(userId: int, role: string)
    | DeleteAccount(userId: int)
    | Start(c: nat, userId: int, version: int, role: string, sid: string, jtiA: string, jtiR: string)
    | MeasureStart(c: nat)
    | Create(c: nat, lost: bool)
    | Parse(c: nat, token: Token)
    | Validate(c: nat)
    | MeasureRefresh(c: nat)
    | Consume(c: nat, lost: bool)
    | Sign(c: nat, jtiA: string, jtiR: string)
    | Logout(access: Token, refresh: Option<Token>)
    | Drop(c: nat)

  // ------------------------------------------------------------------- times

  function WholeSecond(t: int): int {
    t / SECOND * SECOND
  }

  /** A duration in milliseconds, rounded toward zero. */
  function Millis(d: int): int {
    if d >= 0 then d / MILLI else -((-d) / MILLI)
  }

  function Min(a: int, b: int): int {
    if a <= b then a else b
  }

  function Max(a: int, b: int): int {
    if a >= b then a else b
  }

  /** A key is gone once the store's clock has passed its time. */
  predicate Live(now: int, when: int) {
    now / MILLI <= when
  }

  /** A key of this lifetime covers every instant before a whole-second deadline. */
  predicate Covers(when: int, deadline: int) {
    when >= deadline / MILLI - 1
  }

  // --------------------------------------------------------------- operations

  function SignPair(s: State, userId: int, role: string, version: int, sid: string, jtiA: string, jtiR: string,
      deadline: int): Pair {
    Pair(Token(Access, userId, role, version, sid, jtiA, WholeSecond(Min(s.now + s.accessTimeout, deadline))),
         Token(Refresh, userId, role, version, sid, jtiR, WholeSecond(deadline)))
  }

  /** A presented token is accepted by signature, kind and expiry; nobody can forge one. */
  predicate Parses(s: State, t: Token, kind: Kind) {
    t in s.issued && t.kind == kind && s.now < t.exp && t.userId > 0 && t.version > 0 && t.sid != "" && t.jti != ""
  }

  predicate AccountValid(s: State, t: Token) {
    t.userId > 0 && t.version > 0 && t.userId in s.users && s.users[t.userId].version == t.version
  }

  predicate SessionActive(s: State, sid: string, userId: int) {
    sid in s.sessions && Live(s.now, s.sessions[sid].when) && s.sessions[sid].owner == userId && s.sessions[sid].active
  }

  function Put(s: State, c: nat, call: Call): State {
    s.(calls := s.calls[c := call])
  }

  function Remove(s: State, c: nat): State {
    s.(calls := s.calls - {c})
  }

  function AddSession(s: State, sid: string, origin: Origin, when: int): State {
    s.(sessions := s.sessions[sid := SessionKey(origin.userId, true, when)], origins := s.origins[sid := origin])
  }

  function Issue(s: State, pair: Pair): State {
    s.(issued := s.issued + {pair.access, pair.refresh})
  }

  function Burn(s: State, t: Token, when: int): State {
    s.(burned := s.burned[(t.sid, t.jti) := when], redemptions := s.redemptions + [Redemption(t, s.now, None, s.now)])
  }

  /** The verified user's version may already be stale; session identifiers are random and never repeat. */
  function StartStep(s: State, c: nat, userId: int, version: int, role: string, sid: string, jtiA: string,
      jtiR: string): State {
    if c in s.calls || userId <= 0 || version <= 0 || s.accessTimeout <= 0 || s.refreshTimeout <= 0 then s
    else if sid == "" || jtiA == "" || jtiR == "" || sid in s.sids
      || (userId in s.users && s.users[userId].version < version) then s
    else
      var deadline := WholeSecond(s.now + Max(s.refreshTimeout, s.accessTimeout));
      Put(s, c, Signed(SignPair(s, userId, role, version, sid, jtiA, jtiR, deadline),
                       Origin(userId, version, deadline)))
        .(sids := s.sids + {sid})
  }

  function MeasureStartStep(s: State, c: nat): State {
    if c in s.calls && s.calls[c].Signed? then Put(s, c, Creating(s.calls[c].pair, s.calls[c].origin, s.now)) else s
  }

  /** The pair is returned only after the session key exists. */
  function CreateStep(s: State, c: nat, lost: bool): State {
    if !(c in s.calls && s.calls[c].Creating?) then s
    else
      var Creating(pair, origin, asOf) := s.calls[c];
      var sid, ttl := pair.refresh.sid, Millis(origin.deadline - asOf);
      if ttl <= 0 || (sid in s.sessions && Live(s.now, s.sessions[sid].when)) then Remove(s, c)
      else
        var t := AddSession(Remove(s, c), sid, origin, s.now / MILLI + ttl);
        if lost then t else Issue(t, pair)
  }

  function ParseStep(s: State, c: nat, token: Token): State {
    if c !in s.calls && Parses(s, token, Refresh) then Put(s, c, Parsed(token)) else s
  }

  /** The account check replaces the role by the current one. */
  function ValidateStep(s: State, c: nat): State {
    if !(c in s.calls && s.calls[c].Parsed?) then s
    else
      var t := s.calls[c].claims;
      if AccountValid(s, t) then Put(s, c, Validated(t.(role := s.users[t.userId].role))) else Remove(s, c)
  }

  function MeasureRefreshStep(s: State, c: nat): State {
    if c in s.calls && s.calls[c].Validated? then Put(s, c, Consuming(s.calls[c].claims, s.now)) else s
  }

  /** The session is the caller's and alive, and the token's identifier is not burned. */
  predicate CanConsume(s: State, t: Token, asOf: int) {
    && Millis(t.exp - asOf) > 0 && SessionActive(s, t.sid, t.userId) && s.sessions[t.sid].when - s.now / MILLI > 0
    && !((t.sid, t.jti) in s.burned && Live(s.now, s.burned[(t.sid, t.jti)]))
  }

  /** The mark is kept for the rest of the token's life, or of the session key's if that ends first. */
  function MarkUntil(s: State, t: Token, asOf: int): int
    requires t.sid in s.sessions
  {
    s.now / MILLI + Min(s.sessions[t.sid].when - s.now / MILLI, Millis(t.exp - asOf))
  }

  /** One atomic script tests the session and burns the token's identifier. */
  function ConsumeStep(s: State, c: nat, lost: bool): State {
    if !(c in s.calls && s.calls[c].Consuming?) then s
    else
      var Consuming(t, asOf) := s.calls[c];
      if !CanConsume(s, t, asOf) then Remove(s, c)
      else
        var b := Burn(Remove(s, c), t, MarkUntil(s, t, asOf));
        if lost then b else Put(b, c, Consumed(|s.redemptions|, t.role))
  }

  function SignStep(s: State, c: nat, jtiA: string, jtiR: string): State {
    if !(c in s.calls && s.calls[c].Consumed? && s.calls[c].k < |s.redemptions| && jtiA != "" && jtiR != "") then s
    else
      var Consumed(k, role) := s.calls[c];
      var t := s.redemptions[k].claims;
      var pair := SignPair(s, t.userId, role, t.version, t.sid, jtiA, jtiR, t.exp);
      Issue(Remove(s, c).(redemptions := s.redemptions[k := s.redemptions[k].(pair := Some(pair), signedAt := s.now)]),
            pair)
  }

  /** Whether the call gets as far as the revocation: a genuine access token, no foreign refresh token. */
  predicate LogoutAllowed(s: State, access: Token, refresh: Option<Token>) {
    && access in s.issued && access.kind == Access && access.sid != "" && access.jti != "" && access.userId > 0
    && !(refresh.Some? && Parses(s, refresh.value, Refresh)
         && (refresh.value.userId != access.userId || refresh.value.sid != access.sid))
  }

  /** A missing key counts as revoked, another owner's key is left alone. */
  predicate RevokeSucceeds(s: State, sid: string, userId: int) {
    sid in s.sessions && Live(s.now, s.sessions[sid].when) ==> s.sessions[sid].owner == userId
  }

  function LogoutStep(s: State, access: Token, refresh: Option<Token>): State {
    var sid := access.sid;
    if LogoutAllowed(s, access, refresh) && RevokeSucceeds(s, sid, access.userId) && sid in s.sessions
      && Live(s.now, s.sessions[sid].when)
    then s.(sessions := s.sessions[sid := s.sessions[sid].(active := false)])
    else s
  }

  function AccountStep(s: State, l: Label): State
    requires l.ChangePassword? || l.SetRole? || l.DeleteAccount?
  {
    if l.userId !in s.users then s
    else match l
      case ChangePassword(u, expected) =>
        if s.users[u].version == expected then s.(users := s.users[u := s.users[u].(version := expected + 1)]) else s
      case SetRole(u, role) => s.(users := s.users[u := s.users[u].(role := role)])
      case DeleteAccount(u) => s.(users := s.users - {u})
  }

  function Step(s: State, l: Label): State {
    match l
    case Tick(ns) => s.(now := s.now + ns)
    case ChangePassword(_, _) => AccountStep(s, l)
    case SetRole(_, _) => AccountStep(s, l)
    case DeleteAccount(_) => AccountStep(s, l)
    case Start(c, userId, version, role, sid, jtiA, jtiR) => StartStep(s, c, userId, version, role, sid, jtiA, jtiR)
    case MeasureStart(c) => MeasureStartStep(s, c)
    case Create(c, lost) => CreateStep(s, c, lost)
    case Parse(c, token) => ParseStep(s, c, token)
    case Validate(c) => ValidateStep(s, c)
    case MeasureRefresh(c) => MeasureRefreshStep(s, c)
    case Consume(c, lost) => ConsumeStep(s, c, lost)
    case Sign(c, jtiA, jtiR) => SignStep(s, c, jtiA, jtiR)
    case Logout(access, refresh) => LogoutStep(s, access, refresh)
    case Drop(c) => Remove(s, c)
  }

  function Run(s: State, ls: seq<Label>): State
    decreases |ls|
  {
    if ls == [] then s else Run(Step(s, ls[0]), ls[1..])
  }

  predicate Initial(s: State) {
    && s.now >= 0 && s.sessions == map[] && s.burned == map[] && s.calls == map[] && s.sids == {} && s.origins == map[]
    && s.issued == {} && s.redemptions == []
  }
}
