/**
 * The prepay protocol around one payment row: any number of callers claim a
 * lease, ask the provider for payment parameters and activate the row, while
 * expiry, settlement and crashes interleave with them.
 */
module Prepay {
  import opened Options
  import opened PaymentTypes
  import opened PaymentRows

  datatype PrepayError =
    | MethodRequired | MethodUnsupported | OrderNotFound | OrderNotPayable | DescriptionTooLong
    | NumberRequired | NumberTooLong | NumberInvalid
    | ReviewPending | AlreadyPaid | OtherPayment | StateConflict | InProgress | ProviderFailed | ResponseInvalid
      | FinalizeFailed | Abandoned

  /** Where one call stands. A miss is an UPDATE that matched no row, before the row is read again. */
  datatype Phase =
    | ToClaim
    | ClaimMissed
    | Claimed(token: string)
    | Asked(token: string)
    | Answered(token: string, action: Action)
    | FinalizeMissed(token: string, action: Action)
    | ToRecord(token: string, why: PrepayError)
    | Got(action: Action)
    | Refused(error: PrepayError)

  /** What a gateway call brings back. */
  datatype Answer = Fails | Replies(action: Action)

  /** The fate of the transaction that activates the row and enqueues its check job. */
  datatype Outcome = Committed | RolledBack | AckLost

  /** Updates of the row by order expiry, settlement and reconciliation. */
  datatype RowUpdate =
    | ToClosePending | ToClosed | ToFailed | ToSuccess(txId: string) | ToRefunded
    | Flag(reason: Reason) | Retry(version: int) | Resolve(version: int)

  /**
   * The row, the calls, and the history: how often the provider was asked, how many check jobs were committed,
   * every action handed to a client, every token ever claimed with, and the latest claim.
   */
  datatype State = State(
    row: Payment, calls: map<nat, Phase>, polled: bool,
    asked: nat, checkJobs: nat, handed: set<Action>, tokens: set<string>, lastClaim: Option<nat>)

  datatype Label =
    | Environment(u: RowUpdate)
    | Open(c: nat)
    | Claim(c: nat, token: string, at: int, lease: int)
    | ClaimReload(c: nat, at: int)
    | Ask(c: nat)
    | Reply(c: nat, answer: Answer)
    | Finalize(c: nat, outcome: Outcome)
    | FinalizeReload(c: nat, outcome: Outcome)
    | RecordError(c: nat, lost: bool)
    | Abandon(c: nat)

  predicate Issued(a: Action) {
    a.kind != "" && a.payload != ""
  }

  /** The result the code hands out when it sees an activated row. */
  predicate Activated(p: Payment) {
    p.status == Pending && p.action.kind != ""
  }

  function OrSame(p: Payment, q: Option<Payment>): Payment {
    if q.Some? then q.value else p
  }

  function Updated(p: Payment, u: RowUpdate): Payment {
    match u
    case ToClosePending => OrSame(p, MarkClosePending(p))
    case ToClosed => OrSame(p, MarkClosed(p))
    case ToFailed => OrSame(p, MarkFailed(p))
    case ToSuccess(txId) => OrSame(p, RecordSuccess(p, txId))
    case ToRefunded => OrSame(p, ConfirmRefunded(p))
    case Flag(reason) => RequireReview(p, reason)
    case Retry(version) => OrSame(p, RetryReview(p, version))
    case Resolve(version) => OrSame(p, ResolveReview(p, version))
  }

  function Put(s: State, c: nat, phase: Phase): State {
    s.(calls := s.calls[c := phase])
  }

  function HandOut(s: State, c: nat): State {
    Put(s, c, Got(s.row.action)).(handed := s.handed + {s.row.action})
  }

  /**
   * A call that finds the row active gets its snapshot and acts on its status; after a failed or closed row it goes
   * on with another payment.
   */
  function OpenStep(s: State, c: nat): State {
    if c in s.calls then s
    else if NeedsReview(s.row.review) then Put(s, c, Refused(ReviewPending))
    else if Captured(s.row.status) then Put(s, c, Refused(AlreadyPaid))
    else if !Active(s.row.status) then Put(s, c, Refused(OtherPayment))
    else if Activated(s.row) then HandOut(s, c)
    else if s.row.status == Creating then Put(s, c, ToClaim)
    else Put(s, c, Refused(StateConflict))
  }

  /** Tokens are minted by the identifier generator: non-empty and never used before. */
  function ClaimStep(s: State, c: nat, token: string, at: int, lease: int): State {
    if !(c in s.calls && s.calls[c] == ToClaim && token != "" && token !in s.tokens) then s
    else match ClaimPrepay(s.row, token, at, lease)
      case Some(row) => Put(s, c, Claimed(token)).(row := row, tokens := s.tokens + {token}, lastClaim := Some(c))
      case None => Put(s, c, ClaimMissed)
  }

  function ClaimReloadStep(s: State, c: nat, at: int): State {
    if !(c in s.calls && s.calls[c] == ClaimMissed) then s
    else if Activated(s.row) then HandOut(s, c)
    else if s.row.status == Creating && s.row.leaseUntil.Some? && s.row.leaseUntil.value > at
    then Put(s, c, Refused(InProgress))
    else Put(s, c, Refused(StateConflict))
  }

  function AskStep(s: State, c: nat): State {
    if c in s.calls && s.calls[c].Claimed? then Put(s, c, Asked(s.calls[c].token)).(asked := s.asked + 1) else s
  }

  function ReplyStep(s: State, c: nat, answer: Answer): State {
    if !(c in s.calls && s.calls[c].Asked?) then s
    else
      var token := s.calls[c].token;
      match answer
      case Fails => Put(s, c, ToRecord(token, ProviderFailed))
      case Replies(action) =>
        if Issued(action) then Put(s, c, Answered(token, action)) else Put(s, c, ToRecord(token, ResponseInvalid))
  }

  /** The row as activated by call c together with its check job; only a committed transaction reaches the client. */
  function CommitStep(s: State, c: nat, row: Payment, token: string, outcome: Outcome): State {
    var done := s.(row := row, checkJobs := if s.polled then s.checkJobs + 1 else s.checkJobs);
    match outcome
    case Committed => HandOut(done, c)
    case RolledBack => Put(s, c, ToRecord(token, FinalizeFailed))
    case AckLost => Put(done, c, ToRecord(token, FinalizeFailed))
  }

  function FinalizeStep(s: State, c: nat, outcome: Outcome): State {
    if !(c in s.calls && s.calls[c].Answered?) then s
    else
      var token, action := s.calls[c].token, s.calls[c].action;
      match FinalizePrepay(s.row, token, action)
      case Some(row) => CommitStep(s, c, row, token, outcome)
      case None => Put(s, c, FinalizeMissed(token, action))
  }

  /** Another caller may have activated the row meanwhile; then its action is the answer. */
  function FinalizeReloadStep(s: State, c: nat, outcome: Outcome): State {
    if !(c in s.calls && s.calls[c].FinalizeMissed?) then s
    else if Activated(s.row) then CommitStep(s, c, s.row, s.calls[c].token, outcome)
    else Put(s, c, ToRecord(s.calls[c].token, FinalizeFailed))
  }

  /** The failed attempt clears its own lease and returns its error, whether or not that update went through. */
  function RecordErrorStep(s: State, c: nat, lost: bool): State {
    if !(c in s.calls && s.calls[c].ToRecord?) then s
    else
      var row := if lost then s.row else OrSame(s.row, RecordPrepayError(s.row, s.calls[c].token));
      Put(s, c, Refused(s.calls[c].why)).(row := row)
  }

  /** A crash, a cancelled request, or a repository error at any point of the call. */
  function AbandonStep(s: State, c: nat): State {
    if c in s.calls && (s.calls[c].Got? || s.calls[c].Refused?) then s else Put(s, c, Refused(Abandoned))
  }

  function Step(s: State, l: Label): State {
    match l
    case Environment(u) => s.(row := Updated(s.row, u))
    case Open(c) => OpenStep(s, c)
    case Claim(c, token, at, lease) => ClaimStep(s, c, token, at, lease)
    case ClaimReload(c, at) => ClaimReloadStep(s, c, at)
    case Ask(c) => AskStep(s, c)
    case Reply(c, answer) => ReplyStep(s, c, answer)
    case Finalize(c, outcome) => FinalizeStep(s, c, outcome)
    case FinalizeReload(c, outcome) => FinalizeReloadStep(s, c, outcome)
    case RecordError(c, lost) => RecordErrorStep(s, c, lost)
    case Abandon(c) => AbandonStep(s, c)
  }

  function Run(s: State, ls: seq<Label>): State
    decreases |ls|
  {
    if ls == [] then s else Run(Step(s, ls[0]), ls[1..])
  }

  // ---------------------------------------------------------------- invariant

  predicate HoldsToken(p: Phase) {
    p.Claimed? || p.Asked? || p.Answered? || p.FinalizeMissed? || p.ToRecord?
  }

  ghost predicate RowOk(s: State) {
    && (s.row.status == Creating ==> s.row.action == NO_ACTION)
    && (s.row.status == Pending ==> Issued(s.row.action))
    && (s.row.action == NO_ACTION || Issued(s.row.action))
    && (s.row.attempts == 0 ==> s.asked == 0 && s.tokens == {} && s.row.leaseToken == "" && s.row.leaseUntil.None?)
    && (s.tokens == {} ==> s.row.attempts == 0)
  }

  /** Whoever holds the row's token made the latest claim. */
  ghost predicate LeaseOk(s: State) {
    && (s.row.leaseToken != "" ==> s.row.leaseToken in s.tokens)
    && forall c: nat :: Holder(s, c) ==> s.lastClaim == Some(c)
  }

  ghost predicate CallOk(s: State, c: nat)
    requires c in s.calls
  {
    var p := s.calls[c];
    && (HoldsToken(p) ==> p.token in s.tokens && p.token != "" && s.row.attempts > 0)
    && (p.Answered? || p.FinalizeMissed? ==> Issued(p.action))
    && (p.Got? ==> p.action in s.handed)
  }

  ghost predicate CallsOk(s: State) {
    forall c {:trigger CallOk(s, c)} :: c in s.calls ==> CallOk(s, c)
  }

  ghost predicate HistoryOk(s: State) {
    && (s.handed != {} ==> s.handed == {s.row.action} && Issued(s.row.action))
    && (s.polled ==> (Issued(s.row.action) <==> s.checkJobs > 0))
  }

  ghost predicate Inv(s: State) {
    RowOk(s) && LeaseOk(s) && CallsOk(s) && HistoryOk(s)
  }

  /** A payment as it is inserted. */
  predicate Initial(s: State) {
    && s.row.status == Creating && s.row.action == NO_ACTION && s.row.txId == "" && s.row.attempts == 0
    && s.row.leaseToken == "" && s.row.leaseUntil.None?
    && s.calls == map[] && s.asked == 0 && s.checkJobs == 0 && s.handed == {} && s.tokens == {} && s.lastClaim.None?
  }

  lemma RowUpdates(p: Payment, u: RowUpdate)
    ensures var q := Updated(p, u);
            && q.action == p.action && q.attempts == p.attempts && q.payChannel == p.payChannel
            && (q.status == Creating ==> p.status == Creating) && (q.status == Pending ==> p.status == Pending)
            && (q.leaseToken == "" || q.leaseToken == p.leaseToken) && (p.leaseUntil.None? ==> q.leaseUntil.None?)
  {
  }

  lemma RowStep(s: State, l: Label)
    requires Inv(s)
    ensures RowOk(Step(s, l))
  {
    if l.Environment? {
      RowUpdates(s.row, l.u);
    } else if l.c in s.calls {
      assert CallOk(s, l.c);
    }
  }

  lemma HistoryStep(s: State, l: Label)
    requires Inv(s)
    ensures HistoryOk(Step(s, l))
  {
    if l.Environment? {
      RowUpdates(s.row, l.u);
    } else if l.c in s.calls {
      assert CallOk(s, l.c);
    }
  }

  /** The history only grows, and a step moves at most its own call. */
  lemma HistoryGrows(s: State, l: Label, c: nat)
    ensures var t := Step(s, l);
            && s.tokens <= t.tokens && s.handed <= t.handed && s.row.attempts <= t.row.attempts
            && (c in t.calls && (l.Environment? || l.c != c) ==> c in s.calls && t.calls[c] == s.calls[c])
  {
  }

  lemma OwnCall(s: State, l: Label)
    requires Inv(s) && !l.Environment? && l.c in Step(s, l).calls
    ensures CallOk(Step(s, l), l.c)
  {
    if l.c in s.calls { assert CallOk(s, l.c); }
  }

  lemma CallStep(s: State, l: Label)
    requires Inv(s)
    ensures CallsOk(Step(s, l))
  {
    forall c: nat | c in Step(s, l).calls ensures CallOk(Step(s, l), c) {
      if l.Environment? || l.c != c {
        HistoryGrows(s, l, c);
        assert CallOk(s, c);
      } else {
        OwnCall(s, l);
      }
    }
  }

  ghost predicate Holder(s: State, c: nat) {
    c in s.calls && HoldsToken(s.calls[c]) && s.calls[c].token == s.row.leaseToken
  }

  /** Only a claim gives a call the row's token. */
  lemma NewHolder(s: State, l: Label, c: nat)
    requires Inv(s) && Holder(Step(s, l), c)
    ensures if l.Claim? && Step(s, l).row != s.row then l.c == c else Holder(s, c)
  {
    if l.Environment? {
      EnvironmentHolder(s, l, c);
    } else if c in s.calls {
      assert CallOk(s, c);
    }
  }

  lemma EnvironmentHolder(s: State, l: Label, c: nat)
    requires Inv(s) && l.Environment? && Holder(Step(s, l), c)
    ensures Holder(s, c)
  {
    RowUpdates(s.row, l.u);
    assert CallOk(s, c);
  }

  lemma LeaseStep(s: State, l: Label)
    requires Inv(s)
    ensures LeaseOk(Step(s, l))
  {
    if l.Environment? { RowUpdates(s.row, l.u); }
    forall c: nat | Holder(Step(s, l), c) ensures Step(s, l).lastClaim == Some(c) {
      NewHolder(s, l, c);
    }
  }

  lemma StepKeeps(s: State, l: Label)
    requires Inv(s)
    ensures Inv(Step(s, l))
  {
    RowStep(s, l);
    HistoryStep(s, l);
    CallStep(s, l);
    LeaseStep(s, l);
  }

  lemma {:induction false} RunKeeps(s: State, ls: seq<Label>)
    requires Inv(s)
    ensures Inv(Run(s, ls))
    decreases |ls|
  {
    if ls != [] {
      StepKeeps(s, ls[0]);
      RunKeeps(Step(s, ls[0]), ls[1..]);
    }
  }

  ghost predicate Reachable(s: State) {
    exists start, ls :: Initial(start) && s == Run(start, ls)
  }

  lemma ReachableInv(s: State)
    requires Reachable(s)
    ensures Inv(s)
  {
    var start, ls :| Initial(start) && s == Run(start, ls);
    RunKeeps(start, ls);
  }

  // ------------------------------------------------------------- absence proof

  /** The creating state is fenced off and the row carries no action. */
  predicate Sealed(s: State) {
    s.row.status != Creating && s.row.action == NO_ACTION
  }

  lemma {:induction false} SealedStays(s: State, ls: seq<Label>)
    requires Inv(s) && Sealed(s)
    ensures var t := Run(s, ls);
            Inv(t) && Sealed(t) && t.row.attempts == s.row.attempts && t.tokens == s.tokens
    decreases |ls|
  {
    if ls != [] {
      StepKeeps(s, ls[0]);
      if ls[0].Environment? { RowUpdates(s.row, ls[0].u); }
      SealedStays(Step(s, ls[0]), ls[1..]);
    }
  }

  ghost predicate NothingHanded(s: State) {
    s.handed == {} && forall c :: c in s.calls ==> !s.calls[c].Got?
  }

  lemma SealedHandsNothing(s: State)
    requires Inv(s) && Sealed(s)
    ensures NothingHanded(s)
  {
    forall c | c in s.calls ensures !s.calls[c].Got? {
      assert CallOk(s, c);
    }
  }

  /**
   * Once a row is confirmed unissued, at whatever time the caller looks at the clock, no call has received an
   * action and none ever will; unless the product signs locally, the provider was never asked and never will be.
   */
  lemma ConfirmedUnissuedIsFinal(s: State, now: int, later: seq<Label>)
    requires Reachable(s) && CanConfirmUnissued(s.row, now)
    ensures NothingHanded(s) && NothingHanded(Run(s, later))
    ensures !LocallySigned(s.row.payChannel) ==> s.asked == 0 && Run(s, later).asked == 0
  {
    ReachableInv(s);
    SealedHandsNothing(s);
    SealedStays(s, later);
    SealedHandsNothing(Run(s, later));
  }

  /** For a product that asks the provider, a fenced row is confirmed exactly when nobody ever claimed it. */
  lemma NetworkConfirmIff(s: State, now: int)
    requires Reachable(s) && !LocallySigned(s.row.payChannel)
    requires (s.row.status == ClosePending || s.row.status == Closed) && s.row.txId == ""
    ensures CanConfirmUnissued(s.row, now) <==> s.tokens == {}
  {
    ReachableInv(s);
    var start, ls :| Initial(start) && s == Run(start, ls);
    UnclaimedHasNoAction(start, ls);
  }

  /** Without a claim nothing was ever activated. */
  lemma {:induction false} UnclaimedHasNoAction(s: State, ls: seq<Label>)
    requires Inv(s) && (s.row.action != NO_ACTION ==> s.tokens != {})
    ensures Run(s, ls).row.action != NO_ACTION ==> Run(s, ls).tokens != {}
    decreases |ls|
  {
    if ls != [] {
      StepKeeps(s, ls[0]);
      if ls[0].Environment? { RowUpdates(s.row, ls[0].u); }
      if !ls[0].Environment? && ls[0].c in s.calls { assert CallOk(s, ls[0].c); }
      UnclaimedHasNoAction(Step(s, ls[0]), ls[1..]);
    }
  }

  // ------------------------------------------------------------ one action

  lemma {:induction false} ActionStays(s: State, ls: seq<Label>)
    requires Inv(s) && s.row.action != NO_ACTION
    ensures Run(s, ls).row.action == s.row.action
    decreases |ls|
  {
    if ls != [] {
      StepKeeps(s, ls[0]);
      if ls[0].Environment? { RowUpdates(s.row, ls[0].u); }
      ActionStays(Step(s, ls[0]), ls[1..]);
    }
  }

  /** Any two calls that receive an action, however far apart, receive the same complete one: that of the row. */
  lemma AllCallersGetOneAction(s: State, later: seq<Label>, c: nat, d: nat)
    requires Reachable(s) && c in s.calls && s.calls[c].Got? && d in Run(s, later).calls && Run(s, later).calls[d].Got?
    ensures s.calls[c].action == Run(s, later).calls[d].action == s.row.action == Run(s, later).row.action
    ensures Issued(s.row.action)
  {
    ReachableInv(s);
    assert CallOk(s, c);
    ActionStays(s, later);
    RunKeeps(s, later);
    assert CallOk(Run(s, later), d);
  }

  /** An activated row of a polled product has its check job; a rolled-back activation leaves neither. */
  lemma ActivationHasCheckJob(s: State)
    requires Reachable(s) && s.polled
    ensures s.row.action.kind != "" <==> s.checkJobs > 0
    ensures s.row.status == Pending ==> s.checkJobs > 0
  {
    ReachableInv(s);
  }

  /** A pending payment always has its action, so the branch that reports an adapter without one is dead. */
  lemma PendingHasAction(s: State)
    requires Reachable(s) && s.row.status == Pending
    ensures Activated(s.row) && Issued(s.row.action)
  {
    ReachableInv(s);
  }

  predicate Lost(p: Phase) {
    p.ToRecord? || p.Refused?
  }

  /** A call that failed, in its finalize or before, never receives an action afterwards. */
  lemma {:induction false} FailedCallGetsNothing(s: State, ls: seq<Label>, c: nat)
    requires c in s.calls && Lost(s.calls[c])
    ensures c in Run(s, ls).calls && Lost(Run(s, ls).calls[c])
    decreases |ls|
  {
    if ls != [] {
      LostStep(s, ls[0], c);
      FailedCallGetsNothing(Step(s, ls[0]), ls[1..], c);
    }
  }

  lemma LostStep(s: State, l: Label, c: nat)
    requires c in s.calls && Lost(s.calls[c])
    ensures c in Step(s, l).calls && Lost(Step(s, l).calls[c])
  {
  }

  /** The call that activates the row holds the latest claim: a claim by anyone else fences it off. */
  lemma LatestClaimActivates(s: State, c: nat, outcome: Outcome)
    requires Reachable(s) && s.row.status == Creating && FinalizeStep(s, c, outcome).row.status == Pending
    ensures s.lastClaim == Some(c) && s.calls[c].token == s.row.leaseToken
    ensures FinalizeStep(s, c, outcome).row.action == s.calls[c].action
  {
    ReachableInv(s);
    assert CallOk(s, c) && Holder(s, c);
  }
}
