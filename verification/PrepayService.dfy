/** PrepayForOrder as the code runs it, one call at a time against everybody else's steps. */
module PrepayService {
  import opened Options
  import opened PaymentTypes
  import opened Prepay

  const MAX_DESCRIPTION_BYTES := 127
  const MAX_NUMBER_BYTES := 64

  datatype Result<T> = Ok(value: T) | Err(error: PrepayError)

  /** The order as the call reads it, before any lock. */
  datatype OrderView = OrderView(userId: int, status: OrderStatus)

  /**
   * A request with what the gateway and the order repository say about it; descriptionBytes is 0 when none is given.
   */
  datatype Request = Request(
    userId: int, methodGiven: bool, methodSupported: bool, order: Option<OrderView>, descriptionBytes: nat,
    orderNumberBytes: nat, outTradeNo: string)

  // ------------------------------------------------------------- trade number

  predicate AllowedChar(c: char) {
    'A' <= c <= 'Z' || 'a' <= c <= 'z' || '0' <= c <= '9' || c == '_' || c == '-'
  }

  predicate Allowed(value: string) {
    forall i :: 0 <= i < |value| ==> AllowedChar(value[i])
  }

  /** The UTF-8 length, which is what the length check counts. */
  function ByteLen(value: string): nat {
    if value == [] then 0
    else
      var c := value[|value| - 1];
      ByteLen(value[..|value| - 1]) +
        (if c < '\U{80}' then 1 else if c < '\U{800}' then 2 else if c < '\U{10000}' then 3 else 4)
  }

  lemma {:induction false} AllowedIsAscii(value: string)
    requires Allowed(value)
    ensures ByteLen(value) == |value|
  {
    if value != [] {
      AllowedIsAscii(value[..|value| - 1]);
    }
  }

  lemma {:induction false} NonEmptyHasBytes(value: string)
    ensures ByteLen(value) >= |value|
  {
    if value != [] {
      NonEmptyHasBytes(value[..|value| - 1]);
    }
  }

  /** The number is accepted exactly when it is 1 to 64 letters, digits, underscores and hyphens. */
  method ValidateOutTradeNo(value: string) returns (r: Option<PrepayError>)
    ensures r.None? <==> 1 <= |value| <= MAX_NUMBER_BYTES && Allowed(value)
    ensures r == Some(NumberRequired) <==> value == ""
    ensures r == Some(NumberTooLong) <==> ByteLen(value) > MAX_NUMBER_BYTES
    ensures r == Some(NumberInvalid) <==> ByteLen(value) <= MAX_NUMBER_BYTES && !Allowed(value)
    ensures r.None? || r.value == NumberRequired || r.value == NumberTooLong || r.value == NumberInvalid
  {
    NonEmptyHasBytes(value);
    if value == "" {
      return Some(NumberRequired);
    }
    if ByteLen(value) > MAX_NUMBER_BYTES {
      if Allowed(value) { AllowedIsAscii(value); }
      return Some(NumberTooLong);
    }
    for i := 0 to |value|
      invariant Allowed(value[..i])
    {
      if !AllowedChar(value[i]) {
        return Some(NumberInvalid);
      }
      assert Allowed(value[..i + 1]);
    }
    assert value[..|value|] == value;
    return None;
  }

  predicate Owns(q: Request) {
    q.order.Some? && q.userId > 0 && q.order.value.userId == q.userId
  }

  /** A supported method and the caller's own order, which awaits payment. */
  predicate Payable(q: Request) {
    q.methodGiven && q.methodSupported && Owns(q) && q.order.value.status == PendingPayment
  }

  predicate DescriptionFits(q: Request) {
    && q.descriptionBytes <= MAX_DESCRIPTION_BYTES
    && (q.descriptionBytes == 0 ==> 6 + q.orderNumberBytes <= MAX_DESCRIPTION_BYTES)
  }

  /** A request that may reach the payment row. */
  predicate Admissible(q: Request) {
    Payable(q) && DescriptionFits(q) && 1 <= |q.outTradeNo| <= MAX_NUMBER_BYTES && Allowed(q.outTradeNo)
  }

  /** Admissible requests pass; every other gets the error of the first check it fails. */
  method Precheck(q: Request) returns (r: Option<PrepayError>)
    ensures r.None? <==> Admissible(q)
    ensures r == Some(MethodRequired) <==> !q.methodGiven
    ensures r == Some(DescriptionTooLong) <==> Payable(q) && !DescriptionFits(q)
    ensures r == Some(NumberRequired) <==> Payable(q) && DescriptionFits(q) && q.outTradeNo == ""
    ensures r == Some(NumberTooLong) <==> Payable(q) && DescriptionFits(q) && ByteLen(q.outTradeNo) > MAX_NUMBER_BYTES
    ensures r == Some(NumberInvalid) <==>
            Payable(q) && DescriptionFits(q) && ByteLen(q.outTradeNo) <= MAX_NUMBER_BYTES && !Allowed(q.outTradeNo)
    ensures r == Some(MethodUnsupported) <==> q.methodGiven && !q.methodSupported
    ensures r == Some(OrderNotFound) <==> q.methodGiven && q.methodSupported && !Owns(q)
    ensures r == Some(OrderNotPayable) <==>
            q.methodGiven && q.methodSupported && Owns(q) && q.order.value.status != PendingPayment
  {
    if !q.methodGiven {
      return Some(MethodRequired);
    }
    if !q.methodSupported {
      return Some(MethodUnsupported);
    }
    if q.order.None? || q.userId <= 0 || q.order.value.userId != q.userId {
      return Some(OrderNotFound);
    }
    if q.order.value.status != PendingPayment {
      return Some(OrderNotPayable);
    }
    // An absent description becomes the word Order, a blank and the order's number.
    var bytes := if q.descriptionBytes == 0 then 6 + q.orderNumberBytes else q.descriptionBytes;
    if bytes > MAX_DESCRIPTION_BYTES {
      return Some(DescriptionTooLong);
    }
    r := ValidateOutTradeNo(q.outTradeNo);
  }

  // ------------------------------------------------------------- interference

  /** The others neither act for call c nor mint its token. */
  predicate Foreign(ls: seq<Label>, c: nat, token: string) {
    forall k :: 0 <= k < |ls| ==> (!ls[k].Environment? ==> ls[k].c != c) && (ls[k].Claim? ==> ls[k].token != token)
  }

  ghost predicate Untouched(s: State, t: State, c: nat, token: string) {
    && (c in t.calls <==> c in s.calls) && (c in s.calls ==> t.calls[c] == s.calls[c])
    && (token !in s.tokens ==> token !in t.tokens)
  }

  lemma ForeignStep(s: State, l: Label, c: nat, token: string)
    requires Foreign([l], c, token)
    ensures Untouched(s, Step(s, l), c, token)
  {
    assert [l][0] == l;
  }

  lemma {:induction false} RunConcat(s: State, a: seq<Label>, b: seq<Label>)
    ensures Run(s, a + b) == Run(Run(s, a), b)
    decreases |a|
  {
    if a == [] {
      assert a + b == b;
    } else {
      assert (a + b)[1..] == a[1..] + b;
      RunConcat(Step(s, a[0]), a[1..], b);
    }
  }

  // ------------------------------------------------------------------ the call

  /** A fresh row, or one whose lease has run out. */
  predicate Claimable(p: Payment, at: int) {
    p.status == Creating && !NeedsReview(p.review) && (p.leaseUntil.None? || p.leaseUntil.value < at)
  }

  /** Nobody else acts during the call. */
  ghost predicate Alone(gap: nat -> seq<Label>) {
    forall k :: gap(k) == []
  }

  class Service {
    var s: State
    /** Every step since the payment was inserted. */
    ghost var trace: seq<Label>
    ghost const start: State

    ghost predicate Valid()
      reads this
    {
      Initial(start) && s == Run(start, trace)
    }

    constructor (s: State)
      requires Initial(s)
      ensures Valid() && this.s == s && start == s
    {
      this.s, trace, start := s, [], s;
    }

    method Do(l: Label)
      requires Valid()
      modifies this
      ensures Valid() && s == Step(old(s), l)
    {
      RunConcat(start, trace, [l]);
      assert Run(s, [l]) == Run(Step(s, l), [l][1..]);
      s := Step(s, l);
      trace := trace + [l];
    }

    method Wait(ls: seq<Label>, ghost c: nat, ghost token: string)
      requires Valid() && Foreign(ls, c, token)
      modifies this
      ensures Valid() && Untouched(old(s), s, c, token) && (ls == [] ==> s == old(s))
    {
      for k := 0 to |ls|
        invariant Valid() && Untouched(old(s), s, c, token) && (k == 0 ==> s == old(s))
      {
        assert Foreign([ls[k]], c, token);
        ForeignStep(s, ls[k], c, token);
        Do(ls[k]);
      }
    }

    /** Finds the payment; only a row that is still being created lets the call go on. */
    method OpenPayment(c: nat, ghost token: string, gap: nat -> seq<Label>)
      requires Valid() && c !in s.calls && token !in s.tokens && forall k :: Foreign(gap(k), c, token)
      modifies this
      ensures Valid() && c in s.calls && token !in s.tokens
      ensures s.calls[c] == ToClaim || s.calls[c].Refused? || s.calls[c] == Got(s.row.action)
      ensures Alone(gap) && old(s.row.status == Creating && !NeedsReview(s.row.review)) ==>
                s.calls[c] == ToClaim && s.row == old(s.row)
    {
      Wait(gap(0), c, token);
      Do(Open(c));
    }

    /** Claims the lease; a miss returns the action of a row that somebody else has activated. */
    method ClaimLease(c: nat, token: string, at: int, lease: int, gap: nat -> seq<Label>)
      requires Valid() && c in s.calls && s.calls[c] == ToClaim && token != "" && token !in s.tokens
      requires forall k :: Foreign(gap(k), c, token)
      modifies this
      ensures Valid() && c in s.calls
      ensures s.calls[c] == Claimed(token) || s.calls[c].Refused? || s.calls[c] == Got(s.row.action)
      ensures Alone(gap) && old(Claimable(s.row, at)) ==>
                s.calls[c] == Claimed(token) && s.row.status == Creating && s.row.leaseToken == token
    {
      Wait(gap(1), c, token);
      Do(Claim(c, token, at, lease));
      if s.calls[c] == ClaimMissed {
        Wait(gap(2), c, token);
        Do(ClaimReload(c, at));
      }
    }

    /** Asks the provider; an error or an incomplete answer leaves only a failure to record. */
    method AskProvider(c: nat, token: string, answer: Answer, gap: nat -> seq<Label>)
      requires Valid() && c in s.calls && s.calls[c] == Claimed(token) && forall k :: Foreign(gap(k), c, token)
      modifies this
      ensures Valid() && c in s.calls
      ensures match answer
              case Fails => s.calls[c] == ToRecord(token, ProviderFailed)
              case Replies(a) =>
                s.calls[c] == if Issued(a) then Answered(token, a) else ToRecord(token, ResponseInvalid)
      ensures Alone(gap) ==> s.row == old(s.row)
    {
      Wait(gap(3), c, token);
      Do(Ask(c));
      Wait(gap(4), c, token);
      Do(Reply(c, answer));
    }

    /** Activates the row and enqueues its check job in one transaction. */
    method Activate(c: nat, token: string, outcome: Outcome, gap: nat -> seq<Label>)
      requires Valid() && c in s.calls && s.calls[c].Answered? && s.calls[c].token == token && token != ""
      requires forall k :: Foreign(gap(k), c, token)
      modifies this
      ensures Valid() && c in s.calls
      ensures s.calls[c] == ToRecord(token, FinalizeFailed) || (s.calls[c] == Got(s.row.action) && outcome == Committed)
      ensures Alone(gap) && outcome == Committed && old(s.row.status == Creating && s.row.leaseToken == token) ==>
                s.calls[c] == Got(old(s.calls[c].action))
    {
      Wait(gap(5), c, token);
      Do(Finalize(c, outcome));
      if s.calls[c].FinalizeMissed? {
        ReadActivated(c, token, outcome, gap);
      }
    }

    /** After a missed finalize the row of another winner is the answer. */
    method ReadActivated(c: nat, token: string, outcome: Outcome, gap: nat -> seq<Label>)
      requires Valid() && c in s.calls && s.calls[c].FinalizeMissed? && s.calls[c].token == token
      requires forall k :: Foreign(gap(k), c, token)
      modifies this
      ensures Valid() && c in s.calls
      ensures s.calls[c] == ToRecord(token, FinalizeFailed) || (s.calls[c] == Got(s.row.action) && outcome == Committed)
    {
      Wait(gap(6), c, token);
      Do(FinalizeReload(c, outcome));
    }

    /** The call of a lease holder: asks the provider, activates the row and records a failure. */
    method ObtainAction(c: nat, token: string, answer: Answer, outcome: Outcome, lost: bool, gap: nat -> seq<Label>)
      requires Valid() && c in s.calls && s.calls[c] == Claimed(token) && token != ""
      requires forall k :: Foreign(gap(k), c, token)
      modifies this
      ensures Valid() && c in s.calls && (s.calls[c].Refused? || s.calls[c].Got?)
      ensures Alone(gap) && answer.Replies? && Issued(answer.action) && outcome == Committed ==>
                old(s.row.status == Creating && s.row.leaseToken == token) ==> s.calls[c] == Got(answer.action)
    {
      AskProvider(c, token, answer, gap);
      if s.calls[c].Answered? {
        Activate(c, token, outcome, gap);
      }
      if s.calls[c].ToRecord? {
        Wait(gap(7), c, token);
        Do(RecordError(c, lost));
      }
    }

    /**
     * The whole call. An inadmissible request changes nothing; otherwise the result is the committed row's action or
     * the error the call ended with.
     */
    method PrepayForOrder(q: Request, c: nat, token: string, at: int, lease: int, answer: Answer, outcome: Outcome,
        lost: bool, gap: nat -> seq<Label>)
      returns (r: Result<Action>)
      requires Valid() && c !in s.calls && token != "" && token !in s.tokens && forall k :: Foreign(gap(k), c, token)
      modifies this
      ensures Valid()
      ensures !Admissible(q) ==> r.Err? && s == old(s)
      ensures Admissible(q) ==> c in s.calls && s.calls[c] == match r { case Ok(a) => Got(a) case Err(e) => Refused(e) }
      ensures r.Ok? ==> r.value == s.row.action && Issued(r.value) && (s.polled ==> s.checkJobs > 0)
      ensures Alone(gap) && Admissible(q) && old(Claimable(s.row, at)) && outcome == Committed ==>
                answer.Replies? && Issued(answer.action) ==> r == Ok(answer.action)
    {
      var problem := Precheck(q);
      if problem.Some? {
        return Err(problem.value);
      }
      OpenPayment(c, token, gap);
      if s.calls[c] == ToClaim {
        ClaimLease(c, token, at, lease, gap);
      }
      if s.calls[c] == Claimed(token) {
        ObtainAction(c, token, answer, outcome, lost, gap);
      }
      if s.calls[c].Got? {
        HandedIsIssued(s, c);
        return Ok(s.calls[c].action);
      }
      return Err(s.calls[c].error);
    }
  }

  lemma HandedIsIssued(s: State, c: nat)
    requires Reachable(s) && c in s.calls && s.calls[c].Got?
    ensures s.calls[c].action == s.row.action && Issued(s.row.action) && (s.polled ==> s.checkJobs > 0)
  {
    AllCallersGetOneAction(s, [], c, c);
    if s.polled { ActivationHasCheckJob(s); }
  }
}
