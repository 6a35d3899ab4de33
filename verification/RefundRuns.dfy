/** Runs of the refund protocol that end where nobody wants to be, for any order, method and numbers. */
module RefundRuns {
  import opened Options
  import opened PaymentTypes
  import opened Settlement
  import opened RefundProtocol
  import opened SettlementTheorems
  import opened RefundRace
  import opened RefundGuard
  import opened RefundGateway

  /**
   * The values a run picks: the payment's method, number and action, its lease, the transaction and two refund numbers.
   */
  datatype Values = Values(
    total: int, currency: string, channel: string, outTradeNo: string, lease: string, action: Action,
    txId: string, refundNo: string, nextNo: string)

  /** A method the gateway can refund, and texts where the code demands them. */
  ghost predicate Usable(g: Gateway, n: Values) {
    && ParsesMethod(n.channel) && g.refunds(n.channel)
    && n.lease != "" && n.action.kind != "" && n.action.payload != "" && n.txId != "" && n.refundNo != ""
  }

  // ------------------------------------------------------------ the payment

  function NewPayment(n: Values): Payment {
    Payment(1, 1, 1, n.total, n.currency, Creating, n.channel, n.outTradeNo, "", NoReview, NoReason, 0, NO_ACTION, "",
            None, 0)
  }

  function ClaimedPayment(n: Values): Payment {
    NewPayment(n).(leaseToken := n.lease, leaseUntil := Some(60), attempts := 1)
  }

  function PendingPaymentRow(n: Values): Payment {
    NewPayment(n).(status := Pending, action := n.action, attempts := 1)
  }

  function PaidPayment(n: Values): Payment {
    PendingPaymentRow(n).(status := Success, txId := n.txId)
  }

  function OneRefund(n: Values, status: RefundStatus): Refund {
    Refund(1, 1, 1, 1, n.refundNo, n.total, n.total, n.currency, OrderCancelRefund, status)
  }

  function OpenBook(n: Values, payments: seq<Payment>, refunds: seq<Option<Refund>>): Book {
    Book(Order(1, 1, n.total, n.currency, PendingPayment, 0), payments, refunds, 0, {})
  }

  function PaidBook(n: Values, status: OrderStatus, refund: Option<Refund>): Book {
    Book(Order(1, 1, n.total, n.currency, status, 1), [PaidPayment(n)], [refund], 0, {})
  }

  function Empty(n: Values): World {
    World(OpenBook(n, [], []), map[], map[], {}, {}, [])
  }

  function Unpaid(n: Values, row: Payment, captured: bool): World {
    World(OpenBook(n, [row], [None]), map[], map[], {}, {}, [Trade(captured, 0, 0)])
  }

  function PaidWorld(n: Values): World {
    World(PaidBook(n, Paid, None), map[], map[], {}, {}, [Trade(true, 0, 0)])
  }

  function CreateTx(n: Values): Tx {
    TxCreatePayment(1, n.channel, n.outTradeNo, false)
  }

  function SuccessTx(n: Values): Tx {
    TxQuery(0, CheckArgs(false, 0, false),
            QueryResult(n.outTradeNo, n.channel, TradeSuccess, n.txId, n.total, n.currency), 0, false)
  }

  lemma CreateComputed(n: Values)
    ensures Commit(Empty(n).book, CreateTx(n)) == OpenBook(n, [NewPayment(n)], [None])
    ensures Extend([], 1) == [Trade(false, 0, 0)]
  {
    assert Recover([]) == [] && NewestBlocking([]) == None;
    assert Extend([], 1) == Extend([Trade(false, 0, 0)], 1);
  }

  lemma ClaimComputed(n: Values)
    ensures Commit(OpenBook(n, [NewPayment(n)], [None]), TxPrepay(0, Claim(n.lease, 0, 60))) ==
              OpenBook(n, [ClaimedPayment(n)], [None])
  {
    assert [NewPayment(n)][0 := ClaimedPayment(n)] == [ClaimedPayment(n)];
  }

  lemma FinalizeComputed(n: Values)
    requires n.lease != ""
    ensures Commit(OpenBook(n, [ClaimedPayment(n)], [None]), TxPrepay(0, Finalize(n.lease, n.action))) ==
              OpenBook(n, [PendingPaymentRow(n)], [None])
  {
    assert [ClaimedPayment(n)][0 := PendingPaymentRow(n)] == [PendingPaymentRow(n)];
  }

  lemma SuccessComputed(n: Values)
    requires n.txId != "" && ParsesMethod(n.channel)
    ensures Commit(OpenBook(n, [PendingPaymentRow(n)], [None]), SuccessTx(n)) == PaidBook(n, Paid, None)
  {
    var b := OpenBook(n, [PendingPaymentRow(n)], [None]);
    assert b.payments[0 := PaidPayment(n)] == [PaidPayment(n)];
    assert SettleSuccess(b, 0, n.txId, false) == Some(PaidBook(n, Paid, None));
  }

  lemma CreatedOccurs(g: Gateway, n: Values)
    ensures Occurs(g, Unpaid(n, NewPayment(n), false)) && WorldInv(Unpaid(n, NewPayment(n), false))
  {
    InitialInv(Empty(n));
    assert Empty(n) == Run(Empty(n), []);
    assert StartsAt(g, Empty(n), []);
    CreateComputed(n);
    Reach(g, Empty(n), Local(CreateTx(n)), Unpaid(n, NewPayment(n), false));
  }

  /** The caller claims the row, gets an action and hands it out. */
  lemma PrepaidOccurs(g: Gateway, n: Values)
    requires n.lease != ""
    ensures Occurs(g, Unpaid(n, PendingPaymentRow(n), false)) && WorldInv(Unpaid(n, PendingPaymentRow(n), false))
  {
    CreatedOccurs(g, n);
    ClaimComputed(n);
    FinalizeComputed(n);
    var m := Unpaid(n, ClaimedPayment(n), false);
    Reach(g, Unpaid(n, NewPayment(n), false), Local(TxPrepay(0, Claim(n.lease, 0, 60))), m);
    Reach(g, m, Local(TxPrepay(0, Finalize(n.lease, n.action))), Unpaid(n, PendingPaymentRow(n), false));
  }

  lemma PaidOccurs(g: Gateway, n: Values)
    requires Usable(g, n)
    ensures Occurs(g, PaidWorld(n)) && WorldInv(PaidWorld(n))
  {
    PrepaidOccurs(g, n);
    var m := Unpaid(n, PendingPaymentRow(n), true);
    Reach(g, Unpaid(n, PendingPaymentRow(n), false), BuyerPays(0), m);
    SuccessComputed(n);
    Reach(g, m, Local(SuccessTx(n)), PaidWorld(n));
  }

  // --------------------------------------------------------------- two calls

  lemma RefundComputed(n: Values)
    ensures n.refundNo != "" ==>
              PrepareRefund(PaidBook(n, Paid, None), 0, n.refundNo, 1) ==
                Some(PaidBook(n, Paid, Some(OneRefund(n, RefundPending))))
    ensures var pending := PaidBook(n, Paid, Some(OneRefund(n, RefundPending)));
            && PrepareRefund(pending, 0, n.nextNo, 2) == Some(pending)
            && RecordRefundError(pending, 0, true) == Some(PaidBook(n, Paid, Some(OneRefund(n, RefundFailed))))
  {
    var none, pending := PaidBook(n, Paid, None), PaidBook(n, Paid, Some(OneRefund(n, RefundPending)));
    assert none.refunds[0 := Some(OneRefund(n, RefundPending))] == pending.refunds;
    assert pending.refunds[0 := Some(OneRefund(n, RefundFailed))] == [Some(OneRefund(n, RefundFailed))];
  }

  /** The refund record is pending; two calls execute it. */
  function Refunding(n: Values, execs: map<nat, Exec>, requests: map<nat, Request>, accepted: set<string>,
      rejected: set<string>, moved: nat): World {
    World(PaidBook(n, Paid, Some(OneRefund(n, RefundPending))), execs, requests, accepted, rejected,
          [Trade(true, moved, 0)])
  }

  function Call(n: Values, phase: Phase): Exec {
    Exec(0, n.refundNo, phase)
  }

  function Sent(n: Values, verdict: Verdict): Request {
    Request(0, n.refundNo, verdict)
  }

  function Call1(n: Values): World {
    Refunding(n, map[1 := Call(n, Prepared)], map[], {}, {}, 0)
  }

  function Sent1(n: Values): World {
    Refunding(n, map[1 := Call(n, Waiting)], map[1 := Sent(n, Unprocessed)], {}, {}, 0)
  }

  function Call2(n: Values): World {
    Refunding(n, map[1 := Call(n, Waiting), 2 := Call(n, Prepared)], map[1 := Sent(n, Unprocessed)], {}, {}, 0)
  }

  function Sent2(n: Values): World {
    Refunding(n, map[1 := Call(n, Waiting), 2 := Call(n, Waiting)],
              map[1 := Sent(n, Unprocessed), 2 := Sent(n, Unprocessed)], {}, {}, 0)
  }

  function Rejected1(n: Values): World {
    Refunding(n, map[1 := Call(n, Waiting), 2 := Call(n, Waiting)],
              map[1 := Sent(n, Rejected), 2 := Sent(n, Unprocessed)], {}, {n.refundNo}, 0)
  }

  function Accepted2(n: Values): World {
    Refunding(n, map[1 := Call(n, Waiting), 2 := Call(n, Waiting)], map[1 := Sent(n, Rejected), 2 := Sent(n, Accepted)],
              {n.refundNo}, {n.refundNo}, 1)
  }

  function Delivered1(n: Values): World {
    Accepted2(n).(execs := map[1 := Call(n, Errored(true)), 2 := Call(n, Waiting)])
  }

  function FailedWorld(n: Values): World {
    Accepted2(n).(book := PaidBook(n, Paid, Some(OneRefund(n, RefundFailed))), execs := map[2 := Call(n, Waiting)])
  }

  function ShippedWorld(n: Values): World {
    FailedWorld(n).(book := PaidBook(n, Shipped, Some(OneRefund(n, RefundFailed))))
  }

  lemma SendsComputed(n: Values)
    ensures SendStep(Call1(n), 1) == Sent1(n) && SendStep(Call2(n), 2) == Sent2(n)
  {
  }

  lemma RejectComputed(n: Values)
    requires Aligned(Sent2(n))
    ensures ProcessStep(Sent2(n), 1, false) == Rejected1(n)
  {
  }

  lemma AcceptComputed(n: Values)
    requires Aligned(Rejected1(n))
    ensures ProcessStep(Rejected1(n), 2, true) == Accepted2(n)
  {
  }

  lemma DeliverComputed(n: Values)
    ensures DeliverStep(Accepted2(n), 1, false) == Delivered1(n)
  {
  }

  lemma FirstCallPrepared(g: Gateway, n: Values)
    requires Usable(g, n)
    ensures Occurs(g, Call1(n)) && WorldInv(Call1(n))
  {
    PaidOccurs(g, n);
    RefundComputed(n);
    Reach(g, PaidWorld(n), Prepare(1, 0, n.refundNo, 1), Call1(n));
  }

  lemma FirstCallOccurs(g: Gateway, n: Values)
    requires Usable(g, n)
    ensures Occurs(g, Sent1(n)) && WorldInv(Sent1(n))
  {
    FirstCallPrepared(g, n);
    SendsComputed(n);
    Reach(g, Call1(n), Send(1), Sent1(n));
  }

  lemma SecondCallPrepared(g: Gateway, n: Values)
    requires Usable(g, n)
    ensures Occurs(g, Call2(n)) && WorldInv(Call2(n))
  {
    FirstCallOccurs(g, n);
    RefundComputed(n);
    Reach(g, Sent1(n), Prepare(2, 0, n.nextNo, 2), Call2(n));
  }

  lemma SecondCallOccurs(g: Gateway, n: Values)
    requires Usable(g, n)
    ensures Occurs(g, Sent2(n)) && WorldInv(Sent2(n))
  {
    SecondCallPrepared(g, n);
    SendsComputed(n);
    Reach(g, Call2(n), Send(2), Sent2(n));
  }

  lemma RejectedOccurs(g: Gateway, n: Values)
    requires Usable(g, n)
    ensures Occurs(g, Rejected1(n)) && WorldInv(Rejected1(n))
  {
    SecondCallOccurs(g, n);
    RejectComputed(n);
    Reach(g, Sent2(n), Process(1, false), Rejected1(n));
  }

  lemma ProcessedOccurs(g: Gateway, n: Values)
    requires Usable(g, n)
    ensures Occurs(g, Accepted2(n)) && WorldInv(Accepted2(n))
  {
    RejectedOccurs(g, n);
    AcceptComputed(n);
    Reach(g, Rejected1(n), Process(2, true), Accepted2(n));
  }

  lemma DeliveredOccurs(g: Gateway, n: Values)
    requires Usable(g, n)
    ensures Occurs(g, Delivered1(n)) && WorldInv(Delivered1(n))
  {
    ProcessedOccurs(g, n);
    DeliverComputed(n);
    Reach(g, Accepted2(n), Deliver(1, false), Delivered1(n));
  }

  lemma RecordComputed(n: Values)
    requires Aligned(Delivered1(n))
    ensures RecordErrorStep(Delivered1(n), 1, Committed) == FailedWorld(n)
  {
    RefundComputed(n);
    assert Delivered1(n).execs - {1} == FailedWorld(n).execs;
  }

  lemma FailedOccurs(g: Gateway, n: Values)
    requires Usable(g, n)
    ensures Occurs(g, FailedWorld(n)) && WorldInv(FailedWorld(n))
  {
    DeliveredOccurs(g, n);
    RecordComputed(n);
    Reach(g, Delivered1(n), RecordError(1, Committed), FailedWorld(n));
  }

  /** An order can be shipped although its only money went back. */
  lemma ShippedAlthoughRefunded(g: Gateway, n: Values)
    requires Usable(g, n)
    ensures var v := ShippedWorld(n);
            Occurs(g, v) && v.book.order.status == Shipped && v.trades == [Trade(true, 1, 0)] && !FailedUnmoved(v)
  {
    FailedOccurs(g, n);
    assert Fulfil(FailedWorld(n).book, 0, true) == Some(ShippedWorld(n).book);
    Reach(g, FailedWorld(n), Local(TxFulfil(0, true)), ShippedWorld(n));
    assert Fails(ShippedWorld(n).book, 0);
  }

  // ------------------------------------------------------- an unsent execution

  /** One call is waiting and another is about to send: nothing is wrong yet, and the two race. */
  lemma UnsentCallRaces(g: Gateway, n: Values)
    requires Usable(g, n)
    ensures var v := Call2(n); Occurs(g, v) && FailedUnmoved(v) && Racing(v)
  {
    SecondCallPrepared(g, n);
    var v, no := Call2(n), n.refundNo;
    assert Live(v, 2, no) && MayFail(v, 1, no) && MayAccept(v, 1, no);
    assert RacingRecord(v, 0);
  }

  function Refused1(n: Values): World {
    Refunding(n, map[1 := Call(n, Waiting), 2 := Call(n, Prepared)], map[1 := Sent(n, Rejected)], {}, {n.refundNo}, 0)
  }

  function Told1(n: Values): World {
    Refused1(n).(execs := map[1 := Call(n, Errored(true)), 2 := Call(n, Prepared)])
  }

  /** The rejection is recorded; the other call is still about to send. */
  function Late(n: Values): World {
    Refused1(n).(book := PaidBook(n, Paid, Some(OneRefund(n, RefundFailed))), execs := map[2 := Call(n, Prepared)])
  }

  lemma TellComputed(n: Values)
    ensures DeliverStep(Refused1(n), 1, false) == Told1(n)
  {
  }

  lemma RefusedOccurs(g: Gateway, n: Values)
    requires Usable(g, n)
    ensures Occurs(g, Refused1(n)) && WorldInv(Refused1(n))
  {
    SecondCallPrepared(g, n);
    assert ProcessStep(Call2(n), 1, false) == Refused1(n);
    Reach(g, Call2(n), Process(1, false), Refused1(n));
  }

  lemma ToldOccurs(g: Gateway, n: Values)
    requires Usable(g, n)
    ensures Occurs(g, Told1(n)) && WorldInv(Told1(n))
  {
    RefusedOccurs(g, n);
    TellComputed(n);
    Reach(g, Refused1(n), Deliver(1, false), Told1(n));
  }

  lemma LateComputed(n: Values)
    requires Aligned(Told1(n))
    ensures RecordErrorStep(Told1(n), 1, Committed) == Late(n)
  {
    RefundComputed(n);
    assert Told1(n).execs - {1} == Late(n).execs;
  }

  lemma LateOccurs(g: Gateway, n: Values)
    requires Usable(g, n)
    ensures Occurs(g, Late(n)) && WorldInv(Late(n))
  {
    ToldOccurs(g, n);
    LateComputed(n);
    Reach(g, Told1(n), RecordError(1, Committed), Late(n));
  }

  /** One execution is left, with no open request of the number beside it. */
  ghost predicate Lonely(w: World, no: string) {
    FailedUnmoved(w) && w.execs.Keys == {2} && (forall x :: !Open(w, x, no)) && Free(w, no)
  }

  lemma LateIsLonely(n: Values)
    ensures Lonely(Late(n), n.refundNo)
  {
  }

  /**
   * Sending alone is not enough: the only execution left of a number, with no open request beside it, moves the money
   * of a record that failed after it was prepared. What the rule for sending adds is that the record is still pending.
   */
  lemma LonelySendMovesFailed(g: Gateway, n: Values)
    requires Usable(g, n)
    ensures Occurs(g, Late(n)) && WorldInv(Late(n)) && Lonely(Late(n), n.refundNo)
    ensures !SendAllowed(Late(n), Send(2)) && !FailedUnmoved(Run(Late(n), [Send(2)] + [Process(2, true)]))
  {
    LateOccurs(g, n);
    LateIsLonely(n);
    AcceptUnsent(Late(n), 2, n.refundNo);
    assert Fails(Run(Late(n), [Send(2)] + [Process(2, true)]).book, 0);
  }
}
