/**
 * One order with its payments and refunds, and the database transactions that
 * change them. Every transaction holds the order lock, so each is one step. None
 * is a rollback. Row i of `refunds` is the one refund row of payment row i.
 */
module Settlement {
  import opened Options
  import opened PaymentTypes
  import opened PaymentRows
  import opened Transitions

  /**
   * restores counts how often the reserved stock was given back; openCases are the payments with an unresolved
   * provider_side_refund record.
   */
  datatype Book = Book(order: Order, payments: seq<Payment>, refunds: seq<Option<Refund>>, restores: nat,
                       openCases: set<int>)

  /** What a provider query reported; currency is already upper case. */
  datatype QueryResult = QueryResult(outTradeNo: string, payChannel: string, state: TradeState, txId: string,
                                     amount: int, currency: string)

  datatype CheckArgs = CheckArgs(confirmUnissued: bool, version: int, closePay: bool)

  // ---------------------------------------------------------------- helpers

  function PutPayment(b: Book, i: nat, p: Payment): Book
    requires i < |b.payments|
  {
    b.(payments := b.payments[i := p])
  }

  function Flag(b: Book, i: nat, reason: Reason): Book
    requires i < |b.payments|
  {
    PutPayment(b, i, RequireReview(b.payments[i], reason))
  }

  function OpenCase(b: Book, i: nat): Book
    requires i < |b.payments|
  {
    b.(openCases := b.openCases + {b.payments[i].id})
  }

  predicate OtherCaptured(ps: seq<Payment>, i: nat) {
    exists j :: 0 <= j < |ps| && j != i && Captured(ps[j].status)
  }

  predicate OtherActive(ps: seq<Payment>, i: nat) {
    exists j :: 0 <= j < |ps| && j != i && Active(ps[j].status)
  }

  predicate AnyReview(ps: seq<Payment>) {
    exists j :: 0 <= j < |ps| && NeedsReview(ps[j].review)
  }

  /** The provider of every active payment can be read, so its close job can be enqueued. */
  predicate ActiveParse(ps: seq<Payment>) {
    forall j :: 0 <= j < |ps| && Active(ps[j].status) ==> ParsesMethod(ps[j].payChannel)
  }

  predicate AnyActive(ps: seq<Payment>) {
    exists j :: 0 <= j < |ps| && Active(ps[j].status)
  }

  /** A sibling success that nobody has to review: it heals a pending order to paid. */
  predicate Heals(ps: seq<Payment>, i: nat, j: nat) {
    j < |ps| && j != i && ps[j].status == Success && !NeedsReview(ps[j].review)
  }

  function MarkOrderPaid(b: Book, paymentId: int): Book
    requires b.order.status == PendingPayment
  {
    b.(order := b.order.(status := Paid, paid := paymentId))
  }

  /** cancelling, stock restoration and cancelled in one transaction. */
  function CancelAndRestore(b: Book): Book
    requires b.order.status == PendingPayment
  {
    b.(order := b.order.(status := Cancelled), restores := b.restores + 1)
  }

  /** Payments whose method was never supported and never claimed; found only in old data. */
  predicate UnsupportedNeverDispatched(p: Payment) {
    && (p.status == Creating || p.status == ClosePending)
    && p.attempts == 0 && p.leaseToken == "" && p.leaseUntil.None? && p.action == NO_ACTION && p.txId == ""
    && p.review == NoReview
    && p.payChannel !in {"wechat:jsapi", "wechat:native", "wechat:app", "alipay:app", "alipay:wap"}
  }

  function Recover(ps: seq<Payment>): (r: seq<Payment>)
    ensures |r| == |ps|
    ensures forall i :: 0 <= i < |ps| ==>
              r[i] == if UnsupportedNeverDispatched(ps[i]) then MarkFailed(ps[i]).value else ps[i]
  {
    seq(|ps|, i requires 0 <= i < |ps| => if UnsupportedNeverDispatched(ps[i]) then MarkFailed(ps[i]).value else ps[i])
  }

  // ------------------------------------------------------- payment creation

  /** The newest payment that decides whether another one may be created. */
  function NewestBlocking(ps: seq<Payment>): (r: Option<Payment>)
  {
    if ps == [] then None
    else
      var p := ps[|ps| - 1];
      if NeedsReview(p.review) || Captured(p.status) || Active(p.status) then Some(p)
      else NewestBlocking(ps[..|ps| - 1])
  }

  function CreatePayment(b: Book, id: int, payChannel: string, outTradeNo: string, expired: bool): Option<Book>
  {
    if b.order.status != PendingPayment || expired then None
    else
      var ps := Recover(b.payments);
      match NewestBlocking(ps)
      case Some(p) =>
        if !NeedsReview(p.review) && Active(p.status) && p.payChannel == payChannel then Some(b.(payments := ps))
        else None
      case None =>
        var row := Payment(id, b.order.id, b.order.userId, b.order.total, b.order.currency,
                           Creating, payChannel, outTradeNo, "", NoReview, NoReason, 0, NO_ACTION, "", None, 0);
        Some(b.(payments := ps + [row], refunds := b.refunds + [None]))
  }

  /** The prepay protocol's updates of one row. */
  datatype PrepayUpdate = Claim(token: string, now: int, lease: int) | Finalize(token: string, action: Action)
    | PrepayError(token: string)

  function ApplyPrepay(b: Book, i: nat, u: PrepayUpdate): Option<Book>
    requires i < |b.payments|
  {
    var p := match u
      case Claim(token, now, lease) => ClaimPrepay(b.payments[i], token, now, lease)
      case Finalize(token, action) => FinalizePrepay(b.payments[i], token, action)
      case PrepayError(token) => RecordPrepayError(b.payments[i], token);
    if p.None? then None else Some(PutPayment(b, i, p.value))
  }

  function MarkPayClosePending(b: Book, i: nat, version: int): Option<Book>
    requires i < |b.payments|
  {
    var p := b.payments[i];
    if !ReconciliationJobCurrent(version, p.version, p.review) then Some(b)
    else if !ParsesMethod(p.payChannel) then None
    else match MarkClosePending(p)
      case Some(q) => Some(PutPayment(b, i, q))
      case None => if p.status == ClosePending then Some(b) else None
  }

  // ---------------------------------------------------- provider settlement

  /** The first mismatch, NoReason without one; amounts only matter when money moved. */
  function ValidateProviderResult(p: Payment, r: QueryResult): Reason {
    if r.outTradeNo != p.outTradeNo then OutTradeNoMismatch
    else if r.payChannel != p.payChannel then MethodMismatch
    else if r.state != TradeSuccess && r.state != TradeRefund then NoReason
    else if r.amount != p.amount then AmountMismatch
    else if r.currency != p.currency then CurrencyMismatch
    else NoReason
  }

  /** Settles a locked payment row against a terminal provider result. */
  function ApplyPayQuery(b: Book, i: nat, args: CheckArgs, r: QueryResult, now: int, txTaken: bool): Option<Book>
    requires i < |b.payments| == |b.refunds|
  {
    var p := b.payments[i];
    var mismatch := ValidateProviderResult(p, r);
    if args.confirmUnissued && !(r.state == TradeClosed && CanConfirmUnissued(p, now)
                                 && !(args.version == 0 && NeedsReview(p.review))
                                 && ReconciliationJobCurrent(args.version, p.version, p.review)) then None
    else if !ParsesMethod(p.payChannel) then None
    else if mismatch != NoReason then Some(Flag(b, i, mismatch))
    else match r.state
      case TradeSuccess => SettleSuccess(b, i, r.txId, txTaken)
      case TradeClosed | TradeRevoked => SettleClosed(b, i, r.txId)
      case TradePayError => SettleFailed(b, i, args.closePay)
      case TradeRefund => SettleReportedRefund(b, i)
      case _ => Some(Flag(b, i, UnknownProviderState))
  }

  function SettleSuccess(b: Book, i: nat, txId: string, txTaken: bool): Option<Book>
    requires i < |b.payments|
  {
    var p := b.payments[i];
    if txId == "" then None
    else if p.status == Success && p.txId == txId then Some(b)
    else if p.status == Success then Some(Flag(b, i, TransactionIdChanged))
    else if p.status == PaymentRefunded then None
    else if txTaken then Some(Flag(b, i, DuplicateThirdPartyTx))
    else
      var recorded := PutPayment(b, i, RecordSuccess(p, txId).value);
      match DecidePaymentSuccess(b.order.status, OtherCaptured(b.payments, i))
      case Refused => None
      case Decided(markOrderPaid, reason) =>
        var settled := if markOrderPaid then MarkOrderPaid(recorded, p.id) else recorded;
        Some(if reason != NoReason then Flag(settled, i, reason) else settled)
  }

  function SettleClosed(b: Book, i: nat, txId: string): Option<Book>
    requires i < |b.payments| == |b.refunds|
  {
    var p := b.payments[i];
    if p.status == PaymentRefunded then
      if txId == "" || txId != p.txId || b.refunds[i].None? then None
      else
        var f := b.refunds[i].value;
        if f.status == RefundSuccess && f.orderId == p.orderId && f.userId == p.userId
           && f.total == p.amount && f.amount == p.amount && f.currency == p.currency
        then Some(b) else None
    else if p.status == Closed then Some(b)
    else match MarkClosed(p)
      case None => None
      case Some(q) => Some(FinalizeInactive(PutPayment(b, i, q), b.payments, i))
  }

  function SettleFailed(b: Book, i: nat, closePay: bool): Option<Book>
    requires i < |b.payments|
  {
    var p := b.payments[i];
    if !Active(p.status) && p.status != Failed && p.status != Closed then None
    else
      var marked := match MarkFailed(p) case Some(q) => PutPayment(b, i, q) case None => b;
      Some(if p.status == ClosePending || closePay then FinalizeInactive(marked, b.payments, i) else marked)
  }

  /**
   * Settles the order after payment i left the active set; ps are the rows as
   * read before that. Of several healing siblings the source keeps the last one.
   */
  function FinalizeInactive(b: Book, ps: seq<Payment>, i: nat): Book
    requires i < |ps| == |b.payments|
  {
    if HealingId(ps, i, |ps|) > 0 then
      if b.order.status == PendingPayment then MarkOrderPaid(b, HealingId(ps, i, |ps|)) else b
    else if !OtherActive(ps, i) && !AnyReview(ps) && b.order.status == PendingPayment then CancelAndRestore(b)
    else b
  }

  /** The id of the oldest healing sibling among the first n rows, 0 without one. */
  function HealingId(ps: seq<Payment>, i: nat, n: nat): int
    requires n <= |ps|
  {
    if n == 0 then 0
    else
      var older := HealingId(ps, i, n - 1);
      if older > 0 then older else if Heals(ps, i, n - 1) then ps[n - 1].id else 0
  }

  function SettleReportedRefund(b: Book, i: nat): Option<Book>
    requires i < |b.payments| == |b.refunds|
  {
    var p := b.payments[i];
    if p.status == PaymentRefunded then Some(b)
    else if p.status != Success then None
    else if b.refunds[i].None? then
      Some(OpenCase(Flag(b, i, ProviderSideRefund), i))
    else SettleRefund(b, i)
  }

  // ---------------------------------------------------------------- refunds

  predicate RefundMatches(f: Refund, p: Payment) {
    && f.paymentId == p.id && f.orderId == p.orderId && f.userId == p.userId
    && f.total == p.amount && f.amount == p.amount && f.currency == p.currency
  }

  /** The sole local settlement of a refund the provider confirmed. */
  function SettleRefund(b: Book, i: nat): Option<Book>
    requires i < |b.payments| == |b.refunds| && b.refunds[i].Some?
  {
    var p, f := b.payments[i], b.refunds[i].value;
    if !RefundMatches(f, p) || p.orderId != b.order.id then None
    else if p.status == PaymentRefunded && f.status == RefundSuccess then Some(b)
    else if p.status != Success || !ValidRefundSettlement(f.purpose, b.order.status, b.order.paid, p.id) then None
    else
      var reversed :=
        if f.purpose == OrderCancelRefund
        then b.(order := b.order.(status := OrderRefunded), restores := b.restores + 1)
        else b;
      Some(PutPayment(reversed, i,
                      ConfirmRefunded(p).value).(refunds := b.refunds[i := Some(f.(status := RefundSuccess))]))
  }

  predicate NumberTaken(refunds: seq<Option<Refund>>, no: string) {
    exists j :: 0 <= j < |refunds| && refunds[j].Some? && refunds[j].value.outRefundNo == no
  }

  /** Creates the refund record or re-validates the existing one; the record keeps its first number for ever. */
  function PrepareRefund(b: Book, i: nat, no: string, refundId: int): Option<Book>
    requires i < |b.payments| == |b.refunds|
  {
    var p := b.payments[i];
    if b.refunds[i].Some? then
      var f := b.refunds[i].value;
      if !RefundMatches(f, p) || !Captured(p.status) then None
      else if p.status == PaymentRefunded && f.status != RefundSuccess then None
      else if p.status != PaymentRefunded && !ValidRefundSettlement(f.purpose, b.order.status, b.order.paid, p.id)
      then None
      else if f.status == RefundFailed then Some(b.(refunds := b.refunds[i := Some(f.(status := RefundPending))]))
      else Some(b)
    else if p.status != Success then None
    else match DecideRefundPurpose(b.order.status, b.order.paid, p.id)
      case None => None
      case Some(purpose) =>
        if no == "" || NumberTaken(b.refunds, no) then None
        else
          var f := Refund(refundId, p.id, p.orderId, p.userId, no, p.amount, p.amount, p.currency, purpose,
                          RefundPending);
          Some(b.(refunds := b.refunds[i := Some(f)]))
  }

  /** Updates only pending refunds; a definitive error ends the retries. */
  function RecordRefundError(b: Book, i: nat, definitive: bool): Option<Book>
    requires i < |b.refunds| && b.refunds[i].Some?
  {
    var f := b.refunds[i].value;
    if f.status != RefundPending then None
    else if definitive then Some(b.(refunds := b.refunds[i := Some(f.(status := RefundFailed))]))
    else Some(b)
  }

  // ------------------------------------------- review, expiry, cancel, ship

  function RetryReconciliation(b: Book, i: nat, version: int): Option<Book>
    requires i < |b.payments|
  {
    if !ParsesMethod(b.payments[i].payChannel) then None
    else match RetryReview(b.payments[i], version)
    case None => None
    case Some(p) => Some(PutPayment(b, i, p))
  }

  predicate Resolvable(b: Book, i: nat)
    requires i < |b.payments| == |b.refunds|
  {
    && CanResolveReconciliation(b.payments[i], b.order, b.refunds[i])
    && (b.payments[i].status == PaymentRefunded || b.payments[i].id !in b.openCases)
  }

  /** Closes a case when its facts and those of the paying sibling are settled. */
  function ResolveReconciliation(b: Book, i: nat, version: int): Option<Book>
    requires i < |b.payments| == |b.refunds|
  {
    if !Resolvable(b, i) then None
    else if b.order.paid != 0 && b.order.paid != b.payments[i].id
            && !exists j :: 0 <= j < |b.payments| && b.payments[j].id == b.order.paid && Resolvable(b, j) then None
    else match ResolveReview(b.payments[i], version)
      case None => None
      case Some(p) => Some(PutPayment(b, i, p).(openCases := b.openCases - {p.id}))
  }

  /** The first row, newest first, that the provider confirmed. */
  function NewestCaptured(ps: seq<Payment>): (r: Option<nat>)
    ensures r.Some? ==> r.value < |ps| && Captured(ps[r.value].status)
    ensures r.None? ==> forall j :: 0 <= j < |ps| ==> !Captured(ps[j].status)
  {
    if ps == [] then None
    else if Captured(ps[|ps| - 1].status) then Some(|ps| - 1)
    else NewestCaptured(ps[..|ps| - 1])
  }

  function CloseActive(ps: seq<Payment>): (r: seq<Payment>)
    ensures |r| == |ps|
    ensures forall i :: 0 <= i < |ps| ==>
              r[i] == if ps[i].status == Creating || ps[i].status == Pending then ps[i].(status := ClosePending)
                else ps[i]
  {
    seq(|ps|, i requires 0 <= i < |ps| =>
      if ps[i].status == Creating || ps[i].status == Pending then MarkClosePending(ps[i]).value else ps[i])
  }

  function ExpireOrder(b: Book, expired: bool): Option<Book> {
    if b.order.status != PendingPayment then Some(b)
    else if !expired then None
    else
      var r := b.(payments := Recover(b.payments));
      if AnyReview(r.payments) then None
      else match NewestCaptured(r.payments)
        case Some(k) =>
          if r.payments[k].status == Success then Some(MarkOrderPaid(r, r.payments[k].id))
          else Some(Flag(r, k, RefundedOnPendingOrder))
        case None =>
          if AnyActive(r.payments) then
            if ActiveParse(r.payments) then Some(r.(payments := CloseActive(r.payments))) else None
          else Some(CancelAndRestore(r))
  }

  function CancelOrderByUser(b: Book): Option<Book> {
    if b.order.status == Cancelled then Some(b)
    else if b.order.status != PendingPayment then None
    else
      var r := b.(payments := Recover(b.payments));
      if AnyReview(r.payments) || NewestCaptured(r.payments).Some? || AnyActive(r.payments) then None
      else Some(CancelAndRestore(r))
  }

  /** Shipping and completing need the paying payment settled, reviewed and without a live refund. */
  predicate CanFulfil(b: Book, i: nat)
    requires i < |b.payments| == |b.refunds|
  {
    var p := b.payments[i];
    && b.order.paid != 0 && p.id == b.order.paid
    && p.orderId == b.order.id && p.userId == b.order.userId && p.amount == b.order.total
    && p.currency == b.order.currency
    && p.status == Success && !NeedsReview(p.review)
    && (b.refunds[i].Some? ==> b.refunds[i].value.status == RefundFailed)
  }

  /** Ships a paid order or completes a shipped one. */
  function Fulfil(b: Book, i: nat, ship: bool): Option<Book>
    requires i < |b.payments| == |b.refunds|
  {
    if b.order.status != (if ship then Paid else Shipped) || !CanFulfil(b, i) then None
    else Some(b.(order := b.order.(status := if ship then Shipped else Completed)))
  }

  // --------------------------------------------------------------- one step

  datatype Tx =
    | TxCreatePayment(id: int, payChannel: string, outTradeNo: string, expired: bool)
    | TxPrepay(i: nat, update: PrepayUpdate)
    | TxClosePending(i: nat, version: int)
    | TxQuery(i: nat, args: CheckArgs, result: QueryResult, now: int, txTaken: bool)
    | TxRequireReview(i: nat, reason: Reason, openCase: bool)
    | TxRetry(i: nat, version: int)
    | TxResolve(i: nat, version: int)
    | TxExpire(expired: bool)
    | TxCancel
    | TxFulfil(i: nat, ship: bool)
    | TxPrepareRefund(i: nat, no: string, refundId: int)
    | TxApplyRefund(i: nat)
    | TxRefundError(i: nat, definitive: bool)

  /** The row a transaction names exists. */
  predicate Enabled(b: Book, t: Tx) {
    match t
    case TxCreatePayment(id, _, _, _) => id > 0 && forall j :: 0 <= j < |b.payments| ==> b.payments[j].id < id
    case TxExpire(_) => true
    case TxCancel => true
    case TxApplyRefund(i) => i < |b.payments| && i < |b.refunds| && b.refunds[i].Some?
    case TxRefundError(i, _) => i < |b.payments| && i < |b.refunds| && b.refunds[i].Some?
    case _ => t.i < |b.payments|
  }

  function Attempt(b: Book, t: Tx): Option<Book>
    requires |b.payments| == |b.refunds| && Enabled(b, t)
  {
    match t
    case TxCreatePayment(id, payChannel, outTradeNo, expired) => CreatePayment(b, id, payChannel, outTradeNo, expired)
    case TxPrepay(i, u) => ApplyPrepay(b, i, u)
    case TxClosePending(i, version) => MarkPayClosePending(b, i, version)
    case TxQuery(i, args, r, now, txTaken) => ApplyPayQuery(b, i, args, r, now, txTaken)
    case TxRequireReview(i, reason, openCase) =>
      Some(if openCase then OpenCase(Flag(b, i, reason), i) else Flag(b, i, reason))
    case TxRetry(i, version) => RetryReconciliation(b, i, version)
    case TxResolve(i, version) => ResolveReconciliation(b, i, version)
    case TxExpire(expired) => ExpireOrder(b, expired)
    case TxCancel => CancelOrderByUser(b)
    case TxFulfil(i, ship) => Fulfil(b, i, ship)
    case TxPrepareRefund(i, no, refundId) => PrepareRefund(b, i, no, refundId)
    case TxApplyRefund(i) => SettleRefund(b, i)
    case TxRefundError(i, definitive) => RecordRefundError(b, i, definitive)
  }

  /** Commits the transaction, or leaves the book as it was. */
  function Commit(b: Book, t: Tx): Book
    requires |b.payments| == |b.refunds|
  {
    if !Enabled(b, t) then b
    else match Attempt(b, t)
      case None => b
      case Some(c) => c
  }
}
