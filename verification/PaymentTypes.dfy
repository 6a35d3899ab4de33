module Options {
  datatype Option<+T> = None | Some(value: T)
}

/** Rows and result types shared by the payment, refund and order models. */
module PaymentTypes {
  import opened Options

  datatype OrderStatus =
    PendingPayment | Paid | Shipped | Completed | Cancelling | Cancelled | OrderRefunded

  datatype PaymentStatus =
    Creating | Pending | Failed | Success | PaymentRefunded | ClosePending | Closed

  datatype ReviewStatus = NoReview | ReviewRequired | ReviewProcessing | ReviewResolved

  datatype RefundPurpose = OrderCancelRefund | DuplicateRefund | LateRefund

  datatype RefundStatus = RefundPending | RefundSuccess | RefundFailed

  datatype TradeState =
    TradeSuccess | TradeRefund | TradeNotPay | TradeClosed | TradeRevoked | TradeUserPaying | TradePayError
      | TradeUnspecified

  /** The reason and detail recorded with a reconciliation case. */
  datatype Reason =
    | NoReason | DuplicateSuccess | LateSuccessAfterCancel
    | OutTradeNoMismatch | MethodMismatch | AmountMismatch | CurrencyMismatch | TransactionIdChanged
    | DuplicateThirdPartyTx | ProviderSideRefund | UnknownProviderState | RefundedOnPendingOrder
    | Technical(text: string)

  /** What the client receives to pay with; kind "" stands for the SQL NULL of a payment without one. */
  datatype Action = Action(kind: string, payload: string)

  const NO_ACTION := Action("", "")

  /** A row of `orders`; paid is 0 while paid_payment_id is NULL. */
  datatype Order = Order(id: int, userId: int, total: int, currency: string, status: OrderStatus, paid: int)

  /** A row of `payments`; "" and None stand for NULL. */
  datatype Payment = Payment(
    id: int, orderId: int, userId: int, amount: int, currency: string,
    status: PaymentStatus, payChannel: string, outTradeNo: string, txId: string,
    review: ReviewStatus, reason: Reason, version: nat,
    action: Action, leaseToken: string, leaseUntil: Option<int>, attempts: nat)

  /** A row of `order_refunds`. */
  datatype Refund = Refund(
    id: int, paymentId: int, orderId: int, userId: int, outRefundNo: string,
    total: int, amount: int, currency: string, purpose: RefundPurpose, status: RefundStatus)

  predicate Active(status: PaymentStatus) {
    status == Creating || status == Pending || status == ClosePending
  }

  /** The provider confirmed the money at some point. */
  predicate Captured(status: PaymentStatus) {
    status == Success || status == PaymentRefunded
  }

  predicate Funded(status: OrderStatus) {
    status == Paid || status == Shipped || status == Completed
  }

  predicate NeedsReview(review: ReviewStatus) {
    review == ReviewRequired || review == ReviewProcessing
  }

  /** A manual retry belongs to the processing version that queued it; version 0 is ordinary polling. */
  predicate ReconciliationJobCurrent(jobVersion: int, currentVersion: int, review: ReviewStatus) {
    jobVersion == 0 || (jobVersion == currentVersion && review == ReviewProcessing)
  }

  /** The characters that trimming removes. */
  predicate Space(c: char) {
    || '\t' <= c <= '\r' || c == ' ' || c == '\U{85}' || c == '\U{A0}' || c == '\U{1680}'
      || '\U{2000}' <= c <= '\U{200A}'
    || c == '\U{2028}' || c == '\U{2029}' || c == '\U{202F}' || c == '\U{205F}' || c == '\U{3000}'
  }

  predicate Blank(s: string) {
    forall j :: 0 <= j < |s| ==> Space(s[j])
  }

  /** The only colon stands at k, with something on either side. */
  predicate SplitsAt(value: string, k: nat)
    requires k < |value|
  {
    value[k] == ':' && ':' !in value[..k] && ':' !in value[k + 1..] && !Blank(value[..k]) && !Blank(value[k + 1..])
  }

  /** A stored method is read as provider and product. */
  predicate ParsesMethod(value: string) {
    exists k :: 0 <= k < |value| && SplitsAt(value, k)
  }

  /** The two products that sign their parameters without contacting the provider. */
  predicate LocallySigned(payChannel: string) {
    payChannel == "alipay:app" || payChannel == "alipay:wap"
  }

  /** The absence proof over a locked row. */
  predicate CanConfirmUnissued(p: Payment, now: int) {
    && (p.status == ClosePending || p.status == Closed)
    && p.action.kind == "" && p.action.payload == "" && p.txId == ""
    && if LocallySigned(p.payChannel)
       then p.leaseUntil.None? || p.leaseUntil.value <= now
       else p.attempts == 0 && p.leaseUntil.None? && p.leaseToken == ""
  }
}

/** The guarded UPDATE statements on one payment row; None means that no row matched. */
module PaymentRows {
  import opened Options
  import opened PaymentTypes

  function ClaimPrepay(p: Payment, token: string, now: int, lease: int): Option<Payment> {
    if p.status == Creating && (p.leaseUntil.None? || p.leaseUntil.value < now)
    then Some(p.(leaseToken := token, leaseUntil := Some(now + lease), attempts := p.attempts + 1))
    else None
  }

  function FinalizePrepay(p: Payment, token: string, action: Action): Option<Payment> {
    if p.status == Creating && token != "" && p.leaseToken == token
    then Some(p.(status := Pending, action := action, leaseToken := "", leaseUntil := None))
    else None
  }

  function RecordPrepayError(p: Payment, token: string): Option<Payment> {
    if (p.status == Creating || (p.status == ClosePending && LocallySigned(p.payChannel)))
       && token != "" && p.leaseToken == token
    then Some(p.(leaseToken := "", leaseUntil := None))
    else None
  }

  function MarkClosePending(p: Payment): Option<Payment> {
    if p.status == Creating || p.status == Pending then Some(p.(status := ClosePending)) else None
  }

  function MarkClosed(p: Payment): Option<Payment> {
    if Active(p.status) then Some(p.(status := Closed, leaseToken := "", leaseUntil := None)) else None
  }

  function MarkFailed(p: Payment): Option<Payment> {
    if Active(p.status) then Some(p.(status := Failed, leaseToken := "", leaseUntil := None)) else None
  }

  function RecordSuccess(p: Payment, txId: string): Option<Payment> {
    if Captured(p.status) then None
    else Some(p.(status := Success, txId := txId, leaseToken := "", leaseUntil := None))
  }

  function ConfirmRefunded(p: Payment): Option<Payment> {
    if Captured(p.status) then Some(p.(status := PaymentRefunded)) else None
  }

  /** A repeated anomaly is idempotent, a new one reopens the case under a new version. */
  function RequireReview(p: Payment, reason: Reason): Payment {
    if p.review == ReviewRequired && p.reason == reason then p
    else p.(review := ReviewRequired, reason := reason, version := p.version + 1)
  }

  function RetryReview(p: Payment, expectedVersion: int): Option<Payment> {
    if p.version == expectedVersion && p.review == ReviewRequired
    then Some(p.(review := ReviewProcessing, version := p.version + 1))
    else None
  }

  function ResolveReview(p: Payment, expectedVersion: int): Option<Payment> {
    if p.version == expectedVersion && NeedsReview(p.review)
    then Some(p.(review := ReviewResolved, version := p.version + 1))
    else None
  }
}
