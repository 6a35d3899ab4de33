/** The decisions taken on facts read under the order and payment locks. */
module Transitions {
  import opened Options
  import opened PaymentTypes

  datatype SuccessDecision =
    | Refused
    | Decided(markOrderPaid: bool, reason: Reason)

  function DecidePaymentSuccess(status: OrderStatus, anotherSucceeded: bool): SuccessDecision {
    if anotherSucceeded then Decided(false, DuplicateSuccess)
    else match status
      case PendingPayment => Decided(true, NoReason)
      case Cancelling | Cancelled => Decided(false, LateSuccessAfterCancel)
      case Paid | Shipped | Completed => Decided(false, NoReason)
      case OrderRefunded => Refused
  }

  function DecideRefundPurpose(status: OrderStatus, paid: int, paymentId: int): Option<RefundPurpose> {
    if paymentId <= 0 then None
    else if paid > 0 && paid != paymentId && (Funded(status) || status == OrderRefunded) then Some(DuplicateRefund)
    else if paid == paymentId && status == Paid then Some(OrderCancelRefund)
    else if paid == 0 && (status == Cancelled || status == Cancelling) then Some(LateRefund)
    else None
  }

  predicate ValidRefundSettlement(purpose: RefundPurpose, status: OrderStatus, paid: int, paymentId: int) {
    DecideRefundPurpose(status, paid, paymentId) == Some(purpose)
  }

  /** Whether verified, already settled facts let an operator close a case. */
  predicate CanResolveReconciliation(p: Payment, o: Order, refund: Option<Refund>) {
    && p.orderId == o.id && p.userId == o.userId && p.amount == o.total && p.currency == o.currency
    && (p.reason == ProviderSideRefund ==> p.status == PaymentRefunded)
    && !(refund.Some? && refund.value.status == RefundPending)
    && match p.status
       case Success => Funded(o.status) && o.paid == p.id && p.txId != ""
       case PaymentRefunded =>
         refund.Some? && SettledReceipt(p, o, refund.value) && ReceiptFitsOrder(p, o, refund.value.purpose)
       case Closed | Failed =>
         || ((o.status == Cancelled || o.status == PendingPayment) && o.paid == 0)
         || ((o.status == OrderRefunded || Funded(o.status)) && o.paid > 0 && o.paid != p.id)
       case _ => false
  }

  predicate SettledReceipt(p: Payment, o: Order, r: Refund) {
    && r.paymentId == p.id && r.orderId == o.id && r.userId == p.userId && r.status == RefundSuccess
    && r.total == p.amount && r.amount == p.amount && r.currency == p.currency
  }

  predicate ReceiptFitsOrder(p: Payment, o: Order, purpose: RefundPurpose) {
    match purpose
    case OrderCancelRefund => o.status == OrderRefunded && o.paid == p.id
    case LateRefund => o.status == Cancelled && o.paid == 0
    case DuplicateRefund => (Funded(o.status) || o.status == OrderRefunded) && o.paid > 0 && o.paid != p.id
  }

  /** Money the shop still holds for these payments, judged by their status. */
  function Kept(payments: seq<Payment>): int {
    if payments == [] then 0
    else (if payments[0].status == Success then payments[0].amount else 0) + Kept(payments[1..])
  }

  ghost predicate DistinctIds(payments: seq<Payment>) {
    forall i, j :: 0 <= i < j < |payments| ==> payments[i].id != payments[j].id
  }

  lemma {:induction false} KeptNothing(payments: seq<Payment>)
    requires forall i :: 0 <= i < |payments| ==> payments[i].status != Success
    ensures Kept(payments) == 0
  {
    if payments != [] { KeptNothing(payments[1..]); }
  }

  lemma {:induction false} KeptOne(payments: seq<Payment>, k: nat)
    requires k < |payments| && payments[k].status == Success
    requires forall i :: 0 <= i < |payments| && i != k ==> payments[i].status != Success
    ensures Kept(payments) == payments[k].amount
  {
    if k == 0 {
      KeptNothing(payments[1..]);
    } else {
      KeptOne(payments[1..], k - 1);
    }
  }

  /** Resolving every case of an order leaves exactly the money the order is entitled to. */
  lemma ResolvedCasesBalance(o: Order, payments: seq<Payment>, refunds: seq<Option<Refund>>)
    requires |refunds| == |payments| && DistinctIds(payments)
    requires forall i :: 0 <= i < |payments| ==> CanResolveReconciliation(payments[i], o, refunds[i])
    ensures forall i, j | 0 <= i < |payments| && 0 <= j < |payments| ::
              payments[i].status == Success == payments[j].status ==> i == j
    ensures Kept(payments) ==
            if Funded(o.status) && exists i :: 0 <= i < |payments| && payments[i].id == o.paid then o.total else 0
  {
    if k :| 0 <= k < |payments| && payments[k].id == o.paid && Funded(o.status) {
      assert CanResolveReconciliation(payments[k], o, refunds[k]);
      KeptOne(payments, k);
    } else {
      KeptNothing(payments);
    }
  }
}
