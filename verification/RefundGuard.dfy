/** A rule for sending that a caller can enforce, under which a failed record always means that no money moved. */
module RefundGuard {
  import opened PaymentTypes
  import opened Settlement
  import opened SettlementInvariants
  import opened RefundProtocol
  import opened SettlementTheorems
  import opened RefundRace

  /** The execution holds a rejection of the number, delivered or not, that is not recorded yet. */
  ghost predicate Rejecting(w: World, e: nat, no: string) {
    && e in w.execs && w.execs[e].no == no
    && (w.execs[e].phase == Errored(true)
        || (w.execs[e].phase == Waiting && e in w.requests && w.requests[e].verdict == Rejected))
  }

  /** No request of the number is unanswered and no rejection of it is unrecorded. */
  ghost predicate Free(w: World, no: string) {
    forall x :: !Open(w, x, no) && !Rejecting(w, x, no)
  }

  /** A request is sent only while its record is still pending and its number is free. */
  ghost predicate SendAllowed(w: World, l: Label)
    requires Aligned(w)
  {
    l.Send? && l.e in w.execs && w.execs[l.e].phase == Prepared ==>
      w.book.refunds[w.execs[l.e].pay].value.status == RefundPending && Free(w, w.execs[l.e].no)
  }

  /** Every send of the run is allowed when it happens. */
  ghost predicate Guarded(w: World, ls: seq<Label>)
    requires WorldInv(w)
    decreases |ls|
  {
    ls == [] || (SendAllowed(w, ls[0]) && (StepKeeps(w, ls[0]); Guarded(Step(w, ls[0]), ls[1..])))
  }

  // ---------------------------------------------------------------- invariant

  ghost predicate FailedClosed(w: World) {
    forall i, x :: 0 <= i < |w.book.refunds| && Fails(w.book, i) ==> !Open(w, x, w.book.refunds[i].value.outRefundNo)
  }

  ghost predicate RejectingAlone(w: World) {
    forall e, no :: Rejecting(w, e, no) ==> no !in w.accepted && forall x :: !Open(w, x, no)
  }

  ghost predicate OneOpen(w: World) {
    forall x, y, no :: Open(w, x, no) && Open(w, y, no) ==> x == y
  }

  ghost predicate Orderly(w: World) {
    FailedUnmoved(w) && FailedClosed(w) && RejectingAlone(w) && OneOpen(w)
  }

  /** No new acceptance, open request, held rejection or failed record. */
  lemma NothingNew(w: World, v: World)
    requires Orderly(w) && v.accepted == w.accepted
    requires forall x, no :: Open(v, x, no) ==> Open(w, x, no)
    requires forall e, no :: Rejecting(v, e, no) ==> Rejecting(w, e, no)
    requires forall i :: 0 <= i < |v.book.refunds| && Fails(v.book, i) ==>
               Harmless(w, v.book.refunds[i].value.outRefundNo)
    ensures Orderly(v)
  {
    forall i | 0 <= i < |v.book.refunds| && Fails(v.book, i)
      ensures v.book.refunds[i].value.outRefundNo !in v.accepted
      ensures forall x :: !Open(v, x, v.book.refunds[i].value.outRefundNo)
    {
      assert Harmless(w, v.book.refunds[i].value.outRefundNo);
    }
  }

  /** Nothing was accepted under this number and nothing is open. */
  ghost predicate Harmless(w: World, no: string) {
    no !in w.accepted && forall x :: !Open(w, x, no)
  }

  /** The record had failed before, under the same number. */
  ghost predicate FailedBefore(b: Book, c: Book, i: nat) {
    && i < |b.refunds| && i < |c.refunds| && Fails(b, i) && Fails(c, i)
    && c.refunds[i].value.outRefundNo == b.refunds[i].value.outRefundNo
  }

  lemma StepFailedBefore(w: World, l: Label, i: nat)
    requires WorldInv(w) && !l.RecordError? && i < |Step(w, l).book.refunds| && Fails(Step(w, l).book, i)
    ensures FailedBefore(w.book, Step(w, l).book, i)
  {
    NoNewFailure(w, l, i);
    OnlyErrorsFail(w, l, i);
    StepKeeps(w, l);
    assert RefundEvolves(w.book.refunds[i].value, Step(w, l).book.refunds[i].value);
  }

  /** A new row starts without a record. */
  lemma NoNewFailure(w: World, l: Label, i: nat)
    requires WorldInv(w) && !l.RecordError? && i < |Step(w, l).book.refunds| && Fails(Step(w, l).book, i)
    ensures i < |w.book.refunds|
  {
    match l
    case Local(t) => if !IsRefundTx(t) && Honest(w, t) { LocalEffects(w.book, t); }
    case Prepare(e, j, no, refundId) =>
      if j < |w.book.payments| && PrepareRefund(w.book, j, no, refundId).Some? {
        PrepareShape(w.book, j, no, refundId);
      }
    case Apply(e, _) =>
      if e in w.execs && SettleRefund(w.book, w.execs[e].pay).Some? { SettleShape(w.book, w.execs[e].pay); }
    case _ =>
  }

  lemma QuietStepKeeps(w: World, l: Label)
    requires WorldInv(w) && Orderly(w) && !l.Send? && !l.Process? && !l.RecordError?
    ensures Orderly(Step(w, l))
  {
    var v := Step(w, l);
    forall i | 0 <= i < |v.book.refunds| && Fails(v.book, i)
      ensures Harmless(w, v.book.refunds[i].value.outRefundNo)
    {
      StepFailedBefore(w, l, i);
    }
    QuietFacts(w, l);
    NothingNew(w, v);
  }

  lemma QuietFacts(w: World, l: Label)
    requires ProtocolInv(w) && !l.Send? && !l.Process? && !l.RecordError?
    ensures Step(w, l).accepted == w.accepted
    ensures forall x, no :: Open(Step(w, l), x, no) ==> Open(w, x, no)
    ensures forall e, no :: Rejecting(Step(w, l), e, no) ==> Rejecting(w, e, no)
  {
    QuietAccepted(w, l);
    forall x, no | Open(Step(w, l), x, no) ensures Open(w, x, no) { QuietOpen(w, l, x, no); }
    forall e, no | Rejecting(Step(w, l), e, no) ensures Rejecting(w, e, no) { QuietRejecting(w, l, e, no); }
  }

  lemma QuietAccepted(w: World, l: Label)
    requires Aligned(w) && !l.Process?
    ensures Step(w, l).accepted == w.accepted
  {
  }

  lemma QuietOpen(w: World, l: Label, x: nat, no: string)
    requires Aligned(w) && !l.Send? && !l.Process? && Open(Step(w, l), x, no)
    ensures Open(w, x, no)
  {
  }

  lemma QuietRejecting(w: World, l: Label, e: nat, no: string)
    requires Aligned(w) && !l.Send? && !l.Process? && !l.RecordError? && Rejecting(Step(w, l), e, no)
    ensures Rejecting(w, e, no)
  {
    if l.Deliver? || l.Timeout? || l.Crash? {
      ReplyRejecting(w, l, e, no);
    } else if l.Prepare? || l.Apply? {
      CallRejecting(w, l, e, no);
    }
  }

  lemma ReplyRejecting(w: World, l: Label, e: nat, no: string)
    requires Aligned(w) && (l.Deliver? || l.Timeout? || l.Crash?) && Rejecting(Step(w, l), e, no)
    ensures Rejecting(w, e, no)
  {
  }

  lemma CallRejecting(w: World, l: Label, e: nat, no: string)
    requires Aligned(w) && (l.Prepare? || l.Apply?) && Rejecting(Step(w, l), e, no)
    ensures Rejecting(w, e, no)
  {
  }

  lemma SendKeepsOrder(w: World, e: nat)
    requires ProtocolInv(w) && NumbersDistinct(w.book.refunds) && Orderly(w) && SendAllowed(w, Send(e))
    ensures Orderly(SendStep(w, e))
  {
    if e in w.execs && w.execs[e].phase == Prepared {
      assert ExecInv(w, e) && RefersTo(w.book, w.execs[e].pay, w.execs[e].no);
      var v := SendStep(w, e);
      forall x, no | Open(v, x, no) ensures Open(w, x, no) || (x == e && no == w.execs[e].no) {}
      forall x, no | Rejecting(v, x, no) ensures Rejecting(w, x, no) { SendRejecting(w, e, x, no); }
    }
  }

  lemma SendRejecting(w: World, e: nat, x: nat, no: string)
    requires Rejecting(SendStep(w, e), x, no)
    ensures Rejecting(w, x, no)
  {
  }

  lemma ProcessKeepsOrder(w: World, x: nat, accept: bool)
    requires ProtocolInv(w) && Orderly(w)
    ensures Orderly(ProcessStep(w, x, accept))
  {
    if x in w.requests && w.requests[x].verdict == Unprocessed {
      var v, no := ProcessStep(w, x, accept), w.requests[x].no;
      assert Open(w, x, no);
      assert forall y, n :: Open(v, y, n) ==> Open(w, y, n) && y != x;
      forall e, n | Rejecting(v, e, n) ensures Rejecting(w, e, n) || (e == x && n == no && no !in v.accepted) {
        ProcessRejecting(w, x, accept, e, n);
      }
    }
  }

  /** Only the request that is processed can turn into a rejection, and only of a number that is not accepted. */
  lemma ProcessRejecting(w: World, x: nat, accept: bool, e: nat, n: string)
    requires ProtocolInv(w) && x in w.requests && w.requests[x].verdict == Unprocessed
    requires Rejecting(ProcessStep(w, x, accept), e, n)
    ensures Rejecting(w, e, n) || (e == x && n == w.requests[x].no && n !in ProcessStep(w, x, accept).accepted)
  {
    assert ExecInv(w, e);
  }

  lemma RecordRejecting(w: World, e: nat, outcome: Outcome, x: nat, n: string)
    requires Aligned(w) && Rejecting(RecordErrorStep(w, e, outcome), x, n)
    ensures Rejecting(w, x, n)
  {
  }

  lemma RecordKeepsOrder(w: World, e: nat, outcome: Outcome)
    requires ProtocolInv(w) && NumbersDistinct(w.book.refunds) && Orderly(w)
    ensures Orderly(RecordErrorStep(w, e, outcome))
  {
    if e in w.execs && w.execs[e].phase.Errored? {
      var v := RecordErrorStep(w, e, outcome);
      assert RefersTo(w.book, w.execs[e].pay, w.execs[e].no);
      forall x, n | Open(v, x, n) ensures Open(w, x, n) { QuietOpen(w, RecordError(e, outcome), x, n); }
      forall x, n | Rejecting(v, x, n) ensures Rejecting(w, x, n) { RecordRejecting(w, e, outcome, x, n); }
      forall j | 0 <= j < |v.book.refunds| && Fails(v.book, j)
        ensures Harmless(w, v.book.refunds[j].value.outRefundNo)
      {
        RecordHarmless(w, e, outcome, j);
      }
      NothingNew(w, v);
    }
  }

  /** What fails by a record had failed before or holds a rejection. */
  lemma RecordHarmless(w: World, e: nat, outcome: Outcome, j: nat)
    requires Aligned(w) && Orderly(w) && e in w.execs && w.execs[e].phase.Errored?
    requires j < |w.book.refunds| && Fails(RecordErrorStep(w, e, outcome).book, j)
    ensures Harmless(w, RecordErrorStep(w, e, outcome).book.refunds[j].value.outRefundNo)
  {
    assert RefersTo(w.book, w.execs[e].pay, w.execs[e].no);
    if !Fails(w.book, j) { assert Rejecting(w, e, w.execs[e].no); }
  }

  lemma StepKeepsOrder(w: World, l: Label)
    requires WorldInv(w) && Orderly(w) && SendAllowed(w, l)
    ensures Orderly(Step(w, l))
  {
    match l
    case Send(e) => SendKeepsOrder(w, e);
    case Process(x, accept) => ProcessKeepsOrder(w, x, accept);
    case RecordError(e, outcome) => RecordKeepsOrder(w, e, outcome);
    case _ => QuietStepKeeps(w, l);
  }

  lemma {:induction false} GuardedKeepsOrder(w: World, ls: seq<Label>)
    requires WorldInv(w) && Orderly(w) && Guarded(w, ls)
    ensures Orderly(Run(w, ls))
    decreases |ls|
  {
    if ls != [] {
      StepKeepsOrder(w, ls[0]);
      StepKeeps(w, ls[0]);
      GuardedKeepsOrder(Step(w, ls[0]), ls[1..]);
    }
  }

  lemma {:induction false} GuardedPrefix(w: World, ls: seq<Label>, n: nat)
    requires WorldInv(w) && Guarded(w, ls) && n <= |ls|
    ensures Guarded(w, ls[..n])
    decreases |ls|
  {
    if n > 0 {
      StepKeeps(w, ls[0]);
      GuardedPrefix(Step(w, ls[0]), ls[1..], n - 1);
      assert ls[..n][1..] == ls[1..][..n - 1];
    }
  }

  /**
   * In every state of every run whose requests are sent only while their record is pending and their number is free,
   * no failed record's money has moved.
   */
  lemma GuardedSendsKeepUnmoved(start: World, ls: seq<Label>, n: nat)
    requires Initial(start) && WorldInv(start) && Guarded(start, ls) && n <= |ls|
    ensures FailedUnmoved(Run(start, ls[..n]))
  {
    GuardedPrefix(start, ls, n);
    GuardedKeepsOrder(start, ls[..n]);
  }
}
