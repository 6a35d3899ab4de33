/** What the payment gateway can do with a method, and the runs of the refund protocol it allows. */
module RefundGateway {
  import opened PaymentTypes
  import opened Settlement
  import opened SettlementInvariants
  import opened RefundProtocol
  import opened SettlementTheorems
  import opened OutsideRefund

  /** Which methods can be refunded, and for which ones a query can report a refund. */
  datatype Gateway = Gateway(refunds: string -> bool, reports: string -> bool)

  /** A refund is prepared only for a method that supports it, and a refund is reported only by an adapter that can. */
  ghost predicate Obeys(g: Gateway, w: World, l: Label) {
    && (l.Prepare? && l.i < |w.book.payments| ==> g.refunds(w.book.payments[l.i].payChannel))
    && (l.Local? && l.t.TxQuery? && l.t.i < |w.book.payments| && l.t.result.state == TradeRefund ==>
          g.reports(w.book.payments[l.t.i].payChannel))
  }

  ghost predicate Obedient(g: Gateway, w: World, ls: seq<Label>)
    requires WorldInv(w)
    decreases |ls|
  {
    ls == [] || (Obeys(g, w, ls[0]) && (StepKeeps(w, ls[0]); Obedient(g, Step(w, ls[0]), ls[1..])))
  }

  lemma {:induction false} ObedientExtends(g: Gateway, w: World, ls: seq<Label>, l: Label)
    requires WorldInv(w) && Obedient(g, w, ls) && Obeys(g, Run(w, ls), l)
    ensures Obedient(g, w, ls + [l])
    decreases |ls|
  {
    if ls == [] {
      StepKeeps(w, l);
      assert (ls + [l])[1..] == [];
    } else {
      StepKeeps(w, ls[0]);
      ObedientExtends(g, Step(w, ls[0]), ls[1..], l);
      assert (ls + [l])[1..] == ls[1..] + [l];
    }
  }

  // ---------------------------------------------------------------- reachable

  ghost predicate StartsAt(g: Gateway, start: World, ls: seq<Label>) {
    Initial(start) && WorldInv(start) && Obedient(g, start, ls)
  }

  /** The world occurs in some run that this gateway allows. */
  ghost predicate Occurs(g: Gateway, w: World) {
    exists start, ls :: StartsAt(g, start, ls) && w == Run(start, ls)
  }

  lemma Reach(g: Gateway, w: World, l: Label, v: World)
    requires Occurs(g, w) && WorldInv(w) && Obeys(g, w, l) && Step(w, l) == v
    ensures Occurs(g, v) && WorldInv(v)
  {
    var start, ls :| StartsAt(g, start, ls) && w == Run(start, ls);
    RunOne(w, l);
    RunConcat(start, ls, [l]);
    ObedientExtends(g, start, ls, l);
    assert StartsAt(g, start, ls + [l]) && v == Run(start, ls + [l]);
  }

  // -------------------------------------------------- settled means accepted

  /** No readable method can be both refunded and reported as refunded. */
  ghost predicate Separate(g: Gateway) {
    forall m {:trigger g.refunds(m)} {:trigger g.reports(m)} :: ParsesMethod(m) ==> !(g.refunds(m) && g.reports(m))
  }

  /** A record of row i is one the gateway could make, and is settled only after an acceptance. */
  ghost predicate RecordBacked(g: Gateway, w: World, i: nat)
    requires i < |w.book.payments| == |w.book.refunds|
  {
    w.book.refunds[i].Some? ==>
      && g.refunds(w.book.payments[i].payChannel)
      && (w.book.refunds[i].value.status == RefundSuccess ==> w.book.refunds[i].value.outRefundNo in w.accepted)
  }

  ghost predicate Backed(g: Gateway, w: World) {
    && |w.book.payments| == |w.book.refunds|
    && forall i :: 0 <= i < |w.book.refunds| ==> RecordBacked(g, w, i)
  }

  lemma AcceptedStays(w: World, l: Label)
    requires Aligned(w)
    ensures w.accepted <= Step(w, l).accepted
  {
  }

  /** Only a preparation makes a record, and it makes a pending one. */
  lemma NewRecord(w: World, l: Label, i: nat)
    requires WorldInv(w) && i < |Step(w, l).book.refunds| && Step(w, l).book.refunds[i].Some?
    requires i < |w.book.refunds| ==> w.book.refunds[i].None?
    ensures l.Prepare? && l.i == i && i < |w.book.payments| && Step(w, l).book.refunds[i].value.status == RefundPending
  {
    if !Commits(l) {
      BookKept(w, l);
      assert false;
    } else {
      match l
      case Local(t) =>
        if !IsRefundTx(t) && Honest(w, t) { LocalEffects(w.book, t); }
        assert false;
      case Prepare(e, j, no, refundId) => PreparedRecordIsNew(w, l, i);
      case Apply(e, outcome) =>
        ApplyMakesNone(w, l, i);
        assert false;
      case RecordError(e, outcome) => assert false;
    }
  }

  lemma PreparedRecordIsNew(w: World, l: Label, i: nat)
    requires Aligned(w) && l.Prepare? && i < |Step(w, l).book.refunds| && Step(w, l).book.refunds[i].Some?
    requires i < |w.book.refunds| ==> w.book.refunds[i].None?
    ensures l.i == i && i < |w.book.payments| && Step(w, l).book.refunds[i].value.status == RefundPending
  {
    if l.i < |w.book.payments| && PrepareRefund(w.book, l.i, l.no, l.refundId).Some? {
      PrepareShape(w.book, l.i, l.no, l.refundId);
    }
  }

  lemma ApplyMakesNone(w: World, l: Label, i: nat)
    requires Aligned(w) && l.Apply?
    ensures |Step(w, l).book.refunds| == |w.book.refunds|
    ensures i < |w.book.refunds| && Step(w, l).book.refunds[i].Some? ==> w.book.refunds[i].Some?
  {
    if l.e in w.execs && SettleRefund(w.book, w.execs[l.e].pay).Some? { SettleShape(w.book, w.execs[l.e].pay); }
  }

  /** A record that was there: the step that settles it finds its number accepted. */
  lemma OldRecordBacked(g: Gateway, w: World, l: Label, i: nat)
    requires WorldInv(w) && Backed(g, w) && Obeys(g, w, l) && Separate(g)
    requires i < |w.book.refunds| && w.book.refunds[i].Some?
    ensures var v := Step(w, l); i < |v.book.payments| == |v.book.refunds| && RecordBacked(g, v, i)
  {
    StepKeeps(w, l);
    AcceptedStays(w, l);
    assert RecordBacked(g, w, i);
    var v := Step(w, l);
    assert RefundEvolves(w.book.refunds[i].value, v.book.refunds[i].value);
    assert PaymentEvolves(w.book.payments[i], v.book.payments[i]);
    if Unbacked(w, i) {
      SettledWithoutAcceptanceIff(w, l, i);
    }
  }

  lemma BackedStep(g: Gateway, w: World, l: Label)
    requires WorldInv(w) && Backed(g, w) && Obeys(g, w, l) && Separate(g)
    ensures Backed(g, Step(w, l))
  {
    StepKeeps(w, l);
    var v := Step(w, l);
    forall i | 0 <= i < |v.book.refunds| ensures RecordBacked(g, v, i) {
      if i < |w.book.refunds| && w.book.refunds[i].Some? {
        OldRecordBacked(g, w, l, i);
      } else if v.book.refunds[i].Some? {
        NewRecord(w, l, i);
        assert PaymentEvolves(w.book.payments[i], v.book.payments[i]);
      }
    }
  }

  lemma {:induction false} BackedRun(g: Gateway, w: World, ls: seq<Label>)
    requires WorldInv(w) && Backed(g, w) && Obedient(g, w, ls) && Separate(g)
    ensures Backed(g, Run(w, ls))
    decreases |ls|
  {
    if ls != [] {
      BackedStep(g, w, ls[0]);
      StepKeeps(w, ls[0]);
      BackedRun(g, Step(w, ls[0]), ls[1..]);
    }
  }

  /** Every settled record's number was accepted. */
  ghost predicate SettledAccepted(w: World) {
    forall i :: 0 <= i < |w.book.refunds| && w.book.refunds[i].Some? ==>
      w.book.refunds[i].value.status == RefundSuccess ==> w.book.refunds[i].value.outRefundNo in w.accepted
  }

  lemma SeparateSettlesAccepted(g: Gateway, w: World)
    requires Separate(g) && Occurs(g, w)
    ensures SettledAccepted(w)
  {
    var start, ls :| StartsAt(g, start, ls) && w == Run(start, ls);
    BackedRun(g, start, ls);
    forall i | 0 <= i < |w.book.refunds| && w.book.refunds[i].Some? && w.book.refunds[i].value.status == RefundSuccess
      ensures w.book.refunds[i].value.outRefundNo in w.accepted
    {
      assert RecordBacked(g, w, i);
    }
  }
}
