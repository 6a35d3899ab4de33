/**
 * A record marked failed is meant to say that no money moved: shipping is allowed
 * again. That is false when two executions of one record race, and this module
 * says exactly when the work in flight can break it.
 */
module RefundRace {
  import opened PaymentTypes
  import opened Settlement
  import opened SettlementInvariants
  import opened RefundProtocol
  import opened SettlementTheorems

  /** Finishing what was prepared: no transaction outside the refund protocol and no new execution. */
  predicate InFlight(l: Label) {
    l.Send? || l.Process? || l.Deliver? || l.Timeout? || l.Apply? || l.RecordError? || l.Crash?
  }

  /** A request the provider has not looked at yet. */
  ghost predicate Open(w: World, x: nat, no: string) {
    x in w.requests && w.requests[x].no == no && w.requests[x].verdict == Unprocessed
  }

  /** A request of the number is open or about to be sent. */
  ghost predicate Live(w: World, x: nat, no: string) {
    Open(w, x, no) || (x in w.execs && w.execs[x].no == no && w.execs[x].phase == Prepared)
  }

  /** This execution may still record a rejection of its number. */
  ghost predicate MayFail(w: World, e: nat, no: string) {
    && e in w.execs && w.execs[e].no == no
    && (|| w.execs[e].phase == Errored(true)
        || (w.execs[e].phase == Prepared && no !in w.accepted)
        || (w.execs[e].phase == Waiting && e in w.requests
            && (w.requests[e].verdict == Rejected || (w.requests[e].verdict == Unprocessed && no !in w.accepted))))
  }

  /** Another execution's acceptance of the number has happened or may still happen. */
  ghost predicate MayAccept(w: World, e: nat, no: string) {
    no in w.accepted || exists x :: x != e && Live(w, x, no)
  }

  ghost predicate RacingRecord(w: World, i: nat)
    requires i < |w.book.refunds|
  {
    && w.book.refunds[i].Some?
    && var no := w.book.refunds[i].value.outRefundNo;
       match w.book.refunds[i].value.status
       case RefundFailed => exists x :: Live(w, x, no)
       case RefundPending => exists e :: MayFail(w, e, no) && MayAccept(w, e, no)
       case RefundSuccess => false
  }

  ghost predicate Racing(w: World) {
    exists i :: 0 <= i < |w.book.refunds| && RacingRecord(w, i)
  }

  // ------------------------------------------------- no race, no false failure

  ghost predicate Calm(w: World) {
    FailedUnmoved(w) && !Racing(w)
  }

  /** The executions and live requests only get fewer; numbers, statuses and acceptances stay. */
  lemma FewerKeepsCalm(w: World, v: World)
    requires Calm(w) && v.book == w.book && v.accepted == w.accepted
    requires forall x, no :: Live(v, x, no) ==> Live(w, x, no)
    requires forall e, no :: MayFail(v, e, no) ==> MayFail(w, e, no)
    ensures Calm(v)
  {
    forall i | 0 <= i < |v.book.refunds|
      ensures !RacingRecord(v, i)
    {
      assert !RacingRecord(w, i);
    }
  }

  lemma SendKeepsCalm(w: World, e: nat)
    requires Calm(w)
    ensures Calm(SendStep(w, e))
  {
    FewerKeepsCalm(w, SendStep(w, e));
  }

  lemma ProcessKeepsCalm(w: World, x: nat, accept: bool)
    requires ProtocolInv(w) && NumbersDistinct(w.book.refunds) && Calm(w)
    ensures Calm(ProcessStep(w, x, accept))
  {
    var v := ProcessStep(w, x, accept);
    if x !in w.requests || w.requests[x].verdict != Unprocessed {
    } else if w.requests[x].no in w.accepted || !accept {
      assert x in w.execs ==> ExecInv(w, x);
      FewerKeepsCalm(w, v);
    } else {
      AcceptKeepsCalm(w, x);
    }
  }

  lemma AcceptKeepsCalm(w: World, x: nat)
    requires ProtocolInv(w) && NumbersDistinct(w.book.refunds) && Calm(w)
    requires x in w.requests && w.requests[x].verdict == Unprocessed && w.requests[x].no !in w.accepted
    ensures Calm(ProcessStep(w, x, true))
  {
    var v := ProcessStep(w, x, true);
    var q := w.requests[x];
    assert Open(w, x, q.no) && Live(w, x, q.no);
    forall i | 0 <= i < |v.book.refunds|
      ensures !RacingRecord(v, i) && (Fails(v.book, i) ==> v.book.refunds[i].value.outRefundNo !in v.accepted)
    {
      assert !RacingRecord(w, i);
      if v.book.refunds[i].Some? {
        var no := v.book.refunds[i].value.outRefundNo;
        forall y | Live(v, y, no) ensures Live(w, y, no) { }
        forall e | MayFail(v, e, no) ensures MayFail(w, e, no) && (no == q.no ==> e != x) {
          assert ExecInv(w, e);
        }
      }
    }
  }

  lemma RecordErrorKeepsCalm(w: World, e: nat, outcome: Outcome)
    requires ProtocolInv(w) && NumbersDistinct(w.book.refunds) && Calm(w)
    ensures Calm(RecordErrorStep(w, e, outcome))
  {
    var v := RecordErrorStep(w, e, outcome);
    if e !in w.execs || !w.execs[e].phase.Errored? {
    } else if v.book == w.book {
      FewerKeepsCalm(w, v);
    } else {
      var k, no := w.execs[e].pay, w.execs[e].no;
      assert ExecInv(w, e) && MayFail(w, e, no) && !RacingRecord(w, k);
      assert RefersTo(w.book, k, no);
      forall i | 0 <= i < |v.book.refunds|
        ensures !RacingRecord(v, i) && (Fails(v.book, i) ==> v.book.refunds[i].value.outRefundNo !in v.accepted)
      {
        assert !RacingRecord(w, i);
        if i == k {
          forall x ensures !Live(v, x, no) { assert Live(v, x, no) ==> x != e && Live(w, x, no); }
        } else if v.book.refunds[i].Some? {
          var other := v.book.refunds[i].value.outRefundNo;
          forall y | MayFail(v, y, other) ensures MayFail(w, y, other) { }
          forall y | Live(v, y, other) ensures Live(w, y, other) { }
        }
      }
    }
  }

  lemma ApplyKeepsCalm(w: World, e: nat, outcome: Outcome)
    requires ProtocolInv(w) && Calm(w)
    ensures Calm(ApplyStep(w, e, outcome))
  {
    var v := ApplyStep(w, e, outcome);
    if e !in w.execs || w.execs[e].phase != Confirmed {
    } else if outcome == RolledBack || SettleRefund(w.book, w.execs[e].pay).None? {
      FewerKeepsCalm(w, v);
    } else {
      SettleShape(w.book, w.execs[e].pay);
      forall i | 0 <= i < |v.book.refunds|
        ensures !RacingRecord(v, i) && (Fails(v.book, i) ==> v.book.refunds[i].value.outRefundNo !in v.accepted)
      {
        assert !RacingRecord(w, i);
        if v.book.refunds[i].Some? {
          var no := v.book.refunds[i].value.outRefundNo;
          forall y | MayFail(v, y, no) ensures MayFail(w, y, no) { }
          forall y | Live(v, y, no) ensures Live(w, y, no) { }
        }
      }
    }
  }

  lemma DeliverKeepsCalm(w: World, e: nat, lost: bool)
    requires Calm(w)
    ensures Calm(DeliverStep(w, e, lost)) && Calm(TimeoutStep(w, e)) && Calm(Finish(w, e))
  {
    FewerKeepsCalm(w, DeliverStep(w, e, lost));
    FewerKeepsCalm(w, TimeoutStep(w, e));
    FewerKeepsCalm(w, Finish(w, e));
  }

  lemma InFlightKeepsCalm(w: World, l: Label)
    requires WorldInv(w) && Calm(w) && InFlight(l)
    ensures Calm(Step(w, l))
  {
    match l
    case Send(e) => SendKeepsCalm(w, e);
    case Process(e, accept) => ProcessKeepsCalm(w, e, accept);
    case Deliver(e, lost) => DeliverKeepsCalm(w, e, lost);
    case Timeout(e) => DeliverKeepsCalm(w, e, true);
    case Apply(e, outcome) => ApplyKeepsCalm(w, e, outcome);
    case RecordError(e, outcome) => RecordErrorKeepsCalm(w, e, outcome);
    case Crash(e) => DeliverKeepsCalm(w, e, true);
  }

  lemma {:induction false} CalmRuns(w: World, ls: seq<Label>)
    requires WorldInv(w) && Calm(w) && AllInFlight(ls)
    ensures Calm(Run(w, ls))
    decreases |ls|
  {
    if ls != [] {
      InFlightKeepsCalm(w, ls[0]);
      StepKeeps(w, ls[0]);
      CalmRuns(Step(w, ls[0]), ls[1..]);
    }
  }

  // ---------------------------------------------------- a race, a false failure

  lemma RunProcess(w: World, x: nat, accept: bool)
    requires WorldInv(w)
    ensures WorldInv(ProcessStep(w, x, accept)) && Run(w, [Process(x, accept)]) == ProcessStep(w, x, accept)
  {
    RunOne(w, Process(x, accept));
  }

  lemma RunDeliver(w: World, e: nat)
    requires WorldInv(w)
    ensures WorldInv(DeliverStep(w, e, false)) && Run(w, [Deliver(e, false)]) == DeliverStep(w, e, false)
  {
    RunOne(w, Deliver(e, false));
  }

  lemma RunRecordError(w: World, e: nat)
    requires WorldInv(w)
    ensures WorldInv(RecordErrorStep(w, e, Committed))
    ensures Run(w, [RecordError(e, Committed)]) == RecordErrorStep(w, e, Committed)
  {
    RunOne(w, RecordError(e, Committed));
  }

  ghost predicate AllInFlight(ls: seq<Label>) {
    forall k :: 0 <= k < |ls| ==> InFlight(ls[k])
  }

  lemma RunSend(w: World, e: nat)
    requires WorldInv(w)
    ensures WorldInv(SendStep(w, e)) && Run(w, [Send(e)]) == SendStep(w, e)
  {
    RunOne(w, Send(e));
  }

  /** Whoever else may still get the number accepted may do so afterwards. */
  ghost predicate OthersLive(w: World, v: World, e: nat, no: string) {
    v.book == w.book && v.accepted == w.accepted && forall x :: x != e && Live(w, x, no) ==> Live(v, x, no)
  }

  /** The execution holds a rejection to record, and nothing else of the number changed. */
  ghost predicate HoldsRejection(w: World, v: World, e: nat, no: string) {
    && e in w.execs && e in v.execs && v.execs[e] == w.execs[e].(phase := Errored(true))
    && OthersLive(w, v, e, no)
  }

  /** The execution got on with its call, and nothing else of the number changed. */
  ghost predicate Advanced(w: World, m: World, e: nat, no: string) {
    && e in w.execs && e in m.execs && m.execs[e] == w.execs[e].(phase := m.execs[e].phase) && MayFail(m, e, no)
    && OthersLive(w, m, e, no)
  }

  lemma AdvancedThenHeld(w: World, m: World, v: World, e: nat, no: string)
    requires Advanced(w, m, e, no) && HoldsRejection(m, v, e, no)
    ensures HoldsRejection(w, v, e, no)
  {
  }

  /** A rejection already made reaches its execution. */
  lemma DeliveredRejection(w: World, e: nat, no: string)
    requires ProtocolInv(w) && MayFail(w, e, no) && w.execs[e].phase == Waiting && w.requests[e].verdict == Rejected
    ensures HoldsRejection(w, DeliverStep(w, e, false), e, no)
  {
  }

  lemma DeliverRejection(w: World, e: nat, no: string) returns (ls: seq<Label>)
    requires WorldInv(w) && MayFail(w, e, no) && w.execs[e].phase != Prepared
    requires w.execs[e].phase == Waiting ==> w.requests[e].verdict == Rejected
    ensures AllInFlight(ls) && HoldsRejection(w, Run(w, ls), e, no)
  {
    if w.execs[e].phase == Waiting {
      ls := [Deliver(e, false)];
      RunDeliver(w, e);
      DeliveredRejection(w, e, no);
    } else {
      ls := [];
      assert Run(w, ls) == w;
    }
  }

  lemma ProcessRejection(w: World, e: nat, no: string)
    requires MayFail(w, e, no) && w.execs[e].phase == Waiting && w.requests[e].verdict == Unprocessed && Aligned(w)
    requires w.requests[e].no == no
    ensures var m := ProcessStep(w, e, false);
            Advanced(w, m, e, no) && m.execs[e].phase == Waiting && m.requests[e].verdict == Rejected
  {
  }

  lemma SendAdvances(w: World, e: nat, no: string)
    requires MayFail(w, e, no) && w.execs[e].phase == Prepared && e !in w.requests
    ensures var m := SendStep(w, e);
            Advanced(w, m, e, no) && m.execs[e].phase == Waiting && m.requests[e].verdict == Unprocessed
              && m.requests[e].no == no
  {
  }

  /** One more step in front of a run that ends with the rejection held. */
  lemma PrependStep(w: World, l: Label, m: World, rest: seq<Label>, e: nat, no: string)
    requires WorldInv(w) && WorldInv(m) && Run(w, [l]) == m && InFlight(l) && AllInFlight(rest)
    requires Advanced(w, m, e, no) && HoldsRejection(m, Run(m, rest), e, no)
    ensures AllInFlight([l] + rest) && HoldsRejection(w, Run(w, [l] + rest), e, no)
  {
    PrependRun(w, l, m, rest);
    AdvancedThenHeld(w, m, Run(m, rest), e, no);
  }

  lemma PrependRun(w: World, l: Label, m: World, rest: seq<Label>)
    requires WorldInv(w) && WorldInv(m) && Run(w, [l]) == m && InFlight(l) && AllInFlight(rest)
    ensures AllInFlight([l] + rest) && Run(w, [l] + rest) == Run(m, rest)
  {
    RunConcat(w, [l], rest);
  }

  lemma RejectOpen(w: World, e: nat, no: string) returns (ls: seq<Label>)
    requires WorldInv(w) && MayFail(w, e, no) && w.execs[e].phase == Waiting && w.requests[e].verdict == Unprocessed
    requires w.requests[e].no == no
    ensures AllInFlight(ls) && HoldsRejection(w, Run(w, ls), e, no)
  {
    var m := ProcessStep(w, e, false);
    ProcessRejection(w, e, no);
    RunProcess(w, e, false);
    var rest := DeliverRejection(m, e, no);
    PrependStep(w, Process(e, false), m, rest, e, no);
    ls := [Process(e, false)] + rest;
  }

  lemma RejectUnsent(w: World, e: nat, no: string) returns (ls: seq<Label>)
    requires WorldInv(w) && MayFail(w, e, no) && w.execs[e].phase == Prepared && e !in w.requests
    ensures AllInFlight(ls) && HoldsRejection(w, Run(w, ls), e, no)
  {
    var m := SendStep(w, e);
    SendAdvances(w, e, no);
    RunSend(w, e);
    var rest := RejectOpen(m, e, no);
    PrependStep(w, Send(e), m, rest, e, no);
    ls := [Send(e)] + rest;
  }

  /** Lets the provider reject the request of an execution that may still fail, and delivers the rejection. */
  lemma Reject(w: World, e: nat, no: string) returns (ls: seq<Label>)
    requires WorldInv(w) && MayFail(w, e, no)
    ensures AllInFlight(ls) && HoldsRejection(w, Run(w, ls), e, no)
  {
    assert ExecInv(w, e);
    if w.execs[e].phase == Prepared {
      ls := RejectUnsent(w, e, no);
    } else if w.execs[e].phase == Waiting && w.requests[e].verdict == Unprocessed {
      ls := RejectOpen(w, e, no);
    } else {
      ls := DeliverRejection(w, e, no);
    }
  }

  /** The number was accepted, and only execution x moved. */
  ghost predicate AcceptedFor(w: World, v: World, x: nat, no: string) {
    && v.book == w.book && no in v.accepted
    && forall e :: e != x && e in w.execs ==> e in v.execs && v.execs[e] == w.execs[e]
  }

  lemma AcceptOpen(w: World, x: nat, no: string)
    requires WorldInv(w) && Open(w, x, no)
    ensures AcceptedFor(w, Run(w, [Process(x, true)]), x, no)
  {
    RunProcess(w, x, true);
  }

  lemma AcceptUnsent(w: World, x: nat, no: string)
    requires WorldInv(w) && Live(w, x, no) && !Open(w, x, no)
    ensures AcceptedFor(w, Run(w, [Send(x)] + [Process(x, true)]), x, no)
  {
    assert ExecInv(w, x);
    RunSend(w, x);
    AcceptOpen(SendStep(w, x), x, no);
    RunConcat(w, [Send(x)], [Process(x, true)]);
  }

  /** Sends the request if need be and lets the provider accept it. */
  lemma AcceptLive(w: World, x: nat, no: string) returns (ls: seq<Label>)
    requires WorldInv(w) && Live(w, x, no)
    ensures AllInFlight(ls) && AcceptedFor(w, Run(w, ls), x, no)
  {
    if Open(w, x, no) {
      AcceptOpen(w, x, no);
      ls := [Process(x, true)];
    } else {
      AcceptUnsent(w, x, no);
      ls := [Send(x)] + [Process(x, true)];
    }
  }

  /** Lets the provider accept a live request of the number, unless it did before. */
  lemma Accept(w: World, e: nat, no: string) returns (ls: seq<Label>)
    requires WorldInv(w) && e in w.execs && MayAccept(w, e, no)
    ensures AllInFlight(ls)
    ensures var v := Run(w, ls); e in v.execs && v.execs[e] == w.execs[e] && v.book == w.book && no in v.accepted
  {
    if no in w.accepted {
      ls := [];
    } else {
      var x :| x != e && Live(w, x, no);
      ls := AcceptLive(w, x, no);
    }
  }

  lemma RecordRejection(w: World, e: nat, i: nat)
    requires ProtocolInv(w) && e in w.execs && w.execs[e].phase == Errored(true) && w.execs[e].pay == i
    requires w.book.refunds[i].value.status == RefundPending && w.book.refunds[i].value.outRefundNo in w.accepted
    ensures !FailedUnmoved(RecordErrorStep(w, e, Committed))
  {
    assert Fails(RecordErrorStep(w, e, Committed).book, i);
  }

  lemma RecordStale(w: World, e: nat, i: nat)
    requires WorldInv(w) && e in w.execs && w.execs[e].phase == Errored(true) && w.execs[e].pay == i
    requires w.book.refunds[i].value.status == RefundPending && w.book.refunds[i].value.outRefundNo in w.accepted
    ensures !FailedUnmoved(Run(w, [RecordError(e, Committed)]))
  {
    RecordRejection(w, e, i);
    RunRecordError(w, e);
  }

  /** Acceptance through another request first, then the stale rejection. */
  lemma AcceptThenRecord(w: World, e: nat, i: nat) returns (ls: seq<Label>)
    requires WorldInv(w) && e in w.execs && w.execs[e].phase == Errored(true) && w.execs[e].pay == i
    requires w.book.refunds[i].value.status == RefundPending && MayAccept(w, e, w.book.refunds[i].value.outRefundNo)
    ensures AllInFlight(ls) && !FailedUnmoved(Run(w, ls))
  {
    var first := Accept(w, e, w.book.refunds[i].value.outRefundNo);
    RecordStale(Run(w, first), e, i);
    RunConcat(w, first, [RecordError(e, Committed)]);
    ls := first + [RecordError(e, Committed)];
  }

  lemma PendingRace(w: World, e: nat, i: nat) returns (ls: seq<Label>)
    requires WorldInv(w) && i < |w.book.refunds| && w.book.refunds[i].Some?
    requires w.book.refunds[i].value.status == RefundPending
    requires MayFail(w, e, w.book.refunds[i].value.outRefundNo) && MayAccept(w, e, w.book.refunds[i].value.outRefundNo)
    ensures AllInFlight(ls) && !FailedUnmoved(Run(w, ls))
  {
    var no := w.book.refunds[i].value.outRefundNo;
    SameRecord(w, i, w.execs[e].pay, no);
    var first := Reject(w, e, no);
    var rest := AcceptThenRecord(Run(w, first), e, i);
    RunConcat(w, first, rest);
    ls := first + rest;
  }

  lemma SameRecord(w: World, i: nat, j: nat, no: string)
    requires NumbersDistinct(w.book.refunds) && RefersTo(w.book, j, no)
    requires i < |w.book.refunds| && w.book.refunds[i].Some? && w.book.refunds[i].value.outRefundNo == no
    ensures i == j
  {
  }

  lemma FailedRace(w: World, x: nat, i: nat) returns (ls: seq<Label>)
    requires WorldInv(w) && i < |w.book.refunds| && Fails(w.book, i) && Live(w, x, w.book.refunds[i].value.outRefundNo)
    ensures AllInFlight(ls) && !FailedUnmoved(Run(w, ls))
  {
    ls := AcceptLive(w, x, w.book.refunds[i].value.outRefundNo);
    assert Fails(Run(w, ls).book, i);
  }

  /**
   * While the executions that are under way finish, no failed record's money moves, if and only if no execution of a
   * record races with another one of the same number.
   */
  lemma FailedMeansUnmovedIff(w: World)
    requires WorldInv(w) && FailedUnmoved(w)
    ensures (forall ls | AllInFlight(ls) :: FailedUnmoved(Run(w, ls))) <==> !Racing(w)
  {
    if Racing(w) {
      var i :| 0 <= i < |w.book.refunds| && RacingRecord(w, i);
      var no := w.book.refunds[i].value.outRefundNo;
      if Fails(w.book, i) {
        var x :| Live(w, x, no);
        var ls := FailedRace(w, x, i);
      } else {
        var e :| MayFail(w, e, no) && MayAccept(w, e, no);
        var ls := PendingRace(w, e, i);
      }
    } else {
      forall ls | AllInFlight(ls)
        ensures FailedUnmoved(Run(w, ls))
      {
        CalmRuns(w, ls);
      }
    }
  }
}
