/** The refund calls of the admin API and of the reconciliation worker, run against everybody else's steps. */
module RefundService {
  import opened Options
  import opened PaymentTypes
  import opened Settlement
  import opened RefundProtocol
  import opened SettlementTheorems
  import opened RefundCalls

  class Service {
    var w: World
    /** Every step since the service was created. */
    ghost var trace: seq<Label>
    ghost const start: World

    ghost predicate Valid()
      reads this
    {
      WorldInv(start) && w == Run(start, trace)
    }

    constructor (w: World)
      requires WorldInv(w)
      ensures Valid() && this.w == w && start == w
    {
      this.w, trace, start := w, [], w;
    }

    method Do(l: Label)
      requires Valid()
      modifies this
      ensures Valid() && trace == old(trace) + [l] && WorldInv(old(w)) && w == Step(old(w), l) && WorldInv(w)
    {
      RunOne(w, l);
      RunConcat(start, trace, [l]);
      w := Step(w, l);
      trace := trace + [l];
    }

    /** The steps of everybody else, as they happen. */
    method Others(ls: seq<Label>)
      requires Valid()
      modifies this
      ensures Valid() && trace == old(trace) + ls && WorldInv(old(w)) && w == Run(old(w), ls) && WorldInv(w)
    {
      ghost var first := w;
      assert first == Run(first, []);
      for k := 0 to |ls|
        invariant Valid() && trace == old(trace) + ls[..k] && WorldInv(first) && w == Run(first, ls[..k])
      {
        RunOne(w, ls[k]);
        RunConcat(first, ls[..k], [ls[k]]);
        assert ls[..k + 1] == ls[..k] + [ls[k]];
        Do(ls[k]);
      }
      assert ls[..|ls|] == ls;
    }

    /** Lets the others run; execution e stays where it is. */
    method Wait(e: nat, ls: seq<Label>)
      requires Valid() && e in w.execs && Foreign(ls, e)
      modifies this
      ensures Valid() && trace == old(trace) + ls && WorldInv(old(w)) && w == Run(old(w), ls) && WorldInv(w)
      ensures e in w.execs && w.execs[e] == old(w.execs[e])
    {
      ForeignRun(w, ls, e);
      Others(ls);
    }

    /** Lets the others run and then takes a step. */
    method WaitAndDo(e: nat, ls: seq<Label>, l: Label) returns (ghost m: World)
      requires Valid() && e in w.execs && Foreign(ls, e)
      modifies this
      ensures Valid() && trace == old(trace) + ls + [l] && WorldInv(old(w)) && WorldInv(m) && WorldInv(w)
      ensures m == Run(old(w), ls) && w == Step(m, l) && e in m.execs && m.execs[e] == old(w.execs[e])
    {
      Wait(e, ls);
      m := w;
      Do(l);
    }

    /** Sends the request of a prepared execution. */
    method SendRequest(e: nat, beforeSend: seq<Label>)
      requires Valid() && e in w.execs && w.execs[e].phase == Prepared && Foreign(beforeSend, e)
      modifies this
      ensures Valid() && trace == old(trace) + (beforeSend + [Send(e)]) && WorldInv(old(w))
      ensures w == Run(old(w), beforeSend + [Send(e)])
      ensures WorldInv(w) && e in w.execs && w.execs[e] == old(w.execs[e]).(phase := Waiting)
    {
      ghost var first := w;
      ghost var m := WaitAndDo(e, beforeSend, Send(e));
      Appended(old(trace), beforeSend, [Send(e)], []);
      Sent(m, e);
      RunThen(first, beforeSend, Send(e), m);
    }

    /** Takes the answer that is there, or gives up. */
    method TakeReply(e: nat, lost: bool)
      requires Valid() && e in w.execs && w.execs[e].phase == Waiting
      modifies this
      ensures Valid() && trace == old(trace) + [ReplyLabel(old(w), e, lost)] && WorldInv(old(w)) && WorldInv(w)
      ensures w == Step(old(w), ReplyLabel(old(w), e, lost)) && e in old(w.requests)
      ensures e in w.execs && w.execs[e] == old(w.execs[e]).(phase := Answer(old(w.requests[e].verdict), lost))
    {
      Heard(w, e, lost);
      Do(ReplyLabel(w, e, lost));
    }

    /**
     * Waits for the provider's answer: a delivered acceptance confirms, a delivered rejection is a definitive error,
     * and a lost or missing answer is an error that settles nothing.
     */
    method AwaitReply(e: nat, beforeReply: seq<Label>, lost: bool) returns (ghost asked: World)
      requires Valid() && e in w.execs && w.execs[e].phase == Waiting && Foreign(beforeReply, e)
      modifies this
      ensures Valid() && WorldInv(old(w)) && asked == Run(old(w), beforeReply) && e in asked.requests
      ensures trace == old(trace) + beforeReply + [ReplyLabel(asked, e, lost)]
      ensures w == Step(asked, ReplyLabel(asked, e, lost)) && WorldInv(w)
      ensures e in w.execs && w.execs[e] == old(w.execs[e]).(phase := Answer(asked.requests[e].verdict, lost))
    {
      Wait(e, beforeReply);
      asked := w;
      TakeReply(e, lost);
    }

    /** Asks the provider for the refund of a prepared record. */
    method CallProvider(e: nat, s: Schedule) returns (ghost asked: World)
      requires Valid() && e in w.execs && w.execs[e].phase == Prepared && ForeignSchedule(s, e)
      modifies this
      ensures Valid() && WorldInv(old(w)) && asked == Run(old(w), Asking(e, s)) && e in asked.requests
      ensures trace == old(trace) + (Asking(e, s) + [ReplyLabel(asked, e, s.replyLost)])
      ensures w == Step(asked, ReplyLabel(asked, e, s.replyLost)) && WorldInv(w)
      ensures e in w.execs && w.execs[e] == old(w.execs[e]).(phase := Answer(asked.requests[e].verdict, s.replyLost))
    {
      ghost var first, past := w, trace;
      SendRequest(e, s.beforeSend);
      asked := AwaitReply(e, s.beforeReply, s.replyLost);
      RunConcat(first, s.beforeSend + [Send(e)], s.beforeReply);
      Appended(past, s.beforeSend + [Send(e)], s.beforeReply, [ReplyLabel(asked, e, s.replyLost)]);
    }

    /**
     * Settles a confirmed refund locally. A committed settlement of a pending record ends the execution, whatever
     * happened to the order meanwhile; every other outcome leaves an error that is never definitive.
     */
    method ApplyRefund(e: nat, beforeApply: seq<Label>, outcome: Outcome)
      requires Valid() && e in w.execs && w.execs[e].phase == Confirmed && Foreign(beforeApply, e)
      modifies this
      ensures Valid() && trace == old(trace) + (beforeApply + [Apply(e, outcome)])
      ensures WorldInv(old(w)) && w == Step(Run(old(w), beforeApply), Apply(e, outcome)) && WorldInv(w)
      ensures var m := Run(old(w), beforeApply);
              e in m.execs && m.execs[e] == old(w.execs[e]) && Applied(m, e, outcome, w)
    {
      ghost var m := WaitAndDo(e, beforeApply, Apply(e, outcome));
      Appended(old(trace), beforeApply, [Apply(e, outcome)], []);
      SettleConfirmed(m, e, outcome);
    }

    /** Settles what the provider confirmed and leaves an error alone. */
    method TrySettle(e: nat, s: Schedule)
      requires Valid() && e in w.execs && (w.execs[e].phase == Confirmed || w.execs[e].phase.Errored?)
      requires Foreign(s.beforeApply, e)
      modifies this
      ensures Valid() && WorldInv(old(w)) && WorldInv(w) && w == Tried(old(w), e, s)
      ensures trace == old(trace) + Settling(old(w), e, s)
      ensures e in w.execs ==> w.execs[e].phase.Errored? && w.execs[e].pay == old(w.execs[e].pay)
      ensures e !in w.execs ==> HasStatus(w.book, old(w.execs[e].pay), RefundSuccess)
    {
      assert trace == trace + [];
      if w.execs[e].phase == Confirmed {
        ApplyRefund(e, s.beforeApply, s.apply);
      }
    }

    /**
     * Records the failure once: a definitive error ends the retries, any other keeps the record pending, and a row that
     * is no longer pending makes the record itself fail.
     */
    method RecordFailure(e: nat, outcome: Outcome) returns (r: Report)
      requires Valid() && e in w.execs && w.execs[e].phase.Errored?
      modifies this
      ensures Valid() && trace == old(trace) + [RecordError(e, outcome)]
      ensures WorldInv(old(w)) && w == Step(old(w), RecordError(e, outcome)) && e !in w.execs
      ensures r != SettledReport && r != Refused && Reports(r, w.book, old(w.execs[e].pay))
      ensures r == RecordErrorReport <==>
              outcome != Committed || !HasStatus(old(w).book, old(w.execs[e].pay), RefundPending)
      ensures r == RejectedReport <==> r != RecordErrorReport && old(w.execs[e].phase) == Errored(true)
    {
      var i := w.execs[e].pay;
      assert RefersTo(w.book, i, w.execs[e].no);
      var definitive := w.execs[e].phase.definitive;
      var status := w.book.refunds[i].value.status;
      RecordedStatus(w, e, outcome, status);
      Do(RecordError(e, outcome));
      if outcome != Committed || status != RefundPending {
        r := RecordErrorReport;
      } else if definitive {
        r := RejectedReport;
      } else {
        r := DeferredReport;
      }
    }

    /** The end of an execution: it is over when it settled, and otherwise records its error. */
    method Conclude(e: nat, i: nat, s: Schedule) returns (r: Report)
      requires Valid() && Foreign(s.beforeRecord, e)
      requires e in w.execs ==> w.execs[e].phase.Errored? && w.execs[e].pay == i
      requires e !in w.execs ==> HasStatus(w.book, i, RefundSuccess)
      modifies this
      ensures Valid() && trace == old(trace) + Recording(r, e, s) && e !in w.execs
      ensures WorldInv(old(w)) && Recorded(old(w), i, e, s, r, w)
    {
      if e !in w.execs {
        assert trace == trace + [];
        return SettledReport;
      }
      Wait(e, s.beforeRecord);
      r := RecordFailure(e, s.record);
      Appended(old(trace), s.beforeRecord, [RecordError(e, s.record)], []);
    }

    /** Drives the gateway call and the local settlement of a prepared refund, then records any failure. */
    method Execute(e: nat, s: Schedule) returns (r: Report, ghost steps: seq<Label>)
      requires Valid() && e in w.execs && w.execs[e].phase == Prepared && ForeignSchedule(s, e)
      modifies this
      ensures Valid() && trace == old(trace) + steps && e !in w.execs
      ensures WorldInv(old(w)) && Performed(old(w), e, s, steps, r, w)
    {
      ghost var past, first := trace, w;
      var i := w.execs[e].pay;
      ghost var asked := CallProvider(e, s);
      ghost var heard := w;
      TrySettle(e, s);
      ghost var tried := w;
      r := Conclude(e, i, s);
      ghost var asking := Asking(e, s) + [ReplyLabel(asked, e, s.replyLost)];
      steps := asking + Settling(heard, e, s) + Recording(r, e, s);
      Appended(past, asking, Settling(heard, e, s), Recording(r, e, s));
      PerformedBy(first, e, s, heard, tried, r, w);
    }

    /**
     * Prepares the record of the payment row under the locks and executes it unless it is settled already. The worker
     * names the record it expects and gives up on another one.
     */
    method PrepareAndExecute(c: Call, s: Schedule) returns (r: Report, ghost steps: seq<Label>)
      requires Valid() && c.e !in w.execs && c.e !in w.requests && ForeignSchedule(s, c.e)
      modifies this
      ensures Valid() && trace == old(trace) + steps && WorldInv(old(w)) && Called(old(w), c, s, steps, r, w)
      ensures WorldInv(w)
    {
      if !Preparable(w.book, c, s) {
        assert trace == trace + [];
        return Refused, [];
      }
      ghost var past, first := trace, w;
      PreparedExecution(w, c, s);
      Do(PrepareLabel(c));
      if s.prepare != Committed || (c.expected.Some? && c.expected.value != w.book.refunds[c.i].value.id) {
        GiveUp(c, s, first);
        Appended(past, [PrepareLabel(c)], [Crash(c.e)], []);
        return Refused, [PrepareLabel(c)] + [Crash(c.e)];
      }
      r, steps := ExecutePrepared(c, s, first);
      steps := [PrepareLabel(c)] + steps;
      Appended(past, [PrepareLabel(c)], steps[1..], []);
    }

    /** Drops an execution whose preparation was not answered or named another record. */
    method GiveUp(c: Call, s: Schedule, ghost first: World)
      requires Valid() && WorldInv(first) && Preparable(first.book, c, s) && !Goes(first.book, c, s)
      requires w == Step(first, PrepareLabel(c))
      modifies this
      ensures Valid() && trace == old(trace) + [Crash(c.e)] && WorldInv(w)
      ensures Called(first, c, s, [PrepareLabel(c)] + [Crash(c.e)], Refused, w)
    {
      Do(Crash(c.e));
    }

    /** Executes the record that was prepared in the world first, unless it is settled already. */
    method ExecutePrepared(c: Call, s: Schedule, ghost first: World) returns (r: Report, ghost steps: seq<Label>)
      requires Valid() && ForeignSchedule(s, c.e) && WorldInv(first) && c.e !in first.execs && c.e !in first.requests
      requires Goes(first.book, c, s) && w == Step(first, PrepareLabel(c))
      modifies this
      ensures Valid() && trace == old(trace) + steps && WorldInv(w)
      ensures Called(first, c, s, [PrepareLabel(c)] + steps, r, w)
    {
      PreparedExecution(first, c, s);
      if c.e !in w.execs {
        assert trace == trace + [] && [PrepareLabel(c)] + [] == [PrepareLabel(c)];
        return SettledReport, [];
      }
      r, steps := Execute(c.e, s);
      assert ([PrepareLabel(c)] + steps)[1..] == steps;
    }

    /** The admin call, with a fresh refund number; a refusal to prepare is returned and records nothing. */
    method RefundPayment(i: nat, freshNo: string, refundId: int, env: nat -> Schedule)
      returns (r: Report, ghost c: Call, ghost steps: seq<Label>)
      requires Valid() && forall e :: ForeignSchedule(env(e), e)
      modifies this
      ensures Valid() && trace == old(trace) + steps && WorldInv(old(w))
      ensures c == Call(c.e, i, freshNo, refundId, None) && c.e !in old(w.execs) && c.e !in old(w.requests)
      ensures Called(old(w), c, env(c.e), steps, r, w)
      ensures Undisturbed(env(c.e), c.e) && Goes(old(w).book, c, env(c.e)) ==>
                var f := PreparedRecord(old(w).book, c);
                r == if f.status == RefundSuccess then SettledReport
                  else CallReport(env(c.e), Accepts(env(c.e), f.outRefundNo in old(w).accepted))
    {
      var e := FreshId();
      var call := Call(e, i, freshNo, refundId, None);
      c := call;
      ghost var first := w;
      r, steps := PrepareAndExecute(call, env(e));
      if Undisturbed(env(e), e) && Goes(first.book, c, env(e)) {
        UndisturbedCall(first, c, env(e), steps, r, w);
      }
    }

    /** An execution identity that nobody has used. */
    method FreshId() returns (e: nat)
      ensures e !in w.execs && e !in w.requests
    {
      var used := w.execs.Keys + w.requests.Keys;
      var left := used;
      e := 0;
      while e in used
        invariant left <= used && forall d :: d in used && d >= e ==> d in left
        decreases left
      {
        left := left - {e};
        e := e + 1;
      }
    }

    /** Works on one listed record; an error before the gateway call is recorded too, and is never definitive. */
    method ReconcileRefund(x: StaleRefund, e: nat, s: Schedule) returns (r: Report, ghost n: Entry)
      requires Valid() && e !in w.execs && e !in w.requests && ForeignSchedule(s, e)
      modifies this
      ensures Valid() && n == Entry(old(w), e, n.steps, r, w) && Worked(n, x, s)
      ensures trace == old(trace) + n.steps && WorldInv(old(w)) && w == Run(old(w), n.steps)
    {
      ghost var past, first := trace, w;
      ghost var steps;
      r, steps := PrepareAndExecute(EntryCall(x, e), s);
      if r == Refused {
        Others(s.beforeRecord);
        Appended(past, steps, s.beforeRecord, []);
        steps := steps + s.beforeRecord;
        r := if s.record == Committed && StillListed(w.book, x) then DeferredReport else RecordErrorReport;
      }
      n := Entry(first, e, steps, r, w);
      Continued(start, past, steps, first);
    }

    /**
     * One worker pass: the trace is the work on each listed record in turn, each gets exactly one report, and the count
     * is that of the settled ones, which are settled when the pass ends.
     */
    method ReconcilePendingRefunds(stale: seq<StaleRefund>, env: (nat, nat) -> Schedule)
      returns (settled: nat, reports: seq<Report>, ghost entries: seq<Entry>)
      requires Valid() && forall k, e :: ForeignSchedule(env(k, e), e)
      modifies this
      ensures Valid() && trace == old(trace) + Joined(entries)
      ensures |entries| == |stale| && Pass(old(w), w, stale, env, entries)
      ensures Accounted(w.book, stale, entries, reports, settled)
    {
      settled, reports, entries := 0, [], [];
      assert trace == trace + [];
      for k := 0 to |stale|
        invariant Valid() && trace == old(trace) + Joined(entries)
        invariant |entries| == k && Pass(old(w), w, stale, env, entries)
        invariant Accounted(w.book, stale, entries, reports, settled)
      {
        var e := FreshId();
        ghost var n;
        var r;
        r, n := ReconcileRefund(stale[k], e, env(k, e));
        EntryEffect(n, stale[k], env(k, e));
        SettledStays(n.before, n.steps);
        AccountedExtends(stale, entries, reports, settled, n);
        PassExtends(old(w), stale, env, entries, n);
        JoinedExtends(entries, n);
        Appended(old(trace), Joined(entries), n.steps, []);
        entries, reports := entries + [n], reports + [r];
        if r == SettledReport {
          settled := settled + 1;
        }
      }
    }
  }

  lemma Appended(a: seq<Label>, b: seq<Label>, c: seq<Label>, d: seq<Label>)
    ensures a + b + c + d == a + (b + c + d) && a + (b + c) == a + b + c && a + (b + c) + d == a + (b + c + d)
    ensures b + c + [] == b + c
  {
    assert a + b + c + d == a + (b + c + d);
    assert a + (b + c) == a + b + c;
  }

  lemma RunThen(w: World, ls: seq<Label>, l: Label, m: World)
    requires WorldInv(w) && m == Run(w, ls)
    ensures Run(w, ls + [l]) == Step(m, l)
  {
    RunConcat(w, ls, [l]);
    RunOne(m, l);
  }

  /** The world after more steps of the same run. */
  lemma Continued(start: World, past: seq<Label>, steps: seq<Label>, before: World)
    requires WorldInv(start) && before == Run(start, past)
    ensures Run(start, past + steps) == Run(before, steps)
  {
    RunConcat(start, past, steps);
  }

  lemma Sent(w: World, e: nat)
    requires WorldInv(w) && e in w.execs && w.execs[e].phase == Prepared
    ensures e in Step(w, Send(e)).execs && Step(w, Send(e)).execs[e] == w.execs[e].(phase := Waiting)
  {
    assert ExecInv(w, e);
  }

  lemma Heard(w: World, e: nat, lost: bool)
    requires WorldInv(w) && e in w.execs && w.execs[e].phase == Waiting
    ensures e in w.requests && Step(w, ReplyLabel(w, e, lost)) == SetPhase(w, e, Answer(w.requests[e].verdict, lost))
  {
    assert ExecInv(w, e);
  }

  /**
   * A settlement that ends the execution settled its record, as every committed one of a pending record does; otherwise
   * it left an error to record.
   */
  lemma SettleConfirmed(w: World, e: nat, outcome: Outcome)
    requires WorldInv(w) && e in w.execs && w.execs[e].phase == Confirmed
    ensures Applied(w, e, outcome, Step(w, Apply(e, outcome)))
  {
    if HasStatus(w.book, w.execs[e].pay, RefundPending) {
      PendingSettlement(w, e, outcome);
    } else {
      OtherSettlement(w, e, outcome);
    }
  }

  lemma OtherSettlement(w: World, e: nat, outcome: Outcome)
    requires Aligned(w) && e in w.execs && w.execs[e].phase == Confirmed
    requires !HasStatus(w.book, w.execs[e].pay, RefundPending)
    ensures Applied(w, e, outcome, Step(w, Apply(e, outcome)))
  {
    if SettleRefund(w.book, w.execs[e].pay).Some? { SettleShape(w.book, w.execs[e].pay); }
  }

  ghost predicate Applied(w: World, e: nat, outcome: Outcome, v: World)
    requires e in w.execs
  {
    var i := w.execs[e].pay;
    && (if e in v.execs then v.execs[e] == w.execs[e].(phase := Errored(false))
        else outcome == Committed && HasStatus(v.book, i, RefundSuccess))
    && (HasStatus(w.book, i, RefundPending) ==>
          (e !in v.execs <==> outcome == Committed)
            && HasStatus(v.book, i, if outcome == RolledBack then RefundPending else RefundSuccess))
  }
}
