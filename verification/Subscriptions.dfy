/**
What captures and operator steps make of subscriptions, invoices and refund rows, said field by field and over runs
without the functions that compute them.
*/
module Subscriptions {
  import opened Wrappers
  import opened Books
  import opened Operator
  import opened Ledger
  import opened Delivery

  // ----- orders

  /** How many journal rows say that an order of `id` was captured. */
  function Captures(log: seq<LogRow>, id: string): nat {
    if log == [] then 0
    else Captures(log[..|log| - 1], id) + if log[|log| - 1].kind == CaptureOrder && log[|log| - 1].subId == Some(id) then 1 else 0
  }

  /** After `n` captured orders: as it was, or being provisioned with no deadline and otherwise as it was. */
  predicate Ordered(before: Sub, now: Sub, n: nat) {
    if n == 0 then now == before
    else n == 1 && now.state == Provisioning && now.nextDeadline == None
         && now == before.(state := Provisioning, nextDeadline := None, updatedAt := now.updatedAt)
  }

  lemma CapturesAppended(log: seq<LogRow>, row: LogRow, id: string)
    ensures Captures(log + [row], id) == Captures(log, id) + if row.kind == CaptureOrder && row.subId == Some(id) then 1 else 0
  {
    assert (log + [row])[..|log|] == log;
  }

  /** A capture journals an order of `id` exactly when it starts it. */
  lemma CaptureCounts(db: Db, s: Settlement, now: int, id: string)
    ensures Captures(AfterCapture(db, s, now).log, id) == Captures(db.log, id) + if RouteOf(db, s) == StartOrder(id) then 1 else 0
  {
    hide RouteOf, Journals, Captures;
    var rows := RowsOf(db, s, now);
    if rows == [] {
      assert db.log + rows == db.log;
    } else {
      assert rows == [rows[0]];
      CapturesAppended(db.log, rows[0], id);
    }
  }

  lemma CaptureOrders(before: Sub, db: Db, s: Settlement, now: int, id: string)
    requires before.state == Pending && id in db.subs && Ordered(before, db.subs[id], Captures(db.log, id))
    ensures var end := AfterCapture(db, s, now); id in end.subs && Ordered(before, end.subs[id], Captures(end.log, id))
  {
    CaptureCounts(db, s, now, id);
    hide RowsOf, Captures;
  }

  lemma AdminOrders(before: Sub, db: Db, move: Event, id: string)
    requires move.Admin?
    requires before.state == Pending && id in db.subs && Ordered(before, db.subs[id], Captures(db.log, id))
    ensures var end := Apply(db, move); id in end.subs && Ordered(before, end.subs[id], Captures(end.log, id))
  {
    var to, kind := if move.suspend then Suspended else Active, if move.suspend then AdminSuspend else AdminResume;
    CapturesAppended(db.log, LogRow(Some(move.id), kind, StateDetail(to), move.at), id);
    hide Captures;
  }

  /**
  Over any run a subscription that starts PENDING is captured at most once, and is still exactly as it was if not;
  once captured it is PROVISIONING without a deadline.
  */
  lemma {:induction false} OrderedAtMostOnce(db: Db, evs: seq<Event>, id: string)
    requires id in db.subs && db.subs[id].state == Pending && Captures(db.log, id) == 0
    ensures var end := Run(db, evs); id in end.subs && Ordered(db.subs[id], end.subs[id], Captures(end.log, id))
  {
    if evs != [] {
      var n := |evs| - 1;
      OrderedAtMostOnce(db, evs[..n], id);
      var mid := Run(db, evs[..n]);
      hide Ordered, Captures, AfterCapture, AfterAdmin;
      match evs[n]
      case Deliver(s, now) => CaptureOrders(db.subs[id], mid, s, now, id);
      case ExpireInvoice(_) =>
      case Admin(_, _, _) => AdminOrders(db.subs[id], mid, evs[n], id);
    }
  }

  /** An order in time is what gets captured: the count goes up exactly then, for the invoice's own subscription. */
  lemma OrderInTimeIsCaptured(db: Db, s: Settlement, now: int, id: string)
    ensures Captures(AfterCapture(db, s, now).log, id) == Captures(db.log, id) + 1 <==>
              s.externalId in db.invoices && db.invoices[s.externalId].status == Open
              && db.invoices[s.externalId].subId == Some(id) && id in db.subs
              && OrderInTime(db.invoices[s.externalId], db.subs[id], s)
  {
    CaptureCounts(db, s, now, id);
    hide RowsOf, Captures;
  }

  // ----- renewals

  /** A renewal in time: the new end, what hangs on it, and what the journal keeps of the old one. */
  lemma RenewalMeans(db: Db, s: Settlement, now: int, id: string)
    requires s.externalId in db.invoices && db.invoices[s.externalId].status == Open
    requires db.invoices[s.externalId].subId == Some(id) && id in db.subs
    requires RenewalInTime(db.invoices[s.externalId], db.subs[id], s)
    ensures var sub, end := db.subs[id], AfterCapture(db, s, now);
            id in end.subs && var sub' := end.subs[id];
            && sub' == sub.(state := sub'.state, paidThrough := sub'.paidThrough, softDate := sub'.softDate,
                            nextDeadline := sub'.nextDeadline, suspendNotBefore := None, updatedAt := now)
            && sub'.state == (if sub.state == Active then Active else Resuming)
            && sub'.paidThrough.Some?
            && sub'.paidThrough.value - sub.periodS.GetOr(0)
               == (if sub.paidThrough.Some? && s.settledAt < sub.paidThrough.value then sub.paidThrough.value else s.settledAt)
            && sub'.softDate == sub'.nextDeadline == Some(sub'.paidThrough.value - sub.renewLeadS.GetOr(0))
    ensures var sub, end := db.subs[id], AfterCapture(db, s, now);
            |end.log| == |db.log| + 1 && db.log <= end.log && var row := end.log[|db.log|];
            && row.subId == Some(id) && row.at == now
            && row.kind == (if sub.state == Active then RenewExtend else RenewResume)
            && row.detail == if sub.state == Active then SettleDetail(s.externalId, s.amountSat, s.receivedMsat, s.settledAt)
                             else ResumeDetail(s.externalId, s.receivedMsat / 1000, s.amountSat, s.receivedMsat, s.settledAt,
                                               sub.paidThrough, sub.suspendNotBefore)
  {
    assert RouteOf(db, s) == Extend(id);
  }

  /** A settlement moves no subscription but the one its invoice is for, and makes or removes none. */
  lemma OthersUnmoved(db: Db, s: Settlement, now: int, id: string)
    requires s.externalId in db.invoices ==> db.invoices[s.externalId].subId != Some(id)
    ensures var end := AfterCapture(db, s, now);
            (id in end.subs <==> id in db.subs) && (id in db.subs ==> end.subs[id] == db.subs[id])
  {
    hide RowsOf;
  }

  // ----- refunds, stamps and verdicts

  /** Why money is owed back, to whom it goes, and what the journal says of it. */
  lemma RefundedWhy(db: Db, s: Settlement, now: int)
    requires Untouched(db, s.externalId) && !GivesService(RouteOf(db, s))
    ensures var e, end := s.externalId, AfterCapture(db, s, now);
            var inv := if e in db.invoices then Some(db.invoices[e]) else None;
            var subId := if inv.Some? then inv.value.subId else None;
            var sub := if subId.Some? && subId.value in db.subs then Some(db.subs[subId.value]) else None;
            && e in end.refunds
            && end.refunds[e] == RefundRow(subId, if sub.Some? then sub.value.refundDest else None, Some(s.receivedMsat / 1000),
                                           RPending, 0, 0, None, now, now)
            && |end.log| == |db.log| + 1 && db.log <= end.log && end.log[|db.log|].subId == subId && end.log[|db.log|].at == now
            && end.log[|db.log|].detail == SettleDetail(e, s.amountSat, s.receivedMsat, s.settledAt)
            && end.log[|db.log|].kind ==
                 if inv.None? then SettleUnmatchedRefund
                 else if inv.value.status == Expired then SettleTerminalRefund
                 else if sub.None? then SettleOrphanRefund
                 else if inv.value.kind == OrderKind && sub.value.state == Pending then SettleExpiredRefund
                 else SettleTerminalRefund
  {
    hide Grants, Liabilities, ClassB;
  }

  /** The first settlement stamps its invoice: an open one is paid and applied then, an expired one only settled. */
  lemma StampedOnce(db: Db, s: Settlement, now: int)
    requires Untouched(db, s.externalId) && s.externalId in db.invoices
    ensures var e, end := s.externalId, AfterCapture(db, s, now);
            var was := db.invoices[e];
            && end.invoices.Keys == db.invoices.Keys
            && end.invoices[e] == was.(status := end.invoices[e].status, settledAt := Some(s.settledAt),
                                       receivedMsat := Some(s.receivedMsat), appliedAt := end.invoices[e].appliedAt)
            && (was.status == Open ==> end.invoices[e].status == Paid && end.invoices[e].appliedAt == Some(s.settledAt))
            && (was.status == Expired ==> end.invoices[e].status == Expired && end.invoices[e].appliedAt == was.appliedAt)
  {
    hide Grants, Liabilities, ClassB, RowsOf;
  }

  /** A payment of an expired invoice, first or repeated: it is stamped once, keeping a credit already recorded. */
  lemma ExpiredStamp(db: Db, s: Settlement, now: int)
    requires s.externalId in db.invoices && db.invoices[s.externalId].status == Expired
    ensures var was, inv := db.invoices[s.externalId], AfterCapture(db, s, now).invoices[s.externalId];
            && inv == was.(settledAt := inv.settledAt, receivedMsat := inv.receivedMsat)
            && inv.settledAt == (if was.settledAt.Some? then was.settledAt else Some(s.settledAt))
            && inv.receivedMsat == (if was.settledAt.Some? || was.receivedMsat.Some? then was.receivedMsat else Some(s.receivedMsat))
  {
    hide RowsOf, RouteOf, SubsAfter, RefundsAfter;
  }

  /** The journal grows by one row with each settlement that changes anything: an open invoice, a stamp, or a new refund row. */
  lemma JournalGrowsIff(db: Db, s: Settlement, now: int)
    ensures var e, end := s.externalId, AfterCapture(db, s, now);
            && db.log <= end.log
            && |end.log| == |db.log| + if end.refunds != db.refunds || end.invoices != db.invoices then 1 else 0
  {
    if s.externalId in db.invoices { assert db.invoices[s.externalId := db.invoices[s.externalId]] == db.invoices; }
    hide SubsAfter, RoutePaid;
  }

  lemma ExpiredIsNotServed(db: Db, s: Settlement)
    requires s.externalId in db.invoices && db.invoices[s.externalId].status != Paid
    ensures var mid := AfterExpire(db, s.externalId); mid.subs == db.subs && !GivesService(RouteOf(mid, s))
  {
  }

  lemma TwoEvents(db: Db, a: Event, b: Event)
    ensures Run(db, [a, b]) == Apply(Apply(db, a), b)
  {
    hide Apply;
    assert [a, b][..1] == [a] && [a][..0] == [];
    assert Run(db, [a]) == Apply(Run(db, []), a);
  }

  /** An invoice that expired first is never served, however early its payment: it is owed back. */
  lemma ExpiredIsOwedBack(db: Db, s: Settlement, now: int)
    requires Untouched(db, s.externalId) && s.externalId in db.invoices
    ensures var end := Run(db, [ExpireInvoice(s.externalId), Deliver(s, now)]);
            OwedBack(end, s.externalId, s.receivedMsat) && end.subs == db.subs
  {
    hide OwedBack, AfterCapture, AfterExpire, RouteOf, Run, Grants, Liabilities, ClassB;
    TwoEvents(db, ExpireInvoice(s.externalId), Deliver(s, now));
    ExpiredIsNotServed(db, s);
    ExpiryKeepsFates(db, s.externalId, s.externalId, 0);
    FirstCaptureDecides(AfterExpire(db, s.externalId), s, now);
  }

  /** Expiry closes the one open invoice it names and changes nothing else. */
  lemma ExpiryMeans(db: Db, e: string)
    ensures var end := AfterExpire(db, e);
            && end == db.(invoices := end.invoices) && end.invoices.Keys == db.invoices.Keys
            && forall f :: f in db.invoices ==>
                 end.invoices[f] == if f == e && db.invoices[f].status == Open then db.invoices[f].(status := Expired) else db.invoices[f]
  {
  }

  /** What the caller is told is what the journal and the invoice show. */
  lemma VerdictMeans(db: Db, s: Settlement, now: int)
    ensures var verdict, end := Verdict(db, s), AfterCapture(db, s, now);
            && (verdict == NoOp <==> s.externalId in db.invoices && db.invoices[s.externalId].status == Paid)
            && (verdict in {NoOp, RefundIsDue} ==> end.subs == db.subs)
            && (verdict in {Captured, Renewed, Resumed} ==> end.log != db.log && var kind := end.log[|end.log| - 1].kind;
                  && (verdict == Captured <==> kind == CaptureOrder) && (verdict == Renewed <==> kind == RenewExtend)
                  && (verdict == Resumed <==> kind == RenewResume))
            && (verdict == RefundIsDue ==> s.externalId in end.refunds)
  {
  }

  // ----- the operator

  /** Suspending an active subscription and resuming it changes no more than its time of update, and journals both. */
  lemma SuspendThenResume(db: Db, id: string, t: int, u: int)
    requires id in db.subs
    ensures var mid := Apply(db, Admin(id, true, t)); var end := Apply(mid, Admin(id, false, u));
            if db.subs[id].state == Active then
              && mid == db.(subs := db.subs[id := db.subs[id].(state := Suspended, updatedAt := t)],
                            log := db.log + [LogRow(Some(id), AdminSuspend, StateDetail(Suspended), t)])
              && end == db.(subs := db.subs[id := db.subs[id].(updatedAt := u)],
                            log := mid.log + [LogRow(Some(id), AdminResume, StateDetail(Active), u)])
            else mid == db && (db.subs[id].state != Suspended ==> end == db)
  {
    var mid := Apply(db, Admin(id, true, t));
    var end := Apply(mid, Admin(id, false, u));
    if db.subs[id].state == Active {
      assert end.subs[id] == db.subs[id].(updatedAt := u);
      assert end.subs == db.subs[id := db.subs[id].(updatedAt := u)];
    }
  }
}
