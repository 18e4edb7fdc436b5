/**
Settlement capture and the operator's actuators, statement by statement over the mutable tables.

Each public method is one store transaction: it leaves exactly the database its specification names.
*/
module Capture {
  import opened Wrappers
  import opened Text
  import opened Books
  import opened Operator

  class Store {
    var invoices: map<string, Invoice>
    var subs: map<string, Sub>
    var refunds: map<string, RefundRow>
    var sweeps: map<string, SweepRow>
    var log: seq<LogRow>
    var outbox: map<string, RefundDm>

    function View(): Db
      reads this
    {
      Db(invoices, subs, refunds, sweeps, log, outbox)
    }

    constructor (db: Db)
      ensures View() == db
    {
      invoices, subs, refunds, sweeps, log, outbox := db.invoices, db.subs, db.refunds, db.sweeps, db.log, db.outbox;
    }

    /** INSERT ... ON CONFLICT(idempotency_key) DO NOTHING; tells whether a row was written. */
    method InsertRefundAttempt(subId: Option<string>, dest: Option<string>, ext: string,
                               amountSat: Option<int>, now: int) returns (inserted: bool)
      modifies this`refunds
      ensures inserted == (ext !in old(refunds))
      ensures refunds == if inserted then old(refunds)[ext := FreshRefund(subId, dest, amountSat, now)] else old(refunds)
    {
      if ext in refunds {
        return false;
      }
      refunds := refunds[ext := RefundRow(subId, dest, amountSat, RPending, 0, 0, None, now, now)];
      inserted := true;
    }

    /** The refund intent of a settlement: only whole sats of the actual wallet credit. */
    method RefundIntent(subId: Option<string>, dest: Option<string>, s: Settlement, now: int) returns (inserted: bool)
      modifies this`refunds
      ensures inserted == (s.externalId !in old(refunds))
      ensures refunds == if inserted
                         then old(refunds)[s.externalId := FreshRefund(subId, dest, Some(s.receivedMsat / 1000), now)]
                         else old(refunds)
    {
      var refundableSat := s.receivedMsat / 1000;
      inserted := InsertRefundAttempt(subId, dest, s.externalId, Some(refundableSat), now);
    }

    method Journal(subId: Option<string>, kind: LogKind, s: Settlement, now: int)
      modifies this`log
      ensures log == old(log) + [SettleRow(subId, kind, s, now)]
    {
      log := log + [LogRow(subId, kind, SettleDetail(s.externalId, s.amountSat, s.receivedMsat, s.settledAt), now)];
    }

    /** Refund an already-applied invoice: the intent, then an unconditional journal row. */
    method RefundPaid(subId: Option<string>, dest: Option<string>, kind: LogKind, s: Settlement, now: int)
      modifies this`refunds, this`log
      ensures refunds == if s.externalId in old(refunds) then old(refunds)
                         else old(refunds)[s.externalId := FreshRefund(subId, dest, Some(s.receivedMsat / 1000), now)]
      ensures log == old(log) + [SettleRow(subId, kind, s, now)]
    {
      var _ := RefundIntent(subId, dest, s, now);
      Journal(subId, kind, s, now);
    }

    /** One settlement, one transaction: the invoice status decides first, then the invoice's class. */
    method CaptureTxn(s: Settlement, now: int) returns (c: Outcome)
      modifies this
      ensures View() == AfterCapture(old(View()), s, now)
      ensures c == Verdict(old(View()), s)
    {
      if s.externalId !in invoices {
        var inserted := RefundIntent(None, None, s, now);
        if inserted {
          Journal(None, SettleUnmatchedRefund, s, now);
        }
        return RefundIsDue;
      }
      var inv := invoices[s.externalId];
      match inv.status {
        case Paid =>
          return NoOp;
        case Open =>
          invoices := invoices[s.externalId := inv.(status := Paid, settledAt := Some(s.settledAt),
                                                    appliedAt := Some(s.settledAt), receivedMsat := Some(s.receivedMsat))];
          c := ApplyPaid(inv, s, now);
        case Expired =>
          var stamped := inv.settledAt.None?;
          if stamped {
            var received := if inv.receivedMsat.Some? then inv.receivedMsat else Some(s.receivedMsat);
            invoices := invoices[s.externalId := inv.(settledAt := Some(s.settledAt), receivedMsat := received)];
          } else {
            assert invoices == invoices[s.externalId := inv];
          }
          var dest := if inv.subId.Some? && inv.subId.value in subs then subs[inv.subId.value].refundDest else None;
          var refunded := RefundIntent(inv.subId, dest, s, now);
          if stamped || refunded {
            Journal(inv.subId, SettleTerminalRefund, s, now);
          }
          return RefundIsDue;
      }
    }

    /** The invoice has just flipped to PAID: route the subscription. */
    method ApplyPaid(inv: Invoice, s: Settlement, now: int) returns (c: Outcome)
      requires s.externalId in invoices && inv.status == Open && invoices[s.externalId] == Stamped(inv, s)
      modifies this`subs, this`refunds, this`log
      ensures View() == AfterCapture(old(View()).(invoices := old(invoices)[s.externalId := inv]), s, now)
      ensures c == Verdict(old(View()).(invoices := old(invoices)[s.externalId := inv]), s)
    {
      assert invoices == invoices[s.externalId := inv][s.externalId := Stamped(inv, s)];
      if inv.subId.None? {
        RefundPaid(None, None, SettleOrphanRefund, s, now);
        return RefundIsDue;
      }
      var id := inv.subId.value;
      if id !in subs {
        RefundPaid(Some(id), None, SettleOrphanRefund, s, now);
        return RefundIsDue;
      }
      var sub := subs[id];
      if inv.kind.OrderKind? && sub.state.Pending? {
        if inv.expiresAt.Some? && s.settledAt >= inv.expiresAt.value {
          RefundPaid(Some(id), sub.refundDest, SettleExpiredRefund, s, now);
          return RefundIsDue;
        }
        subs := subs[id := sub.(state := Provisioning, nextDeadline := None, updatedAt := now)];
        Journal(Some(id), CaptureOrder, s, now);
        return Captured;
      }
      if inv.kind.RenewalKind? && (sub.state.Active? || sub.state.Suspended? || sub.state.Resuming?) {
        if sub.paidThrough.Some? {
          var pt := sub.paidThrough.value;
          var effectiveSuspendAt := Max(pt, sub.suspendNotBefore.GetOr(pt));
          if s.settledAt >= effectiveSuspendAt + sub.retentionS.GetOr(0) {
            RefundPaid(Some(id), sub.refundDest, SettleTerminalRefund, s, now);
            return RefundIsDue;
          }
        }
        var paidThrough := Max(sub.paidThrough.GetOr(s.settledAt), s.settledAt) + sub.periodS.GetOr(0);
        var soft := paidThrough - sub.renewLeadS.GetOr(0);
        var resumed := !sub.state.Active?;
        subs := subs[id := sub.(state := if resumed then Resuming else Active, paidThrough := Some(paidThrough),
                                softDate := Some(soft), nextDeadline := Some(soft), suspendNotBefore := None,
                                updatedAt := now)];
        if resumed {
          log := log + [ResumeRow(id, sub, s, now)];
        } else {
          Journal(Some(id), RenewExtend, s, now);
        }
        return if resumed then Resumed else Renewed;
      }
      RefundPaid(Some(id), sub.refundDest, SettleTerminalRefund, s, now);
      return RefundIsDue;
    }

    /** `refund-retry`: re-drive one parked refund. */
    method RefundRetry(ext: string, now: int) returns (r: RetryReply)
      modifies this
      ensures View() == AfterRetry(old(View()), ext, now)
      ensures r == RetryVerdict(old(View()), ext)
    {
      if ext !in refunds {
        return NotParked;
      }
      var row := refunds[ext];
      // The fence answers first, whatever the status says.
      if row.fencedAt.Some? {
        return Fenced;
      }
      if row.status != RFailed {
        return NotParked;
      }
      refunds := refunds[ext := row.(status := RPending, attempts := 0, updatedAt := now)];
      outbox := outbox - {ext};
      log := log + [LogRow(row.subId, RefundRetryRequested, RefundDetail(ext), now)];
      return Requeued;
    }

    /** `migration clear-fence`: release one stamp, in whichever table holds it, refunds first. */
    method MigrationClearFence(id: string, note: string, now: int) returns (r: ClearReply)
      modifies this
      ensures View() == AfterClearFence(old(View()), id, note, now)
      ensures r == ClearVerdict(old(View()), id, note)
    {
      if Blank(note) {
        return NoteRequired;
      }
      if id in refunds && refunds[id].fencedAt.Some? {
        refunds := refunds[id := refunds[id].(fencedAt := None)];
        log := log + [LogRow(None, MigrationFenceCleared, FenceDetail(id, RefundAttempt, Trim(note)), now)];
        return Cleared(refunds[id].status);
      }
      if id in sweeps && sweeps[id].fencedAt.Some? {
        sweeps := sweeps[id := sweeps[id].(fencedAt := None)];
        log := log + [LogRow(None, MigrationFenceCleared, FenceDetail(id, SweepAttempt, Trim(note)), now)];
        return Cleared(sweeps[id].status);
      }
      return NothingFenced;
    }

    /** `admin suspend` / `admin resume`: compare-and-swap the subscription's state. */
    method AdminTransition(id: string, from: set<SubState>, to: SubState, kind: LogKind, now: int) returns (moved: bool)
      modifies this
      ensures View() == AfterAdmin(old(View()), id, from, to, kind, now)
      ensures moved == AdminMoves(old(View()), id, from)
    {
      if id !in subs {
        return false;
      }
      var sub := subs[id];
      if sub.state !in from {
        return false;
      }
      subs := subs[id := sub.(state := to, updatedAt := now)];
      log := log + [LogRow(Some(id), kind, StateDetail(to), now)];
      moved := true;
    }
  }
}
