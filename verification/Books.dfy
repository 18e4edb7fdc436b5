/**
The durable tables of the store, one map or sequence per table, and what one settlement does to them.

`Route` decides which of the outcomes a settlement has; `AfterCapture` is the database after it. Both are the
specification the imperative `Capture.Store` is proved against.
*/
module Books {
  import opened Wrappers

  /** One settled payment as the backend reports it. */
  datatype Settlement = Settlement(externalId: string, amountSat: nat, receivedMsat: nat, settledAt: int)

  datatype InvoiceStatus = Open | Paid | Expired

  /** `NoKind` stands for a NULL or unrecognised class. */
  datatype InvoiceKind = OrderKind | RenewalKind | NoKind

  datatype Invoice = Invoice(
    kind: InvoiceKind, subId: Option<string>, amountSat: Option<int>, status: InvoiceStatus,
    expiresAt: Option<int>, receivedMsat: Option<int>, settledAt: Option<int>, appliedAt: Option<int>)

  datatype SubState =
    | Pending | Provisioning | Active | Suspended | Resuming | SubExpired | Terminated | RefundDue | Refunded

  datatype Sub = Sub(
    state: SubState, periodS: Option<int>, renewLeadS: Option<int>, retentionS: Option<int>,
    paidThrough: Option<int>, suspendNotBefore: Option<int>, refundDest: Option<string>,
    softDate: Option<int>, nextDeadline: Option<int>, updatedAt: int)

  datatype RefundStatus = RPending | RSent | RFailed

  /** A `refund_attempt` row; the table is keyed by the external id inside its UNIQUE `refund:<external_id>` key. */
  datatype RefundRow = RefundRow(
    subId: Option<string>, dest: Option<string>, amountSat: Option<int>, status: RefundStatus,
    attempts: nat, gen: nat, fencedAt: Option<int>, createdAt: int, updatedAt: int)

  /** A `sweep_attempt` row: an operator payout with its outlay ceiling. */
  datatype SweepRow = SweepRow(status: RefundStatus, maxOutlayMsat: nat, fencedAt: Option<int>)

  /** The two tables of outgoing attempts. */
  datatype AttemptTable = RefundAttempt | SweepAttempt

  datatype LogKind =
    | SettleUnmatchedRefund | SettleTerminalRefund | SettleOrphanRefund | SettleExpiredRefund
    | CaptureOrder | RenewExtend | RenewResume
    | RefundSent | RefundFailed | RefundRetried
    | RefundRetryRequested | MigrationFenceCleared | AdminSuspend | AdminResume

  /** The journal's `detail_json`; `LegacyDetail` is a settle entry an older build wrote, any field missing. */
  datatype Detail =
    | SettleDetail(ext: string, amountSat: nat, receivedMsat: nat, settledAt: int)
    | ResumeDetail(ext: string, creditSat: nat, invoiceAmountSat: nat, receivedMsat: nat, settledAt: int,
                   previousPaidThrough: Option<int>, previousSuspendNotBefore: Option<int>)
    | LegacyDetail(legacyExt: Option<string>, legacyAmountSat: Option<int>, legacyReceivedMsat: Option<int>)
    | RefundDetail(refund: string)
    | ExtDetail(externalId: string)
    | FenceDetail(attempt: string, table: AttemptTable, note: string)
    | StateDetail(to: SubState)

  datatype LogRow = LogRow(subId: Option<string>, kind: LogKind, detail: Detail, at: int)

  /** What the buyer's stable-id `billing.refund` message says. */
  datatype RefundDm = DmSent | DmFailed

  datatype Db = Db(
    invoices: map<string, Invoice>, subs: map<string, Sub>, refunds: map<string, RefundRow>,
    sweeps: map<string, SweepRow>, log: seq<LogRow>, outbox: map<string, RefundDm>)

  datatype Outcome = NoOp | Captured | Renewed | Resumed | RefundIsDue

  /** Which arm of the capture a settlement takes. */
  datatype Route =
    | Replay
    | Refund(kind: LogKind, subId: Option<string>, dest: Option<string>)
    | StartOrder(sub: string)
    | Extend(sub: string)

  predicate IsSettleRefund(kind: LogKind) {
    kind.SettleUnmatchedRefund? || kind.SettleTerminalRefund? || kind.SettleOrphanRefund? || kind.SettleExpiredRefund?
  }

  predicate IsGrant(kind: LogKind) {
    kind.CaptureOrder? || kind.RenewExtend? || kind.RenewResume?
  }

  function Max(a: int, b: int): int { if a < b then b else a }

  /** The first instant at which a renewal is too late, or None for a subscription that was never paid. */
  function RetentionEnd(sub: Sub): Option<int> {
    match sub.paidThrough
    case None => None
    case Some(pt) => Some(Max(pt, sub.suspendNotBefore.GetOr(pt)) + sub.retentionS.GetOr(0))
  }

  predicate AtOrAfter(t: int, limit: Option<int>) { limit.Some? && limit.value <= t }

  function DestOf(subs: map<string, Sub>, subId: Option<string>): Option<string> {
    if subId.Some? && subId.value in subs then subs[subId.value].refundDest else None
  }

  /** The subscription a renewal leaves behind. */
  function Renewal(sub: Sub, settledAt: int, now: int): Sub {
    var paidThrough := Max(sub.paidThrough.GetOr(settledAt), settledAt) + sub.periodS.GetOr(0);
    var soft := paidThrough - sub.renewLeadS.GetOr(0);
    sub.(state := if sub.state == Active then Active else Resuming, paidThrough := Some(paidThrough),
         softDate := Some(soft), nextDeadline := Some(soft), suspendNotBefore := None, updatedAt := now)
  }

  /** Where a settlement of an open invoice goes: by the invoice's class, then the subscription's state and clock. */
  function RoutePaid(subs: map<string, Sub>, inv: Invoice, s: Settlement): (r: Route)
    ensures r.Refund? ==> IsSettleRefund(r.kind)
  {
    if inv.subId.None? || inv.subId.value !in subs then Refund(SettleOrphanRefund, inv.subId, None)
    else
      var sub := subs[inv.subId.value];
      if inv.kind.OrderKind? && sub.state.Pending? then
        if AtOrAfter(s.settledAt, inv.expiresAt) then Refund(SettleExpiredRefund, inv.subId, sub.refundDest)
        else StartOrder(inv.subId.value)
      else if inv.kind.RenewalKind? && (sub.state.Active? || sub.state.Suspended? || sub.state.Resuming?)
              && !AtOrAfter(s.settledAt, RetentionEnd(sub)) then Extend(inv.subId.value)
      else Refund(SettleTerminalRefund, inv.subId, sub.refundDest)
  }

  function RouteOf(db: Db, s: Settlement): (r: Route)
    ensures r.Refund? ==> IsSettleRefund(r.kind)
  {
    if s.externalId !in db.invoices then Refund(SettleUnmatchedRefund, None, None)
    else
      var inv := db.invoices[s.externalId];
      match inv.status
      case Paid => Replay
      case Open => RoutePaid(db.subs, inv, s)
      case Expired => Refund(SettleTerminalRefund, inv.subId, DestOf(db.subs, inv.subId))
  }

  /** The invoice after the settlement: an open one is applied, an expired one is only stamped once. */
  function Stamped(inv: Invoice, s: Settlement): Invoice {
    match inv.status
    case Paid => inv
    case Open => inv.(status := Paid, settledAt := Some(s.settledAt), appliedAt := Some(s.settledAt),
                      receivedMsat := Some(s.receivedMsat))
    case Expired =>
      if inv.settledAt.Some? then inv
      else inv.(settledAt := Some(s.settledAt), receivedMsat := Some(inv.receivedMsat.GetOr(s.receivedMsat)))
  }

  function FreshRefund(subId: Option<string>, dest: Option<string>, amountSat: Option<int>, now: int): RefundRow {
    RefundRow(subId, dest, amountSat, RPending, 0, 0, None, now, now)
  }

  function SettleRow(subId: Option<string>, kind: LogKind, s: Settlement, now: int): LogRow {
    LogRow(subId, kind, SettleDetail(s.externalId, s.amountSat, s.receivedMsat, s.settledAt), now)
  }

  function ResumeRow(id: string, before: Sub, s: Settlement, now: int): LogRow {
    LogRow(Some(id), RenewResume,
           ResumeDetail(s.externalId, s.receivedMsat / 1000, s.amountSat, s.receivedMsat, s.settledAt,
                        before.paidThrough, before.suspendNotBefore), now)
  }

  /** An open invoice always leaves a journal row; the other arms only when they changed something. */
  predicate Journals(db: Db, s: Settlement) {
    var e := s.externalId;
    e !in db.refunds ||
    (e in db.invoices && (db.invoices[e].status.Open? || (db.invoices[e].status.Expired? && db.invoices[e].settledAt.None?)))
  }

  function InvoicesAfter(db: Db, s: Settlement): map<string, Invoice> {
    if s.externalId in db.invoices && !db.invoices[s.externalId].status.Paid?
    then db.invoices[s.externalId := Stamped(db.invoices[s.externalId], s)] else db.invoices
  }

  function SubsAfter(db: Db, s: Settlement, now: int): map<string, Sub> {
    match RouteOf(db, s)
    case StartOrder(id) => db.subs[id := db.subs[id].(state := Provisioning, nextDeadline := None, updatedAt := now)]
    case Extend(id) => db.subs[id := Renewal(db.subs[id], s.settledAt, now)]
    case _ => db.subs
  }

  function RefundsAfter(db: Db, s: Settlement, now: int): map<string, RefundRow> {
    var r := RouteOf(db, s);
    if r.Refund? && s.externalId !in db.refunds
    then db.refunds[s.externalId := FreshRefund(r.subId, r.dest, Some(s.receivedMsat / 1000), now)] else db.refunds
  }

  /** The journal rows the capture appends: none or one. */
  function RowsOf(db: Db, s: Settlement, now: int): (rows: seq<LogRow>)
    ensures |rows| <= 1
  {
    match RouteOf(db, s)
    case Replay => []
    case Refund(kind, subId, _) => if Journals(db, s) then [SettleRow(subId, kind, s, now)] else []
    case StartOrder(id) => [SettleRow(Some(id), CaptureOrder, s, now)]
    case Extend(id) =>
      [if db.subs[id].state.Active? then SettleRow(Some(id), RenewExtend, s, now) else ResumeRow(id, db.subs[id], s, now)]
  }

  /** The database after the settlement `s` is captured at `now`. */
  function AfterCapture(db: Db, s: Settlement, now: int): Db {
    Db(InvoicesAfter(db, s), SubsAfter(db, s, now), RefundsAfter(db, s, now), db.sweeps, db.log + RowsOf(db, s, now), db.outbox)
  }

  /** What the caller is told. */
  function Verdict(db: Db, s: Settlement): Outcome {
    match RouteOf(db, s)
    case Replay => NoOp
    case Refund(_, _, _) => RefundIsDue
    case StartOrder(_) => Captured
    case Extend(id) => if db.subs[id].state.Active? then Renewed else Resumed
  }
}
