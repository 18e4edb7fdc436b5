/**
Redelivered and reordered settlements: every run of deliveries, interleaved with invoice expiry and the
operator's suspend/resume, gives each delivered external id exactly one outcome.
*/
module Delivery {
  import opened Wrappers
  import opened Books
  import opened Operator
  import opened Ledger
  import opened Sums

  datatype Event =
    | Deliver(s: Settlement, now: int)
    | ExpireInvoice(ext: string)
    | Admin(id: string, suspend: bool, at: int)

  /** Reconcile closes an open invoice; any other status stays. */
  function AfterExpire(db: Db, ext: string): Db {
    if ext in db.invoices && db.invoices[ext].status.Open?
    then db.(invoices := db.invoices[ext := db.invoices[ext].(status := Expired)])
    else db
  }

  function Apply(db: Db, ev: Event): Db {
    match ev
    case Deliver(s, now) => AfterCapture(db, s, now)
    case ExpireInvoice(ext) => AfterExpire(db, ext)
    case Admin(id, suspend, at) =>
      if suspend then AfterAdmin(db, id, {Active}, Suspended, AdminSuspend, at)
      else AfterAdmin(db, id, {Suspended}, Active, AdminResume, at)
  }

  function Run(db: Db, evs: seq<Event>): Db {
    if evs == [] then db else Apply(Run(db, evs[..|evs| - 1]), evs[|evs| - 1])
  }

  /** The first credited amount of every external id a run delivers. */
  function FirstCredit(evs: seq<Event>): map<string, nat> {
    if evs == [] then map[]
    else
      var earlier := FirstCredit(evs[..|evs| - 1]);
      match evs[|evs| - 1]
      case Deliver(s, _) => if s.externalId in earlier then earlier else earlier[s.externalId := s.receivedMsat]
      case _ => earlier
  }

  /** The run without its redeliveries, whatever their payloads say. */
  function Firsts(evs: seq<Event>): seq<Event> {
    if evs == [] then []
    else
      var init := evs[..|evs| - 1];
      var last := evs[|evs| - 1];
      if last.Deliver? && last.s.externalId in FirstCredit(init) then Firsts(init) else Firsts(init) + [last]
  }

  // ----- replays

  /** A settlement of `e` has nothing left to do. */
  predicate Handled(db: Db, e: string) {
    if e in db.invoices then
      db.invoices[e].status.Paid? || (db.invoices[e].status.Expired? && db.invoices[e].settledAt.Some? && e in db.refunds)
    else e in db.refunds
  }

  lemma CaptureHandles(db: Db, s: Settlement, now: int)
    ensures Handled(AfterCapture(db, s, now), s.externalId)
    ensures Handled(db, s.externalId) ==> AfterCapture(db, s, now) == db
    ensures forall e :: Handled(db, e) ==> Handled(AfterCapture(db, s, now), e)
  {
    var e := s.externalId;
    if Handled(db, e) && e in db.invoices {
      assert db.invoices[e := db.invoices[e]] == db.invoices;
    }
  }

  lemma OthersStayHandled(db: Db, ev: Event)
    requires !ev.Deliver?
    ensures forall e :: Handled(db, e) ==> Handled(Apply(db, ev), e)
  {
  }

  lemma {:induction false} DeliveredIsHandled(db: Db, evs: seq<Event>)
    ensures forall e :: e in FirstCredit(evs) ==> Handled(Run(db, evs), e)
  {
    hide Handled, AfterCapture, AfterExpire, AfterAdmin;
    if evs != [] {
      var n := |evs| - 1;
      DeliveredIsHandled(db, evs[..n]);
      if evs[n].Deliver? {
        CaptureHandles(Run(db, evs[..n]), evs[n].s, evs[n].now);
      } else {
        OthersStayHandled(Run(db, evs[..n]), evs[n]);
      }
    }
  }

  /** From any database, redeliveries with any payload change nothing: only first occurrences count. */
  lemma {:induction false} ReplaysChangeNothing(db: Db, evs: seq<Event>)
    ensures Run(db, evs) == Run(db, Firsts(evs))
  {
    if evs != [] {
      var n := |evs| - 1;
      ReplaysChangeNothing(db, evs[..n]);
      if evs[n].Deliver? && evs[n].s.externalId in FirstCredit(evs[..n]) {
        DeliveredIsHandled(db, evs[..n]);
        CaptureHandles(Run(db, evs[..n]), evs[n].s, evs[n].now);
      } else {
        var kept := Firsts(evs[..n]);
        assert (kept + [evs[n]])[..|kept|] == kept;
      }
    }
  }

  // ----- exactly one outcome

  /** How many journal rows grant service for `e`. */
  function Grants(log: seq<LogRow>, e: string): nat {
    if log == [] then 0
    else
      var row := log[|log| - 1];
      Grants(log[..|log| - 1], e) + if IsGrant(row.kind) && JsonExt(row.detail) == Some(e) then 1 else 0
  }

  /** How many journal rows record a settled amount that is owed back for `e`. */
  function Liabilities(log: seq<LogRow>, e: string): nat {
    if log == [] then 0
    else Liabilities(log[..|log| - 1], e) + if SettlesFor(log[|log| - 1], e) then 1 else 0
  }

  lemma Appended(log: seq<LogRow>, row: LogRow, e: string)
    ensures Grants(log + [row], e) == Grants(log, e) + if IsGrant(row.kind) && JsonExt(row.detail) == Some(e) then 1 else 0
    ensures Liabilities(log + [row], e) == Liabilities(log, e) + if SettlesFor(row, e) then 1 else 0
    ensures ClassB(log + [row], e) == if SettlesFor(row, e) then MaxOption(ClassB(log, e), JournalCredit(row.detail)) else ClassB(log, e)
  {
    assert (log + [row])[..|log|] == log;
  }

  /** Nothing has been received under `e`. */
  predicate Untouched(db: Db, e: string) {
    && e !in db.refunds
    && Grants(db.log, e) == Liabilities(db.log, e) == 0
    && ClassB(db.log, e) == None
    && (e in db.invoices ==>
          !db.invoices[e].status.Paid? && db.invoices[e].settledAt.None? && db.invoices[e].receivedMsat.None?)
  }

  /** The one grant: an applied invoice, one grant row, nothing owed back. */
  predicate Granted(db: Db, e: string, credit: nat) {
    && e in db.invoices && db.invoices[e].status.Paid? && db.invoices[e].receivedMsat == Some(credit)
    && Grants(db.log, e) == 1 && Liabilities(db.log, e) == 0 && ClassB(db.log, e) == None
    && e !in db.refunds
  }

  /** The one refund: one row capped at the whole sats of the credit, one liability row, no grant. */
  predicate OwedBack(db: Db, e: string, credit: nat) {
    && e in db.refunds && db.refunds[e].amountSat == Some(credit / 1000)
    && Grants(db.log, e) == 0 && Liabilities(db.log, e) == 1 && ClassB(db.log, e) == Some(credit)
    && (e in db.invoices ==>
          !db.invoices[e].status.Open? && db.invoices[e].settledAt.Some? && db.invoices[e].receivedMsat == Some(credit))
  }

  /** A database on which no settlement has been booked yet. */
  ghost predicate Clean(db: Db) { forall e :: Untouched(db, e) }

  predicate GivesService(r: Route) { r.StartOrder? || r.Extend? }

  /** The one row a capture may append names its settlement, and its kind says whether it grants or owes. */
  lemma CaptureRow(db: Db, s: Settlement, now: int)
    ensures var rows, r := RowsOf(db, s, now), RouteOf(db, s);
            && (rows == [] <==> !GivesService(r) && !(r.Refund? && Journals(db, s)))
            && (rows != [] ==>
                  rows == [rows[0]] && JsonExt(rows[0].detail) == Some(s.externalId)
                  && JournalCredit(rows[0].detail) == Some(s.receivedMsat)
                  && (IsGrant(rows[0].kind) <==> GivesService(r)) && (IsSettleRefund(rows[0].kind) <==> r.Refund?))
  {
    hide Journals, RoutePaid;
  }

  /** `limit` is still ahead at `t`; an absent limit always is. Both time gates are inclusive: at the limit is too late. */
  predicate Before(t: int, limit: Option<int>) { limit.None? || t < limit.value }

  predicate OrderInTime(inv: Invoice, sub: Sub, s: Settlement) {
    inv.kind.OrderKind? && sub.state.Pending? && Before(s.settledAt, inv.expiresAt)
  }

  predicate RenewalInTime(inv: Invoice, sub: Sub, s: Settlement) {
    && inv.kind.RenewalKind? && sub.state in {Active, Suspended, Resuming}
    && (sub.paidThrough.None?
        || s.settledAt - sub.retentionS.GetOr(0) < sub.paidThrough.value
        || (sub.suspendNotBefore.Some? && s.settledAt - sub.retentionS.GetOr(0) < sub.suspendNotBefore.value))
  }

  predicate Servable(db: Db, inv: Invoice, s: Settlement) {
    && inv.status.Open? && inv.subId.Some? && inv.subId.value in db.subs
    && (OrderInTime(inv, db.subs[inv.subId.value], s) || RenewalInTime(inv, db.subs[inv.subId.value], s))
  }

  /** Who is served: an open invoice of a known subscription, an order still pending and in time, or a renewal of a live one. */
  lemma ServedExactlyWhen(db: Db, s: Settlement)
    ensures GivesService(RouteOf(db, s)) <==> s.externalId in db.invoices && Servable(db, db.invoices[s.externalId], s)
  {
  }

  /** What a capture adds to the journal figures of `e`: at most one row, and only for the settled id. */
  lemma JournalAfterCapture(db: Db, s: Settlement, now: int, e: string)
    ensures var log, log', own, r := db.log, AfterCapture(db, s, now).log, e == s.externalId, RouteOf(db, s);
            && Grants(log', e) == Grants(log, e) + (if own && GivesService(r) then 1 else 0)
            && Liabilities(log', e) == Liabilities(log, e) + (if own && r.Refund? && Journals(db, s) then 1 else 0)
            && ClassB(log', e) == if own && r.Refund? && Journals(db, s)
                                  then MaxOption(ClassB(log, e), Some(s.receivedMsat)) else ClassB(log, e)
  {
    hide RowsOf, RouteOf, Journals, JsonExt, JournalCredit, Grants, Liabilities, ClassB, MaxOption;
    hide InvoicesAfter, SubsAfter, RefundsAfter;
    var rows := RowsOf(db, s, now);
    CaptureRow(db, s, now);
    if rows == [] {
      assert db.log + rows == db.log;
    } else {
      Appended(db.log, rows[0], e);
    }
  }

  /** The tables after the first capture of an id, with the journal left out. */
  lemma CaptureTables(db: Db, s: Settlement, now: int)
    requires Untouched(db, s.externalId)
    ensures var db', e, r := AfterCapture(db, s, now), s.externalId, RouteOf(db, s);
            && (e in db'.invoices <==> e in db.invoices) && Journals(db, s)
            && (e in db.invoices ==> db'.invoices[e] == Stamped(db.invoices[e], s))
            && (GivesService(r) ==> e in db.invoices && db.invoices[e].status.Open? && e !in db'.refunds)
            && (!GivesService(r) ==> r.Refund? && e in db'.refunds && db'.refunds[e].amountSat == Some(s.receivedMsat / 1000)
                                     && db'.subs == db.subs)
  {
    hide Grants, Liabilities, ClassB, RowsOf;
  }

  lemma FirstGrant(db: Db, s: Settlement, now: int)
    requires Untouched(db, s.externalId) && GivesService(RouteOf(db, s))
    ensures Granted(AfterCapture(db, s, now), s.externalId, s.receivedMsat)
  {
    JournalAfterCapture(db, s, now, s.externalId);
    CaptureTables(db, s, now);
    hide Grants, Liabilities, ClassB, AfterCapture, RouteOf, Journals;
  }

  lemma FirstOwed(db: Db, s: Settlement, now: int)
    requires Untouched(db, s.externalId) && !GivesService(RouteOf(db, s))
    ensures OwedBack(AfterCapture(db, s, now), s.externalId, s.receivedMsat) && AfterCapture(db, s, now).subs == db.subs
  {
    JournalAfterCapture(db, s, now, s.externalId);
    CaptureTables(db, s, now);
    hide Grants, Liabilities, ClassB, AfterCapture, RouteOf, Journals;
  }

  /** The first capture of an id decides its fate: a grant exactly on the two service routes. */
  lemma FirstCaptureDecides(db: Db, s: Settlement, now: int)
    requires Untouched(db, s.externalId)
    ensures var db' := AfterCapture(db, s, now); var e := s.externalId;
            if GivesService(RouteOf(db, s)) then Granted(db', e, s.receivedMsat)
            else OwedBack(db', e, s.receivedMsat) && db'.subs == db.subs
  {
    hide Untouched, Granted, OwedBack, AfterCapture, RouteOf;
    if GivesService(RouteOf(db, s)) { FirstGrant(db, s, now); } else { FirstOwed(db, s, now); }
  }

  /** The invoice, the refund row and the journal figures of `e` are the same in both. */
  predicate SameFate(db: Db, db': Db, e: string) {
    && (e in db'.invoices <==> e in db.invoices) && (e in db.invoices ==> db'.invoices[e] == db.invoices[e])
    && (e in db'.refunds <==> e in db.refunds) && (e in db.refunds ==> db'.refunds[e] == db.refunds[e])
    && Grants(db'.log, e) == Grants(db.log, e) && Liabilities(db'.log, e) == Liabilities(db.log, e)
    && ClassB(db'.log, e) == ClassB(db.log, e)
  }

  lemma FateStays(db: Db, db': Db, e: string, credit: nat)
    requires SameFate(db, db', e)
    ensures Untouched(db, e) ==> Untouched(db', e)
    ensures Granted(db, e, credit) ==> Granted(db', e, credit)
    ensures OwedBack(db, e, credit) ==> OwedBack(db', e, credit)
  {
    hide Grants, Liabilities, ClassB;
  }

  /** A capture leaves every other external id's fate alone. */
  lemma CaptureFrame(db: Db, s: Settlement, now: int, e: string)
    requires e != s.externalId
    ensures SameFate(db, AfterCapture(db, s, now), e)
  {
    JournalAfterCapture(db, s, now, e);
    hide Grants, Liabilities, ClassB, RouteOf, RowsOf, SubsAfter;
  }

  lemma AdminKeepsFates(db: Db, id: string, from: set<SubState>, to: SubState, kind: LogKind, now: int, e: string)
    requires !IsGrant(kind) && !IsSettleRefund(kind)
    ensures SameFate(db, AfterAdmin(db, id, from, to, kind, now), e)
  {
    Appended(db.log, LogRow(Some(id), kind, StateDetail(to), now), e);
  }

  lemma ExpiryKeepsFates(db: Db, ext: string, e: string, credit: nat)
    ensures Untouched(db, e) ==> Untouched(AfterExpire(db, ext), e)
    ensures Granted(db, e, credit) ==> Granted(AfterExpire(db, ext), e, credit)
    ensures OwedBack(db, e, credit) ==> OwedBack(AfterExpire(db, ext), e, credit)
  {
    hide Grants, Liabilities, ClassB;
  }

  /** Any event but a delivery of `e` leaves its fate as it is. */
  lemma OtherEventsKeepFates(db: Db, ev: Event, e: string, credit: nat)
    requires ev.Deliver? ==> ev.s.externalId != e
    ensures Untouched(db, e) ==> Untouched(Apply(db, ev), e)
    ensures Granted(db, e, credit) ==> Granted(Apply(db, ev), e, credit)
    ensures OwedBack(db, e, credit) ==> OwedBack(Apply(db, ev), e, credit)
  {
    hide Untouched, Granted, OwedBack, SameFate, AfterCapture, AfterAdmin, AfterExpire;
    match ev
    case Deliver(s, now) =>
      CaptureFrame(db, s, now, e);
      FateStays(db, Apply(db, ev), e, credit);
    case ExpireInvoice(ext) => ExpiryKeepsFates(db, ext, e, credit);
    case Admin(id, suspend, at) =>
      AdminKeepsFates(db, id, {Active}, Suspended, AdminSuspend, at, e);
      AdminKeepsFates(db, id, {Suspended}, Active, AdminResume, at, e);
      FateStays(db, Apply(db, ev), e, credit);
  }

  /**
  After any run from a clean database, an external id that was delivered has exactly one outcome, a single
  grant or a single refund of its first credit; one that was not delivered has none.
  */
  lemma {:induction false} ExactlyOneOutcome(db: Db, evs: seq<Event>, e: string)
    requires Untouched(db, e)
    ensures e in FirstCredit(evs) ==>
              Granted(Run(db, evs), e, FirstCredit(evs)[e]) || OwedBack(Run(db, evs), e, FirstCredit(evs)[e])
    ensures e !in FirstCredit(evs) ==> Untouched(Run(db, evs), e)
  {
    hide Untouched, Granted, OwedBack, AfterCapture, Apply, RouteOf;
    if evs != [] {
      var n := |evs| - 1;
      var mid := Run(db, evs[..n]);
      ExactlyOneOutcome(db, evs[..n], e);
      if !evs[n].Deliver? || evs[n].s.externalId != e {
        OtherEventsKeepFates(mid, evs[n], e, if e in FirstCredit(evs[..n]) then FirstCredit(evs[..n])[e] else 0);
      } else if e in FirstCredit(evs[..n]) {
        RedeliveryIsNoOp(db, evs[..n], evs[n].s, evs[n].now);
      } else {
        FirstDelivery(mid, evs[n].s, evs[n].now);
      }
    }
  }

  lemma RedeliveryIsNoOp(db: Db, evs: seq<Event>, s: Settlement, now: int)
    requires s.externalId in FirstCredit(evs)
    ensures Apply(Run(db, evs), Deliver(s, now)) == Run(db, evs)
  {
    DeliveredIsHandled(db, evs);
    CaptureHandles(Run(db, evs), s, now);
    hide AfterCapture, Handled;
  }

  lemma FirstDelivery(db: Db, s: Settlement, now: int)
    requires Untouched(db, s.externalId)
    ensures var db' := Apply(db, Deliver(s, now));
            Granted(db', s.externalId, s.receivedMsat) || OwedBack(db', s.externalId, s.receivedMsat)
  {
    hide Untouched, Granted, OwedBack, AfterCapture, RouteOf;
    FirstCaptureDecides(db, s, now);
  }

  // ----- conservation

  /** The receipt the books see under `e` is its first credit, whichever provenance class carries it. */
  lemma ReceiptIsFirstCredit(db: Db, evs: seq<Event>, e: string)
    requires Untouched(db, e)
    ensures Receipt(Run(db, evs), e) == At(FirstCredit(evs), e)
  {
    ExactlyOneOutcome(db, evs, e);
  }

  /** After any run from a clean database the receipts total the first credits, each external id once. */
  lemma ReceiptsAreFirstCredits(db: Db, evs: seq<Event>)
    requires Clean(db)
    ensures Sum(Receipts(Run(db, evs))) == Sum(FirstCredit(evs))
  {
    forall e ensures At(Receipts(Run(db, evs)), e) == At(FirstCredit(evs), e) {
      ReceiptsAt(Run(db, evs), e);
      ReceiptIsFirstCredit(db, evs, e);
    }
    SumSame(Receipts(Run(db, evs)), FirstCredit(evs));
  }

  /** With every sweep failed and every refund idle, none of them fenced, the figure is exactly what was credited. */
  lemma IdleFigureIsCredits(db: Db, evs: seq<Event>, pays: map<PayKey, PayStatus>)
    requires Clean(db)
    requires forall id :: id in db.sweeps ==> db.sweeps[id].status == RFailed && db.sweeps[id].fencedAt == None
    requires forall e :: e in Run(db, evs).refunds ==>
               var row := Run(db, evs).refunds[e];
               row.status != RSent && row.fencedAt == None
               && (PayKey(e, row.gen) in pays ==> pays[PayKey(e, row.gen)] in {Unknown, PayFailed})
    ensures Expected(Run(db, evs), pays) == Sum(FirstCredit(evs))
  {
    var end := Run(db, evs);
    RunKeepsSweeps(db, evs);
    ReceiptsAreFirstCredits(db, evs);
    forall e | e in CommittedCaps(end.refunds, pays) ensures CommittedCaps(end.refunds, pays)[e] == 0 { }
    hide Run, FirstCredit, Receipts;
    SumMono(CommittedCaps(end.refunds, pays), map[]);
    SumMono(SweepCaps(end.sweeps), map[]);
  }

  lemma {:induction false} RunKeepsSweeps(db: Db, evs: seq<Event>)
    ensures Run(db, evs).sweeps == db.sweeps
  {
    if evs != [] { RunKeepsSweeps(db, evs[..|evs| - 1]); }
    hide AfterCapture;
  }

  function AllCaps(refunds: map<string, RefundRow>): map<string, nat> {
    map e | e in refunds :: CapMsat(refunds[e])
  }

  /** What each refunded receipt keeps back: the credit minus its cap. */
  function Kept(refunds: map<string, RefundRow>, credits: map<string, nat>): map<string, nat> {
    map e | e in refunds :: Sat(At(credits, e), CapMsat(refunds[e]))
  }

  lemma {:induction false} SumBelow1000(m: map<string, nat>)
    requires forall e :: e in m ==> m[e] < 1000
    ensures m == map[] || Sum(m) < 1000 * |m|
    decreases |m|
  {
    if m != map[] {
      var k :| k in m;
      SumRemove(m, k);
      SumBelow1000(m - {k});
      assert |m| == |m - {k}| + 1;
    }
  }

  lemma {:induction false} SumSplit(a: map<string, nat>, b: map<string, nat>, c: map<string, nat>)
    requires a.Keys == b.Keys == c.Keys && forall e :: e in a ==> a[e] == b[e] + c[e]
    ensures Sum(a) == Sum(b) + Sum(c)
    decreases |a|
  {
    if a != map[] {
      var k :| k in a;
      SumRemove(a, k);
      SumRemove(b, k);
      SumRemove(c, k);
      SumSplit(a - {k}, b - {k}, c - {k});
    } else {
      assert b == map[] && c == map[];
    }
  }

  /** Receipt by receipt, the refund cap is the credit rounded down to whole sats. */
  lemma CapWithinReceipt(db: Db, evs: seq<Event>, e: string)
    requires Untouched(db, e)
    requires e in Run(db, evs).refunds
    ensures e in FirstCredit(evs) && CapMsat(Run(db, evs).refunds[e]) <= FirstCredit(evs)[e] < CapMsat(Run(db, evs).refunds[e]) + 1000
  {
    ExactlyOneOutcome(db, evs, e);
  }

  /** All refund caps together never exceed what the books say was received. */
  lemma CapsWithinReceipts(db: Db, evs: seq<Event>)
    requires Clean(db)
    ensures Sum(AllCaps(Run(db, evs).refunds)) <= Sum(Receipts(Run(db, evs)))
  {
    forall e | e in Run(db, evs).refunds ensures CapMsat(Run(db, evs).refunds[e]) <= At(FirstCredit(evs), e) {
      CapWithinReceipt(db, evs, e);
    }
    SumMono(AllCaps(Run(db, evs).refunds), FirstCredit(evs));
    ReceiptsAreFirstCredits(db, evs);
  }

  /** The refunded receipts split exactly into caps and remainders, and the remainders stay below 1000 msat each. */
  lemma RemaindersAreDust(db: Db, evs: seq<Event>)
    requires Clean(db)
    ensures var refunds, credits := Run(db, evs).refunds, FirstCredit(evs);
            Sum(map e | e in refunds :: At(credits, e)) == Sum(AllCaps(refunds)) + Sum(Kept(refunds, credits))
            && (refunds == map[] || Sum(Kept(refunds, credits)) < 1000 * |refunds|)
  {
    var refunds, credits := Run(db, evs).refunds, FirstCredit(evs);
    var kept := Kept(refunds, credits);
    forall e | e in refunds ensures CapMsat(refunds[e]) <= At(credits, e) < CapMsat(refunds[e]) + 1000 {
      CapWithinReceipt(db, evs, e);
    }
    SumSplit(map e | e in refunds :: At(credits, e), AllCaps(refunds), kept);
    SumBelow1000(kept);
    assert kept.Keys == refunds.Keys && |kept| == |kept.Keys| && |refunds| == |refunds.Keys|;
  }

  predicate Closed(state: SubState) { state.SubExpired? || state.Terminated? || state.RefundDue? || state.Refunded? }

  lemma ApplyKeepsClosed(db: Db, ev: Event, id: string)
    requires id in db.subs && Closed(db.subs[id].state)
    ensures id in Apply(db, ev).subs && Apply(db, ev).subs[id] == db.subs[id]
  {
    match ev
    case Deliver(s, now) => assert RouteOf(db, s) != StartOrder(id) && RouteOf(db, s) != Extend(id);
    case _ =>
  }

  /** No settlement and no operator step moves a subscription out of a closed state: service is never resurrected. */
  lemma {:induction false} NoResurrection(db: Db, evs: seq<Event>, id: string)
    requires id in db.subs && Closed(db.subs[id].state)
    ensures id in Run(db, evs).subs && Run(db, evs).subs[id] == db.subs[id]
  {
    if evs != [] {
      var n := |evs| - 1;
      NoResurrection(db, evs[..n], id);
      ApplyKeepsClosed(Run(db, evs[..n]), evs[n], id);
    }
  }
}
