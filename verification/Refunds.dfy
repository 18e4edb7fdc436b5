/**
The life of a refund and of a sweep: what the journal tells of every row, what one whole payment does from end to
end, and what the operator's retry and clear do, field by field.
*/
module Refunds {
  import opened Wrappers
  import opened Text
  import opened Books
  import opened Operator
  import opened Ledger
  import opened Sums
  import opened Money
  import opened Observation
  import Delivery

  // ----- the journal tells each row

  /** Status and attempts of the refund `e` as its journal rows tell them: outcomes count up, a requeue starts over. */
  function Told(log: seq<LogRow>, e: string): (RefundStatus, nat) {
    if log == [] then (RPending, 0)
    else
      var earlier, row := Told(log[..|log| - 1], e), log[|log| - 1];
      if row.detail == RefundDetail(e) && row.kind == RefundRetryRequested then (RPending, 0)
      else if row.detail == ExtDetail(e) && row.kind == RefundSent then (RSent, earlier.1 + 1)
      else if row.detail == ExtDetail(e) && row.kind == RefundFailed then (RFailed, earlier.1 + 1)
      else if row.detail == ExtDetail(e) && row.kind == RefundRetried then (RPending, earlier.1 + 1)
      else earlier
  }

  predicate Tells(db: Db, e: string) {
    Told(db.log, e) == if e in db.refunds then (db.refunds[e].status, db.refunds[e].attempts) else (RPending, 0)
  }

  lemma ToldSnoc(log: seq<LogRow>, row: LogRow, e: string)
    ensures Told(log + [row], e) ==
              if row.detail == RefundDetail(e) && row.kind == RefundRetryRequested then (RPending, 0)
              else if row.detail == ExtDetail(e) && row.kind == RefundSent then (RSent, Told(log, e).1 + 1)
              else if row.detail == ExtDetail(e) && row.kind == RefundFailed then (RFailed, Told(log, e).1 + 1)
              else if row.detail == ExtDetail(e) && row.kind == RefundRetried then (RPending, Told(log, e).1 + 1)
              else Told(log, e)
  {
    assert (log + [row])[..|log|] == log;
  }

  lemma CaptureTells(db: Db, s: Settlement, now: int, e: string)
    requires Tells(db, e)
    ensures Tells(AfterCapture(db, s, now), e)
  {
    hide Told, RouteOf, Journals, InvoicesAfter, SubsAfter;
    var rows := RowsOf(db, s, now);
    if rows == [] { assert db.log + rows == db.log; } else { ToldSnoc(db.log, rows[0], e); assert rows == [rows[0]]; }
  }

  lemma BookTells(db: Db, ev: Delivery.Event, e: string)
    requires Tells(db, e)
    ensures Tells(Delivery.Apply(db, ev), e)
  {
    hide Told;
    match ev
    case Deliver(s, now) => CaptureTells(db, s, now, e);
    case ExpireInvoice(_) =>
    case Admin(id, suspend, at) =>
      ToldSnoc(db.log, LogRow(Some(id), if suspend then AdminSuspend else AdminResume,
                              StateDetail(if suspend then Suspended else Active), at), e);
  }

  lemma OutcomeTells(db: Db, k: string, now: int, e: string)
    requires Tells(db, e)
    ensures Tells(AfterCommitSent(db, k, now), e) && Tells(AfterPark(db, k, now), e) && Tells(AfterCount(db, k, now), e)
  {
    hide Told, AfterRefundOf;
    if k in db.refunds && db.refunds[k].status == RPending {
      var subId := db.refunds[k].subId;
      ToldSnoc(db.log, LogRow(subId, RefundSent, ExtDetail(k), now), e);
      ToldSnoc(db.log, LogRow(subId, RefundFailed, ExtDetail(k), now), e);
      ToldSnoc(db.log, LogRow(subId, RefundRetried, ExtDetail(k), now), e);
    }
  }

  lemma OperatorTells(db: Db, k: string, note: string, now: int, e: string)
    requires Tells(db, e)
    ensures Tells(AfterRetry(db, k, now), e) && Tells(AfterClearFence(db, k, note, now), e)
  {
    hide Told, Blank, Trim;
    if k in db.refunds { ToldSnoc(db.log, LogRow(db.refunds[k].subId, RefundRetryRequested, RefundDetail(k), now), e); }
    ToldSnoc(db.log, FenceRow(k, RefundAttempt, note, now), e);
    ToldSnoc(db.log, FenceRow(k, SweepAttempt, note, now), e);
  }

  lemma BooksTell(w: World, b: BooksAct, e: string)
    requires BooksEnabled(w, b) && Tells(w.db, e)
    ensures Tells(NextBooks(w, b).db, e)
  {
    hide Told, AfterCommitSent, AfterPark, AfterCount, AfterRetry, AfterClearFence;
    match b
    case Receive(_, _) =>
    case Book(ev) => BookTells(w.db, ev, e);
    case OpenInvoice(_, _) =>
    case OweRefund(_, _, _, _, _) =>
    case Drive(_) =>
    case CommitSent(k, now) => OutcomeTells(w.db, k, now, e);
    case Park(k, now) => OutcomeTells(w.db, k, now, e);
    case CountFailure(k, now) => OutcomeTells(w.db, k, now, e);
    case Retry(k, now) => OperatorTells(w.db, k, "", now, e);
    case ClearFence(k, note, now) => OperatorTells(w.db, k, note, now, e);
    case Boot =>
  }

  lemma PayTells(w: World, p: PayAct, e: string)
    requires PayEnabled(w, p) && Tells(w.db, e)
    ensures Tells(NextPay(w, p).db, e)
  {
    hide Told, HasDest;
    match p
    case Prepare(_) =>
    case Send(_, _) =>
    case Settle(_) =>
    case FailPay(_) =>
    case Reresolve(_, _) =>
    case Import(_, _) =>
    case LegacyReturn(_) =>
  }

  lemma SweepTells(w: World, s: SweepAct, e: string)
    requires SweepEnabled(w, s) && Tells(w.db, e)
    ensures Tells(NextSweep(w, s).db, e)
  {
    hide Told;
    match s
    case SweepIntent(_, _) =>
    case SweepSend(_, _) =>
    case SweepSettle(_) =>
    case SweepFail(_) =>
    case SweepSent(_) =>
    case SweepFailed(_) =>
    case SweepImport(_, _) =>
    case SweepLegacyReturn(_) =>
  }

  lemma StepTells(w: World, step: Step, e: string)
    requires Enabled(w, step) && Tells(w.db, e)
    ensures Tells(Next(w, step).db, e)
  {
    hide Tells, BooksEnabled, PayEnabled, SweepEnabled, NextBooks, NextPay, NextSweep;
    match step
    case OnBooks(b) => BooksTell(w, b, e);
    case OnPay(p) => PayTells(w, p, e);
    case OnSweep(s) => SweepTells(w, s, e);
  }

  /** In any run the journal tells the status and the attempts of every refund row, and of no row that is not there. */
  lemma {:induction false} JournalTellsRefunds(w: World, steps: seq<Step>, e: string)
    requires Valid(w, steps) && Tells(w.db, e)
    ensures Tells(After(w, steps).db, e)
    decreases |steps|
  {
    hide Tells, Enabled, Next;
    if steps != [] {
      StepTells(w, steps[0], e);
      JournalTellsRefunds(Next(w, steps[0]), steps[1..], e);
    }
  }

  // ----- one payment from end to end

  /** A pending refund with somewhere to go, nothing tried yet under its next generation, and its cap in the wallet. */
  predicate Payable(w: World, e: string) {
    && e in w.db.refunds && var row := w.db.refunds[e];
    && row.status == RPending && row.fencedAt == None && HasDest(row) && e !in w.db.outbox
    && Idle(StatusAt(w.pays, KeyOf(w, e))) && PayKey(e, row.gen + 1) !in w.pays && CapMsat(row) <= w.wallet
  }

  function Starts(e: string, gen: nat, cap: nat): seq<Step> {
    [OnBooks(Drive(e)), OnPay(Reresolve(e, gen + 1))] + [OnPay(Prepare(e)), OnPay(Send(e, cap))]
  }

  /** A driver has it under a new generation. */
  function Resolved(w: World, e: string): World
    requires e in w.db.refunds
  {
    SetRow(w, e, w.db.refunds[e].(gen := w.db.refunds[e].gen + 1)).(driven := w.driven + {e})
  }

  /** `cap` has left the wallet under the generation at hand. */
  function Out(w: World, e: string, cap: nat): World
    requires e in w.db.refunds
  {
    w.(pays := w.pays[KeyOf(w, e) := PayRow(PayPending, cap)], wallet := w.wallet - cap)
  }

  lemma ResolveRun(w: World, e: string)
    requires Payable(w, e)
    ensures Reaches(w, [OnBooks(Drive(e)), OnPay(Reresolve(e, w.db.refunds[e].gen + 1))], Resolved(w, e))
  {
    hide HasDest, CapMsat;
    var drive, resolve := OnBooks(Drive(e)), OnPay(Reresolve(e, w.db.refunds[e].gen + 1));
    var w1 := Next(w, drive);
    var w2 := Next(w1, resolve);
    assert w2 == Resolved(w, e);
    hide Enabled, Next, Resolved;
    OneStep(w1, resolve, []);
    OneStep(w, drive, [resolve]);
  }

  lemma PayRun(w: World, e: string, cap: nat)
    requires e in w.db.refunds && w.db.refunds[e].status == RPending && w.db.refunds[e].fencedAt == None && HasDest(w.db.refunds[e])
    requires KeyOf(w, e) !in w.pays && cap <= CapMsat(w.db.refunds[e]) && cap <= w.wallet
    ensures Reaches(w, [OnPay(Prepare(e)), OnPay(Send(e, cap))], Out(w, e, cap))
  {
    hide HasDest, CapMsat;
    var w1 := Next(w, OnPay(Prepare(e)));
    assert w1 == w.(pays := w.pays[KeyOf(w, e) := PayRow(PayPending, 0)]);
    var w2 := Next(w1, OnPay(Send(e, cap)));
    assert w2 == Out(w, e, cap);
    hide Enabled, Next, Out;
    OneStep(w1, OnPay(Send(e, cap)), []);
    OneStep(w, OnPay(Prepare(e)), [OnPay(Send(e, cap))]);
  }

  lemma SameUnderGen(row: RefundRow, gen: nat)
    ensures HasDest(row.(gen := gen)) == HasDest(row) && CapMsat(row.(gen := gen)) == CapMsat(row)
  {
  }

  /** A payment begins: the cap leaves the wallet, once, under a new generation, and nothing else changes. */
  lemma StartsRun(w: World, e: string)
    requires Payable(w, e)
    ensures Reaches(w, Starts(e, w.db.refunds[e].gen, CapMsat(w.db.refunds[e])), Out(Resolved(w, e), e, CapMsat(w.db.refunds[e])))
  {
    hide HasDest, CapMsat, Reaches, Out;
    SameUnderGen(w.db.refunds[e], w.db.refunds[e].gen + 1);
    ResolveRun(w, e);
    PayRun(Resolved(w, e), e, CapMsat(w.db.refunds[e]));
    ReachesThen(w, [OnBooks(Drive(e)), OnPay(Reresolve(e, w.db.refunds[e].gen + 1))], Resolved(w, e),
                [OnPay(Prepare(e)), OnPay(Send(e, CapMsat(w.db.refunds[e])))], Out(Resolved(w, e), e, CapMsat(w.db.refunds[e])));
  }

  /**
  A payment that settles: the refund is sent on one more attempt, the buyer told so, the cap gone from the wallet, and
  the subscription that only waited for it is done.
  */
  lemma PaidRun(w: World, e: string, now: int)
    requires e in w.db.refunds && w.db.refunds[e].status == RPending && e in w.driven && e !in w.db.outbox
    requires StatusAt(w.pays, KeyOf(w, e)).PayPending?
    ensures var steps, row := [OnPay(Settle(e)), OnBooks(CommitSent(e, now))], w.db.refunds[e];
            Valid(w, steps) && var end := After(w, steps);
            && end.wallet == w.wallet && end.pays == w.pays[KeyOf(w, e) := PayRow(Succeeded, OutAt(w.pays, KeyOf(w, e)))]
            && end.driven == w.driven - {e}
            && end.db == w.db.(refunds := w.db.refunds[e := row.(status := RSent, attempts := row.attempts + 1, updatedAt := now)],
                               outbox := w.db.outbox[e := DmSent], subs := end.db.subs,
                               log := w.db.log + [LogRow(row.subId, RefundSent, ExtDetail(e), now)])
            && end.db.subs.Keys == w.db.subs.Keys
            && forall id :: id in w.db.subs ==>
                 end.db.subs[id] == if row.subId == Some(id) && w.db.subs[id].state == RefundDue
                                    then w.db.subs[id].(state := Refunded, nextDeadline := None, updatedAt := now) else w.db.subs[id]
  {
    var steps := [OnPay(Settle(e)), OnBooks(CommitSent(e, now))];
    var w1 := Next(w, steps[0]);
    var w2 := Next(w1, steps[1]);
    assert steps[1..] == [steps[1]] && [steps[1]][1..] == [];
    assert Valid(w2, []) && After(w2, []) == w2;
    assert Valid(w1, steps[1..]) && After(w1, steps[1..]) == w2;
    assert After(w, steps) == w2;
  }

  /** A payment that fails and is given up: the cap is back, the refund parked on one more attempt, the buyer told so. */
  lemma FailedRun(w: World, e: string, now: int)
    requires e in w.db.refunds && w.db.refunds[e].status == RPending && e in w.driven && e !in w.db.outbox
    requires StatusAt(w.pays, KeyOf(w, e)).PayPending?
    ensures var steps, row := [OnPay(FailPay(e)), OnBooks(Park(e, now))], w.db.refunds[e];
            Valid(w, steps) && var end := After(w, steps);
            && end.wallet == w.wallet + OutAt(w.pays, KeyOf(w, e)) && end.pays == w.pays[KeyOf(w, e) := PayRow(PayFailed, 0)]
            && end.driven == w.driven - {e}
            && end.db == w.db.(refunds := w.db.refunds[e := row.(status := RFailed, attempts := row.attempts + 1, updatedAt := now)],
                               outbox := w.db.outbox[e := DmFailed],
                               log := w.db.log + [LogRow(row.subId, RefundFailed, ExtDetail(e), now)])
  {
    var steps := [OnPay(FailPay(e)), OnBooks(Park(e, now))];
    var w1 := Next(w, steps[0]);
    var w2 := Next(w1, steps[1]);
    assert steps[1..] == [steps[1]] && [steps[1]][1..] == [];
    assert Valid(w2, []) && After(w2, []) == w2;
    assert Valid(w1, steps[1..]) && After(w1, steps[1..]) == w2;
    assert After(w, steps) == w2;
  }

  /** Counting a failure instead leaves all as it was but for the attempts, the time and a journal row. */
  lemma CountMeans(db: Db, e: string, now: int)
    requires e in db.refunds && db.refunds[e].status == RPending
    ensures var row := db.refunds[e];
            AfterCount(db, e, now) == db.(refunds := db.refunds[e := row.(attempts := row.attempts + 1, updatedAt := now)],
                                          log := db.log + [LogRow(row.subId, RefundRetried, ExtDetail(e), now)])
  {
  }

  /** Outcomes are committed to pending rows only. */
  lemma OutcomesNeedPending(db: Db, e: string, now: int)
    requires e in db.refunds ==> db.refunds[e].status != RPending
    ensures AfterCommitSent(db, e, now) == AfterPark(db, e, now) == AfterCount(db, e, now) == db
  {
  }

  // ----- one sweep from end to end

  function SweepStarts(id: string, cap: nat, outlay: nat): seq<Step> {
    [OnSweep(SweepIntent(id, cap)), OnSweep(SweepSend(id, outlay))]
  }

  function Swept(w: World, id: string, cap: nat, status: RefundStatus, pay: PayRow): World {
    w.(db := w.db.(sweeps := w.db.sweeps[id := SweepRow(status, cap, None)]), sweepPays := w.sweepPays[id := pay],
       wallet := w.wallet - pay.outlay)
  }

  /** A new sweep is pending under its ceiling with its outlay gone from the wallet. */
  lemma SweepStartsRun(w: World, id: string, cap: nat, outlay: nat)
    requires id !in w.db.sweeps && id !in w.sweepPays && outlay <= cap && outlay <= w.wallet
    ensures Reaches(w, SweepStarts(id, cap, outlay), Swept(w, id, cap, RPending, PayRow(PayPending, outlay)))
  {
    var steps := SweepStarts(id, cap, outlay);
    var w1 := Next(w, steps[0]);
    assert w1 == Swept(w, id, cap, RPending, PayRow(PayPending, 0));
    var w2 := Next(w1, steps[1]);
    assert w2 == Swept(w, id, cap, RPending, PayRow(PayPending, outlay));
    hide Enabled, Next, Swept;
    OneStep(w1, steps[1], []);
    OneStep(w, steps[0], [steps[1]]);
  }

  lemma SweepSettles(w: World, id: string, cap: nat, outlay: nat)
    ensures var w0 := Swept(w, id, cap, RPending, PayRow(PayPending, outlay));
            Enabled(w0, OnSweep(SweepSettle(id))) && Next(w0, OnSweep(SweepSettle(id))) == Swept(w, id, cap, RPending, PayRow(Succeeded, outlay))
  {
  }

  lemma SweepFails(w: World, id: string, cap: nat, outlay: nat)
    ensures var w0 := Swept(w, id, cap, RPending, PayRow(PayPending, outlay));
            Enabled(w0, OnSweep(SweepFail(id))) && Next(w0, OnSweep(SweepFail(id))) == Swept(w, id, cap, RPending, PayRow(PayFailed, 0))
  {
  }

  lemma SettledIsSent(w: World, id: string, cap: nat, outlay: nat)
    ensures var w0 := Swept(w, id, cap, RPending, PayRow(Succeeded, outlay));
            Enabled(w0, OnSweep(SweepSent(id))) && Next(w0, OnSweep(SweepSent(id))) == Swept(w, id, cap, RSent, PayRow(Succeeded, outlay))
  {
  }

  lemma FailedIsFailed(w: World, id: string, cap: nat)
    ensures var w0 := Swept(w, id, cap, RPending, PayRow(PayFailed, 0));
            Enabled(w0, OnSweep(SweepFailed(id))) && Next(w0, OnSweep(SweepFailed(id))) == Swept(w, id, cap, RFailed, PayRow(PayFailed, 0))
  {
  }

  /** One that settles is SENT; one that fails is FAILED and its outlay is back. */
  lemma SweepEndsRun(w: World, id: string, cap: nat, outlay: nat)
    ensures var w0 := Swept(w, id, cap, RPending, PayRow(PayPending, outlay));
            && Reaches(w0, [OnSweep(SweepSettle(id)), OnSweep(SweepSent(id))], Swept(w, id, cap, RSent, PayRow(Succeeded, outlay)))
            && Reaches(w0, [OnSweep(SweepFail(id)), OnSweep(SweepFailed(id))], Swept(w, id, cap, RFailed, PayRow(PayFailed, 0)))
  {
    hide Enabled, Next, Swept;
    SweepSettles(w, id, cap, outlay);
    SettledIsSent(w, id, cap, outlay);
    SweepFails(w, id, cap, outlay);
    FailedIsFailed(w, id, cap);
    OneStep(Swept(w, id, cap, RPending, PayRow(Succeeded, outlay)), OnSweep(SweepSent(id)), []);
    OneStep(Swept(w, id, cap, RPending, PayRow(PayPending, outlay)), OnSweep(SweepSettle(id)), [OnSweep(SweepSent(id))]);
    OneStep(Swept(w, id, cap, RPending, PayRow(PayFailed, 0)), OnSweep(SweepFailed(id)), []);
    OneStep(Swept(w, id, cap, RPending, PayRow(PayPending, outlay)), OnSweep(SweepFail(id)), [OnSweep(SweepFailed(id))]);
  }

  // ----- the operator

  /**
  A retry answers `fenced` for any fenced row; it requeues a parked one, from no attempts and with no message, and
  touches nothing else and no other row.
  */
  lemma RetryMeans(db: Db, e: string, now: int)
    ensures var row, end := if e in db.refunds then Some(db.refunds[e]) else None, AfterRetry(db, e, now);
            && (RetryVerdict(db, e) == Fenced <==> row.Some? && row.value.fencedAt.Some?)
            && (RetryVerdict(db, e) == Requeued <==> row.Some? && row.value.fencedAt.None? && row.value.status == RFailed)
            && (RetryVerdict(db, e) != Requeued ==> end == db)
            && (RetryVerdict(db, e) == Requeued ==>
                  end == db.(refunds := db.refunds[e := row.value.(status := RPending, attempts := 0, updatedAt := now)],
                             outbox := db.outbox - {e},
                             log := db.log + [LogRow(row.value.subId, RefundRetryRequested, RefundDetail(e), now)]))
  {
  }

  /** A clear needs a note and a stamp; it takes the refund's stamp first, the sweep's otherwise, and says which, with the note. */
  lemma ClearMeans(db: Db, id: string, note: string, now: int)
    ensures var end, verdict := AfterClearFence(db, id, note, now), ClearVerdict(db, id, note);
            var onRefund := id in db.refunds && db.refunds[id].fencedAt.Some?;
            var onSweep := id in db.sweeps && db.sweeps[id].fencedAt.Some?;
            && (verdict.NoteRequired? <==> forall c :: c in note ==> IsSpace(c))
            && (verdict.Cleared? <==> !verdict.NoteRequired? && (onRefund || onSweep))
            && (!verdict.Cleared? ==> end == db)
            && (verdict.Cleared? && onRefund ==>
                  && verdict.status == db.refunds[id].status
                  && end == db.(refunds := db.refunds[id := db.refunds[id].(fencedAt := None)],
                                log := db.log + [LogRow(None, MigrationFenceCleared, FenceDetail(id, RefundAttempt, Trim(note)), now)]))
            && (verdict.Cleared? && !onRefund ==>
                  && verdict.status == db.sweeps[id].status
                  && end == db.(sweeps := db.sweeps[id := db.sweeps[id].(fencedAt := None)],
                                log := db.log + [LogRow(None, MigrationFenceCleared, FenceDetail(id, SweepAttempt, Trim(note)), now)]))
  {
    BlankMeans(note);
    hide Blank, Trim, IsSpace;
  }
}
