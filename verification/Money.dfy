/**
The money state machine: every step that moves money or the rows that account for it, over the real wallet.

The wallet is a variable of its own, moved only by credits, outlays and returned outlays; the books never see
it. The machine is permissive: whatever the drivers, the backend and the operator can do is a step, guarded
only by the contracts the callers keep.
*/
module Money {
  import opened Wrappers
  import opened Text
  import opened Books
  import opened Operator
  import opened Ledger
  import opened Sums
  import Delivery

  /** A backend pay row: its status and the msats it currently keeps out of the wallet. */
  datatype PayRow = PayRow(status: PayStatus, outlay: nat)

  /**
  The daemon, the backend and the wallet. `legacy` holds outlays whose pay row was lost in the import of an
  older index; `driven` the refund rows a running drive has loaded.
  */
  datatype World = World(
    db: Db, pays: map<PayKey, PayRow>, sweepPays: map<string, PayRow>,
    legacy: map<string, nat>, sweepLegacy: map<string, nat>, driven: set<string>,
    credits: map<string, nat>, wallet: int)

  /** What happens to the books, and to the credits and drivers around them. */
  datatype BooksAct =
    | Receive(ext: string, msat: nat)
    | Book(ev: Delivery.Event)
    | OpenInvoice(ext: string, inv: Invoice)
    | OweRefund(ext: string, subId: Option<string>, dest: Option<string>, amountSat: Option<int>, now: int)
    | Drive(ext: string)
    | CommitSent(ext: string, now: int)
    | Park(ext: string, now: int)
    | CountFailure(ext: string, now: int)
    | Retry(ext: string, now: int)
    | ClearFence(id: string, note: string, now: int)
    | Boot

  /** What happens to a refund's pay rows. */
  datatype PayAct =
    | Prepare(ext: string)
    | Send(ext: string, outlay: nat)
    | Settle(ext: string)
    | FailPay(ext: string)
    | Reresolve(ext: string, gen: nat)
    | Import(ext: string, now: int)
    | LegacyReturn(ext: string)

  /** What happens to a sweep and its pay row. */
  datatype SweepAct =
    | SweepIntent(id: string, cap: nat)
    | SweepSend(id: string, outlay: nat)
    | SweepSettle(id: string)
    | SweepFail(id: string)
    | SweepSent(id: string)
    | SweepFailed(id: string)
    | SweepImport(id: string, now: int)
    | SweepLegacyReturn(id: string)

  datatype Step = OnBooks(b: BooksAct) | OnPay(p: PayAct) | OnSweep(s: SweepAct)

  function StatusesOf<K>(pays: map<K, PayRow>): map<K, PayStatus> { map k | k in pays :: pays[k].status }

  function OutAt<K>(pays: map<K, PayRow>, k: K): nat { if k in pays then pays[k].outlay else 0 }

  function StatusAt<K>(pays: map<K, PayRow>, k: K): PayStatus { if k in pays then pays[k].status else Unknown }

  function KeyOf(w: World, ext: string): PayKey
    requires ext in w.db.refunds
  {
    PayKey(ext, w.db.refunds[ext].gen)
  }

  /** What one refund row keeps out of the wallet: its current pay key, and what the import lost sight of. */
  function RowOut(e: string, row: RefundRow, pays: map<PayKey, PayRow>, legacy: map<string, nat>): nat {
    OutAt(pays, PayKey(e, row.gen)) + At(legacy, e)
  }

  function RefundOuts(refunds: map<string, RefundRow>, pays: map<PayKey, PayRow>, legacy: map<string, nat>): map<string, nat> {
    map e | e in refunds :: RowOut(e, refunds[e], pays, legacy)
  }

  function SweepOuts(sweeps: map<string, SweepRow>, pays: map<string, PayRow>, legacy: map<string, nat>): map<string, nat> {
    map id | id in sweeps :: OutAt(pays, id) + At(legacy, id)
  }

  function RefundOut(w: World): map<string, nat> { RefundOuts(w.db.refunds, w.pays, w.legacy) }

  function SweepOut(w: World): map<string, nat> { SweepOuts(w.db.sweeps, w.sweepPays, w.sweepLegacy) }

  // ----- steps

  predicate Idle(status: PayStatus) { status.Unknown? || status.PayFailed? }

  predicate ClearsRefund(db: Db, id: string) { id in db.refunds && db.refunds[id].fencedAt.Some? }

  /** The message and row steps are the drivers' and the operator's; a driver commits only what it has loaded. */
  predicate BooksEnabled(w: World, b: BooksAct) {
    match b
    case Receive(_, _) => true
    case Book(ev) => ev.Deliver? ==> ev.s.receivedMsat <= At(w.credits, ev.s.externalId)
    case OpenInvoice(e, inv) =>
      e !in w.db.invoices && inv.status.Open? && inv.settledAt.None? && inv.receivedMsat.None?
    case OweRefund(_, _, _, _, _) => true
    case Drive(e) => e in w.db.refunds && w.db.refunds[e].status.RPending? && w.db.refunds[e].fencedAt.None?
    case CommitSent(e, _) => e in w.driven && e in w.db.refunds && StatusAt(w.pays, KeyOf(w, e)).Succeeded?
    case Park(e, _) => e in w.driven
    case CountFailure(e, _) => e in w.driven
    case Retry(_, _) => true
    case ClearFence(id, _, _) => At(if ClearsRefund(w.db, id) then w.legacy else w.sweepLegacy, id) == 0
    case Boot => true
  }

  /** A refund without a destination is parked before any pay is thought of. */
  predicate HasDest(row: RefundRow) { row.dest.Some? && !Blank(row.dest.value) }

  /** Outlays stay within the caps; a pay key is dropped only while idle. */
  predicate PayEnabled(w: World, p: PayAct) {
    match p
    case Prepare(e) =>
      e in w.db.refunds && w.db.refunds[e].status.RPending? && w.db.refunds[e].fencedAt.None?
      && HasDest(w.db.refunds[e]) && Idle(StatusAt(w.pays, KeyOf(w, e)))
    case Send(e, outlay) =>
      e in w.db.refunds && w.db.refunds[e].fencedAt.None? && HasDest(w.db.refunds[e]) && StatusAt(w.pays, KeyOf(w, e)).PayPending?
      && OutAt(w.pays, KeyOf(w, e)) == 0 && outlay <= CapMsat(w.db.refunds[e]) && outlay <= w.wallet
    case Settle(e) => e in w.db.refunds && StatusAt(w.pays, KeyOf(w, e)).PayPending?
    case FailPay(e) => e in w.db.refunds && StatusAt(w.pays, KeyOf(w, e)).PayPending?
    case Reresolve(e, gen) =>
      e in w.db.refunds && w.db.refunds[e].status.RPending? && HasDest(w.db.refunds[e]) && w.db.refunds[e].gen < gen
      && Idle(StatusAt(w.pays, KeyOf(w, e)))
    case Import(e, _) => e in w.db.refunds
    case LegacyReturn(e) => e in w.db.refunds
  }

  predicate SweepEnabled(w: World, s: SweepAct) {
    match s
    case SweepIntent(id, _) => id in w.db.sweeps ==> w.db.sweeps[id].status.RFailed? && w.db.sweeps[id].fencedAt.None?
    case SweepSend(id, outlay) =>
      id in w.db.sweeps && w.db.sweeps[id].status.RPending? && w.db.sweeps[id].fencedAt.None?
      && OutAt(w.sweepPays, id) == 0 && !StatusAt(w.sweepPays, id).Succeeded?
      && outlay <= w.db.sweeps[id].maxOutlayMsat && outlay <= w.wallet
    case SweepSettle(id) => id in w.db.sweeps && StatusAt(w.sweepPays, id).PayPending?
    case SweepFail(id) => id in w.db.sweeps && StatusAt(w.sweepPays, id).PayPending?
    case SweepSent(id) => id in w.db.sweeps && StatusAt(w.sweepPays, id).Succeeded?
    case SweepFailed(id) =>
      id in w.db.sweeps && w.db.sweeps[id].status.RPending? && w.db.sweeps[id].fencedAt.None? && Idle(StatusAt(w.sweepPays, id))
    case SweepImport(id, _) => id in w.db.sweeps
    case SweepLegacyReturn(id) => id in w.db.sweeps
  }

  /** When a step can happen. */
  predicate Enabled(w: World, step: Step) {
    match step
    case OnBooks(b) => BooksEnabled(w, b)
    case OnPay(p) => PayEnabled(w, p)
    case OnSweep(s) => SweepEnabled(w, s)
  }

  /** A pay row changes: whatever it kept out before comes back, what it keeps out now leaves. */
  function SetPay(w: World, e: string, status: PayStatus, outlay: nat): World
    requires e in w.db.refunds
  {
    w.(pays := w.pays[KeyOf(w, e) := PayRow(status, outlay)], wallet := w.wallet + OutAt(w.pays, KeyOf(w, e)) - outlay)
  }

  function SetSweepPay(w: World, id: string, status: PayStatus, outlay: nat): World {
    w.(sweepPays := w.sweepPays[id := PayRow(status, outlay)], wallet := w.wallet + OutAt(w.sweepPays, id) - outlay)
  }

  function SetRow(w: World, e: string, row: RefundRow): World {
    w.(db := w.db.(refunds := w.db.refunds[e := row]))
  }

  function SetSweep(w: World, id: string, row: SweepRow): World {
    w.(db := w.db.(sweeps := w.db.sweeps[id := row]))
  }

  /** The import stamps a row whose pay row it could not carry over; the outlay, if any, is now unwitnessed. */
  function Imported(w: World, e: string, now: int): World
    requires e in w.db.refunds
  {
    SetRow(w, e, w.db.refunds[e].(fencedAt := Some(now)))
      .(pays := w.pays - {KeyOf(w, e)}, driven := {},
        legacy := w.legacy[e := At(w.legacy, e) + OutAt(w.pays, KeyOf(w, e))])
  }

  function SweepImported(w: World, id: string, now: int): World
    requires id in w.db.sweeps
  {
    SetSweep(w, id, w.db.sweeps[id].(fencedAt := Some(now)))
      .(sweepPays := w.sweepPays - {id}, driven := {},
        sweepLegacy := w.sweepLegacy[id := At(w.sweepLegacy, id) + OutAt(w.sweepPays, id)])
  }

  function NextBooks(w: World, b: BooksAct): World
    requires BooksEnabled(w, b)
  {
    match b
    case Receive(e, m) => w.(credits := w.credits[e := At(w.credits, e) + m], wallet := w.wallet + m)
    case Book(ev) => w.(db := Delivery.Apply(w.db, ev))
    case OpenInvoice(e, inv) => w.(db := w.db.(invoices := w.db.invoices[e := inv]))
    case OweRefund(e, subId, dest, amountSat, now) =>
      if e in w.db.refunds then w else SetRow(w, e, FreshRefund(subId, dest, amountSat, now))
    case Drive(e) => w.(driven := w.driven + {e})
    case CommitSent(e, now) => w.(db := AfterCommitSent(w.db, e, now), driven := w.driven - {e})
    case Park(e, now) => w.(db := AfterPark(w.db, e, now), driven := w.driven - {e})
    case CountFailure(e, now) => w.(db := AfterCount(w.db, e, now), driven := w.driven - {e})
    case Retry(e, now) => w.(db := AfterRetry(w.db, e, now))
    case ClearFence(id, note, now) => w.(db := AfterClearFence(w.db, id, note, now))
    case Boot => w.(driven := {})
  }

  function NextPay(w: World, p: PayAct): World
    requires PayEnabled(w, p)
  {
    match p
    case Prepare(e) => SetPay(w, e, PayPending, OutAt(w.pays, KeyOf(w, e)))
    case Send(e, outlay) => SetPay(w, e, PayPending, outlay)
    case Settle(e) => SetPay(w, e, Succeeded, OutAt(w.pays, KeyOf(w, e)))
    case FailPay(e) => SetPay(w, e, PayFailed, 0)
    case Reresolve(e, gen) => SetRow(w, e, w.db.refunds[e].(gen := gen))
    case Import(e, now) => Imported(w, e, now)
    case LegacyReturn(e) => Returned(w, e)
  }

  function NextSweep(w: World, s: SweepAct): World
    requires SweepEnabled(w, s)
  {
    match s
    case SweepIntent(id, cap) =>
      var w1 := SetSweep(w, id, SweepRow(RPending, cap, None));
      if Idle(StatusAt(w.sweepPays, id)) then SetSweepPay(w1, id, PayPending, OutAt(w.sweepPays, id)) else w1
    case SweepSend(id, outlay) => SetSweepPay(w, id, PayPending, outlay)
    case SweepSettle(id) => SetSweepPay(w, id, Succeeded, OutAt(w.sweepPays, id))
    case SweepFail(id) => SetSweepPay(w, id, PayFailed, 0)
    case SweepSent(id) => SetSweep(w, id, w.db.sweeps[id].(status := RSent))
    case SweepFailed(id) => SetSweep(w, id, w.db.sweeps[id].(status := RFailed))
    case SweepImport(id, now) => SweepImported(w, id, now)
    case SweepLegacyReturn(id) => SweepReturned(w, id)
  }

  function Next(w: World, step: Step): World
    requires Enabled(w, step)
  {
    match step
    case OnBooks(b) => NextBooks(w, b)
    case OnPay(p) => NextPay(w, p)
    case OnSweep(s) => NextSweep(w, s)
  }

  // ----- invariants

  /** An open invoice is not settled, and an unsettled one carries no credit yet. */
  predicate Unstamped(inv: Invoice) {
    (inv.status.Open? ==> inv.settledAt.None?) && (!IsSettled(inv) ==> inv.receivedMsat.None?)
  }

  /** Every receipt the books count was really credited. */
  ghost predicate ReceiptsReal(w: World) {
    && (forall e :: Receipt(w.db, e) <= At(w.credits, e))
    && (forall e :: e in w.db.invoices ==> Unstamped(w.db.invoices[e]))
  }

  /** What a refund row keeps out of the wallet is covered by its cap, and only while the books count it. */
  predicate RefundCovered(w: World, e: string)
    requires e in w.db.refunds
  {
    RowOut(e, w.db.refunds[e], w.pays, w.legacy)
      <= if Committed(w.db.refunds[e].status, w.db.refunds[e].fencedAt.Some?, StatusAt(w.pays, KeyOf(w, e)))
         then CapMsat(w.db.refunds[e]) else 0
  }

  predicate SweepCovered(w: World, id: string)
    requires id in w.db.sweeps
  {
    OutAt(w.sweepPays, id) + At(w.sweepLegacy, id)
      <= if !w.db.sweeps[id].status.RFailed? || w.db.sweeps[id].fencedAt.Some? then w.db.sweeps[id].maxOutlayMsat else 0
  }

  /** Outlays live only under current keys; a failed or unknown pay has none; lost ones sit on fenced rows. */
  ghost predicate OutlaysPlaced(w: World) {
    && (forall k :: OutAt(w.pays, k) != 0 ==>
          k.ext in w.db.refunds && k.gen == w.db.refunds[k.ext].gen && !Idle(StatusAt(w.pays, k)))
    && (forall id :: OutAt(w.sweepPays, id) != 0 ==>
          id in w.db.sweeps && !w.db.sweeps[id].status.RFailed? && !Idle(StatusAt(w.sweepPays, id)))
    && (forall e :: At(w.legacy, e) != 0 ==> e in w.db.refunds && w.db.refunds[e].fencedAt.Some?)
    && (forall id :: At(w.sweepLegacy, id) != 0 ==> id in w.db.sweeps && w.db.sweeps[id].fencedAt.Some?)
  }

  ghost predicate Covered(w: World) {
    && (forall e :: e in w.db.refunds ==> RefundCovered(w, e))
    && (forall id :: id in w.db.sweeps ==> SweepCovered(w, id))
  }

  /** Conservation: the wallet is every credit minus every outlay that is out, and never overdrawn. */
  ghost predicate Conserved(w: World) {
    0 <= w.wallet == Sum(w.credits) - Sum(RefundOut(w)) - Sum(SweepOut(w))
  }

  /** The buyer's message says what the row says now. */
  predicate DmMatches(db: Db, e: string) {
    if e !in db.refunds || db.refunds[e].status.RPending? then e !in db.outbox
    else e in db.outbox && db.outbox[e] == if db.refunds[e].status.RSent? then DmSent else DmFailed
  }

  ghost predicate MessagesCurrent(w: World) {
    && (forall e :: DmMatches(w.db, e))
    && (forall e :: e in w.driven ==> e in w.db.refunds && w.db.refunds[e].fencedAt.None?)
  }

  ghost predicate Inv(w: World) {
    ReceiptsReal(w) && OutlaysPlaced(w) && Covered(w) && Conserved(w) && MessagesCurrent(w)
  }

  // ----- the bound

  lemma ReceiptsBelowCredits(w: World)
    requires ReceiptsReal(w)
    ensures Sum(Receipts(w.db)) <= Sum(w.credits)
  {
    forall e ensures At(Receipts(w.db), e) <= At(w.credits, e) { ReceiptsAt(w.db, e); }
    SumMono(Receipts(w.db), w.credits);
  }

  lemma RefundsBelowCaps(w: World)
    requires Covered(w)
    ensures Sum(RefundOut(w)) <= Sum(CommittedCaps(w.db.refunds, StatusesOf(w.pays)))
  {
    var caps := CommittedCaps(w.db.refunds, StatusesOf(w.pays));
    forall e | e in RefundOut(w) ensures RefundOut(w)[e] <= At(caps, e) { assert RefundCovered(w, e); }
    SumMono(RefundOut(w), caps);
  }

  lemma SweepsBelowCaps(w: World)
    requires Covered(w)
    ensures Sum(SweepOut(w)) <= Sum(SweepCaps(w.db.sweeps))
  {
    forall id | id in SweepOut(w) ensures SweepOut(w)[id] <= At(SweepCaps(w.db.sweeps), id) { assert SweepCovered(w, id); }
    SumMono(SweepOut(w), SweepCaps(w.db.sweeps));
  }

  /** The figure the books report never exceeds the real wallet. */
  lemma ExpectedIsALowerBound(w: World)
    requires Inv(w)
    ensures Expected(w.db, StatusesOf(w.pays)) <= w.wallet
  {
    hide ReceiptsReal, OutlaysPlaced, Covered, MessagesCurrent, Receipts, RefundOut, SweepOut, CommittedCaps, SweepCaps;
    ReceiptsBelowCredits(w);
    RefundsBelowCaps(w);
    SweepsBelowCaps(w);
  }

  // ----- every step keeps the invariant

  /** The invariant at one row. */
  lemma AtRow(w: World, e: string)
    requires Inv(w)
    ensures e in w.db.refunds ==> RefundCovered(w, e)
    ensures DmMatches(w.db, e)
    ensures e in w.db.refunds && Idle(StatusAt(w.pays, KeyOf(w, e))) ==> OutAt(w.pays, KeyOf(w, e)) == 0
    ensures At(w.legacy, e) != 0 ==> e in w.db.refunds && w.db.refunds[e].fencedAt.Some?
    ensures 0 <= w.wallet
  {
  }

  lemma AtKey(w: World, e: string, gen: nat)
    requires Inv(w)
    ensures OutAt(w.pays, PayKey(e, gen)) != 0 ==>
              e in w.db.refunds && w.db.refunds[e].gen == gen && !Idle(StatusAt(w.pays, PayKey(e, gen)))
  {
  }

  lemma DrivenUnfenced(w: World)
    requires Inv(w)
    ensures forall k :: k in w.driven ==> k in w.db.refunds && w.db.refunds[k].fencedAt.None?
  {
  }

  lemma AtSweep(w: World, id: string)
    requires Inv(w)
    ensures id in w.db.sweeps ==> SweepCovered(w, id)
    ensures Idle(StatusAt(w.sweepPays, id)) ==> OutAt(w.sweepPays, id) == 0
    ensures OutAt(w.sweepPays, id) != 0 ==> id in w.db.sweeps && !w.db.sweeps[id].status.RFailed?
    ensures At(w.sweepLegacy, id) != 0 ==> id in w.db.sweeps && w.db.sweeps[id].fencedAt.Some?
    ensures 0 <= w.wallet
  {
  }

  lemma CaptureReceipt(db: Db, s: Settlement, now: int, e: string)
    requires e in db.invoices ==> Unstamped(db.invoices[e])
    ensures Receipt(AfterCapture(db, s, now), e) <= if e == s.externalId then Max(Receipt(db, e), s.receivedMsat) else Receipt(db, e)
  {
    Delivery.JournalAfterCapture(db, s, now, e);
    var db' := AfterCapture(db, s, now);
    if e != s.externalId || e !in db.invoices {
      assert InvoiceReceipt(db', e) == InvoiceReceipt(db, e);
    } else if IsSettled(db.invoices[e]) {
      assert InvoiceReceipt(db', e) == InvoiceReceipt(db, e);
    } else {
      assert InvoiceReceipt(db', e) == s.receivedMsat;
    }
  }

  /** Journal rows of the operator's actuators are not settle-refund rows: no receipt moves. */
  lemma ActuatorReceipt(db: Db, row: LogRow, e: string)
    requires !IsSettleRefund(row.kind)
    ensures Receipt(db.(log := db.log + [row]), e) == Receipt(db, e)
  {
    Delivery.Appended(db.log, row, e);
  }

  /** Everything that accounts for money out, unchanged. */
  predicate SameOutlays(w: World, w': World) {
    && w'.db.refunds == w.db.refunds && w'.db.sweeps == w.db.sweeps && w'.db.outbox == w.db.outbox
    && w'.pays == w.pays && w'.sweepPays == w.sweepPays && w'.legacy == w.legacy && w'.sweepLegacy == w.sweepLegacy
  }

  ghost predicate OutlaysKept(w: World) { OutlaysPlaced(w) && Covered(w) && Conserved(w) && MessagesCurrent(w) }

  lemma SameOutlaysKept(w: World, w': World)
    requires Inv(w) && SameOutlays(w, w')
    requires forall k :: k in w'.driven ==> k in w'.db.refunds && w'.db.refunds[k].fencedAt.None?
    requires Sum(w'.credits) - w'.wallet == Sum(w.credits) - w.wallet && w.wallet <= w'.wallet
    ensures OutlaysKept(w')
  {
    assert RefundOut(w') == RefundOut(w) && SweepOut(w') == SweepOut(w);
    forall e | e in w'.db.refunds ensures RefundCovered(w', e) { assert RefundCovered(w, e); }
    forall id | id in w'.db.sweeps ensures SweepCovered(w', id) { assert SweepCovered(w, id); }
    forall e ensures DmMatches(w'.db, e) { assert DmMatches(w.db, e); }
  }

  lemma NoOutlayStep(w: World, w': World)
    requires Inv(w) && SameOutlays(w, w') && w'.driven <= w.driven
    requires Sum(w'.credits) - w'.wallet == Sum(w.credits) - w.wallet && w.wallet <= w'.wallet
    ensures OutlaysKept(w')
  {
    hide Inv, OutlaysKept;
    DrivenUnfenced(w);
    SameOutlaysKept(w, w');
  }

  function OutOf(w: World, e: string): nat {
    if e in w.db.refunds then RowOut(e, w.db.refunds[e], w.pays, w.legacy) else 0
  }

  /** Only the refund `e` moves: its row, its pay rows, its lost outlay, its message. */
  ghost predicate RefundMove(w: World, w': World, e: string) {
    && e in w'.db.refunds && w'.db.refunds == w.db.refunds[e := w'.db.refunds[e]]
    && (forall k: PayKey :: k.ext != e ==> OutAt(w'.pays, k) == OutAt(w.pays, k) && StatusAt(w'.pays, k) == StatusAt(w.pays, k))
    && (forall k :: k != e ==> At(w'.legacy, k) == At(w.legacy, k))
    && (forall k :: k != e ==> (k in w'.db.outbox <==> k in w.db.outbox) && (k in w.db.outbox ==> w'.db.outbox[k] == w.db.outbox[k]))
    && w'.db.sweeps == w.db.sweeps && w'.sweepPays == w.sweepPays && w'.sweepLegacy == w.sweepLegacy && w'.credits == w.credits
  }

  /** What `e` must satisfy afterwards. */
  ghost predicate RefundLands(w': World, e: string)
    requires e in w'.db.refunds
  {
    && RefundCovered(w', e) && DmMatches(w'.db, e)
    && (forall k: PayKey :: k.ext == e && OutAt(w'.pays, k) != 0 ==> k.gen == w'.db.refunds[e].gen && !Idle(StatusAt(w'.pays, k)))
    && (At(w'.legacy, e) != 0 ==> w'.db.refunds[e].fencedAt.Some?)
  }

  lemma OneRowOut(refunds: map<string, RefundRow>, refunds': map<string, RefundRow>, pays: map<PayKey, PayRow>,
                  pays': map<PayKey, PayRow>, legacy: map<string, nat>, legacy': map<string, nat>, e: string)
    requires e in refunds' && refunds' == refunds[e := refunds'[e]]
    requires forall k :: k in refunds && k != e ==> RowOut(k, refunds[k], pays', legacy') == RowOut(k, refunds[k], pays, legacy)
    ensures Sum(RefundOuts(refunds', pays', legacy'))
              == Sum(RefundOuts(refunds, pays, legacy)) - At(RefundOuts(refunds, pays, legacy), e)
                 + RowOut(e, refunds'[e], pays', legacy')
  {
    var out, out' := RefundOuts(refunds, pays, legacy), RefundOuts(refunds', pays', legacy');
    var v := RowOut(e, refunds'[e], pays', legacy');
    assert out' == out[e := v];
    SumPut(out, e, v);
  }

  lemma RefundConserves(w: World, w': World, e: string)
    requires Conserved(w) && RefundMove(w, w', e)
    requires w'.wallet + OutOf(w', e) == w.wallet + OutOf(w, e) && 0 <= w'.wallet
    ensures Conserved(w')
  {
    OneRowOut(w.db.refunds, w'.db.refunds, w.pays, w'.pays, w.legacy, w'.legacy, e);
  }

  lemma RefundCovers(w: World, w': World, e: string)
    requires Covered(w) && RefundMove(w, w', e) && RefundCovered(w', e)
    ensures Covered(w')
  {
    forall k | k in w'.db.refunds ensures RefundCovered(w', k) {
      if k != e { assert w'.db.refunds[k] == w.db.refunds[k] && RefundCovered(w, k); }
    }
    forall id | id in w'.db.sweeps ensures SweepCovered(w', id) { assert SweepCovered(w, id); }
  }

  lemma RefundPlaces(w: World, w': World, e: string)
    requires OutlaysPlaced(w) && RefundMove(w, w', e) && RefundLands(w', e)
    ensures OutlaysPlaced(w')
  {
    forall k: PayKey | OutAt(w'.pays, k) != 0
      ensures k.ext in w'.db.refunds && k.gen == w'.db.refunds[k.ext].gen && !Idle(StatusAt(w'.pays, k))
    {
      if k.ext != e { assert OutAt(w.pays, k) != 0; }
    }
  }

  lemma RefundMessages(w: World, w': World, e: string)
    requires MessagesCurrent(w) && RefundMove(w, w', e) && DmMatches(w'.db, e)
    requires forall k :: k in w'.driven ==> k in w'.db.refunds && w'.db.refunds[k].fencedAt.None?
    ensures MessagesCurrent(w')
  {
    forall k ensures DmMatches(w'.db, k) { if k != e { assert DmMatches(w.db, k); } }
  }

  lemma RefundStep(w: World, w': World, e: string)
    requires Inv(w) && RefundMove(w, w', e) && RefundLands(w', e)
    requires w'.wallet + OutOf(w', e) == w.wallet + OutOf(w, e) && 0 <= w'.wallet
    requires forall k :: k in w'.driven ==> k in w'.db.refunds && w'.db.refunds[k].fencedAt.None?
    ensures OutlaysKept(w')
  {
    RefundConserves(w, w', e);
    RefundCovers(w, w', e);
    RefundPlaces(w, w', e);
    RefundMessages(w, w', e);
  }

  function SweepOutOf(w: World, id: string): nat {
    if id in w.db.sweeps then OutAt(w.sweepPays, id) + At(w.sweepLegacy, id) else 0
  }

  /** Only the sweep `id` moves. */
  ghost predicate SweepMove(w: World, w': World, id: string) {
    && id in w'.db.sweeps && w'.db.sweeps == w.db.sweeps[id := w'.db.sweeps[id]]
    && (forall k :: k != id ==> OutAt(w'.sweepPays, k) == OutAt(w.sweepPays, k) && StatusAt(w'.sweepPays, k) == StatusAt(w.sweepPays, k))
    && (forall k :: k != id ==> At(w'.sweepLegacy, k) == At(w.sweepLegacy, k))
    && w'.db.refunds == w.db.refunds && w'.db.outbox == w.db.outbox && w'.pays == w.pays && w'.legacy == w.legacy
    && w'.credits == w.credits && w'.driven <= w.driven
  }

  predicate SweepLands(w': World, id: string)
    requires id in w'.db.sweeps
  {
    && SweepCovered(w', id)
    && (OutAt(w'.sweepPays, id) != 0 ==> !w'.db.sweeps[id].status.RFailed? && !Idle(StatusAt(w'.sweepPays, id)))
    && (At(w'.sweepLegacy, id) != 0 ==> w'.db.sweeps[id].fencedAt.Some?)
  }

  lemma OneSweepOut(sweeps: map<string, SweepRow>, sweeps': map<string, SweepRow>, pays: map<string, PayRow>,
                    pays': map<string, PayRow>, legacy: map<string, nat>, legacy': map<string, nat>, id: string)
    requires id in sweeps' && sweeps' == sweeps[id := sweeps'[id]]
    requires forall k :: k != id ==> OutAt(pays', k) == OutAt(pays, k) && At(legacy', k) == At(legacy, k)
    ensures Sum(SweepOuts(sweeps', pays', legacy'))
              == Sum(SweepOuts(sweeps, pays, legacy)) - At(SweepOuts(sweeps, pays, legacy), id) + OutAt(pays', id) + At(legacy', id)
  {
    var out, out' := SweepOuts(sweeps, pays, legacy), SweepOuts(sweeps', pays', legacy');
    var v := OutAt(pays', id) + At(legacy', id);
    assert out' == out[id := v];
    SumPut(out, id, v);
  }

  lemma SweepConserves(w: World, w': World, id: string)
    requires Conserved(w) && SweepMove(w, w', id)
    requires w'.wallet + SweepOutOf(w', id) == w.wallet + SweepOutOf(w, id) && 0 <= w'.wallet
    ensures Conserved(w')
  {
    OneSweepOut(w.db.sweeps, w'.db.sweeps, w.sweepPays, w'.sweepPays, w.sweepLegacy, w'.sweepLegacy, id);
  }

  lemma SweepCovers(w: World, w': World, id: string)
    requires Covered(w) && SweepMove(w, w', id) && SweepCovered(w', id)
    ensures Covered(w')
  {
    forall e | e in w'.db.refunds ensures RefundCovered(w', e) { assert RefundCovered(w, e); }
    forall k | k in w'.db.sweeps ensures SweepCovered(w', k) {
      if k != id { assert w'.db.sweeps[k] == w.db.sweeps[k] && SweepCovered(w, k); }
    }
  }

  lemma SweepStep(w: World, w': World, id: string)
    requires Inv(w) && SweepMove(w, w', id) && SweepLands(w', id)
    requires w'.wallet + SweepOutOf(w', id) == w.wallet + SweepOutOf(w, id) && 0 <= w'.wallet
    ensures OutlaysKept(w')
  {
    SweepConserves(w, w', id);
    SweepCovers(w, w', id);
    forall e ensures DmMatches(w'.db, e) { assert DmMatches(w.db, e); }
  }

  // ----- step by step

  lemma SetPayMoves(w: World, e: string, status: PayStatus, outlay: nat)
    requires e in w.db.refunds
    ensures RefundMove(w, SetPay(w, e, status, outlay), e)
  {
    assert w.db.refunds == w.db.refunds[e := w.db.refunds[e]];
  }

  lemma SetPayLands(w: World, e: string, status: PayStatus, outlay: nat)
    requires OutlaysPlaced(w) && DmMatches(w.db, e) && e in w.db.refunds && (Idle(status) ==> outlay == 0)
    requires outlay + At(w.legacy, e) <= if Committed(w.db.refunds[e].status, w.db.refunds[e].fencedAt.Some?, status)
                                         then CapMsat(w.db.refunds[e]) else 0
    ensures RefundLands(SetPay(w, e, status, outlay), e)
  {
    var w' := SetPay(w, e, status, outlay);
    assert forall k: PayKey :: k != KeyOf(w, e) ==> OutAt(w'.pays, k) == OutAt(w.pays, k);
  }

  /** A pay row may take any status and outlay its cap covers while the books count it. */
  lemma SetPayKept(w: World, e: string, status: PayStatus, outlay: nat)
    requires Inv(w) && e in w.db.refunds && (Idle(status) ==> outlay == 0)
    requires outlay + At(w.legacy, e) <= if Committed(w.db.refunds[e].status, w.db.refunds[e].fencedAt.Some?, status)
                                         then CapMsat(w.db.refunds[e]) else 0
    requires outlay <= w.wallet + OutAt(w.pays, KeyOf(w, e))
    ensures OutlaysKept(SetPay(w, e, status, outlay))
  {
    assert DmMatches(w.db, e);
    SetPayMoves(w, e, status, outlay);
    SetPayLands(w, e, status, outlay);
    RefundStep(w, SetPay(w, e, status, outlay), e);
  }

  /** A refund row, old or new, may change status, generation and message while its outlay stays covered. */
  lemma SetRowKept(w: World, w': World, e: string)
    requires Inv(w) && RefundMove(w, w', e) && w'.pays == w.pays && w'.legacy == w.legacy && w'.wallet == w.wallet
    requires RefundCovered(w', e) && DmMatches(w'.db, e)
    requires e in w.db.refunds && w'.db.refunds[e].gen != w.db.refunds[e].gen ==> OutAt(w.pays, KeyOf(w, e)) == 0
    requires At(w.legacy, e) != 0 ==> w'.db.refunds[e].fencedAt.Some?
    requires forall k :: k in w'.driven ==> k in w'.db.refunds && w'.db.refunds[k].fencedAt.None?
    ensures OutlaysKept(w')
  {
    assert forall k: PayKey :: k.ext == e && OutAt(w.pays, k) != 0 ==> e in w.db.refunds && k == KeyOf(w, e);
    RefundStep(w, w', e);
  }

  /** `w'` is `w` with one new pending refund row; other tables of the books may have moved. */
  predicate Inserts(w: World, w': World, e: string) {
    && e !in w.db.refunds && e in w'.db.refunds && w'.db.refunds == w.db.refunds[e := w'.db.refunds[e]]
    && w'.db.refunds[e].status.RPending? && w'.db.refunds[e].fencedAt.None?
    && w'.db.outbox == w.db.outbox && w'.db.sweeps == w.db.sweeps
    && w' == w.(db := w'.db)
  }

  lemma InsertLands(w: World, w': World, e: string)
    requires OutlaysPlaced(w) && DmMatches(w.db, e) && Inserts(w, w', e)
    ensures RefundLands(w', e) && OutOf(w', e) == 0
  {
    forall k: PayKey | k.ext == e ensures OutAt(w.pays, k) == 0 {}
  }

  lemma InsertKept(w: World, w': World, e: string)
    requires Inv(w) && Inserts(w, w', e)
    ensures OutlaysKept(w')
  {
    assert DmMatches(w.db, e);
    InsertLands(w, w', e);
    RefundStep(w, w', e);
  }

  lemma CaptureKept(w: World, s: Settlement, now: int)
    requires Inv(w)
    ensures OutlaysKept(w.(db := AfterCapture(w.db, s, now)))
  {
    var w' := w.(db := AfterCapture(w.db, s, now));
    if RefundsAfter(w.db, s, now) == w.db.refunds {
      NoOutlayStep(w, w');
    } else {
      InsertKept(w, w', s.externalId);
    }
  }

  lemma AdminKept(w: World, id: string, from: set<SubState>, to: SubState, kind: LogKind, at: int)
    requires Inv(w)
    ensures OutlaysKept(w.(db := AfterAdmin(w.db, id, from, to, kind, at)))
  {
    NoOutlayStep(w, w.(db := AfterAdmin(w.db, id, from, to, kind, at)));
  }

  lemma ExpireKept(w: World, ext: string)
    requires Inv(w)
    ensures OutlaysKept(w.(db := Delivery.AfterExpire(w.db, ext)))
  {
    NoOutlayStep(w, w.(db := Delivery.AfterExpire(w.db, ext)));
  }

  lemma BookKept(w: World, ev: Delivery.Event)
    requires Inv(w)
    ensures OutlaysKept(w.(db := Delivery.Apply(w.db, ev)))
  {
    match ev
    case Deliver(s, now) => CaptureKept(w, s, now);
    case ExpireInvoice(ext) => ExpireKept(w, ext);
    case Admin(id, suspend, at) =>
      if suspend {
        AdminKept(w, id, {Active}, Suspended, AdminSuspend, at);
      } else {
        AdminKept(w, id, {Suspended}, Active, AdminResume, at);
      }
  }

  lemma ReresolveMoves(w: World, e: string, gen: nat)
    requires e in w.db.refunds && RefundCovered(w, e) && DmMatches(w.db, e)
    requires OutAt(w.pays, KeyOf(w, e)) == 0 && OutAt(w.pays, PayKey(e, gen)) == 0
    requires At(w.legacy, e) != 0 ==> w.db.refunds[e].fencedAt.Some?
    ensures var w' := SetRow(w, e, w.db.refunds[e].(gen := gen));
            RefundMove(w, w', e) && DmMatches(w'.db, e) && RefundCovered(w', e)
            && w'.pays == w.pays && w'.legacy == w.legacy && w'.wallet == w.wallet && w'.driven == w.driven
            && w'.db.refunds == w.db.refunds[e := w.db.refunds[e].(gen := gen)]
  {
  }

  lemma ReresolveKept(w: World, e: string, gen: nat)
    requires Inv(w) && e in w.db.refunds && w.db.refunds[e].gen < gen && Idle(StatusAt(w.pays, KeyOf(w, e)))
    ensures OutlaysKept(SetRow(w, e, w.db.refunds[e].(gen := gen)))
  {
    hide Inv, OutlaysKept;
    AtRow(w, e);
    AtKey(w, e, gen);
    DrivenUnfenced(w);
    ReresolveMoves(w, e, gen);
    var w' := SetRow(w, e, w.db.refunds[e].(gen := gen));
    forall k | k in w'.driven ensures k in w'.db.refunds && w'.db.refunds[k].fencedAt.None? {}
    hide RefundMove, RefundCovered, DmMatches, SetRow, OutAt, StatusAt, Idle;
    SetRowKept(w, w', e);
  }

  /** A new status, attempt count and message for `e`, nothing else that accounts for money: what the commits have in common. */
  predicate Restated(w: World, w': World, e: string) {
    && e in w.db.refunds && e in w'.db.refunds && w'.db.refunds == w.db.refunds[e := w'.db.refunds[e]]
    && w'.db.refunds[e].gen == w.db.refunds[e].gen && w'.db.refunds[e].fencedAt == w.db.refunds[e].fencedAt
    && w'.db.refunds[e].amountSat == w.db.refunds[e].amountSat && w' == w.(db := w'.db, driven := w'.driven) && w'.driven <= w.driven
    && w'.db.sweeps == w.db.sweeps && w'.db.outbox - {e} == w.db.outbox - {e}
  }

  lemma RestatedMoves(w: World, w': World, e: string)
    requires Restated(w, w', e)
    ensures RefundMove(w, w', e)
  {
    forall k | k != e
      ensures (k in w'.db.outbox <==> k in w.db.outbox) && (k in w.db.outbox ==> w'.db.outbox[k] == w.db.outbox[k])
    {
      assert k in w.db.outbox <==> k in w.db.outbox - {e};
      assert k in w'.db.outbox <==> k in w'.db.outbox - {e};
      if k in w.db.outbox { assert (w.db.outbox - {e})[k] == (w'.db.outbox - {e})[k]; }
    }
  }

  lemma RestatedKept(w: World, w': World, e: string)
    requires Inv(w) && Restated(w, w', e) && RefundCovered(w', e) && DmMatches(w'.db, e)
    ensures OutlaysKept(w')
  {
    hide Inv, OutlaysKept, RefundMove, RefundCovered, DmMatches;
    AtRow(w, e);
    DrivenUnfenced(w);
    RestatedMoves(w, w', e);
    SetRowKept(w, w', e);
  }

  function Committing(w: World, e: string, now: int, sent: bool): World {
    w.(db := if sent then AfterCommitSent(w.db, e, now) else AfterPark(w.db, e, now), driven := w.driven - {e})
  }

  lemma CommitMoves(w: World, e: string, now: int, sent: bool)
    requires e in w.db.refunds && w.db.refunds[e].status.RPending?
    ensures Restated(w, Committing(w, e, now, sent), e)
  {
    assert Committing(w, e, now, sent).db.outbox - {e} == w.db.outbox - {e};
  }

  lemma CommitLands(w: World, e: string, now: int, sent: bool)
    requires e in w.db.refunds && w.db.refunds[e].status.RPending? && w.db.refunds[e].fencedAt.None?
    requires RefundCovered(w, e) && DmMatches(w.db, e) && (sent ==> StatusAt(w.pays, KeyOf(w, e)).Succeeded?)
    ensures RefundCovered(Committing(w, e, now, sent), e) && DmMatches(Committing(w, e, now, sent).db, e)
  {
  }

  lemma CommitKept(w: World, e: string, now: int, sent: bool)
    requires Inv(w) && e in w.driven && (sent ==> e in w.db.refunds && StatusAt(w.pays, KeyOf(w, e)).Succeeded?)
    ensures OutlaysKept(Committing(w, e, now, sent))
  {
    hide Inv, OutlaysKept, RefundMove, RefundCovered, DmMatches;
    AtRow(w, e);
    DrivenUnfenced(w);
    if w.db.refunds[e].status.RPending? {
      CommitMoves(w, e, now, sent);
      CommitLands(w, e, now, sent);
      RestatedKept(w, Committing(w, e, now, sent), e);
    } else {
      NoOutlayStep(w, Committing(w, e, now, sent));
    }
  }

  lemma CountMoves(w: World, e: string, now: int)
    requires e in w.db.refunds && w.db.refunds[e].status.RPending? && RefundCovered(w, e) && DmMatches(w.db, e)
    ensures var w' := w.(db := AfterCount(w.db, e, now), driven := w.driven - {e});
            Restated(w, w', e) && RefundCovered(w', e) && DmMatches(w'.db, e)
  {
  }

  lemma CountKept(w: World, e: string, now: int)
    requires Inv(w) && e in w.driven
    ensures OutlaysKept(w.(db := AfterCount(w.db, e, now), driven := w.driven - {e}))
  {
    hide Inv, OutlaysKept, RefundMove, RefundCovered, DmMatches, Restated;
    AtRow(w, e);
    DrivenUnfenced(w);
    var w' := w.(db := AfterCount(w.db, e, now), driven := w.driven - {e});
    if w.db.refunds[e].status.RPending? {
      CountMoves(w, e, now);
      RestatedKept(w, w', e);
    } else {
      NoOutlayStep(w, w');
    }
  }

  lemma RetryMoves(w: World, e: string, now: int)
    requires RetryVerdict(w.db, e) == Requeued && RefundCovered(w, e)
    ensures var w' := w.(db := AfterRetry(w.db, e, now));
            Restated(w, w', e) && RefundCovered(w', e) && DmMatches(w'.db, e)
  {
    assert AfterRetry(w.db, e, now).outbox - {e} == w.db.outbox - {e};
  }

  lemma RetryKept(w: World, e: string, now: int)
    requires Inv(w)
    ensures OutlaysKept(w.(db := AfterRetry(w.db, e, now)))
  {
    hide Inv, OutlaysKept, RefundMove, RefundCovered, DmMatches, Restated;
    AtRow(w, e);
    if RetryVerdict(w.db, e) == Requeued {
      RetryMoves(w, e, now);
      RestatedKept(w, w.(db := AfterRetry(w.db, e, now)), e);
    } else {
      NoOutlayStep(w, w.(db := AfterRetry(w.db, e, now)));
    }
  }

  lemma ImportLands(w: World, e: string, now: int)
    requires OutlaysPlaced(w) && e in w.db.refunds && DmMatches(w.db, e) && RefundCovered(w, e)
    ensures RefundMove(w, Imported(w, e, now), e) && RefundLands(Imported(w, e, now), e)
    ensures OutOf(Imported(w, e, now), e) == OutOf(w, e)
  {
    var w' := Imported(w, e, now);
    forall k: PayKey ensures OutAt(w'.pays, k) == if k == KeyOf(w, e) then 0 else OutAt(w.pays, k) {}
  }

  lemma ImportKept(w: World, e: string, now: int)
    requires Inv(w) && e in w.db.refunds
    ensures OutlaysKept(Imported(w, e, now))
  {
    assert DmMatches(w.db, e) && RefundCovered(w, e);
    ImportLands(w, e, now);
    RefundStep(w, Imported(w, e, now), e);
  }

  function Returned(w: World, e: string): World {
    w.(legacy := w.legacy - {e}, wallet := w.wallet + At(w.legacy, e))
  }

  lemma ReturnLands(w: World, e: string)
    requires OutlaysPlaced(w) && e in w.db.refunds && DmMatches(w.db, e) && RefundCovered(w, e)
    ensures RefundMove(w, Returned(w, e), e) && RefundLands(Returned(w, e), e)
  {
    assert w.db.refunds == w.db.refunds[e := w.db.refunds[e]];
  }

  lemma LegacyReturnKept(w: World, e: string)
    requires Inv(w) && e in w.db.refunds
    ensures OutlaysKept(Returned(w, e))
  {
    assert DmMatches(w.db, e) && RefundCovered(w, e);
    ReturnLands(w, e);
    RefundStep(w, Returned(w, e), e);
  }

  lemma ClearedRefundKept(w: World, id: string, note: string, now: int)
    requires Inv(w) && !Blank(note) && ClearsRefund(w.db, id) && At(w.legacy, id) == 0
    ensures OutlaysKept(w.(db := AfterClearFence(w.db, id, note, now)))
  {
    hide Inv, OutlaysKept;
    AtRow(w, id);
    DrivenUnfenced(w);
    SetRowKept(w, w.(db := AfterClearFence(w.db, id, note, now)), id);
  }

  lemma ClearFenceKept(w: World, id: string, note: string, now: int)
    requires Inv(w) && BooksEnabled(w, ClearFence(id, note, now))
    ensures OutlaysKept(w.(db := AfterClearFence(w.db, id, note, now)))
  {
    var w' := w.(db := AfterClearFence(w.db, id, note, now));
    if !ClearVerdict(w.db, id, note).Cleared? {
      NoOutlayStep(w, w');
    } else if ClearsRefund(w.db, id) {
      ClearedRefundKept(w, id, note, now);
    } else {
      assert SweepCovered(w, id);
      SweepStep(w, w', id);
    }
  }

  lemma SetSweepPayLands(w: World, id: string, status: PayStatus, outlay: nat)
    requires id in w.db.sweeps && SweepCovered(w, id) && (Idle(status) ==> outlay == 0)
    requires outlay != 0 ==> !w.db.sweeps[id].status.RFailed?
    requires outlay + At(w.sweepLegacy, id) <= w.db.sweeps[id].maxOutlayMsat || outlay == 0
    requires At(w.sweepLegacy, id) != 0 ==> w.db.sweeps[id].fencedAt.Some?
    ensures var w' := SetSweepPay(w, id, status, outlay); SweepMove(w, w', id) && SweepLands(w', id)
  {
    assert w.db.sweeps == w.db.sweeps[id := w.db.sweeps[id]];
  }

  lemma SetSweepPayKept(w: World, id: string, status: PayStatus, outlay: nat)
    requires Inv(w) && id in w.db.sweeps && (Idle(status) ==> outlay == 0)
    requires outlay != 0 ==> !w.db.sweeps[id].status.RFailed?
    requires outlay + At(w.sweepLegacy, id) <= w.db.sweeps[id].maxOutlayMsat || outlay == 0
    requires outlay <= w.wallet + OutAt(w.sweepPays, id)
    ensures OutlaysKept(SetSweepPay(w, id, status, outlay))
  {
    hide Inv, OutlaysKept, SweepMove, SweepLands, SweepCovered;
    AtSweep(w, id);
    SetSweepPayLands(w, id, status, outlay);
    SweepStep(w, SetSweepPay(w, id, status, outlay), id);
  }

  lemma SetSweepKept(w: World, id: string, row: SweepRow)
    requires Inv(w)
    requires if id in w.db.sweeps then row.maxOutlayMsat == w.db.sweeps[id].maxOutlayMsat && row.fencedAt == w.db.sweeps[id].fencedAt
                                       && (row.status.RFailed? ==> OutAt(w.sweepPays, id) == 0)
             else true
    ensures OutlaysKept(SetSweep(w, id, row))
  {
    if id in w.db.sweeps { assert SweepCovered(w, id); }
    SweepStep(w, SetSweep(w, id, row), id);
  }

  /** A new sweep intent reuses only a failed, unfenced row, which keeps nothing out. */
  lemma SweepIntentKept(w: World, id: string, cap: nat)
    requires Inv(w) && SweepEnabled(w, SweepIntent(id, cap))
    ensures Inv(SetSweep(w, id, SweepRow(RPending, cap, None))) && OutAt(w.sweepPays, id) == 0
    ensures OutlaysKept(NextSweep(w, SweepIntent(id, cap)))
  {
    if id in w.db.sweeps { assert SweepCovered(w, id); }
    var w1 := SetSweep(w, id, SweepRow(RPending, cap, None));
    SweepStep(w, w1, id);
    if Idle(StatusAt(w.sweepPays, id)) { SetSweepPayKept(w1, id, PayPending, 0); }
  }

  lemma SweepImportLands(w: World, id: string, now: int)
    requires OutlaysPlaced(w) && id in w.db.sweeps && SweepCovered(w, id)
    ensures SweepMove(w, SweepImported(w, id, now), id) && SweepLands(SweepImported(w, id, now), id)
    ensures SweepOutOf(SweepImported(w, id, now), id) == SweepOutOf(w, id)
  {
  }

  lemma SweepImportKept(w: World, id: string, now: int)
    requires Inv(w) && id in w.db.sweeps
    ensures OutlaysKept(SweepImported(w, id, now))
  {
    assert SweepCovered(w, id);
    SweepImportLands(w, id, now);
    SweepStep(w, SweepImported(w, id, now), id);
  }

  function SweepReturned(w: World, id: string): World {
    w.(sweepLegacy := w.sweepLegacy - {id}, wallet := w.wallet + At(w.sweepLegacy, id))
  }

  lemma SweepReturnLands(w: World, id: string)
    requires id in w.db.sweeps && SweepCovered(w, id)
    requires OutAt(w.sweepPays, id) != 0 ==> !w.db.sweeps[id].status.RFailed? && !Idle(StatusAt(w.sweepPays, id))
    ensures SweepMove(w, SweepReturned(w, id), id) && SweepLands(SweepReturned(w, id), id)
  {
    assert w.db.sweeps == w.db.sweeps[id := w.db.sweeps[id]];
  }

  lemma SweepReturnKept(w: World, id: string)
    requires Inv(w) && id in w.db.sweeps
    ensures OutlaysKept(SweepReturned(w, id))
  {
    hide Inv, OutlaysKept, SweepMove, SweepLands, SweepCovered;
    AtSweep(w, id);
    SweepReturnLands(w, id);
    SweepStep(w, SweepReturned(w, id), id);
  }

  lemma ReceiveKept(w: World, e: string, m: nat)
    requires Inv(w)
    ensures OutlaysKept(w.(credits := w.credits[e := At(w.credits, e) + m], wallet := w.wallet + m))
  {
    hide Inv, OutlaysKept;
    AtRow(w, e);
    SumPut(w.credits, e, At(w.credits, e) + m);
    NoOutlayStep(w, w.(credits := w.credits[e := At(w.credits, e) + m], wallet := w.wallet + m));
  }

  // ----- receipts

  /** Nothing the receipts are read from moved, except journal rows that carry no receipt and larger credits. */
  lemma SameReceipts(w: World, w': World, row: LogRow)
    requires ReceiptsReal(w) && w'.db.invoices == w.db.invoices
    requires w'.db.log == w.db.log || (w'.db.log == w.db.log + [row] && !IsSettleRefund(row.kind))
    requires forall e :: At(w.credits, e) <= At(w'.credits, e)
    ensures ReceiptsReal(w')
  {
    forall e ensures Receipt(w'.db, e) <= At(w'.credits, e) {
      if w'.db.log != w.db.log { ActuatorReceipt(w.db, row, e); }
      assert Receipt(w'.db, e) == Receipt(w.db, e);
    }
  }

  lemma CaptureReceipts(w: World, s: Settlement, now: int)
    requires ReceiptsReal(w) && s.receivedMsat <= At(w.credits, s.externalId)
    ensures ReceiptsReal(w.(db := AfterCapture(w.db, s, now)))
  {
    forall e ensures Receipt(AfterCapture(w.db, s, now), e) <= At(w.credits, e) {
      CaptureReceipt(w.db, s, now, e);
    }
  }

  lemma OneInvoiceReceipts(w: World, e: string, inv: Invoice)
    requires ReceiptsReal(w) && Unstamped(inv) && (e in w.db.invoices ==> !IsSettled(w.db.invoices[e])) && !IsSettled(inv)
    ensures ReceiptsReal(w.(db := w.db.(invoices := w.db.invoices[e := inv])))
  {
    var w' := w.(db := w.db.(invoices := w.db.invoices[e := inv]));
    forall k ensures Receipt(w'.db, k) == Receipt(w.db, k) {
      assert InvoiceReceipt(w'.db, k) == InvoiceReceipt(w.db, k);
    }
  }

  lemma BookReceipts(w: World, ev: Delivery.Event)
    requires ReceiptsReal(w) && (ev.Deliver? ==> ev.s.receivedMsat <= At(w.credits, ev.s.externalId))
    ensures ReceiptsReal(w.(db := Delivery.Apply(w.db, ev)))
  {
    match ev
    case Deliver(s, now) => CaptureReceipts(w, s, now);
    case ExpireInvoice(ext) =>
      if ext in w.db.invoices && w.db.invoices[ext].status.Open? {
        OneInvoiceReceipts(w, ext, w.db.invoices[ext].(status := Expired));
      }
    case Admin(id, suspend, at) =>
      var row := if suspend then LogRow(Some(id), AdminSuspend, StateDetail(Suspended), at)
                 else LogRow(Some(id), AdminResume, StateDetail(Active), at);
      SameReceipts(w, w.(db := Delivery.Apply(w.db, ev)), row);
  }

  /** A row that is never journalled: the frame for steps that leave the journal alone. */
  function NoRow(): LogRow { LogRow(None, AdminResume, StateDetail(Active), 0) }

  lemma RetryReceipts(w: World, ext: string, now: int)
    requires ReceiptsReal(w)
    ensures ReceiptsReal(w.(db := AfterRetry(w.db, ext, now)))
  {
    var row := if ext in w.db.refunds then LogRow(w.db.refunds[ext].subId, RefundRetryRequested, RefundDetail(ext), now) else NoRow();
    SameReceipts(w, w.(db := AfterRetry(w.db, ext, now)), row);
  }

  function ClearedRow(db: Db, id: string, note: string, now: int): LogRow {
    FenceRow(id, if ClearsRefund(db, id) then RefundAttempt else SweepAttempt, note, now)
  }

  lemma ClearFenceLog(db: Db, id: string, note: string, now: int)
    ensures var db' := AfterClearFence(db, id, note, now);
            db'.invoices == db.invoices
            && (db'.log == db.log || db'.log == db.log + [ClearedRow(db, id, note, now)])
  {
    hide Blank;
  }

  lemma ClearFenceReceipts(w: World, id: string, note: string, now: int)
    requires ReceiptsReal(w)
    ensures ReceiptsReal(w.(db := AfterClearFence(w.db, id, note, now)))
  {
    hide ReceiptsReal, AfterClearFence;
    ClearFenceLog(w.db, id, note, now);
    SameReceipts(w, w.(db := AfterClearFence(w.db, id, note, now)), ClearedRow(w.db, id, note, now));
  }

  lemma CreditReceipts(w: World, e: string, m: nat)
    requires ReceiptsReal(w)
    ensures ReceiptsReal(w.(credits := w.credits[e := At(w.credits, e) + m], wallet := w.wallet + m))
  {
  }

  // ----- the theorem

  lemma SendKept(w: World, e: string, outlay: nat)
    requires Inv(w) && e in w.db.refunds && outlay <= CapMsat(w.db.refunds[e]) && outlay <= w.wallet && w.db.refunds[e].fencedAt.None?
    ensures OutlaysKept(SetPay(w, e, PayPending, outlay))
  {
    hide Inv, OutlaysKept;
    AtRow(w, e);
    SetPayKept(w, e, PayPending, outlay);
  }

  /** A pay row that is prepared, pending or settled keeps exactly what it kept before. */
  lemma WitnessKept(w: World, e: string, status: PayStatus)
    requires Inv(w) && e in w.db.refunds && (status.PayPending? || status.Succeeded?)
    ensures OutlaysKept(SetPay(w, e, status, OutAt(w.pays, KeyOf(w, e))))
  {
    hide Inv, OutlaysKept;
    AtRow(w, e);
    SetPayKept(w, e, status, OutAt(w.pays, KeyOf(w, e)));
  }

  lemma FailPayKept(w: World, e: string)
    requires Inv(w) && e in w.db.refunds
    ensures OutlaysKept(SetPay(w, e, PayFailed, 0))
  {
    hide Inv, OutlaysKept;
    AtRow(w, e);
    SetPayKept(w, e, PayFailed, 0);
  }

  lemma SweepSendKept(w: World, id: string, outlay: nat)
    requires Inv(w) && SweepEnabled(w, SweepSend(id, outlay))
    ensures OutlaysKept(SetSweepPay(w, id, PayPending, outlay))
  {
    hide Inv, OutlaysKept;
    AtSweep(w, id);
    SetSweepPayKept(w, id, PayPending, outlay);
  }

  lemma SweepSettleKept(w: World, id: string)
    requires Inv(w) && id in w.db.sweeps
    ensures OutlaysKept(SetSweepPay(w, id, Succeeded, OutAt(w.sweepPays, id)))
  {
    hide Inv, OutlaysKept;
    AtSweep(w, id);
    SetSweepPayKept(w, id, Succeeded, OutAt(w.sweepPays, id));
  }

  lemma SweepFailKept(w: World, id: string)
    requires Inv(w) && id in w.db.sweeps
    ensures OutlaysKept(SetSweepPay(w, id, PayFailed, 0))
  {
    hide Inv, OutlaysKept;
    AtSweep(w, id);
    SetSweepPayKept(w, id, PayFailed, 0);
  }

  lemma SweepFailedKept(w: World, id: string)
    requires Inv(w) && SweepEnabled(w, SweepFailed(id))
    ensures OutlaysKept(SetSweep(w, id, w.db.sweeps[id].(status := RFailed)))
  {
    hide Inv, OutlaysKept;
    AtSweep(w, id);
    SetSweepKept(w, id, w.db.sweeps[id].(status := RFailed));
  }

  lemma OweKept(w: World, e: string, row: RefundRow)
    requires Inv(w) && row.status.RPending? && row.fencedAt.None?
    ensures OutlaysKept(if e in w.db.refunds then w else SetRow(w, e, row))
  {
    hide Inv, OutlaysKept;
    if e in w.db.refunds {
      NoOutlayStep(w, w);
    } else {
      InsertKept(w, SetRow(w, e, row), e);
    }
  }

  lemma DriveKept(w: World, e: string)
    requires Inv(w) && e in w.db.refunds && w.db.refunds[e].fencedAt.None?
    ensures OutlaysKept(w.(driven := w.driven + {e}))
  {
    hide Inv, OutlaysKept;
    DrivenUnfenced(w);
    SameOutlaysKept(w, w.(driven := w.driven + {e}));
  }

  lemma BooksKept(w: World, b: BooksAct)
    requires Inv(w) && BooksEnabled(w, b)
    ensures OutlaysKept(NextBooks(w, b))
  {
    hide Inv, OutlaysKept;
    match b
    case Receive(e, m) => ReceiveKept(w, e, m);
    case Book(ev) => BookKept(w, ev);
    case OpenInvoice(_, _) => NoOutlayStep(w, NextBooks(w, b));
    case OweRefund(e, subId, dest, amountSat, now) => OweKept(w, e, FreshRefund(subId, dest, amountSat, now));
    case Drive(e) => DriveKept(w, e);
    case CommitSent(e, now) => CommitKept(w, e, now, true);
    case Park(e, now) => CommitKept(w, e, now, false);
    case CountFailure(e, now) => CountKept(w, e, now);
    case Retry(e, now) => RetryKept(w, e, now);
    case ClearFence(id, note, now) => ClearFenceKept(w, id, note, now);
    case Boot => NoOutlayStep(w, NextBooks(w, b));
  }

  lemma PayKept(w: World, p: PayAct)
    requires Inv(w) && PayEnabled(w, p)
    ensures OutlaysKept(NextPay(w, p))
  {
    hide Inv, OutlaysKept;
    match p
    case Prepare(e) => WitnessKept(w, e, PayPending);
    case Send(e, outlay) => SendKept(w, e, outlay);
    case Settle(e) => WitnessKept(w, e, Succeeded);
    case FailPay(e) => FailPayKept(w, e);
    case Reresolve(e, gen) => ReresolveKept(w, e, gen);
    case Import(e, now) => ImportKept(w, e, now);
    case LegacyReturn(e) => LegacyReturnKept(w, e);
  }

  lemma SweepKept(w: World, s: SweepAct)
    requires Inv(w) && SweepEnabled(w, s)
    ensures OutlaysKept(NextSweep(w, s))
  {
    hide Inv, OutlaysKept;
    match s
    case SweepIntent(id, cap) => SweepIntentKept(w, id, cap);
    case SweepSend(id, outlay) => SweepSendKept(w, id, outlay);
    case SweepSettle(id) => SweepSettleKept(w, id);
    case SweepFail(id) => SweepFailKept(w, id);
    case SweepSent(id) => SetSweepKept(w, id, w.db.sweeps[id].(status := RSent));
    case SweepFailed(id) => SweepFailedKept(w, id);
    case SweepImport(id, now) => SweepImportKept(w, id, now);
    case SweepLegacyReturn(id) => SweepReturnKept(w, id);
  }

  lemma StepKeepsOutlays(w: World, step: Step)
    requires Inv(w) && Enabled(w, step)
    ensures OutlaysKept(Next(w, step))
  {
    hide Inv, OutlaysKept, NextBooks, NextPay, NextSweep, BooksEnabled, PayEnabled, SweepEnabled;
    match step
    case OnBooks(b) => BooksKept(w, b);
    case OnPay(p) => PayKept(w, p);
    case OnSweep(s) => SweepKept(w, s);
  }

  /** What a driver's commit journals: no settle-refund kind, so no receipt. */
  function DriverRow(db: Db, e: string, kind: LogKind, now: int): LogRow {
    LogRow(if e in db.refunds then db.refunds[e].subId else None, kind, ExtDetail(e), now)
  }

  lemma DriverReceipts(w: World, b: BooksAct)
    requires ReceiptsReal(w) && BooksEnabled(w, b) && (b.CommitSent? || b.Park? || b.CountFailure?)
    ensures ReceiptsReal(NextBooks(w, b))
  {
    hide ReceiptsReal;
    match b
    case CommitSent(e, now) => SameReceipts(w, NextBooks(w, b), DriverRow(w.db, e, RefundSent, now));
    case Park(e, now) => SameReceipts(w, NextBooks(w, b), DriverRow(w.db, e, RefundFailed, now));
    case CountFailure(e, now) => SameReceipts(w, NextBooks(w, b), DriverRow(w.db, e, RefundRetried, now));
  }

  lemma BooksActReceipts(w: World, b: BooksAct)
    requires ReceiptsReal(w) && BooksEnabled(w, b)
    ensures ReceiptsReal(NextBooks(w, b))
  {
    hide ReceiptsReal;
    match b
    case Receive(e, m) => CreditReceipts(w, e, m);
    case Book(ev) => BookReceipts(w, ev);
    case OpenInvoice(e, inv) => OneInvoiceReceipts(w, e, inv);
    case OweRefund(_, _, _, _, _) => SameReceipts(w, NextBooks(w, b), NoRow());
    case Drive(_) => SameReceipts(w, NextBooks(w, b), NoRow());
    case CommitSent(_, _) => DriverReceipts(w, b);
    case Park(_, _) => DriverReceipts(w, b);
    case CountFailure(_, _) => DriverReceipts(w, b);
    case Retry(e, now) => RetryReceipts(w, e, now);
    case ClearFence(id, note, now) => ClearFenceReceipts(w, id, note, now);
    case Boot => SameReceipts(w, NextBooks(w, b), NoRow());
  }

  lemma PayReceipts(w: World, p: PayAct)
    requires ReceiptsReal(w) && PayEnabled(w, p)
    ensures ReceiptsReal(NextPay(w, p))
  {
    hide ReceiptsReal;
    match p
    case Prepare(_) => SameReceipts(w, NextPay(w, p), NoRow());
    case Send(_, _) => SameReceipts(w, NextPay(w, p), NoRow());
    case Settle(_) => SameReceipts(w, NextPay(w, p), NoRow());
    case FailPay(_) => SameReceipts(w, NextPay(w, p), NoRow());
    case Reresolve(_, _) => SameReceipts(w, NextPay(w, p), NoRow());
    case Import(_, _) => SameReceipts(w, NextPay(w, p), NoRow());
    case LegacyReturn(_) => SameReceipts(w, NextPay(w, p), NoRow());
  }

  lemma SweepReceipts(w: World, s: SweepAct)
    requires ReceiptsReal(w) && SweepEnabled(w, s)
    ensures ReceiptsReal(NextSweep(w, s))
  {
    hide ReceiptsReal;
    match s
    case SweepIntent(_, _) => SameReceipts(w, NextSweep(w, s), NoRow());
    case SweepSend(_, _) => SameReceipts(w, NextSweep(w, s), NoRow());
    case SweepSettle(_) => SameReceipts(w, NextSweep(w, s), NoRow());
    case SweepFail(_) => SameReceipts(w, NextSweep(w, s), NoRow());
    case SweepSent(_) => SameReceipts(w, NextSweep(w, s), NoRow());
    case SweepFailed(_) => SameReceipts(w, NextSweep(w, s), NoRow());
    case SweepImport(_, _) => SameReceipts(w, NextSweep(w, s), NoRow());
    case SweepLegacyReturn(_) => SameReceipts(w, NextSweep(w, s), NoRow());
  }

  lemma StepKeepsReceipts(w: World, step: Step)
    requires ReceiptsReal(w) && Enabled(w, step)
    ensures ReceiptsReal(Next(w, step))
  {
    hide ReceiptsReal, NextBooks, NextPay, NextSweep, BooksEnabled, PayEnabled, SweepEnabled;
    match step
    case OnBooks(b) => BooksActReceipts(w, b);
    case OnPay(p) => PayReceipts(w, p);
    case OnSweep(s) => SweepReceipts(w, s);
  }

  lemma StepKeepsInv(w: World, step: Step)
    requires Inv(w) && Enabled(w, step)
    ensures Inv(Next(w, step))
  {
    hide Enabled, Next, ReceiptsReal, OutlaysPlaced, Covered, Conserved, MessagesCurrent;
    StepKeepsReceipts(w, step);
    StepKeepsOutlays(w, step);
  }

  /** A run: each step is enabled where it happens. */
  predicate Valid(w: World, steps: seq<Step>)
    decreases |steps|
  {
    steps == [] || (Enabled(w, steps[0]) && Valid(Next(w, steps[0]), steps[1..]))
  }

  function After(w: World, steps: seq<Step>): World
    requires Valid(w, steps)
    decreases |steps|
  {
    if steps == [] then w else After(Next(w, steps[0]), steps[1..])
  }

  lemma {:induction false} RunKeepsInv(w: World, steps: seq<Step>)
    requires Inv(w) && Valid(w, steps)
    ensures Inv(After(w, steps))
    decreases |steps|
  {
    hide Inv, Enabled, Next;
    if steps != [] {
      StepKeepsInv(w, steps[0]);
      RunKeepsInv(Next(w, steps[0]), steps[1..]);
    }
  }

  /** Books with nothing received and nothing paid out; invoices may be open or expired. */
  ghost predicate Start(w: World) {
    && Delivery.Clean(w.db) && w.db.refunds == map[] && w.db.sweeps == map[] && w.db.outbox == map[]
    && w.pays == map[] && w.sweepPays == map[] && w.legacy == map[] && w.sweepLegacy == map[] && w.driven == {}
    && w.credits == map[] && w.wallet == 0
  }

  lemma StartIsInv(w: World)
    requires Start(w)
    ensures Inv(w)
  {
    forall e ensures Receipt(w.db, e) == 0 { assert Delivery.Untouched(w.db, e); }
    forall e | e in w.db.invoices ensures Unstamped(w.db.invoices[e]) { assert Delivery.Untouched(w.db, e); }
    assert RefundOut(w) == map[] && SweepOut(w) == map[];
  }

  /**
  In every state any run reaches, the books' expected holdings are at most the real wallet, the wallet is exactly
  credits minus outlays, and every refund message states its row's current outcome.
  */
  lemma EveryRunIsCovered(w: World, steps: seq<Step>)
    requires Start(w) && Valid(w, steps)
    ensures var end := After(w, steps);
            && Expected(end.db, StatusesOf(end.pays)) <= end.wallet
            && end.wallet == Sum(end.credits) - Sum(RefundOut(end)) - Sum(SweepOut(end))
            && forall e :: DmMatches(end.db, e)
  {
    StartIsInv(w);
    RunKeepsInv(w, steps);
    ExpectedIsALowerBound(After(w, steps));
  }
}
