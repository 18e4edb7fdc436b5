/**
The books' lower bound on the wallet: receipts, minus committed refund caps, minus sweep caps.

The loops of the ledger run over result sets whose row order the database chooses; each is proved to
compute a figure that is a function of the tables alone.
*/
module Ledger {
  import opened Wrappers
  import opened Books
  import opened Sums

  /** What the payment backend answers for one pay key; `Unknown` is "no row". */
  datatype PayStatus = Unknown | PayPending | Succeeded | PayFailed

  /** A backend pay key: the external id and the resolution generation. */
  datatype PayKey = PayKey(ext: string, gen: nat)

  predicate Committed(status: RefundStatus, fenced: bool, pay: PayStatus) {
    status.RSent? || fenced || pay.PayPending? || pay.Succeeded?
  }

  function Sat(a: nat, b: nat): nat { if a < b then 0 else a - b }

  function Positive(amount: Option<int>): Option<nat> {
    match amount
    case Some(a) => if 0 < a then Some(a) else None
    case None => None
  }

  // ----- the JSON and SQL expressions of the receipt queries

  function JsonExt(d: Detail): Option<string> {
    match d
    case SettleDetail(ext, _, _, _) => Some(ext)
    case ResumeDetail(ext, _, _, _, _, _, _) => Some(ext)
    case LegacyDetail(ext, _, _) => ext
    case ExtDetail(ext) => Some(ext)
    case _ => None
  }

  /** COALESCE(received_msat, amount_sat * 1000) of one journal entry. */
  function JournalCredit(d: Detail): Option<int> {
    match d
    case SettleDetail(_, _, received, _) => Some(received)
    case ResumeDetail(_, _, _, received, _, _, _) => Some(received)
    case LegacyDetail(_, amount, received) =>
      if received.Some? then received else if amount.Some? then Some(amount.value * 1000) else None
    case _ => None
  }

  predicate SettlesFor(row: LogRow, ext: string) {
    IsSettleRefund(row.kind) && JsonExt(row.detail) == Some(ext)
  }

  /** MAX over optional values: NULLs are skipped. */
  function MaxOption(a: Option<int>, b: Option<int>): Option<int> {
    if a.None? then b else if b.None? then a else Some(Max(a.value, b.value))
  }

  /** The GROUP BY / MAX figure of one external id over the settle-refund journal rows. */
  function ClassB(log: seq<LogRow>, ext: string): Option<int> {
    if log == [] then None
    else
      var row := log[|log| - 1];
      var earlier := ClassB(log[..|log| - 1], ext);
      if SettlesFor(row, ext) then MaxOption(earlier, JournalCredit(row.detail)) else earlier
  }

  predicate IsSettled(inv: Invoice) { inv.status.Paid? || inv.settledAt.Some? }

  /** COALESCE(received_msat, CASE WHEN amount_sat > 0 THEN amount_sat * 1000 END) of one invoice. */
  function ClassA(inv: Invoice): Option<int> {
    if inv.receivedMsat.Some? then inv.receivedMsat
    else if inv.amountSat.Some? && 0 < inv.amountSat.value then Some(inv.amountSat.value * 1000)
    else None
  }

  function InvoiceReceipt(db: Db, ext: string): nat {
    if ext in db.invoices && IsSettled(db.invoices[ext]) then Positive(ClassA(db.invoices[ext])).GetOr(0) else 0
  }

  /** What the books believe was received under `ext`, each provenance class counted at most once. */
  function Receipt(db: Db, ext: string): nat {
    if InvoiceReceipt(db, ext) != 0 then InvoiceReceipt(db, ext) else Positive(ClassB(db.log, ext)).GetOr(0)
  }

  function LogExts(log: seq<LogRow>): set<string> {
    set i | 0 <= i < |log| && JsonExt(log[i].detail).Some? :: JsonExt(log[i].detail).value
  }

  function Receipts(db: Db): map<string, nat> {
    map e | e in db.invoices.Keys + LogExts(db.log) :: Receipt(db, e)
  }

  lemma {:induction false} ClassBNeedsARow(log: seq<LogRow>, ext: string)
    requires ClassB(log, ext) != None
    ensures ext in LogExts(log)
  {
    var n := |log| - 1;
    if SettlesFor(log[n], ext) {
      assert JsonExt(log[n].detail).value in LogExts(log);
    } else {
      ClassBNeedsARow(log[..n], ext);
      var i :| 0 <= i < n && JsonExt(log[..n][i].detail) == Some(ext);
      assert JsonExt(log[i].detail).value in LogExts(log);
    }
  }

  /** `Receipts` misses no receipt: outside its domain the figure is 0. */
  lemma ReceiptsAt(db: Db, ext: string)
    ensures At(Receipts(db), ext) == Receipt(db, ext)
  {
    if ClassB(db.log, ext) != None { ClassBNeedsARow(db.log, ext); }
  }

  // ----- sum_receipts_msat

  /** `rows` is the Class A result set in some order. */
  ghost predicate InvoiceScan(rows: seq<(string, Option<int>)>, db: Db) {
    (forall i, j :: 0 <= i < j < |rows| ==> rows[i].0 != rows[j].0)
    && (forall i :: 0 <= i < |rows| ==> rows[i].0 in db.invoices && IsSettled(db.invoices[rows[i].0])
                                        && rows[i].1 == ClassA(db.invoices[rows[i].0]))
    && (forall e :: e in db.invoices && IsSettled(db.invoices[e]) ==> exists i :: 0 <= i < |rows| && rows[i].0 == e)
  }

  /** `rows` is the Class B result set in some order: one group per external id that has entries. */
  ghost predicate JournalScan(rows: seq<(Option<string>, Option<int>)>, db: Db) {
    (forall i, j :: 0 <= i < j < |rows| ==> rows[i].0 != rows[j].0)
    && (forall i :: 0 <= i < |rows| && rows[i].0.Some? ==> rows[i].1 == ClassB(db.log, rows[i].0.value))
    && (forall e :: ClassB(db.log, e) != None ==> exists i :: 0 <= i < |rows| && rows[i].0 == Some(e))
  }

  /** The first pass: positive invoice credits, keyed by external id. */
  function CollectA(rows: seq<(string, Option<int>)>): map<string, nat> {
    if rows == [] then map[]
    else
      var row := rows[|rows| - 1];
      var earlier := CollectA(rows[..|rows| - 1]);
      var msat := Positive(row.1);
      if msat.Some? then earlier[row.0 := msat.value] else earlier
  }

  /** The second pass on top of the first: an id that is already there keeps its entry. */
  function CollectB(base: map<string, nat>, rows: seq<(Option<string>, Option<int>)>): map<string, nat> {
    if rows == [] then base
    else
      var row := rows[|rows| - 1];
      var earlier := CollectB(base, rows[..|rows| - 1]);
      var msat := Positive(row.1);
      if row.0.Some? && msat.Some? && row.0.value !in earlier then earlier[row.0.value := msat.value] else earlier
  }

  lemma {:induction false} CollectAAt(rows: seq<(string, Option<int>)>, e: string)
    requires forall i, j :: 0 <= i < j < |rows| ==> rows[i].0 != rows[j].0
    ensures e in CollectA(rows) ==> exists i :: 0 <= i < |rows| && rows[i].0 == e
    ensures forall i :: 0 <= i < |rows| && rows[i].0 == e ==> At(CollectA(rows), e) == Positive(rows[i].1).GetOr(0)
  {
    if rows != [] {
      var n := |rows| - 1;
      CollectAAt(rows[..n], e);
      assert forall i :: 0 <= i < n ==> rows[..n][i] == rows[i];
    }
  }

  lemma {:induction false} CollectBAt(base: map<string, nat>, rows: seq<(Option<string>, Option<int>)>, e: string)
    requires forall i, j :: 0 <= i < j < |rows| ==> rows[i].0 != rows[j].0
    ensures e in base ==> e in CollectB(base, rows) && CollectB(base, rows)[e] == base[e]
    ensures e !in base && e in CollectB(base, rows) ==> exists i :: 0 <= i < |rows| && rows[i].0 == Some(e)
    ensures e !in base ==> forall i :: 0 <= i < |rows| && rows[i].0 == Some(e) ==>
              At(CollectB(base, rows), e) == Positive(rows[i].1).GetOr(0)
  {
    if rows != [] {
      var n := |rows| - 1;
      CollectBAt(base, rows[..n], e);
      assert forall i :: 0 <= i < n ==> rows[..n][i] == rows[i];
    }
  }

  /** Row order does not matter: both passes together hold each receipt of the tables, once. */
  lemma CollectedIsReceipt(invoiceRows: seq<(string, Option<int>)>, journalRows: seq<(Option<string>, Option<int>)>,
                           db: Db, e: string)
    requires InvoiceScan(invoiceRows, db) && JournalScan(journalRows, db)
    ensures At(CollectB(CollectA(invoiceRows), journalRows), e) == Receipt(db, e)
  {
    var base := CollectA(invoiceRows);
    CollectAAt(invoiceRows, e);
    assert At(base, e) == InvoiceReceipt(db, e);
    CollectAPositive(invoiceRows, e);
    CollectBAt(base, journalRows, e);
    if e !in base && ClassB(db.log, e) == None {
      assert forall i :: 0 <= i < |journalRows| && journalRows[i].0 == Some(e) ==> journalRows[i].1 == None;
    }
  }

  lemma {:induction false} CollectAPositive(rows: seq<(string, Option<int>)>, e: string)
    ensures e in CollectA(rows) ==> CollectA(rows)[e] != 0
  {
    if rows != [] {
      CollectAPositive(rows[..|rows| - 1], e);
    }
  }

  /** The two-pass sum: whatever order the rows come in, it is the total of `Receipts`. */
  method SumReceiptsMsat(invoiceRows: seq<(string, Option<int>)>, journalRows: seq<(Option<string>, Option<int>)>,
                         ghost db: Db) returns (sum: nat)
    requires InvoiceScan(invoiceRows, db) && JournalScan(journalRows, db)
    ensures sum == Sum(Receipts(db))
  {
    var receivedByExt: map<string, nat> := map[];
    for i := 0 to |invoiceRows|
      invariant receivedByExt == CollectA(invoiceRows[..i])
    {
      assert invoiceRows[..i + 1][..i] == invoiceRows[..i];
      var msat := Positive(invoiceRows[i].1);
      if msat.Some? {
        receivedByExt := receivedByExt[invoiceRows[i].0 := msat.value];
      }
    }
    assert invoiceRows[..|invoiceRows|] == invoiceRows;
    for i := 0 to |journalRows|
      invariant receivedByExt == CollectB(CollectA(invoiceRows), journalRows[..i])
    {
      assert journalRows[..i + 1][..i] == journalRows[..i];
      var (ext, received) := journalRows[i];
      var msat := Positive(received);
      if ext.Some? && msat.Some? && ext.value !in receivedByExt {
        receivedByExt := receivedByExt[ext.value := msat.value];
      }
    }
    assert journalRows[..|journalRows|] == journalRows;
    sum := SumValues(receivedByExt);
    forall e ensures At(receivedByExt, e) == At(Receipts(db), e) {
      CollectedIsReceipt(invoiceRows, journalRows, db, e);
      ReceiptsAt(db, e);
    }
    SumSame(receivedByExt, Receipts(db));
  }

  method SumValues(m: map<string, nat>) returns (sum: nat)
    ensures sum == Sum(m)
  {
    sum := 0;
    var rest := m;
    while rest != map[]
      invariant sum + Sum(rest) == Sum(m)
      decreases |rest|
    {
      var k :| k in rest;
      SumRemove(rest, k);
      sum := sum + rest[k];
      rest := rest - {k};
    }
  }

  // ----- refund commitments

  /** One refund attempt as the books see it; `pay` is `Unknown` until observed. */
  datatype Commitment = Commitment(ext: string, payKey: PayKey, amountMsat: nat, status: RefundStatus, fenced: bool,
                                   pay: PayStatus)
  {
    predicate IsCommitted() { Committed(status, fenced, pay) }
  }

  function CapMsat(row: RefundRow): nat { Positive(row.amountSat).GetOr(0) * 1000 }

  function WitnessOf(pays: map<PayKey, PayStatus>, key: PayKey): PayStatus {
    if key in pays then pays[key] else Unknown
  }

  function IsCommittedRow(ext: string, row: RefundRow, pays: map<PayKey, PayStatus>): bool {
    Committed(row.status, row.fencedAt.Some?, WitnessOf(pays, PayKey(ext, row.gen)))
  }

  /** The cap each refund row takes out of the books, 0 while it is not committed. */
  function CommittedCaps(refunds: map<string, RefundRow>, pays: map<PayKey, PayStatus>): map<string, nat> {
    map e | e in refunds :: if IsCommittedRow(e, refunds[e], pays) then CapMsat(refunds[e]) else 0
  }

  function SweepCaps(sweeps: map<string, SweepRow>): map<string, nat> {
    map id | id in sweeps :: if !sweeps[id].status.RFailed? || sweeps[id].fencedAt.Some? then sweeps[id].maxOutlayMsat else 0
  }

  /** Σ receipts - Σ committed refund caps - Σ sweep caps, saturating at 0 twice. */
  ghost function Expected(db: Db, pays: map<PayKey, PayStatus>): nat {
    Sat(Sat(Sum(Receipts(db)), Sum(CommittedCaps(db.refunds, pays))), Sum(SweepCaps(db.sweeps)))
  }

  /** `ids` lists the refund rows once each, in the order the database returned them. */
  ghost predicate RefundScan(ids: seq<string>, refunds: map<string, RefundRow>) {
    (forall i, j :: 0 <= i < j < |ids| ==> ids[i] != ids[j])
    && (forall e :: e in refunds <==> exists i :: 0 <= i < |ids| && ids[i] == e)
  }

  /** The unobserved commitment of one row. */
  function CommitmentOf(ext: string, row: RefundRow): Commitment {
    Commitment(ext, PayKey(ext, row.gen), CapMsat(row), row.status, row.fencedAt.Some?, Unknown)
  }

  /** Read every refund row into a commitment, in the order the rows come. */
  method LoadRefundCommitments(ids: seq<string>, refunds: map<string, RefundRow>) returns (out: seq<Commitment>)
    requires RefundScan(ids, refunds)
    ensures |out| == |ids|
    ensures forall i :: 0 <= i < |ids| ==> ids[i] in refunds && out[i] == CommitmentOf(ids[i], refunds[ids[i]])
  {
    out := [];
    for k := 0 to |ids|
      invariant |out| == k
      invariant forall i :: 0 <= i < k ==> ids[i] in refunds && out[i] == CommitmentOf(ids[i], refunds[ids[i]])
    {
      assert ids[k] in refunds;
      out := out + [CommitmentOf(ids[k], refunds[ids[k]])];
    }
  }

  /** Probe the witness of every row that is not committed already; a row that is keeps `Unknown`. */
  method Observe(rows: array<Commitment>, pays: map<PayKey, PayStatus>)
    modifies rows
    ensures forall i :: 0 <= i < rows.Length ==>
      rows[i] == if old(rows[i].IsCommitted()) then old(rows[i])
                 else old(rows[i]).(pay := WitnessOf(pays, old(rows[i]).payKey))
  {
    for i := 0 to rows.Length
      invariant forall j :: i <= j < rows.Length ==> rows[j] == old(rows[j])
      invariant forall j :: 0 <= j < i ==>
        rows[j] == if old(rows[j].IsCommitted()) then old(rows[j])
                   else old(rows[j]).(pay := WitnessOf(pays, old(rows[j]).payKey))
    {
      if !rows[i].IsCommitted() {
        rows[i] := rows[i].(pay := WitnessOf(pays, rows[i].payKey));
      }
    }
  }

  /** The rows after `Observe`, as a result set of the refund table against the witnesses `pays`. */
  ghost predicate Observed(rows: seq<Commitment>, ids: seq<string>, refunds: map<string, RefundRow>,
                           pays: map<PayKey, PayStatus>) {
    RefundScan(ids, refunds) && |rows| == |ids|
    && forall i :: 0 <= i < |ids| ==>
         ids[i] in refunds && rows[i].amountMsat == CapMsat(refunds[ids[i]])
         && rows[i].IsCommitted() == IsCommittedRow(ids[i], refunds[ids[i]], pays)
  }

  /** The committed caps of a result set, keyed by row. */
  ghost function CapsOf(rows: seq<Commitment>, ids: seq<string>): map<string, nat>
    requires |rows| == |ids|
  {
    if rows == [] then map[]
    else
      var n := |rows| - 1;
      CapsOf(rows[..n], ids[..n])[ids[n] := if rows[n].IsCommitted() then rows[n].amountMsat else 0]
  }

  lemma {:induction false} CapsOfAt(rows: seq<Commitment>, ids: seq<string>, e: string)
    requires |rows| == |ids|
    requires forall i, j :: 0 <= i < j < |ids| ==> ids[i] != ids[j]
    ensures e in CapsOf(rows, ids) <==> exists i :: 0 <= i < |ids| && ids[i] == e
    ensures forall i :: 0 <= i < |ids| && ids[i] == e ==>
              CapsOf(rows, ids)[e] == if rows[i].IsCommitted() then rows[i].amountMsat else 0
  {
    if rows != [] {
      var n := |rows| - 1;
      CapsOfAt(rows[..n], ids[..n], e);
      assert forall i :: 0 <= i < n ==> ids[..n][i] == ids[i] && rows[..n][i] == rows[i];
    }
  }

  function CommittedTotal(rows: seq<Commitment>): nat {
    if rows == [] then 0
    else CommittedTotal(rows[..|rows| - 1]) + if rows[|rows| - 1].IsCommitted() then rows[|rows| - 1].amountMsat else 0
  }

  lemma {:induction false} CommittedTotalIsSum(rows: seq<Commitment>, ids: seq<string>)
    requires |rows| == |ids|
    requires forall i, j :: 0 <= i < j < |ids| ==> ids[i] != ids[j]
    ensures CommittedTotal(rows) == Sum(CapsOf(rows, ids))
  {
    if rows != [] {
      var n := |rows| - 1;
      CommittedTotalIsSum(rows[..n], ids[..n]);
      CapsOfAt(rows[..n], ids[..n], ids[n]);
      SumPut(CapsOf(rows[..n], ids[..n]), ids[n], if rows[n].IsCommitted() then rows[n].amountMsat else 0);
    }
  }

  /** An observed result set, in any order, totals the committed caps of the table. */
  lemma ObservedTotal(rows: seq<Commitment>, ids: seq<string>, refunds: map<string, RefundRow>, pays: map<PayKey, PayStatus>)
    requires Observed(rows, ids, refunds, pays)
    ensures CommittedTotal(rows) == Sum(CommittedCaps(refunds, pays))
  {
    CommittedTotalIsSum(rows, ids);
    var caps := CommittedCaps(refunds, pays);
    forall e ensures At(CapsOf(rows, ids), e) == At(caps, e) {
      CapsOfAt(rows, ids, e);
    }
    SumSame(CapsOf(rows, ids), caps);
  }

  /** `expected_msat` over one observed snapshot: the fold is the figure the tables determine. */
  method ExpectedMsat(rows: seq<Commitment>, receiptsMsat: nat, sweepCapsMsat: nat,
                      ghost db: Db, ghost ids: seq<string>, ghost pays: map<PayKey, PayStatus>) returns (msat: nat)
    requires Observed(rows, ids, db.refunds, pays)
    requires receiptsMsat == Sum(Receipts(db)) && sweepCapsMsat == Sum(SweepCaps(db.sweeps))
    ensures msat == Expected(db, pays)
  {
    var committed := 0;
    for i := 0 to |rows|
      invariant committed == CommittedTotal(rows[..i])
    {
      assert rows[..i + 1][..i] == rows[..i];
      if rows[i].IsCommitted() {
        committed := committed + rows[i].amountMsat;
      }
    }
    assert rows[..|rows|] == rows;
    ObservedTotal(rows, ids, db.refunds, pays);
    msat := Sat(Sat(receiptsMsat, committed), sweepCapsMsat);
  }

  /** The report end to end: load, observe, fold. */
  method Report(db: Db, invoiceRows: seq<(string, Option<int>)>, journalRows: seq<(Option<string>, Option<int>)>,
                ids: seq<string>, sweepCapsMsat: nat, pays: map<PayKey, PayStatus>) returns (msat: nat)
    requires InvoiceScan(invoiceRows, db) && JournalScan(journalRows, db) && RefundScan(ids, db.refunds)
    requires sweepCapsMsat == Sum(SweepCaps(db.sweeps))
    ensures msat == Expected(db, pays)
  {
    var receipts := SumReceiptsMsat(invoiceRows, journalRows, db);
    var loaded := LoadRefundCommitments(ids, db.refunds);
    var rows := new Commitment[|loaded|](i requires 0 <= i < |loaded| => loaded[i]);
    Observe(rows, pays);
    msat := ExpectedMsat(rows[..], receipts, sweepCapsMsat, db, ids, pays);
  }

  // ----- what the figure is, one row at a time

  /** Nothing sent and nothing swept: the figure is what came in. */
  lemma NothingOut(db: Db, pays: map<PayKey, PayStatus>)
    requires db.refunds == map[] && db.sweeps == map[]
    ensures Expected(db, pays) == Sum(Receipts(db))
  {
    assert CommittedCaps(db.refunds, pays) == map[] && SweepCaps(db.sweeps) == map[];
  }

  lemma SameReceipts(db: Db, db': Db)
    requires db'.invoices == db.invoices && db'.log == db.log
    ensures Receipts(db') == Receipts(db)
  {
    assert forall e :: Receipt(db', e) == Receipt(db, e);
  }

  lemma OneSweepMore(sweeps: map<string, SweepRow>, id: string, row: SweepRow)
    requires id !in sweeps
    ensures Sum(SweepCaps(sweeps[id := row]))
         == Sum(SweepCaps(sweeps)) + if row.status.RFailed? && row.fencedAt.None? then 0 else row.maxOutlayMsat
  {
    var out := if row.status.RFailed? && row.fencedAt.None? then 0 else row.maxOutlayMsat;
    assert SweepCaps(sweeps[id := row]) == SweepCaps(sweeps)[id := out];
    SumPut(SweepCaps(sweeps), id, out);
  }

  /**
  A failed sweep without a fence leaves the figure as if its row were not there; every other one lowers it by its
  ceiling, down to nothing.
  */
  lemma SweepCounts(db: Db, pays: map<PayKey, PayStatus>, id: string, row: SweepRow)
    requires id !in db.sweeps
    ensures var was, now := Expected(db, pays), Expected(db.(sweeps := db.sweeps[id := row]), pays);
            if row.status.RFailed? && row.fencedAt.None? then now == was
            else now == if was < row.maxOutlayMsat then 0 else was - row.maxOutlayMsat
  {
    hide CommittedCaps, SweepCaps, Receipts;
    SameReceipts(db, db.(sweeps := db.sweeps[id := row]));
    OneSweepMore(db.sweeps, id, row);
  }

  /** What a refund row may have taken: the whole sats it is for, if it is sent, fenced, or its pay is under way or done. */
  function MayHaveTaken(row: RefundRow, pay: PayStatus): nat {
    if row.amountSat.None? || row.amountSat.value <= 0 then 0
    else if row.status == RSent || row.fencedAt != None || pay in {PayPending, Succeeded} then row.amountSat.value * 1000
    else 0
  }

  lemma OneRefundMore(refunds: map<string, RefundRow>, pays: map<PayKey, PayStatus>, e: string, row: RefundRow)
    requires e !in refunds
    ensures Sum(CommittedCaps(refunds[e := row], pays))
         == Sum(CommittedCaps(refunds, pays)) + MayHaveTaken(row, WitnessOf(pays, PayKey(e, row.gen)))
  {
    var out := MayHaveTaken(row, WitnessOf(pays, PayKey(e, row.gen)));
    assert (if IsCommittedRow(e, row, pays) then CapMsat(row) else 0) == out;
    hide IsCommittedRow, CapMsat, MayHaveTaken;
    assert CommittedCaps(refunds[e := row], pays) == CommittedCaps(refunds, pays)[e := out];
    SumPut(CommittedCaps(refunds, pays), e, out);
  }

  /** Each refund lowers the figure by what it may have taken; a failed, unknown or missing pay takes nothing. */
  lemma RefundCounts(db: Db, pays: map<PayKey, PayStatus>, e: string, row: RefundRow)
    requires e !in db.refunds
    ensures var was, now := Expected(db, pays), Expected(db.(refunds := db.refunds[e := row]), pays);
            var out := MayHaveTaken(row, if PayKey(e, row.gen) in pays then pays[PayKey(e, row.gen)] else Unknown);
            now == if was < out then 0 else was - out
  {
    hide CommittedCaps, SweepCaps, Receipts, MayHaveTaken;
    SameReceipts(db, db.(refunds := db.refunds[e := row]));
    OneRefundMore(db.refunds, pays, e, row);
  }

  // ----- rows of an older build

  /**
  A settled invoice counts what was credited, or its price if the credit was never recorded; when that is nothing, the
  journal's figure counts. Nothing negative counts.
  */
  lemma ReceiptCounts(db: Db, e: string)
    ensures var inv := if e in db.invoices then Some(db.invoices[e]) else None;
            var credit := if inv.None? || (inv.value.status != Paid && inv.value.settledAt == None) then 0
                          else if inv.value.receivedMsat.Some? then inv.value.receivedMsat.value
                          else if inv.value.amountSat.Some? then inv.value.amountSat.value * 1000 else 0;
            var journal := if ClassB(db.log, e).Some? then ClassB(db.log, e).value else 0;
            Receipt(db, e) == if 0 < credit then credit else if 0 < journal then journal else 0
  {
    hide ClassB;
  }

  /** A row that owes a settlement back: one of the four kinds, for this external id, crediting `credit`. */
  predicate Owes(row: LogRow, e: string, credit: int) {
    && row.kind in {SettleUnmatchedRefund, SettleTerminalRefund, SettleOrphanRefund, SettleExpiredRefund}
    && match row.detail
       case SettleDetail(ext, _, received, _) => ext == e && received == credit
       case ResumeDetail(ext, _, _, received, _, _, _) => ext == e && received == credit
       case LegacyDetail(ext, amount, received) =>
         ext == Some(e) && (received == Some(credit) || (received == None && amount.Some? && amount.value * 1000 == credit))
       case _ => false
  }

  lemma {:induction false} NoneOwesMore(log: seq<LogRow>, e: string, row: LogRow, credit: int)
    requires row in log && Owes(row, e, credit)
    ensures ClassB(log, e).Some? && credit <= ClassB(log, e).value
  {
    hide Owes, SettlesFor, JournalCredit;
    var n := |log| - 1;
    if row == log[n] { LastOwes(row, e, credit); } else { NoneOwesMore(log[..n], e, row, credit); }
  }

  lemma {:induction false} SomeOwesIt(log: seq<LogRow>, e: string)
    requires ClassB(log, e).Some?
    ensures exists row :: row in log && Owes(row, e, ClassB(log, e).value)
  {
    hide Owes, SettlesFor, JournalCredit;
    var n, credit := |log| - 1, ClassB(log, e).value;
    LastOwes(log[n], e, credit);
    if !Owes(log[n], e, credit) {
      SomeOwesIt(log[..n], e);
      var row :| row in log[..n] && Owes(row, e, credit);
      assert row in log;
    }
  }

  /** The journal's figure for an id is the largest credit any of its rows owes back. */
  lemma JournalCounts(log: seq<LogRow>, e: string, credit: int)
    ensures ClassB(log, e) == Some(credit) <==>
              (exists row :: row in log && Owes(row, e, credit)) && forall row, c :: row in log && Owes(row, e, c) ==> c <= credit
  {
    hide Owes, ClassB;
    forall row, c | row in log && Owes(row, e, c) ensures ClassB(log, e).Some? && c <= ClassB(log, e).value {
      NoneOwesMore(log, e, row, c);
    }
    if ClassB(log, e).Some? { SomeOwesIt(log, e); }
  }

  lemma LastOwes(row: LogRow, e: string, c: int)
    ensures Owes(row, e, c) <==> SettlesFor(row, e) && JournalCredit(row.detail) == Some(c)
  {
    match row.detail
    case SettleDetail(_, _, _, _) =>
    case ResumeDetail(_, _, _, _, _, _, _) =>
    case LegacyDetail(_, _, _) =>
    case RefundDetail(_) =>
    case ExtDetail(_) =>
    case FenceDetail(_, _, _) =>
    case StateDetail(_) =>
  }
}
