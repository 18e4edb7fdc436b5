/**
The books are read in one store pass, the backend's pay witnesses one by one afterwards, while the drivers keep
going. The figure is still a lower bound on the wallet if nothing was sent in between; a send in the window can
put it above the wallet.
*/
module Observation {
  import opened Wrappers
  import opened Text
  import opened Books
  import opened Operator
  import opened Ledger
  import opened Sums
  import opened Money
  import Delivery

  /** Nothing leaves the wallet and no refund's pay row is lost sight of; an import is over before anyone can look. */
  predicate Calm(step: Step) {
    match step
    case OnBooks(_) => true
    case OnPay(p) => !p.Send? && !p.Import?
    case OnSweep(s) => !s.SweepSend?
  }

  predicate AllCalm(steps: seq<Step>) { forall i :: 0 <= i < |steps| ==> Calm(steps[i]) }

  /** The world after the first `i` steps of the window. */
  function AtStep(w: World, steps: seq<Step>, i: nat): World
    requires Valid(w, steps) && i <= |steps|
    decreases |steps|
  {
    if i == 0 then w else AtStep(Next(w, steps[0]), steps[1..], i - 1)
  }

  // ----- what stays in the wallet only grows

  /** The refund keeps nothing out, or it does so under the generation first read and only there. */
  predicate Tracked(w: World, e: string, gen: nat) {
    OutOf(w, e) == 0 || (e in w.db.refunds && w.db.refunds[e].gen == gen && At(w.legacy, e) == 0)
  }

  /** What a calm step may do to the refund `e`. */
  predicate Shrinks(w: World, w': World, e: string, gen: nat) {
    OutOf(w', e) <= OutOf(w, e) && (Tracked(w, e, gen) ==> Tracked(w', e, gen))
  }

  lemma FreshRowIsEmpty(w: World, e: string)
    requires Inv(w) && e !in w.db.refunds
    ensures OutAt(w.pays, PayKey(e, 0)) == 0 && At(w.legacy, e) == 0
  {
    AtKey(w, e, 0);
    AtRow(w, e);
  }

  /** The row of `e` keeps its generation, or is a new one of generation 0; pay rows and lost outlays stay. */
  predicate KeepsRow(w: World, w': World, e: string) {
    && w'.pays == w.pays && w'.legacy == w.legacy
    && (e in w.db.refunds ==> e in w'.db.refunds && w'.db.refunds[e].gen == w.db.refunds[e].gen)
    && (e !in w.db.refunds && e in w'.db.refunds ==> w'.db.refunds[e].gen == 0)
  }

  lemma KeptRowShrinks(w: World, w': World, e: string, gen: nat)
    requires Inv(w) && KeepsRow(w, w', e)
    ensures Shrinks(w, w', e, gen)
  {
    if e !in w.db.refunds { FreshRowIsEmpty(w, e); }
    hide Inv;
  }

  lemma CaptureKeepsRow(w: World, s: Settlement, now: int, e: string)
    ensures KeepsRow(w, w.(db := AfterCapture(w.db, s, now)), e)
  {
    hide RouteOf, InvoicesAfter, SubsAfter, RowsOf;
  }

  lemma BookKeepsRow(w: World, ev: Delivery.Event, e: string)
    ensures KeepsRow(w, w.(db := Delivery.Apply(w.db, ev)), e)
  {
    match ev
    case Deliver(s, now) => CaptureKeepsRow(w, s, now, e);
    case ExpireInvoice(_) =>
    case Admin(_, _, _) =>
  }

  lemma BooksKeepRow(w: World, b: BooksAct, e: string)
    requires BooksEnabled(w, b)
    ensures KeepsRow(w, NextBooks(w, b), e)
  {
    match b
    case Receive(_, _) =>
    case Book(ev) => BookKeepsRow(w, ev, e);
    case OpenInvoice(_, _) =>
    case OweRefund(_, _, _, _, _) =>
    case Drive(_) =>
    case CommitSent(_, _) =>
    case Park(_, _) =>
    case CountFailure(_, _) =>
    case Retry(_, _) =>
    case ClearFence(_, _, _) =>
    case Boot =>
  }

  /** A pay row that keeps no more out than before. */
  lemma SetPayShrinks(w: World, k: string, status: PayStatus, outlay: nat, e: string, gen: nat)
    requires k in w.db.refunds && outlay <= OutAt(w.pays, KeyOf(w, k))
    ensures Shrinks(w, SetPay(w, k, status, outlay), e, gen)
  {
  }

  /** A refund moves to a new generation only while nothing is out under the old one, and nothing is under the new. */
  lemma ReresolveShrinks(w: World, k: string, next: nat, e: string, gen: nat)
    requires Inv(w) && PayEnabled(w, Reresolve(k, next))
    ensures Shrinks(w, SetRow(w, k, w.db.refunds[k].(gen := next)), e, gen)
  {
    hide Inv, PayEnabled;
    AtKey(w, k, next);
    AtRow(w, k);
  }

  lemma ReturnShrinks(w: World, k: string, e: string, gen: nat)
    ensures Shrinks(w, Returned(w, k), e, gen)
  {
  }

  lemma PayShrinks(w: World, p: PayAct, e: string, gen: nat)
    requires Inv(w) && PayEnabled(w, p) && !p.Send? && !p.Import?
    ensures Shrinks(w, NextPay(w, p), e, gen)
  {
    hide Inv, Shrinks;
    match p
    case Prepare(k) => SetPayShrinks(w, k, PayPending, OutAt(w.pays, KeyOf(w, k)), e, gen);
    case Settle(k) => SetPayShrinks(w, k, Succeeded, OutAt(w.pays, KeyOf(w, k)), e, gen);
    case FailPay(k) => SetPayShrinks(w, k, PayFailed, 0, e, gen);
    case Reresolve(k, next) => ReresolveShrinks(w, k, next, e, gen);
    case LegacyReturn(k) => ReturnShrinks(w, k, e, gen);
  }

  lemma SweepLeavesRefunds(w: World, s: SweepAct, e: string, gen: nat)
    requires SweepEnabled(w, s)
    ensures Shrinks(w, NextSweep(w, s), e, gen)
  {
    match s
    case SweepIntent(_, _) =>
    case SweepSend(_, _) =>
    case SweepSettle(_) =>
    case SweepFail(_) =>
    case SweepSent(_) =>
    case SweepFailed(_) =>
    case SweepImport(_, _) =>
    case SweepLegacyReturn(_) =>
  }

  lemma StepShrinks(w: World, step: Step, e: string, gen: nat)
    requires Inv(w) && Enabled(w, step) && Calm(step)
    ensures Shrinks(w, Next(w, step), e, gen)
  {
    hide Inv, NextBooks, NextPay, NextSweep, BooksEnabled, PayEnabled, SweepEnabled, Shrinks, KeepsRow;
    match step
    case OnBooks(b) =>
      BooksKeepRow(w, b, e);
      KeptRowShrinks(w, NextBooks(w, b), e, gen);
    case OnPay(p) => PayShrinks(w, p, e, gen);
    case OnSweep(s) => SweepLeavesRefunds(w, s, e, gen);
  }

  /** Sweeps likewise: without a send, what one keeps out only comes back. Credits only arrive. */
  ghost predicate SweepShrinks(w: World, w': World, id: string) {
    SweepOutOf(w', id) <= SweepOutOf(w, id) && forall e :: At(w.credits, e) <= At(w'.credits, e)
  }

  lemma BooksLeaveSweeps(w: World, b: BooksAct, id: string)
    requires BooksEnabled(w, b)
    ensures SweepShrinks(w, NextBooks(w, b), id)
  {
    match b
    case Receive(_, _) =>
    case Book(ev) => BookLeavesSweeps(w.db, ev);
    case OpenInvoice(_, _) =>
    case OweRefund(_, _, _, _, _) =>
    case Drive(_) =>
    case CommitSent(_, _) =>
    case Park(_, _) =>
    case CountFailure(_, _) =>
    case Retry(_, _) =>
    case ClearFence(_, _, _) =>
    case Boot =>
  }

  lemma BookLeavesSweeps(db: Db, ev: Delivery.Event)
    ensures Delivery.Apply(db, ev).sweeps == db.sweeps
  {
  }

  lemma PaysLeaveSweeps(w: World, p: PayAct, id: string)
    requires PayEnabled(w, p)
    ensures SweepShrinks(w, NextPay(w, p), id)
  {
    match p
    case Prepare(_) =>
    case Send(_, _) =>
    case Settle(_) =>
    case FailPay(_) =>
    case Reresolve(_, _) =>
    case Import(_, _) =>
    case LegacyReturn(_) =>
  }

  lemma SetSweepPayShrinks(w: World, k: string, status: PayStatus, outlay: nat, id: string)
    requires outlay <= OutAt(w.sweepPays, k)
    ensures SweepShrinks(w, SetSweepPay(w, k, status, outlay), id)
  {
  }

  lemma SetSweepShrinks(w: World, k: string, row: SweepRow, id: string)
    requires k in w.db.sweeps || OutAt(w.sweepPays, k) + At(w.sweepLegacy, k) == 0
    ensures SweepShrinks(w, SetSweep(w, k, row), id)
  {
  }

  lemma IntentShrinks(w: World, k: string, cap: nat, id: string)
    requires Inv(w) && SweepEnabled(w, SweepIntent(k, cap))
    ensures SweepShrinks(w, NextSweep(w, SweepIntent(k, cap)), id)
  {
    hide Inv;
    AtSweep(w, k);
    var w1 := SetSweep(w, k, SweepRow(RPending, cap, None));
    SetSweepShrinks(w, k, SweepRow(RPending, cap, None), id);
    if Idle(StatusAt(w.sweepPays, k)) { SetSweepPayShrinks(w1, k, PayPending, OutAt(w.sweepPays, k), id); }
  }

  lemma SweepsShrink(w: World, s: SweepAct, id: string)
    requires Inv(w) && SweepEnabled(w, s) && !s.SweepSend?
    ensures SweepShrinks(w, NextSweep(w, s), id)
  {
    hide Inv, SweepShrinks;
    match s
    case SweepIntent(k, cap) => IntentShrinks(w, k, cap, id);
    case SweepSettle(k) => SetSweepPayShrinks(w, k, Succeeded, OutAt(w.sweepPays, k), id);
    case SweepFail(k) => SetSweepPayShrinks(w, k, PayFailed, 0, id);
    case SweepSent(k) => SetSweepShrinks(w, k, w.db.sweeps[k].(status := RSent), id);
    case SweepFailed(k) => SetSweepShrinks(w, k, w.db.sweeps[k].(status := RFailed), id);
    case SweepImport(k, now) => SweepImportShrinks(w, k, now, id);
    case SweepLegacyReturn(k) => SweepReturnShrinks(w, k, id);
  }

  /** An import moves a sweep's outlay from its pay row to its fence. */
  lemma SweepImportShrinks(w: World, k: string, now: int, id: string)
    requires k in w.db.sweeps
    ensures SweepShrinks(w, SweepImported(w, k, now), id)
  {
  }

  lemma SweepReturnShrinks(w: World, k: string, id: string)
    ensures SweepShrinks(w, w.(sweepLegacy := w.sweepLegacy - {k}, wallet := w.wallet + At(w.sweepLegacy, k)), id)
  {
  }

  lemma StepSweepShrinks(w: World, step: Step, id: string)
    requires Inv(w) && Enabled(w, step) && Calm(step)
    ensures SweepShrinks(w, Next(w, step), id)
  {
    hide Inv, NextBooks, NextPay, NextSweep, BooksEnabled, PayEnabled, SweepEnabled, SweepShrinks;
    match step
    case OnBooks(b) => BooksLeaveSweeps(w, b, id);
    case OnPay(p) => PaysLeaveSweeps(w, p, id);
    case OnSweep(s) => SweepsShrink(w, s, id);
  }

  // ----- over the window

  lemma {:induction false} WindowShrinks(w: World, steps: seq<Step>, e: string, gen: nat)
    requires Inv(w) && Valid(w, steps) && AllCalm(steps)
    ensures Inv(After(w, steps)) && OutOf(After(w, steps), e) <= OutOf(w, e)
    decreases |steps|
  {
    hide Inv, Enabled, Next, OutOf, Tracked;
    if steps != [] {
      assert Calm(steps[0]) && AllCalm(steps[1..]);
      StepShrinks(w, steps[0], e, gen);
      StepKeepsInv(w, steps[0]);
      WindowShrinks(Next(w, steps[0]), steps[1..], e, gen);
    }
  }

  lemma {:induction false} WindowSweepShrinks(w: World, steps: seq<Step>, id: string)
    requires Inv(w) && Valid(w, steps) && AllCalm(steps)
    ensures SweepShrinks(w, After(w, steps), id)
    decreases |steps|
  {
    hide Inv, Enabled, Next, SweepOutOf;
    if steps != [] {
      assert Calm(steps[0]) && AllCalm(steps[1..]);
      StepSweepShrinks(w, steps[0], id);
      StepKeepsInv(w, steps[0]);
      WindowSweepShrinks(Next(w, steps[0]), steps[1..], id);
    }
  }

  lemma IdleIsEmpty(w: World, e: string, gen: nat)
    requires Inv(w) && Tracked(w, e, gen) && Idle(StatusAt(w.pays, PayKey(e, gen)))
    ensures OutOf(w, e) == 0
  {
    hide Inv;
    AtKey(w, e, gen);
  }

  /** A refund that was probed idle, at whatever moment, keeps nothing out when the window closes. */
  lemma {:induction false} ProbedIdleIsEmpty(w: World, steps: seq<Step>, i: nat, e: string, gen: nat)
    requires Inv(w) && Valid(w, steps) && AllCalm(steps) && i <= |steps| && Tracked(w, e, gen)
    requires Idle(StatusAt(AtStep(w, steps, i).pays, PayKey(e, gen)))
    ensures OutOf(After(w, steps), e) == 0
    decreases |steps|
  {
    hide Inv, Enabled, Next, OutOf, Tracked;
    if i == 0 {
      IdleIsEmpty(w, e, gen);
      WindowShrinks(w, steps, e, gen);
    } else {
      assert Calm(steps[0]) && AllCalm(steps[1..]);
      StepShrinks(w, steps[0], e, gen);
      StepKeepsInv(w, steps[0]);
      ProbedIdleIsEmpty(Next(w, steps[0]), steps[1..], i - 1, e, gen);
    }
  }

  // ----- the torn figure

  /** `observe` asks for a row's witness unless its status or its fence commits it already. */
  predicate IsProbed(row: RefundRow) { !row.status.RSent? && row.fencedAt.None? }

  /** Each such row's key was probed at some point of the window; nobody says in which order. */
  ghost predicate Probed(w: World, steps: seq<Step>, seen: map<PayKey, PayStatus>)
    requires Valid(w, steps)
  {
    forall e :: e in w.db.refunds && IsProbed(w.db.refunds[e]) ==> exists i: nat :: ProbedAt(w, steps, seen, e, i)
  }

  predicate ProbedAt(w: World, steps: seq<Step>, seen: map<PayKey, PayStatus>, e: string, i: nat)
    requires Valid(w, steps) && e in w.db.refunds
  {
    i <= |steps| && WitnessOf(seen, KeyOf(w, e)) == StatusAt(AtStep(w, steps, i).pays, KeyOf(w, e))
  }

  lemma RowBelowCap(w: World, steps: seq<Step>, seen: map<PayKey, PayStatus>, e: string)
    requires Inv(w) && Valid(w, steps) && AllCalm(steps) && Probed(w, steps, seen)
    ensures OutOf(After(w, steps), e) <= At(CommittedCaps(w.db.refunds, seen), e)
  {
    AtRow(w, e);
    WindowShrinks(w, steps, e, 0);
    if e !in w.db.refunds {
      assert OutOf(w, e) == 0;
    } else if IsCommittedRow(e, w.db.refunds[e], seen) {
      assert OutOf(w, e) <= CapMsat(w.db.refunds[e]);
    } else {
      var i: nat :| ProbedAt(w, steps, seen, e, i);
      assert Tracked(w, e, w.db.refunds[e].gen);
      hide Inv, Valid, AtStep, After;
      ProbedIdleIsEmpty(w, steps, i, e, w.db.refunds[e].gen);
    }
  }

  lemma SweepBelowCap(w: World, steps: seq<Step>, id: string)
    requires Inv(w) && Valid(w, steps) && AllCalm(steps)
    ensures SweepOutOf(After(w, steps), id) <= At(SweepCaps(w.db.sweeps), id)
  {
    hide Inv, Valid, After;
    AtSweep(w, id);
    WindowSweepShrinks(w, steps, id);
  }

  lemma OutsBelowCaps(w: World, steps: seq<Step>, seen: map<PayKey, PayStatus>)
    requires Inv(w) && Valid(w, steps) && AllCalm(steps) && Probed(w, steps, seen)
    ensures var end := After(w, steps);
            Sum(RefundOut(end)) <= Sum(CommittedCaps(w.db.refunds, seen)) && Sum(SweepOut(end)) <= Sum(SweepCaps(w.db.sweeps))
  {
    var end := After(w, steps);
    hide Inv, Valid, After, Probed, AllCalm, CommittedCaps, SweepCaps;
    forall e | e in RefundOut(end) ensures RefundOut(end)[e] <= At(CommittedCaps(w.db.refunds, seen), e) {
      RowBelowCap(w, steps, seen, e);
    }
    SumMono(RefundOut(end), CommittedCaps(w.db.refunds, seen));
    forall id | id in SweepOut(end) ensures SweepOut(end)[id] <= At(SweepCaps(w.db.sweeps), id) {
      SweepBelowCap(w, steps, id);
    }
    SumMono(SweepOut(end), SweepCaps(w.db.sweeps));
  }

  lemma CreditsArrive(w: World, steps: seq<Step>)
    requires Inv(w) && Valid(w, steps) && AllCalm(steps)
    ensures Sum(w.credits) <= Sum(After(w, steps).credits)
  {
    hide Inv, Valid, After, AllCalm;
    WindowSweepShrinks(w, steps, "");
    SumMono(w.credits, After(w, steps).credits);
  }

  lemma ReceiptsBelow(w: World)
    requires Inv(w)
    ensures Sum(Receipts(w.db)) <= Sum(w.credits)
  {
    ReceiptsBelowCredits(w);
  }

  lemma EndConserved(w: World)
    requires Inv(w)
    ensures 0 <= w.wallet == Sum(w.credits) - Sum(RefundOut(w)) - Sum(SweepOut(w))
  {
  }

  /**
  Read the books once, probe each witness at any later moment while everything but sends and imports goes on:
  the figure is at most the wallet when the last probe is in.
  */
  lemma TornFigureIsALowerBound(w: World, steps: seq<Step>, seen: map<PayKey, PayStatus>)
    requires Inv(w) && Valid(w, steps) && AllCalm(steps) && Probed(w, steps, seen)
    ensures Expected(w.db, seen) <= After(w, steps).wallet
  {
    hide Inv, Valid, After, Probed, AllCalm, CommittedCaps, SweepCaps, Receipts, RefundOut, SweepOut;
    ReceiptsBelow(w);
    WindowShrinks(w, steps, "", 0);
    EndConserved(After(w, steps));
    CreditsArrive(w, steps);
    OutsBelowCaps(w, steps, seen);
  }

  // ----- and when something is sent

  /** The figure is above the wallet at every instant between the read and the last probe, not just at one of them. */
  ghost predicate Overstates(w: World, steps: seq<Step>, seen: map<PayKey, PayStatus>) {
    && Valid(w, steps) && Probed(w, steps, seen)
    && forall i :: 0 <= i <= |steps| ==> AtStep(w, steps, i).wallet < Expected(w.db, seen)
  }

  const LEASE := "lease"

  const DEST := "buyer@wallet.example"

  /** A thousand sats, the price of a period. */
  const PRICE: nat := 1_000_000

  /** A running subscription paid through `t`, with a period of one and no retention. */
  function Lease(t: int): Sub { Sub(Active, Some(1), Some(0), Some(0), Some(t), None, Some(DEST), Some(t), Some(t), 0) }

  function Due(): Invoice { Invoice(RenewalKind, Some(LEASE), Some(1000), Open, None, None, None, None) }

  function PaidAt(t: int): Invoice { Invoice(RenewalKind, Some(LEASE), Some(1000), Paid, None, Some(PRICE), Some(t), Some(t)) }

  function Payment(e: string, t: int): Settlement { Settlement(e, 1000, PRICE, t) }

  function Entry(e: string, kind: LogKind, t: int): LogRow { SettleRow(Some(LEASE), kind, Payment(e, t), t) }

  function Owes(gen: nat): RefundRow { FreshRefund(Some(LEASE), Some(DEST), Some(1000), 2).(gen := gen) }

  /** One running subscription and an empty wallet. */
  function Begun(): World { World(Db(map[], map[LEASE := Lease(1)], map[], map[], [], map[]), map[], map[], map[], map[], {}, map[], 0) }

  predicate Distinct(a: string, b: string, c: string) { a != b && b != c && a != c }

  /** The renewal `c` came in time and is earned; `a` and `b` came too late and are owed back, resolved `gen` times. */
  function Late(a: string, b: string, c: string, gen: nat): Db {
    Db(map[c := PaidAt(0), a := PaidAt(2), b := PaidAt(2)], map[LEASE := Lease(2)], map[a := Owes(gen), b := Owes(gen)], map[],
       [Entry(c, RenewExtend, 0), Entry(a, SettleTerminalRefund, 2), Entry(b, SettleTerminalRefund, 2)], map[])
  }

  function Credits(a: string, b: string, c: string): map<string, nat> { map[c := PRICE, a := PRICE, b := PRICE] }

  function Owed(a: string, b: string, c: string): World {
    World(Late(a, b, c, 0), map[], map[], map[], map[], {}, Credits(a, b, c), 3 * PRICE)
  }

  /** Two drivers have resolved both. */
  function Ready(a: string, b: string, c: string): World { Owed(a, b, c).(db := Late(a, b, c, 1), driven := {a, b}) }

  /** The refund of `a` is on its way and that of `b` is next. */
  function OnItsWay(a: string, b: string, c: string): World {
    Ready(a, b, c).(pays := map[PayKey(a, 1) := PayRow(PayPending, PRICE)], wallet := 2 * PRICE)
  }

  function Settles(e: string, t: int): seq<Step> {
    [OnBooks(OpenInvoice(e, Due())), OnBooks(Receive(e, PRICE)), OnBooks(Book(Delivery.Deliver(Payment(e, t), t)))]
  }

  function Resolves(e: string): seq<Step> { [OnBooks(Drive(e)), OnPay(Reresolve(e, 1))] }

  function Pays(e: string): seq<Step> { [OnPay(Prepare(e)), OnPay(Send(e, PRICE))] }

  /** One renewal in time, two too late, and the first of the two refunds. */
  function Way(a: string, b: string, c: string): seq<Step> {
    Settles(c, 0) + Settles(a, 2) + Settles(b, 2) + Resolves(a) + Resolves(b) + Pays(a)
  }

  lemma OneStep(w: World, step: Step, rest: seq<Step>)
    requires Enabled(w, step) && Valid(Next(w, step), rest)
    ensures Valid(w, [step] + rest) && After(w, [step] + rest) == After(Next(w, step), rest)
    ensures forall i :: 0 <= i <= |rest| ==> AtStep(w, [step] + rest, i + 1) == AtStep(Next(w, step), rest, i)
  {
    hide Enabled, Next;
    assert ([step] + rest)[1..] == rest;
  }

  lemma {:induction false} TwoRuns(w: World, first: seq<Step>, second: seq<Step>)
    requires Valid(w, first) && Valid(After(w, first), second)
    ensures Valid(w, first + second) && After(w, first + second) == After(After(w, first), second)
    decreases |first|
  {
    hide Enabled, Next;
    if first == [] {
      assert first + second == second;
    } else {
      TwoRuns(Next(w, first[0]), first[1..], second);
      assert (first + second)[1..] == first[1..] + second;
    }
  }

  predicate Reaches(w: World, steps: seq<Step>, w': World) { Valid(w, steps) && After(w, steps) == w' }

  lemma ReachesThen(w: World, first: seq<Step>, mid: World, second: seq<Step>, w': World)
    requires Reaches(w, first, mid) && Reaches(mid, second, w')
    ensures Reaches(w, first + second, w')
  {
    TwoRuns(w, first, second);
  }

  /** An invoice is issued, paid and captured. */
  function AfterSettles(w: World, e: string, t: int): World {
    w.(db := AfterCapture(w.db.(invoices := w.db.invoices[e := Due()]), Payment(e, t), t),
       credits := w.credits[e := At(w.credits, e) + PRICE], wallet := w.wallet + PRICE)
  }

  lemma SettlesRun(w: World, e: string, t: int)
    requires e !in w.db.invoices
    ensures Reaches(w, Settles(e, t), AfterSettles(w, e, t))
  {
    hide AfterCapture;
    var steps := Settles(e, t);
    var w1 := Next(w, steps[0]);
    var w2 := Next(w1, steps[1]);
    var w3 := Next(w2, steps[2]);
    assert w3 == AfterSettles(w, e, t);
    hide Enabled, Next, AfterSettles;
    OneStep(w2, steps[2], []);
    OneStep(w1, steps[1], [steps[2]]);
    OneStep(w, steps[0], [steps[1], steps[2]]);
  }

  lemma EarnedCapture(db: Db, e: string)
    requires e in db.invoices && db.invoices[e] == Due() && db.subs == map[LEASE := Lease(1)] && e !in db.refunds
    ensures AfterCapture(db, Payment(e, 0), 0)
         == db.(invoices := db.invoices[e := PaidAt(0)], subs := map[LEASE := Lease(2)], log := db.log + [Entry(e, RenewExtend, 0)])
  {
    assert db.subs[LEASE := Lease(2)] == map[LEASE := Lease(2)];
  }

  lemma LateCapture(db: Db, e: string)
    requires e in db.invoices && db.invoices[e] == Due() && db.subs == map[LEASE := Lease(2)] && e !in db.refunds
    ensures AfterCapture(db, Payment(e, 2), 2)
         == db.(invoices := db.invoices[e := PaidAt(2)], refunds := db.refunds[e := Owes(0)],
                log := db.log + [Entry(e, SettleTerminalRefund, 2)])
  {
  }

  lemma OwedRun(a: string, b: string, c: string)
    requires Distinct(a, b, c)
    ensures Reaches(Begun(), Settles(c, 0) + Settles(a, 2) + Settles(b, 2), Owed(a, b, c))
  {
    var w1 := AfterSettles(Begun(), c, 0);
    EarnedCapture(Begun().db.(invoices := map[c := Due()]), c);
    var w2 := AfterSettles(w1, a, 2);
    LateCapture(w1.db.(invoices := w1.db.invoices[a := Due()]), a);
    var w3 := AfterSettles(w2, b, 2);
    LateCapture(w2.db.(invoices := w2.db.invoices[b := Due()]), b);
    assert w3 == Owed(a, b, c);
    SettlesRun(Begun(), c, 0);
    SettlesRun(w1, a, 2);
    SettlesRun(w2, b, 2);
    hide Reaches, AfterSettles, Settles, Owed, Begun, Late;
    ReachesThen(Begun(), Settles(c, 0), w1, Settles(a, 2), w2);
    ReachesThen(Begun(), Settles(c, 0) + Settles(a, 2), w2, Settles(b, 2), w3);
  }

  lemma HasSomewhereToGo(gen: nat)
    ensures HasDest(Owes(gen))
  {
    assert Tight(DEST);
  }

  lemma ResolvesRun(w: World, e: string)
    requires e in w.db.refunds && w.db.refunds[e] == Owes(0) && w.pays == map[]
    ensures Reaches(w, Resolves(e), SetRow(w, e, Owes(1)).(driven := w.driven + {e}))
  {
    hide HasDest;
    HasSomewhereToGo(0);
    var steps := Resolves(e);
    var w1 := Next(w, steps[0]);
    var w2 := Next(w1, steps[1]);
    assert w2 == SetRow(w, e, Owes(1)).(driven := w.driven + {e});
    hide Enabled, Next;
    OneStep(w1, steps[1], []);
    OneStep(w, steps[0], [steps[1]]);
  }

  lemma ReadyRun(a: string, b: string, c: string)
    requires Distinct(a, b, c)
    ensures Reaches(Owed(a, b, c), Resolves(a) + Resolves(b), Ready(a, b, c))
  {
    hide Reaches, Resolves, Enabled, Next;
    var w := Owed(a, b, c);
    var w1 := SetRow(w, a, Owes(1)).(driven := w.driven + {a});
    var w2 := SetRow(w1, b, Owes(1)).(driven := w1.driven + {b});
    assert w2.db.refunds == Late(a, b, c, 1).refunds && w2.driven == {a, b};
    ResolvesRun(w, a);
    ResolvesRun(w1, b);
    ReachesThen(w, Resolves(a), w1, Resolves(b), w2);
  }

  lemma PaysRun(a: string, b: string, c: string)
    requires Distinct(a, b, c)
    ensures Reaches(Ready(a, b, c), Pays(a), OnItsWay(a, b, c))
  {
    hide HasDest;
    HasSomewhereToGo(1);
    var steps := Pays(a);
    var w1 := Next(Ready(a, b, c), steps[0]);
    var w2 := Next(w1, steps[1]);
    assert w2 == OnItsWay(a, b, c);
    hide Enabled, Next, Ready, OnItsWay;
    OneStep(w1, steps[1], []);
    OneStep(Ready(a, b, c), steps[0], [steps[1]]);
  }

  lemma BegunIsStart()
    ensures Start(Begun())
  {
    forall e ensures Delivery.Untouched(Begun().db, e) { }
  }

  /** The world in question is one a run from the start reaches. */
  lemma OnItsWayIsReached(a: string, b: string, c: string)
    requires Distinct(a, b, c)
    ensures Start(Begun()) && Reaches(Begun(), Way(a, b, c), OnItsWay(a, b, c))
  {
    hide Reaches, Start, Begun, Owed, Ready, OnItsWay, Settles, Resolves, Pays;
    BegunIsStart();
    OwedRun(a, b, c);
    ReadyRun(a, b, c);
    PaysRun(a, b, c);
    var first := Settles(c, 0) + Settles(a, 2) + Settles(b, 2);
    ReachesThen(Begun(), first, Owed(a, b, c), Resolves(a) + Resolves(b), Ready(a, b, c));
    ReachesThen(Begun(), first + (Resolves(a) + Resolves(b)), Ready(a, b, c), Pays(a), OnItsWay(a, b, c));
    assert first + (Resolves(a) + Resolves(b)) == first + Resolves(a) + Resolves(b);
  }

  // ----- the figure there

  lemma SumOfThree(a: string, b: string, c: string)
    requires Distinct(a, b, c)
    ensures Sum(Credits(a, b, c)) == 3 * PRICE
  {
    SumPut(map[], c, PRICE);
    SumPut(map[c := PRICE], a, PRICE);
    SumPut(map[c := PRICE, a := PRICE], b, PRICE);
    assert map[][c := PRICE] == map[c := PRICE] && map[c := PRICE][a := PRICE] == map[c := PRICE, a := PRICE];
    assert map[c := PRICE, a := PRICE][b := PRICE] == Credits(a, b, c);
  }

  /** The books count what came in, on the invoices it came for. */
  lemma LateReceipts(a: string, b: string, c: string)
    requires Distinct(a, b, c)
    ensures Receipts(Late(a, b, c, 1)) == Credits(a, b, c)
  {
    hide ClassB;
    var db := Late(a, b, c, 1);
    assert LogExts(db.log) <= {a, b, c};
    forall e | e in {a, b, c} ensures Receipt(db, e) == PRICE { assert IsSettled(db.invoices[e]); }
  }

  lemma NoCaps(a: string, b: string, c: string, seen: map<PayKey, PayStatus>)
    requires Distinct(a, b, c) && Idle(WitnessOf(seen, PayKey(a, 1))) && Idle(WitnessOf(seen, PayKey(b, 1)))
    ensures Sum(CommittedCaps(Late(a, b, c, 1).refunds, seen)) == 0 && Sum(SweepCaps(Late(a, b, c, 1).sweeps)) == 0
  {
    var db := Late(a, b, c, 1);
    assert !IsCommittedRow(a, Owes(1), seen) && !IsCommittedRow(b, Owes(1), seen);
    hide IsCommittedRow, Owes, CapMsat;
    assert CommittedCaps(db.refunds, seen) == map[a := 0, b := 0];
    assert SweepCaps(db.sweeps) == map[];
    SumPut(map[], a, 0);
    SumPut(map[a := 0], b, 0);
    assert map[][a := 0] == map[a := 0] && map[a := 0][b := 0] == map[a := 0, b := 0];
  }

  /** With both witnesses seen idle the figure is all three payments, whoever holds them. */
  lemma FigureIsAllThree(a: string, b: string, c: string, seen: map<PayKey, PayStatus>)
    requires Distinct(a, b, c) && Idle(WitnessOf(seen, PayKey(a, 1))) && Idle(WitnessOf(seen, PayKey(b, 1)))
    ensures Expected(OnItsWay(a, b, c).db, seen) == 3 * PRICE
  {
    hide Receipts, CommittedCaps, SweepCaps, Late, Credits, WitnessOf;
    LateReceipts(a, b, c);
    SumOfThree(a, b, c);
    NoCaps(a, b, c, seen);
  }

  function SeenFailed(a: string): map<PayKey, PayStatus> { map[PayKey(a, 1) := PayFailed] }

  function SendWindow(a: string, b: string): seq<Step> { [OnPay(Prepare(b)), OnPay(Send(b, PRICE)), OnPay(FailPay(a))] }

  function SweepWindow(a: string, id: string): seq<Step> {
    [OnSweep(SweepIntent(id, PRICE)), OnSweep(SweepSend(id, PRICE)), OnPay(FailPay(a))]
  }

  lemma ThreeSteps(w: World, x: Step, y: Step, z: Step)
    requires Enabled(w, x) && Enabled(Next(w, x), y) && Enabled(Next(Next(w, x), y), z)
    ensures var steps, w1, w2 := [x, y, z], Next(w, x), Next(Next(w, x), y);
            Valid(w, steps) && AtStep(w, steps, 0) == w && AtStep(w, steps, 1) == w1 && AtStep(w, steps, 2) == w2
            && AtStep(w, steps, 3) == Next(w2, z)
  {
    hide Enabled, Next;
    OneStep(Next(Next(w, x), y), z, []);
    OneStep(Next(w, x), y, [z]);
    OneStep(w, x, [y, z]);
    assert [x] + [y, z] == [x, y, z] && [y] + [z] == [y, z] && [z] + [] == [z];
    assert AtStep(w, [x, y, z], 0 + 1) == AtStep(Next(w, x), [y, z], 0);
    assert AtStep(w, [x, y, z], 1 + 1) == AtStep(Next(w, x), [y, z], 0 + 1) == AtStep(Next(Next(w, x), y), [z], 0);
    assert AtStep(w, [x, y, z], 2 + 1) == AtStep(Next(w, x), [y, z], 1 + 1) == AtStep(Next(Next(w, x), y), [z], 0 + 1);
  }

  /** Three enabled steps that keep the wallet at two payments or less, with `a` failed at the end. */
  predicate Drains(w: World, x: Step, y: Step, z: Step, a: string) {
    && Enabled(w, x) && Enabled(Next(w, x), y) && Enabled(Next(Next(w, x), y), z)
    && var w1 := Next(w, x); var w2 := Next(w1, y); var w3 := Next(w2, z);
       w.wallet == w1.wallet == w3.wallet == 2 * PRICE && w2.wallet == PRICE && StatusAt(w3.pays, PayKey(a, 1)).PayFailed?
  }

  /** `b` is probed when the window opens and `a` when it closes. */
  lemma DrainProbed(a: string, b: string, c: string, steps: seq<Step>)
    requires Distinct(a, b, c) && |steps| == 3 && Valid(OnItsWay(a, b, c), steps)
    requires AtStep(OnItsWay(a, b, c), steps, 0) == OnItsWay(a, b, c)
    requires StatusAt(AtStep(OnItsWay(a, b, c), steps, 3).pays, PayKey(a, 1)).PayFailed?
    ensures Probed(OnItsWay(a, b, c), steps, SeenFailed(a))
  {
    hide Valid, AtStep;
    var w := OnItsWay(a, b, c);
    assert ProbedAt(w, steps, SeenFailed(a), a, 3) && ProbedAt(w, steps, SeenFailed(a), b, 0);
  }

  lemma DrainingOverstates(a: string, b: string, c: string, x: Step, y: Step, z: Step)
    requires Distinct(a, b, c) && Drains(OnItsWay(a, b, c), x, y, z, a)
    ensures Overstates(OnItsWay(a, b, c), [x, y, z], SeenFailed(a))
  {
    hide Enabled, Next, OnItsWay, Valid, AtStep, Expected, Probed;
    ThreeSteps(OnItsWay(a, b, c), x, y, z);
    DrainProbed(a, b, c, [x, y, z]);
    FigureIsAllThree(a, b, c, SeenFailed(a));
  }

  lemma SendDrains(a: string, b: string, c: string)
    requires Distinct(a, b, c)
    ensures Drains(OnItsWay(a, b, c), OnPay(Prepare(b)), OnPay(Send(b, PRICE)), OnPay(FailPay(a)), a)
  {
    hide HasDest;
    HasSomewhereToGo(1);
    var w1 := Next(OnItsWay(a, b, c), OnPay(Prepare(b)));
    assert w1 == OnItsWay(a, b, c).(pays := w1.pays);
    var w2 := Next(w1, OnPay(Send(b, PRICE)));
    assert w2.wallet == PRICE && w2.db == OnItsWay(a, b, c).db;
  }

  lemma SweepDrains(a: string, b: string, c: string, id: string)
    requires Distinct(a, b, c)
    ensures Drains(OnItsWay(a, b, c), OnSweep(SweepIntent(id, PRICE)), OnSweep(SweepSend(id, PRICE)), OnPay(FailPay(a)), a)
  {
    var w1 := Next(OnItsWay(a, b, c), OnSweep(SweepIntent(id, PRICE)));
    assert w1.db.refunds == OnItsWay(a, b, c).db.refunds && w1.pays == OnItsWay(a, b, c).pays && w1.wallet == 2 * PRICE;
    var w2 := Next(w1, OnSweep(SweepSend(id, PRICE)));
    assert w2.wallet == PRICE && w2.db == w1.db && w2.pays == w1.pays;
  }

  /** A refund sent in the window: `b` is probed idle and sent while `a` comes back before its own probe. */
  lemma SendOverstates(a: string, b: string, c: string)
    requires Distinct(a, b, c)
    ensures Overstates(OnItsWay(a, b, c), SendWindow(a, b), SeenFailed(a))
  {
    hide Drains, Overstates, OnItsWay;
    SendDrains(a, b, c);
    DrainingOverstates(a, b, c, OnPay(Prepare(b)), OnPay(Send(b, PRICE)), OnPay(FailPay(a)));
  }

  /** A sweep of what `c` earned does the same: its cap was not there to read. */
  lemma SweepSendOverstates(a: string, b: string, c: string, id: string)
    requires Distinct(a, b, c)
    ensures Overstates(OnItsWay(a, b, c), SweepWindow(a, id), SeenFailed(a))
  {
    hide Drains, Overstates, OnItsWay;
    SweepDrains(a, b, c, id);
    DrainingOverstates(a, b, c, OnSweep(SweepIntent(id, PRICE)), OnSweep(SweepSend(id, PRICE)), OnPay(FailPay(a)));
  }

  predicate OnlyBeside(steps: seq<Step>, kind: Step -> bool) { forall step :: step in steps ==> Calm(step) || kind(step) }

  lemma BesideCalm(a: string, b: string, id: string)
    ensures OnlyBeside(SendWindow(a, b), IsSend) && OnlyBeside(SweepWindow(a, id), IsSweepSend)
  {
  }

  predicate IsSend(step: Step) { step.OnPay? && step.p.Send? }

  predicate IsSweepSend(step: Step) { step.OnSweep? && step.s.SweepSend? }

  /**
  Either kind of send can alone put the figure above the wallet, at every instant of the window, from a world that a
  run from the start reaches.
  */
  lemma TornFigureCanExceedWallet(a: string, b: string, c: string, id: string)
    requires Distinct(a, b, c)
    ensures Start(Begun()) && Valid(Begun(), Way(a, b, c))
    ensures var w := After(Begun(), Way(a, b, c));
            Overstates(w, SendWindow(a, b), SeenFailed(a)) && Overstates(w, SweepWindow(a, id), SeenFailed(a))
    ensures OnlyBeside(SendWindow(a, b), IsSend) && OnlyBeside(SweepWindow(a, id), IsSweepSend)
  {
    hide Overstates, OnItsWay, Valid, After, Start, Begun, Way, SeenFailed, SendWindow, SweepWindow, OnlyBeside;
    OnItsWayIsReached(a, b, c);
    SendOverstates(a, b, c);
    SweepSendOverstates(a, b, c, id);
    BesideCalm(a, b, id);
  }
}
