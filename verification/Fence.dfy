/**
The migration fence over whole runs: a fenced refund's status never moves until the fence is cleared, and
clearing it moves nothing but the stamp.
*/
module Fence {
  import opened Wrappers
  import opened Text
  import opened Books
  import opened Operator
  import opened Money
  import Delivery

  predicate Fenced(w: World, e: string) { e in w.db.refunds && w.db.refunds[e].fencedAt.Some? }

  /** The steps that may release the fence of refund `e`. */
  predicate Clears(step: Step, e: string) { step.OnBooks? && step.b.ClearFence? && step.b.id == e }

  /** Still there, still fenced, same status. */
  predicate Holds(w: World, w': World, e: string)
    requires Fenced(w, e)
  {
    Fenced(w', e) && w'.db.refunds[e].status == w.db.refunds[e].status
  }

  lemma BookHolds(w: World, ev: Delivery.Event, e: string)
    requires Fenced(w, e)
    ensures Holds(w, w.(db := Delivery.Apply(w.db, ev)), e)
  {
    match ev
    case Deliver(s, now) =>
    case _ =>
  }

  lemma BooksHold(w: World, b: BooksAct, e: string)
    requires BooksEnabled(w, b) && Fenced(w, e) && e !in w.driven && !Clears(OnBooks(b), e)
    ensures Holds(w, NextBooks(w, b), e)
  {
    match b
    case Receive(_, _) =>
    case Book(ev) => BookHolds(w, ev, e);
    case OpenInvoice(_, _) =>
    case OweRefund(_, _, _, _, _) =>
    case Drive(_) =>
    case CommitSent(_, _) =>
    case Park(_, _) =>
    case CountFailure(_, _) =>
    case Retry(_, _) =>
    case ClearFence(_, _, _) =>
    case Boot =>
  }

  lemma PayHolds(w: World, p: PayAct, e: string)
    requires PayEnabled(w, p) && Fenced(w, e)
    ensures Holds(w, NextPay(w, p), e)
  {
    match p
    case Import(_, _) =>
    case Reresolve(_, _) =>
    case _ =>
  }

  lemma SweepHolds(w: World, s: SweepAct, e: string)
    requires SweepEnabled(w, s) && Fenced(w, e)
    ensures Holds(w, NextSweep(w, s), e)
  {
    match s
    case SweepIntent(_, _) =>
    case SweepSend(_, _) =>
    case SweepSettle(_) =>
    case SweepFail(_) =>
    case SweepSent(_) =>
    case SweepFailed(_) =>
    case SweepImport(_, _) =>
    case SweepLegacyReturn(_) =>
  }

  /** No step but its own clearing moves a fenced row: drivers have not loaded it, and a retry answers `fenced` first. */
  lemma StepHolds(w: World, step: Step, e: string)
    requires Inv(w) && Enabled(w, step) && Fenced(w, e) && !Clears(step, e)
    ensures Holds(w, Next(w, step), e)
  {
    assert e !in w.driven;
    hide Inv, NextBooks, NextPay, NextSweep, BooksEnabled, PayEnabled, SweepEnabled;
    match step
    case OnBooks(b) => BooksHold(w, b, e);
    case OnPay(p) => PayHolds(w, p, e);
    case OnSweep(s) => SweepHolds(w, s, e);
  }

  lemma StillFenced(w: World, w': World, e: string)
    requires Fenced(w, e) && Holds(w, w', e)
    ensures Fenced(w', e)
  {
  }

  lemma HoldsOn(w: World, mid: World, w': World, e: string)
    requires Fenced(w, e) && Fenced(mid, e) && Holds(w, mid, e) && Holds(mid, w', e)
    ensures Holds(w, w', e)
  {
  }

  lemma {:induction false} RunHolds(w: World, steps: seq<Step>, e: string)
    requires Inv(w) && Valid(w, steps) && Fenced(w, e) && forall i :: 0 <= i < |steps| ==> !Clears(steps[i], e)
    ensures Holds(w, After(w, steps), e)
    decreases |steps|
  {
    if steps != [] {
      hide Inv, Enabled, Next, Fenced, Clears, Holds;
      StepHolds(w, steps[0], e);
      StillFenced(w, Next(w, steps[0]), e);
      StepKeepsInv(w, steps[0]);
      RunHolds(Next(w, steps[0]), steps[1..], e);
      HoldsOn(w, Next(w, steps[0]), After(w, steps), e);
    }
  }

  /** In any run from the start, between an import's stamp and the operator's clear a fenced refund keeps its status. */
  lemma FencedRowsNeverMove(w: World, before: seq<Step>, steps: seq<Step>, e: string)
    requires Start(w) && Valid(w, before) && Valid(After(w, before), steps) && Fenced(After(w, before), e)
    requires forall i :: 0 <= i < |steps| ==> !Clears(steps[i], e)
    ensures Holds(After(w, before), After(After(w, before), steps), e)
  {
    StartIsInv(w);
    RunKeepsInv(w, before);
    RunHolds(After(w, before), steps, e);
  }

  /** The clear removes one stamp: every status in both tables, every message and every other row is as before. */
  lemma ClearingMovesNoStatus(db: Db, id: string, note: string, now: int, e: string)
    ensures var db' := AfterClearFence(db, id, note, now);
            && (e in db.refunds <==> e in db'.refunds) && (e in db.sweeps <==> e in db'.sweeps)
            && (e in db.refunds ==> db'.refunds[e] == db.refunds[e]
                                    || (e == id && db'.refunds[e] == db.refunds[e].(fencedAt := None)))
            && (e in db.sweeps ==> db'.sweeps[e] == db.sweeps[e] || (e == id && db'.sweeps[e] == db.sweeps[e].(fencedAt := None)))
            && db'.outbox == db.outbox && db'.invoices == db.invoices && db'.subs == db.subs
  {
    hide Blank;
    if !ClearVerdict(db, id, note).Cleared? {
      assert AfterClearFence(db, id, note, now) == db;
    } else if id in db.refunds && db.refunds[id].fencedAt.Some? {
      assert AfterClearFence(db, id, note, now).sweeps == db.sweeps;
    } else {
      assert AfterClearFence(db, id, note, now).refunds == db.refunds;
    }
  }

  // ----- and if an import ran beside the drivers

  /** As the real machine, but an import does not wait for the drivers: what they have loaded stays loaded. */
  function LateNext(w: World, step: Step): World
    requires Enabled(w, step)
  {
    if (step.OnPay? && step.p.Import?) || (step.OnSweep? && step.s.SweepImport?)
    then Next(w, step).(driven := w.driven) else Next(w, step)
  }

  predicate LateValid(w: World, steps: seq<Step>)
    decreases |steps|
  {
    steps == [] || (Enabled(w, steps[0]) && LateValid(LateNext(w, steps[0]), steps[1..]))
  }

  function LateAfter(w: World, steps: seq<Step>): World
    requires LateValid(w, steps)
    decreases |steps|
  {
    if steps == [] then w else LateAfter(LateNext(w, steps[0]), steps[1..])
  }

  predicate ClearFree(steps: seq<Step>, e: string) { forall i :: 0 <= i < |steps| ==> !Clears(steps[i], e) }

  /** A driver loads only rows without a fence. */
  lemma LoadsOnlyUnfenced(w: World, step: Step, e: string)
    requires Enabled(w, step) && Fenced(w, e) && e !in w.driven
    ensures e !in Next(w, step).driven
  {
    match step
    case OnBooks(b) => BooksLoad(w, b, e);
    case OnPay(p) => PaysLoad(w, p);
    case OnSweep(s) => SweepsLoad(w, s);
    hide Enabled, BooksEnabled, PayEnabled, SweepEnabled, NextBooks, NextPay, NextSweep;
  }

  lemma BooksLoad(w: World, b: BooksAct, e: string)
    requires BooksEnabled(w, b) && Fenced(w, e) && e !in w.driven
    ensures e !in NextBooks(w, b).driven
  {
    match b
    case Drive(_) =>
    case OweRefund(_, _, _, _, _) =>
    case _ =>
  }

  lemma PaysLoad(w: World, p: PayAct)
    requires PayEnabled(w, p)
    ensures NextPay(w, p).driven <= w.driven
  {
    match p
    case Import(_, _) =>
    case Reresolve(_, _) =>
    case _ =>
  }

  lemma SweepsLoad(w: World, s: SweepAct)
    requires SweepEnabled(w, s)
    ensures NextSweep(w, s).driven <= w.driven
  {
    match s
    case SweepIntent(_, _) =>
    case SweepImport(_, _) =>
    case _ =>
  }

  lemma UnloadedHolds(w: World, step: Step, e: string)
    requires Enabled(w, step) && Fenced(w, e) && e !in w.driven && !Clears(step, e)
    ensures Holds(w, LateNext(w, step), e) && Fenced(LateNext(w, step), e) && e !in LateNext(w, step).driven
  {
    hide NextBooks, NextPay, NextSweep, BooksEnabled, PayEnabled, SweepEnabled, Clears;
    LoadsOnlyUnfenced(w, step, e);
    match step
    case OnBooks(b) => BooksHold(w, b, e);
    case OnPay(p) => PayHolds(w, p, e);
    case OnSweep(s) => SweepHolds(w, s, e);
  }

  lemma {:induction false} UnloadedRunHolds(w: World, steps: seq<Step>, e: string)
    requires LateValid(w, steps) && Fenced(w, e) && e !in w.driven && ClearFree(steps, e)
    ensures Holds(w, LateAfter(w, steps), e)
    decreases |steps|
  {
    hide Enabled, LateNext, Fenced, Clears, Holds;
    if steps == [] {
      HoldsStill(w, e);
    } else {
      assert !Clears(steps[0], e) && ClearFree(steps[1..], e);
      UnloadedHolds(w, steps[0], e);
      UnloadedRunHolds(LateNext(w, steps[0]), steps[1..], e);
      HoldsOn(w, LateNext(w, steps[0]), LateAfter(w, steps), e);
    }
  }

  lemma HoldsStill(w: World, e: string)
    requires Fenced(w, e)
    ensures Holds(w, w, e)
  {
  }

  lemma LoadedRowMoves(w: World, e: string, now: int)
    requires Fenced(w, e) && w.db.refunds[e].status.RPending? && e in w.driven
    ensures var steps := [OnBooks(Park(e, now))];
            LateValid(w, steps) && ClearFree(steps, e) && !Holds(w, LateAfter(w, steps), e)
  {
    var step := OnBooks(Park(e, now));
    assert [step][1..] == [];
    assert LateAfter(LateNext(w, step), []) == LateNext(w, step) == w.(db := AfterPark(w.db, e, now), driven := w.driven - {e});
  }

  /**
  With the imports let loose, a stamped pending refund keeps its status in every run up to its clear exactly when no
  driver has it loaded at the stamp: the terminal commits look at the status and not at the fence.
  */
  lemma FenceHoldsIffNotLoaded(w: World, e: string)
    requires Fenced(w, e) && w.db.refunds[e].status.RPending?
    ensures (forall steps :: LateValid(w, steps) && ClearFree(steps, e) ==> Holds(w, LateAfter(w, steps), e)) <==> e !in w.driven
  {
    hide Fenced, Holds, LateValid, LateAfter, ClearFree;
    if e in w.driven {
      LoadedRowMoves(w, e, 0);
    } else {
      forall steps | LateValid(w, steps) && ClearFree(steps, e) ensures Holds(w, LateAfter(w, steps), e) {
        UnloadedRunHolds(w, steps, e);
      }
    }
  }

  lemma LateCons(w: World, step: Step, rest: seq<Step>)
    requires Enabled(w, step) && LateValid(LateNext(w, step), rest)
    ensures LateValid(w, [step] + rest) && LateAfter(w, [step] + rest) == LateAfter(LateNext(w, step), rest)
  {
    hide Enabled, LateNext;
    assert ([step] + rest)[1..] == rest;
  }

  /** The run it takes, from the start: a driver loads the refund, the import stamps it, the driver commits. */
  lemma LateImportIsOutrun(w: World, e: string, now: int) returns (before: seq<Step>, steps: seq<Step>)
    requires Start(w)
    ensures LateValid(w, before)
    ensures var mid := LateAfter(w, before);
            && Fenced(mid, e) && mid.db.refunds[e].status.RPending? && e in mid.driven
            && LateValid(mid, steps) && ClearFree(steps, e) && !Holds(mid, LateAfter(mid, steps), e)
  {
    before := [OnBooks(OweRefund(e, None, None, Some(1), now)), OnBooks(Drive(e)), OnPay(Import(e, now))];
    var w1 := LateNext(w, before[0]);
    var w2 := LateNext(w1, before[1]);
    var w3 := LateNext(w2, before[2]);
    assert Fenced(w3, e) && w3.db.refunds[e].status.RPending? && e in w3.driven;
    hide Enabled, LateNext, Start, Fenced;
    LateCons(w2, before[2], []);
    LateCons(w1, before[1], [before[2]]);
    LateCons(w, before[0], [before[1], before[2]]);
    steps := [OnBooks(Park(e, now))];
    LoadedRowMoves(w3, e, now);
  }
}
