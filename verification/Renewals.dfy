/**
Renewals of one subscription captured in any order: none is refunded, and paying in order of settlement is
the order that extends the service least.
*/
module Renewals {
  import opened Wrappers
  import opened Books
  import opened Delivery

  // ----- the arithmetic of stacking

  /** `paid_through` after renewals settled at `times`, in that order of capture. */
  function Stack(start: int, times: seq<int>, period: int): int {
    if times == [] then start
    else Max(Stack(start, times[..|times| - 1], period), times[|times| - 1]) + period
  }

  lemma StackSnoc(start: int, times: seq<int>, t: int, period: int)
    ensures Stack(start, times + [t], period) == Max(Stack(start, times, period), t) + period
  {
    assert (times + [t])[..|times|] == times;
  }

  /** Each renewal adds its period; a late one starts from its own settlement instead. */
  lemma {:induction false} StackBounds(start: int, times: seq<int>, period: int, latest: int)
    requires 0 <= period && start <= latest && forall i :: 0 <= i < |times| ==> times[i] <= latest
    ensures start + |times| * period <= Stack(start, times, period) <= latest + |times| * period
  {
    if times != [] {
      var init := times[..|times| - 1];
      StackBounds(start, init, period, latest);
      assert |times| * period == |init| * period + period;
      assert 0 <= |init| * period;
    }
  }

  /** Capturing `t` after a run of earlier settlements never ends later than capturing it before them. */
  lemma {:induction false} MoveLast(start: int, a: seq<int>, t: int, b: seq<int>, period: int)
    requires 0 <= period && forall i :: 0 <= i < |b| ==> b[i] <= t
    ensures Stack(start, a + b + [t], period) <= Stack(start, a + [t] + b, period)
  {
    if b == [] {
      assert a + b + [t] == a + [t] + b;
    } else {
      var n := |b| - 1;
      MoveLast(start, a, t, b[..n], period);
      assert a + b == (a + b[..n]) + [b[n]];
      assert a + [t] + b == (a + [t] + b[..n]) + [b[n]];
      StackSnoc(start, a + b, t, period);
      StackSnoc(start, a + b[..n], b[n], period);
      StackSnoc(start, a + b[..n], t, period);
      StackSnoc(start, a + [t] + b[..n], b[n], period);
    }
  }

  predicate Ascending(times: seq<int>) { forall i, j :: 0 <= i < j < |times| ==> times[i] <= times[j] }

  /** The exchange argument: of all capture orders, the ascending one ends earliest. */
  lemma {:induction false} AscendingIsLeast(start: int, times: seq<int>, sorted: seq<int>, period: int)
    requires 0 <= period && Ascending(sorted) && multiset(times) == multiset(sorted)
    ensures Stack(start, sorted, period) <= Stack(start, times, period)
    decreases |times|
  {
    if times != [] {
      var a, t, b := SplitAtLatest(times, sorted);
      var init := sorted[..|sorted| - 1];
      AscendingIsLeast(start, a + b, init, period);
      PutBackLast(start, a, t, b, init, period);
    } else {
      assert |multiset(sorted)| == |multiset(times)|;
    }
  }

  /** Where the latest settlement sits in an arbitrary capture order. */
  lemma SplitAtLatest(times: seq<int>, sorted: seq<int>) returns (a: seq<int>, t: int, b: seq<int>)
    requires times != [] && Ascending(sorted) && multiset(times) == multiset(sorted)
    ensures sorted != [] && times == a + [t] + b && sorted == sorted[..|sorted| - 1] + [t]
    ensures forall i :: 0 <= i < |b| ==> b[i] <= t
    ensures multiset(a + b) == multiset(sorted[..|sorted| - 1])
  {
    assert times[0] in multiset(sorted);
    t := sorted[|sorted| - 1];
    assert t in multiset(times);
    var k :| 0 <= k < |times| && times[k] == t;
    a, b := times[..k], times[k + 1..];
    forall i | 0 <= i < |b| ensures b[i] <= t {
      BelowLast(times, sorted, k + 1 + i);
    }
    TakeOut(times, k, sorted);
  }

  /** The step of the exchange: the latest settlement goes back in, wherever it was captured. */
  lemma PutBackLast(start: int, a: seq<int>, t: int, b: seq<int>, init: seq<int>, period: int)
    requires 0 <= period && forall i :: 0 <= i < |b| ==> b[i] <= t
    requires Stack(start, init, period) <= Stack(start, a + b, period)
    ensures Stack(start, init + [t], period) <= Stack(start, a + [t] + b, period)
  {
    MoveLast(start, a, t, b, period);
    StackSnoc(start, a + b, t, period);
    StackSnoc(start, init, t, period);
  }

  lemma BelowLast(times: seq<int>, sorted: seq<int>, i: nat)
    requires i < |times| && sorted != [] && Ascending(sorted) && multiset(times) == multiset(sorted)
    ensures times[i] <= sorted[|sorted| - 1]
  {
    assert times[i] in multiset(sorted);
    var j :| 0 <= j < |sorted| && sorted[j] == times[i];
  }

  lemma TakeOne(s: seq<int>, k: nat)
    requires k < |s|
    ensures multiset(s[..k] + s[k + 1..]) == multiset(s) - multiset{s[k]}
  {
    var a, b := s[..k], s[k + 1..];
    assert s == a + ([s[k]] + b);
    assert multiset(s) == multiset(a) + multiset([s[k]] + b);
    assert multiset([s[k]] + b) == multiset{s[k]} + multiset(b);
  }

  lemma TakeOut(times: seq<int>, k: nat, sorted: seq<int>)
    requires k < |times| && sorted != [] && times[k] == sorted[|sorted| - 1] && multiset(times) == multiset(sorted)
    ensures multiset(times[..k] + times[k + 1..]) == multiset(sorted[..|sorted| - 1])
  {
    var n := |sorted| - 1;
    TakeOne(times, k);
    TakeOne(sorted, n);
    assert sorted[..n] + sorted[n + 1..] == sorted[..n];
  }

  // ----- the same, on the database

  function Times(evs: seq<Event>): (ts: seq<int>)
    requires forall i :: 0 <= i < |evs| ==> evs[i].Deliver?
    ensures |ts| == |evs| && forall i :: 0 <= i < |evs| ==> ts[i] == evs[i].s.settledAt
  {
    seq(|evs|, i requires 0 <= i < |evs| => evs[i].s.settledAt)
  }

  predicate Live(sub: Sub) { sub.state.Active? || sub.state.Suspended? || sub.state.Resuming? }

  /** `e` is an open renewal invoice of `id`. */
  predicate OpenRenewal(db: Db, id: string, e: string) {
    e in db.invoices && db.invoices[e].status.Open? && db.invoices[e].kind.RenewalKind? && db.invoices[e].subId == Some(id)
  }

  /** Distinct open renewal invoices of `id`, each settled before the subscription's initial retention end. */
  predicate RenewalBatch(db: Db, id: string, evs: seq<Event>) {
    && id in db.subs && Live(db.subs[id]) && db.subs[id].paidThrough.Some? && 0 <= db.subs[id].periodS.GetOr(0)
    && (forall i :: 0 <= i < |evs| ==>
          evs[i].Deliver? && OpenRenewal(db, id, evs[i].s.externalId)
          && evs[i].s.settledAt < db.subs[id].paidThrough.value + db.subs[id].retentionS.GetOr(0))
    && (forall i, j :: 0 <= i < j < |evs| ==> evs[i].s.externalId != evs[j].s.externalId)
  }

  /** One renewal in time: the subscription is extended, the invoice applied, nothing refunded. */
  lemma InTimeRenewal(db: Db, id: string, s: Settlement, now: int)
    requires id in db.subs && Live(db.subs[id]) && db.subs[id].paidThrough.Some? && OpenRenewal(db, id, s.externalId)
    requires s.settledAt < db.subs[id].paidThrough.value + db.subs[id].retentionS.GetOr(0)
    ensures var end := AfterCapture(db, s, now);
            && end.refunds == db.refunds && end.subs == db.subs[id := Renewal(db.subs[id], s.settledAt, now)]
            && end.invoices == db.invoices[s.externalId := Stamped(db.invoices[s.externalId], s)]
  {
    assert RouteOf(db, s) == Extend(id);
  }

  /**
  What renewals leave of a subscription beside its new end: an ACTIVE one stays so and any other waits to be resumed,
  the next reminder hangs on the new end, a downtime credit is used up, and the terms are as they were.
  */
  predicate Resettled(before: Sub, now: Sub) {
    && now.state == (if before.state == Active then Active else Resuming)
    && now.paidThrough.Some? && now.softDate == now.nextDeadline == Some(now.paidThrough.value - before.renewLeadS.GetOr(0))
    && now.suspendNotBefore == None
    && (now.periodS, now.renewLeadS, now.retentionS, now.refundDest)
       == (before.periodS, before.renewLeadS, before.retentionS, before.refundDest)
  }

  /** The database part way through a batch: what is extended, what is applied, what is still to come. */
  ghost predicate Extended(db: Db, id: string, evs: seq<Event>, end: Db)
    requires RenewalBatch(db, id, evs)
  {
    && end.refunds == db.refunds
    && id in end.subs && Live(end.subs[id])
    && end.subs[id].periodS == db.subs[id].periodS && end.subs[id].retentionS == db.subs[id].retentionS
    && end.subs[id].paidThrough == Some(Stack(db.subs[id].paidThrough.value, Times(evs), db.subs[id].periodS.GetOr(0)))
    && (if evs == [] then end.subs[id] == db.subs[id] else Resettled(db.subs[id], end.subs[id]))
    && (forall other :: other != id ==>
          (other in end.subs <==> other in db.subs) && (other in db.subs ==> end.subs[other] == db.subs[other]))
    && (forall e :: e in FirstCredit(evs) ==> e in end.invoices && end.invoices[e].status.Paid?)
    && (forall e :: OpenRenewal(db, id, e) && e !in FirstCredit(evs) ==> OpenRenewal(end, id, e))
  }

  lemma {:induction false} CreditedWasDelivered(evs: seq<Event>, e: string)
    requires forall i :: 0 <= i < |evs| ==> evs[i].Deliver? && evs[i].s.externalId != e
    ensures e !in FirstCredit(evs)
  {
    if evs != [] {
      CreditedWasDelivered(evs[..|evs| - 1], e);
    }
  }

  lemma TimesStep(evs: seq<Event>, start: int, period: int)
    requires evs != [] && forall i :: 0 <= i < |evs| ==> evs[i].Deliver?
    ensures Stack(start, Times(evs), period) == Max(Stack(start, Times(evs[..|evs| - 1]), period), evs[|evs| - 1].s.settledAt) + period
  {
    assert Times(evs)[..|evs| - 1] == Times(evs[..|evs| - 1]);
  }

  lemma LastIsNew(db: Db, id: string, evs: seq<Event>)
    requires evs != [] && RenewalBatch(db, id, evs)
    ensures evs[|evs| - 1].Deliver? && evs[|evs| - 1].s.externalId !in FirstCredit(evs[..|evs| - 1])
    ensures FirstCredit(evs) == FirstCredit(evs[..|evs| - 1])[evs[|evs| - 1].s.externalId := evs[|evs| - 1].s.receivedMsat]
    ensures RenewalBatch(db, id, evs[..|evs| - 1])
  {
    CreditedWasDelivered(evs[..|evs| - 1], evs[|evs| - 1].s.externalId);
  }

  /** The next renewal finds its invoice open and the subscription live, and is in time. */
  lemma NextInTime(db: Db, id: string, evs: seq<Event>, mid: Db)
    requires evs != [] && RenewalBatch(db, id, evs) && RenewalBatch(db, id, evs[..|evs| - 1])
    requires Extended(db, id, evs[..|evs| - 1], mid) && evs[|evs| - 1].s.externalId !in FirstCredit(evs[..|evs| - 1])
    ensures var s, now := evs[|evs| - 1].s, evs[|evs| - 1].now; var end := AfterCapture(mid, s, now);
            && OpenRenewal(mid, id, s.externalId) && end.refunds == mid.refunds
            && end.subs == mid.subs[id := Renewal(mid.subs[id], s.settledAt, now)]
            && end.invoices == mid.invoices[s.externalId := Stamped(mid.invoices[s.externalId], s)]
  {
    hide FirstCredit, Stack, Times, AfterCapture, Stamped, Renewal;
    StackGrows(db.subs[id].paidThrough.value, Times(evs[..|evs| - 1]), db.subs[id].periodS.GetOr(0));
    InTimeRenewal(mid, id, evs[|evs| - 1].s, evs[|evs| - 1].now);
  }

  lemma ExtendedStep(db: Db, id: string, evs: seq<Event>, mid: Db)
    requires evs != [] && RenewalBatch(db, id, evs) && RenewalBatch(db, id, evs[..|evs| - 1])
    requires Extended(db, id, evs[..|evs| - 1], mid)
    ensures Extended(db, id, evs, AfterCapture(mid, evs[|evs| - 1].s, evs[|evs| - 1].now))
  {
    hide FirstCredit, Stack, Times, AfterCapture;
    LastIsNew(db, id, evs);
    NextInTime(db, id, evs, mid);
    TimesStep(evs, db.subs[id].paidThrough.value, db.subs[id].periodS.GetOr(0));
  }

  /** Every capture order extends by the stacking rule, applies every invoice and writes no refund row. */
  lemma {:induction false} BatchStacks(db: Db, id: string, evs: seq<Event>)
    requires RenewalBatch(db, id, evs)
    ensures Extended(db, id, evs, Run(db, evs))
  {
    if evs != [] {
      BatchStacks(db, id, evs[..|evs| - 1]);
      ExtendedStep(db, id, evs, Run(db, evs[..|evs| - 1]));
    }
  }

  lemma {:induction false} StackGrows(start: int, times: seq<int>, period: int)
    requires 0 <= period
    ensures start <= Stack(start, times, period)
  {
    if times != [] {
      StackGrows(start, times[..|times| - 1], period);
    }
  }

  /**
  n distinct renewals settled before the initial retention end: no order refunds any, every order lands between
  n periods past the old end and n periods past the latest of the old end and the last settlement.
  */
  lemma RenewalsAlwaysExtend(db: Db, id: string, evs: seq<Event>, latest: int)
    requires RenewalBatch(db, id, evs)
    requires db.subs[id].paidThrough.value <= latest && forall i :: 0 <= i < |evs| ==> evs[i].s.settledAt <= latest
    ensures Run(db, evs).refunds == db.refunds
    ensures id in Run(db, evs).subs && Run(db, evs).subs[id].paidThrough.Some?
    ensures var period := db.subs[id].periodS.GetOr(0);
            db.subs[id].paidThrough.value + |evs| * period <= Run(db, evs).subs[id].paidThrough.value <= latest + |evs| * period
  {
    BatchStacks(db, id, evs);
    StackBounds(db.subs[id].paidThrough.value, Times(evs), db.subs[id].periodS.GetOr(0), latest);
  }

  /** No capture order of the same settlements extends less than the order of settlement. */
  lemma SettlementOrderExtendsLeast(db: Db, id: string, evs: seq<Event>, inOrder: seq<Event>)
    requires RenewalBatch(db, id, evs) && RenewalBatch(db, id, inOrder)
    requires multiset(Times(evs)) == multiset(Times(inOrder)) && Ascending(Times(inOrder))
    ensures id in Run(db, evs).subs && id in Run(db, inOrder).subs
    ensures Run(db, evs).subs[id].paidThrough.Some? && Run(db, inOrder).subs[id].paidThrough.Some?
    ensures Run(db, inOrder).subs[id].paidThrough.value <= Run(db, evs).subs[id].paidThrough.value
  {
    BatchStacks(db, id, evs);
    BatchStacks(db, id, inOrder);
    AscendingIsLeast(db.subs[id].paidThrough.value, Times(evs), Times(inOrder), db.subs[id].periodS.GetOr(0));
  }
}
