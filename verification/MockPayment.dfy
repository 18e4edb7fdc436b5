/**
The in-memory payment backend the money path is exercised against: create-once invoices, pay-once refunds,
settlements pushed from outside, and a clock that can be set to anything.

Ids print one shared sequence number each; here an id is its number, under the prefix that tells the two kinds apart.
*/
module MockPayment {
  import opened Wrappers

  datatype InvoiceId = MockInv(n: nat)

  datatype PaymentId = MockPay(n: nat)

  datatype Invoice = Invoice(id: InvoiceId, externalId: string, amountSat: nat, expiresAt: int)

  datatype State = State(
    invoices: map<string, Invoice>, paid: set<string>, settledAt: map<string, int>,
    payments: map<string, PaymentId>, seq_: nat, now: int)

  datatype Status = Open | Paid | Expired

  datatype PayStatus = Succeeded | Unknown

  const U64_MAX: nat := 0xFFFF_FFFF_FFFF_FFFF

  datatype Settlement = Settlement(id: InvoiceId, externalId: string, amountSat: nat, receivedMsat: nat, settledAt: int)

  datatype Call =
    | SetNow(now: int)
    | Create(amountSat: nat, expiryS: nat, externalId: string)
    | Settle(externalId: string, settledAt: int)
    | SettleRecovered(externalId: string)
    | DevSettle(externalId: string, settledAt: int)
    | Pay(key: string)

  // ----- the specification

  function SettlementOf(inv: Invoice, settledAt: int): Settlement {
    var msat := inv.amountSat * 1000;
    Settlement(inv.id, inv.externalId, inv.amountSat, if msat <= U64_MAX then msat else U64_MAX, settledAt)
  }

  predicate StillOpen(s: State, e: string) { e in s.invoices && e !in s.paid && s.now < s.invoices[e].expiresAt }

  function Settled(s: State, e: string, at: int): State { s.(paid := s.paid + {e}, settledAt := s.settledAt[e := at]) }

  function Next(s: State, c: Call): State {
    match c
    case SetNow(now) => s.(now := now)
    case Create(amountSat, expiryS, e) =>
      if e in s.invoices then s
      else s.(invoices := s.invoices[e := Invoice(MockInv(s.seq_), e, amountSat, s.now + expiryS)], seq_ := s.seq_ + 1)
    case Settle(e, at) => if e in s.invoices then Settled(s, e, at) else s
    case SettleRecovered(e) => if e in s.invoices then s.(paid := s.paid + {e}) else s
    case DevSettle(e, at) => if StillOpen(s, e) then Settled(s, e, at) else s
    case Pay(key) =>
      if key in s.payments then s else s.(payments := s.payments[key := MockPay(s.seq_)], seq_ := s.seq_ + 1)
  }

  function Run(s: State, calls: seq<Call>): State {
    if calls == [] then s else Next(Run(s, calls[..|calls| - 1]), calls[|calls| - 1])
  }

  function Fresh(): State { State(map[], {}, map[], map[], 0, 0) }

  /** Ids come from one counter, and each table is keyed by what it is idempotent on. */
  predicate Sound(s: State) {
    && (forall e :: e in s.invoices ==> s.invoices[e].externalId == e && s.invoices[e].id.n < s.seq_)
    && (forall k :: k in s.payments ==> s.payments[k].n < s.seq_)
    && (forall e, f :: e in s.invoices && f in s.invoices && s.invoices[e].id == s.invoices[f].id ==> e == f)
    && (forall k, l :: k in s.payments && l in s.payments && s.payments[k] == s.payments[l] ==> k == l)
    && (forall e, k :: e in s.invoices && k in s.payments ==> s.invoices[e].id.n != s.payments[k].n)
    && s.settledAt.Keys <= s.paid <= s.invoices.Keys
  }

  lemma CreateKeepsSound(s: State, e: string, inv: Invoice)
    requires Sound(s) && e !in s.invoices && inv.externalId == e && inv.id == MockInv(s.seq_)
    ensures Sound(s.(invoices := s.invoices[e := inv], seq_ := s.seq_ + 1))
  {
  }

  lemma PayKeepsSound(s: State, key: string)
    requires Sound(s) && key !in s.payments
    ensures Sound(s.(payments := s.payments[key := MockPay(s.seq_)], seq_ := s.seq_ + 1))
  {
  }

  lemma NextKeepsSound(s: State, c: Call)
    requires Sound(s)
    ensures Sound(Next(s, c))
  {
    match c
    case Create(amountSat, expiryS, e) =>
      if e !in s.invoices { CreateKeepsSound(s, e, Invoice(MockInv(s.seq_), e, amountSat, s.now + expiryS)); }
    case Pay(key) =>
      if key !in s.payments { PayKeepsSound(s, key); }
    case _ => SettleKeepsSound(s, c);
  }

  lemma SettleKeepsSound(s: State, c: Call)
    requires Sound(s) && !c.Create? && !c.Pay?
    ensures Sound(Next(s, c))
  {
  }

  /** Over any calls ids stay unique, within each kind and across the shared counter. */
  lemma {:induction false} RunIsSound(calls: seq<Call>)
    ensures Sound(Run(Fresh(), calls))
  {
    if calls != [] {
      RunIsSound(calls[..|calls| - 1]);
      NextKeepsSound(Run(Fresh(), calls[..|calls| - 1]), calls[|calls| - 1]);
    }
  }

  /** The status an invoice id has: looked up by id over the values, in whatever order the table yields them. */
  function StatusOf(s: State, inv: Invoice): Status {
    if inv.externalId in s.paid then Paid else if inv.expiresAt <= s.now then Expired else Open
  }

  predicate Holds(s: State, id: InvoiceId, e: string) { e in s.invoices && s.invoices[e].id == id }

  /** What a lookup answers, stated by id. */
  ghost predicate Answers(s: State, id: InvoiceId, status: Status) {
    (forall e :: Holds(s, id, e) ==> status == StatusOf(s, s.invoices[e])) && ((forall e :: !Holds(s, id, e)) ==> status == Expired)
  }

  /** What one call may not undo. */
  predicate Keeps(s: State, s': State) {
    && (forall e :: e in s.invoices ==> e in s'.invoices && s'.invoices[e] == s.invoices[e])
    && (forall k :: k in s.payments ==> k in s'.payments && s'.payments[k] == s.payments[k])
    && s.paid <= s'.paid && s.settledAt.Keys <= s'.settledAt.Keys
  }

  lemma NextKeeps(s: State, c: Call)
    ensures Keeps(s, Next(s, c))
  {
  }

  /** One external id keeps one unchanged invoice, one key one payment id, and paid stays paid whatever the clock does. */
  lemma {:induction false} NothingIsUndone(s: State, calls: seq<Call>, i: nat)
    requires i <= |calls|
    ensures Keeps(Run(s, calls[..i]), Run(s, calls))
    decreases |calls|
  {
    if i == |calls| {
      assert calls[..i] == calls;
    } else {
      var init := calls[..|calls| - 1];
      NothingIsUndone(s, init, i);
      assert init[..i] == calls[..i];
      NextKeeps(Run(s, init), calls[|calls| - 1]);
      hide Next;
    }
  }

  /** An invoice id that was ever looked up as paid is paid from then on. */
  lemma PaidIsAbsorbing(calls: seq<Call>, i: nat, id: InvoiceId, status: Status)
    requires i <= |calls| && Answers(Run(Fresh(), calls[..i]), id, Paid) && Answers(Run(Fresh(), calls), id, status)
    ensures status == Paid
  {
    var s, s' := Run(Fresh(), calls[..i]), Run(Fresh(), calls);
    RunIsSound(calls[..i]);
    NothingIsUndone(Fresh(), calls, i);
    var e :| Holds(s, id, e);
    assert Holds(s', id, e);
  }

  // ----- one invoice's life

  /** A new invoice asks for its amount until its expiry; asked for again under the same id it is the same invoice. */
  lemma InvoiceIsMade(s: State, amountSat: nat, expiryS: nat, e: string, again: Call)
    requires Sound(s) && e !in s.invoices && again.Create? && again.externalId == e
    ensures var s1 := Next(s, Create(amountSat, expiryS, e));
            && s1 == s.(invoices := s1.invoices, seq_ := s1.seq_) && s1.invoices.Keys == s.invoices.Keys + {e}
            && s1.invoices[e].externalId == e && s1.invoices[e].amountSat == amountSat && s1.invoices[e].expiresAt == s.now + expiryS
            && Next(s1, again) == s1
            && StatusOf(s1, s1.invoices[e]) == (if expiryS == 0 then Expired else Open)
  {
  }

  /** What the clock and each way of settling make of an invoice: expiry only ever closes an unpaid one. */
  lemma InvoiceIsPaid(s: State, e: string, at: int)
    requires Sound(s) && e in s.invoices
    ensures var inv := s.invoices[e];
            && (StatusOf(Next(s, SetNow(at)), inv) == if e in s.paid then Paid else if inv.expiresAt <= at then Expired else Open)
            && StatusOf(Next(s, Settle(e, at)), inv) == StatusOf(Next(s, SettleRecovered(e)), inv) == Paid
            && e in Next(s, Settle(e, at)).settledAt && Next(s, Settle(e, at)).settledAt[e] == at
            && Next(s, SettleRecovered(e)).settledAt == s.settledAt
            && Next(s, DevSettle(e, at)) == if StatusOf(s, inv) == Open then Next(s, Settle(e, at)) else s
  {
  }

  /** Paying under a new key takes the next number and nothing else; paying under it again does nothing at all. */
  lemma PaymentIsMade(s: State, key: string)
    requires key !in s.payments
    ensures var s1 := Next(s, Pay(key));
            && s1 == s.(payments := s.payments[key := MockPay(s.seq_)], seq_ := s.seq_ + 1)
            && Next(s1, Pay(key)) == s1
  {
  }

  /** What a settlement reports of its invoice: the whole price as credit, up to what 64 bits hold. */
  lemma SettlementReports(inv: Invoice, at: int)
    ensures var r := SettlementOf(inv, at);
            && (r.id, r.externalId, r.amountSat, r.settledAt) == (inv.id, inv.externalId, inv.amountSat, at)
            && r.receivedMsat <= U64_MAX && r.receivedMsat <= inv.amountSat * 1000
            && (r.receivedMsat == U64_MAX || r.receivedMsat == inv.amountSat * 1000)
  {
  }

  // ----- the backend, call by call

  class Backend {
    var invoices: map<string, Invoice>
    var paid: set<string>
    var settledAt: map<string, int>
    var payments: map<string, PaymentId>
    var seq_: nat
    var now: int

    constructor ()
      ensures View() == Fresh()
    {
      invoices, paid, settledAt, payments, seq_, now := map[], {}, map[], map[], 0, 0;
    }

    function View(): State
      reads this
    {
      State(invoices, paid, settledAt, payments, seq_, now)
    }

    method SetClock(to: int)
      modifies this`now
      ensures View() == Next(old(View()), SetNow(to))
    {
      now := to;
    }

    /** Create-once on the external id: a second call returns the first invoice, whatever it asks for. */
    method CreateInvoice(amountSat: nat, expiryS: nat, externalId: string) returns (inv: Invoice)
      modifies this
      ensures View() == Next(old(View()), Create(amountSat, expiryS, externalId))
      ensures externalId in invoices && inv == invoices[externalId]
      ensures externalId in old(invoices) ==> inv == old(invoices)[externalId]
    {
      if externalId in invoices { return invoices[externalId]; }
      var n := seq_;
      seq_ := seq_ + 1;
      inv := Invoice(MockInv(n), externalId, amountSat, now + expiryS);
      invoices := invoices[externalId := inv];
    }

    method SettleLive(externalId: string, at: int) returns (r: Result<Settlement, ()>)
      modifies this
      ensures View() == Next(old(View()), Settle(externalId, at))
      ensures r == if externalId in old(invoices) then Ok(SettlementOf(old(invoices)[externalId], at)) else Err(())
    {
      if externalId !in invoices { return Err(()); }
      paid := paid + {externalId};
      settledAt := settledAt[externalId := at];
      r := Ok(SettlementOf(invoices[externalId], at));
    }

    method SettleWhileDown(externalId: string) returns (ok: bool)
      modifies this
      ensures View() == Next(old(View()), SettleRecovered(externalId)) && ok == (externalId in old(invoices))
    {
      if externalId !in invoices { return false; }
      paid := paid + {externalId};
      ok := true;
    }

    method DevSettleOpen(externalId: string, at: int) returns (ok: bool)
      modifies this
      ensures View() == Next(old(View()), DevSettle(externalId, at)) && ok == StillOpen(old(View()), externalId)
    {
      if externalId !in invoices || externalId in paid || now >= invoices[externalId].expiresAt { return false; }
      var _ := SettleLive(externalId, at);
      ok := true;
    }

    /** Pay-once on the key. */
    method PayOnce(key: string) returns (id: PaymentId)
      modifies this
      ensures View() == Next(old(View()), Pay(key))
      ensures key in payments && id == payments[key] && (key in old(payments) ==> id == old(payments)[key])
    {
      if key in payments { return payments[key]; }
      var n := seq_;
      seq_ := seq_ + 1;
      id := MockPay(n);
      payments := payments[key := id];
    }

    method Lookup(id: InvoiceId) returns (status: Status)
      requires Sound(View())
      ensures Answers(View(), id, status)
    {
      if e :| e in invoices && invoices[e].id == id {
        var inv := invoices[e];
        assert Holds(View(), id, e);
        status := if inv.externalId in paid then Paid else if now >= inv.expiresAt then Expired else Open;
      } else {
        assert forall e :: !Holds(View(), id, e);
        status := Expired;
      }
    }

    /** The same search again, with the live settlement time when there is one. */
    method LookupSettlement(id: InvoiceId) returns (status: Status, at: Option<int>)
      requires Sound(View())
      ensures Answers(View(), id, status) && (at.Some? ==> status == Paid)
      ensures forall e :: Holds(View(), id, e) && status == Paid ==> at == if e in settledAt then Some(settledAt[e]) else None
    {
      if e :| e in invoices && invoices[e].id == id {
        var inv := invoices[e];
        assert Holds(View(), id, e);
        if inv.externalId in paid {
          return Paid, if inv.externalId in settledAt then Some(settledAt[inv.externalId]) else None;
        }
        return if now >= inv.expiresAt then Expired else Open, None;
      }
      assert forall e :: !Holds(View(), id, e);
      return Expired, None;
    }

    /** payment_status: succeeded exactly for an id some key paid under. */
    method PaymentStatus(id: PaymentId) returns (status: PayStatus)
      ensures status.Succeeded? <==> exists key :: PaidUnder(View(), key, id)
    {
      if key :| key in payments && payments[key] == id {
        assert PaidUnder(View(), key, id);
        status := Succeeded;
      } else {
        status := Unknown;
      }
    }

    /** payment_status_by_key: succeeded exactly for a key that was paid, whatever its id. */
    method PaymentStatusByKey(key: string) returns (status: PayStatus)
      ensures status.Succeeded? <==> exists id :: PaidUnder(View(), key, id)
    {
      status := if key in payments then Succeeded else Unknown;
      if key in payments { assert PaidUnder(View(), key, payments[key]); }
    }

    /** The two lookups never disagree on the status, whichever values they come across first. */
    method LookupBoth(id: InvoiceId) returns (status: Status, half: Status)
      requires Sound(View())
      ensures status == half
    {
      status := Lookup(id);
      var at: Option<int>;
      half, at := LookupSettlement(id);
      AnswersAgree(View(), id, status, half);
    }
  }

  /** `key` was paid, under the backend id `id`. */
  predicate PaidUnder(s: State, key: string, id: PaymentId) { key in s.payments && s.payments[key] == id }

  lemma AnswersAgree(s: State, id: InvoiceId, a: Status, b: Status)
    requires Answers(s, id, a) && Answers(s, id, b)
    ensures a == b
  {
    if e :| Holds(s, id, e) { assert a == StatusOf(s, s.invoices[e]); }
  }

  /** Distinct kinds of id never share a number, so neither kind is ever mistaken for the other. */
  lemma IdsAreUnique(calls: seq<Call>, e: string, f: string, k: string, l: string)
    ensures var s := Run(Fresh(), calls);
            && (e in s.invoices && f in s.invoices && s.invoices[e].id == s.invoices[f].id ==> e == f)
            && (k in s.payments && l in s.payments && s.payments[k] == s.payments[l] ==> k == l)
            && (e in s.invoices && k in s.payments ==> s.invoices[e].id.n != s.payments[k].n)
  {
    RunIsSound(calls);
  }
}
