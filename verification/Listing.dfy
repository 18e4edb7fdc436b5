/**
Publication of the listing: the durable row, the relay slot and the three verbs that move them.

`Do` and `ReplyTo` say what one whole critical section does; `Desk` performs the same sections statement by
statement. What a store call or a relay answers is not the daemon's choice, so it arrives as a `Luck`.
*/
module Listing {
  import opened Wrappers

  datatype State = Unpublished | Active | Withdrawn

  datatype Row = Row(state: State, eventId: Option<string>)

  /** What a relay was made to do. A request that never reached one leaves no trace. */
  datatype RelayOp = Put(id: string) | Drop

  datatype FailureClass = Structural | Reachability

  datatype Check = Check(ok: bool, failure: Option<FailureClass>)

  /** The world a publish is decided against; a missing row reads as no state. */
  datatype Snapshot = Snapshot(state: Option<State>, epoch: nat)

  /** The row, the in-memory withdraw epoch, the relay slot, and whether the latest relay request was confirmed. */
  datatype Shared = Shared(epoch: nat, row: Option<Row>, relay: Option<string>, lastOk: bool, ops: seq<RelayOp>)

  /** A relay confirms a request, takes it without the daemon hearing (an error or a timeout), or never sees it. */
  datatype RelayAnswer = Confirmed | Unheard | Lost

  /** How the store calls and the relay call of one section turn out, and the id the relay call would carry. */
  datatype Luck = Luck(read: bool, upsert: bool, mark: bool, relay: RelayAnswer, persist: bool, id: string)

  /** The critical sections of the verbs; a publish has two, with its probes in between. */
  datatype Section =
    | Snap(accept: bool)
    | Gate(snap: Snapshot, acceptUnverified: bool, checks: seq<Check>)
    | Withdraw
    | Boot

  datatype Reply =
    | Snapped(snap: Snapshot)
    | Published(eventId: Option<string>, recorded: bool, warnings: seq<Check>)
    | AlreadyPublished(eventId: Option<string>, recorded: bool, warnings: seq<Check>)
    | BlockedStructural(failed: seq<Check>, stillPublished: bool)
    | BlockedUnverified(failed: seq<Check>, stillPublished: bool)
    | Superseded(state: Option<State>)
    | Withdrew(retracted: bool)
    | AlreadyWithdrawn(retracted: bool)
    | NotPublished(retracted: bool)
    | BootQuiet
    | BootSent(eventId: Option<string>)
    | Failed

  function StateOf(s: Shared): Option<State> { if s.row.Some? then Some(s.row.value.state) else None }

  predicate IsActive(s: Shared) { StateOf(s) == Some(Active) }

  // ----- the single writes

  /** The upsert creates a quiet row; an existing one keeps its state and event id. */
  function Upserted(s: Shared): Shared { if s.row.Some? then s else s.(row := Some(Row(Unpublished, None))) }

  function Marked(s: Shared, state: State, clear: bool): Shared
    requires s.row.Some?
  {
    s.(row := Some(Row(state, if clear then None else s.row.value.eventId)))
  }

  function Sent(s: Shared, l: Luck): Shared {
    if l.relay.Lost? then s.(lastOk := false)
    else s.(relay := Some(l.id), ops := s.ops + [Put(l.id)], lastOk := l.relay.Confirmed?)
  }

  function Dropped(s: Shared, l: Luck): Shared {
    if l.relay.Lost? then s.(lastOk := false)
    else s.(relay := None, ops := s.ops + [Drop], lastOk := l.relay.Confirmed?)
  }

  function Recorded(s: Shared, id: string): Shared {
    if s.row.Some? then s.(row := Some(s.row.value.(eventId := Some(id)))) else s
  }

  /** publish_event: broadcast, and record the id only once a relay confirmed it. */
  function Broadcast(s: Shared, l: Luck): Shared {
    if l.relay.Confirmed? && l.persist then Recorded(Sent(s, l), l.id) else Sent(s, l)
  }

  function SentId(l: Luck): Option<string> { if l.relay.Confirmed? then Some(l.id) else None }

  // ----- the gate

  /** The checks that failed: by reachability, or by anything else. */
  function FailedChecks(checks: seq<Check>, reachability: bool): seq<Check> {
    if checks == [] then []
    else
      var c := checks[|checks| - 1];
      FailedChecks(checks[..|checks| - 1], reachability)
      + if !c.ok && (c.failure == Some(Reachability)) == reachability then [c] else []
  }

  /** One check after another: each failed one is kept, in order, by the tier its failure belongs to. */
  lemma {:induction false} FailedChecksAre(checks: seq<Check>, more: seq<Check>, c: Check, reachability: bool)
    ensures FailedChecks(checks + more, reachability) == FailedChecks(checks, reachability) + FailedChecks(more, reachability)
    ensures FailedChecks([c], reachability) ==
              if c.ok then [] else if reachability then (if c.failure == Some(Reachability) then [c] else [])
              else if c.failure == Some(Reachability) then [] else [c]
  {
    assert [c][..0] == [];
    if more == [] {
      assert checks + more == checks;
    } else {
      var n := |more| - 1;
      FailedChecksAre(checks, more[..n], c, reachability);
      assert (checks + more)[..|checks| + n] == checks + more[..n];
    }
  }

  predicate Passes(s: Shared, snap: Snapshot) { snap == Snapshot(StateOf(s), s.epoch) }

  predicate Clears(accept: bool, checks: seq<Check>) {
    FailedChecks(checks, false) == [] && (accept || FailedChecks(checks, true) == [])
  }

  /** A publish with any failed check goes ahead only on an explicit override of nothing but reachability failures. */
  lemma {:induction false} ClearsMeans(accept: bool, checks: seq<Check>)
    ensures Clears(accept, checks) <==>
              forall i :: 0 <= i < |checks| && !checks[i].ok ==> accept && checks[i].failure == Some(Reachability)
  {
    if checks != [] {
      var n := |checks| - 1;
      ClearsMeans(accept, checks[..n]);
      assert forall i :: 0 <= i < n ==> checks[..n][i] == checks[i];
    }
  }

  // ----- whole sections

  function AfterPublish(s: Shared, l: Luck): Shared {
    var u := Upserted(s);
    if !l.upsert then s
    else if IsActive(s) then Broadcast(u, l)
    else if !l.mark then u
    else Broadcast(Marked(u, Active, true), l)
  }

  function AfterWithdraw(s: Shared, l: Luck): Shared {
    var b := s.(epoch := s.epoch + 1);
    if !l.read then b
    else if !IsActive(s) then Dropped(b, l)
    else if !l.mark then b
    else Dropped(Marked(b, Withdrawn, false), l)
  }

  function AfterBoot(s: Shared, l: Luck): Shared {
    if !l.upsert then s else if !l.read || !IsActive(s) then Upserted(s) else Broadcast(s, l)
  }

  /** What one uninterrupted critical section leaves behind. */
  function Do(s: Shared, sec: Section, l: Luck): Shared {
    match sec
    case Snap(_) => s
    case Gate(snap, accept, checks) =>
      if l.read && Passes(s, snap) && Clears(accept, checks) then AfterPublish(s, l) else s
    case Withdraw => AfterWithdraw(s, l)
    case Boot => AfterBoot(s, l)
  }

  function PublishReply(s: Shared, l: Luck, warnings: seq<Check>): Reply {
    if !l.upsert then Failed
    else if IsActive(s) then AlreadyPublished(SentId(l), l.relay.Confirmed? && l.persist, warnings)
    else if !l.mark then Failed
    else Published(SentId(l), l.relay.Confirmed? && l.persist, warnings)
  }

  function WithdrawReply(s: Shared, l: Luck): Reply {
    var retracted := l.relay.Confirmed?;
    if !l.read then Failed
    else match StateOf(s)
      case Some(Withdrawn) => AlreadyWithdrawn(retracted)
      case Some(Active) => if l.mark then Withdrew(retracted) else Failed
      case _ => NotPublished(retracted)
  }

  function ReplyTo(s: Shared, sec: Section, l: Luck): Reply {
    match sec
    case Snap(_) => if l.read then Snapped(Snapshot(StateOf(s), s.epoch)) else Failed
    case Gate(snap, accept, checks) =>
      if !l.read then Failed
      else if !Passes(s, snap) then Superseded(StateOf(s))
      else if FailedChecks(checks, false) != [] then BlockedStructural(FailedChecks(checks, false), IsActive(s))
      else if FailedChecks(checks, true) != [] && !accept then BlockedUnverified(FailedChecks(checks, true), IsActive(s))
      else PublishReply(s, l, FailedChecks(checks, true))
    case Withdraw => WithdrawReply(s, l)
    case Boot => if !l.upsert || !l.read then Failed else if IsActive(s) then BootSent(SentId(l)) else BootQuiet
  }

  /** The operator's reply never contradicts the row: published means ACTIVE now, withdrawn means not. */
  lemma ReplyMatchesRow(s: Shared, sec: Section, l: Luck)
    requires !sec.Snap?
    ensures var r, end := ReplyTo(s, sec, l), Do(s, sec, l);
            && (r.Published? || r.AlreadyPublished? || r.BootSent? ==> IsActive(end))
            && (r.Withdrew? || r.AlreadyWithdrawn? ==> StateOf(end) == Some(Withdrawn))
            && (r.NotPublished? || r.BootQuiet? ==> !IsActive(end))
            && (r.Superseded? ==> end == s && r.state == StateOf(end))
            && (r.BlockedStructural? || r.BlockedUnverified? ==> end == s && r.stillPublished == IsActive(end))
            && (r.Published? || r.AlreadyPublished? ==>
                  (r.recorded ==> end.row.value.eventId == r.eventId) && (r.eventId.Some? ==> end.relay == r.eventId))
            && (r.Withdrew? || r.AlreadyWithdrawn? || r.NotPublished? ==> (r.retracted ==> end.relay == None))
            && (r.BootSent? && r.eventId.Some? ==> end.relay == r.eventId)
  {
  }

  /** And it says what the section did: which of the replies depends on the row it found, and nothing else in it is lost. */
  lemma ReplyTellsMove(s: Shared, sec: Section, l: Luck)
    requires !sec.Snap?
    ensures var r, end := ReplyTo(s, sec, l), Do(s, sec, l);
            && (r.Published? ==> !IsActive(s) && (!r.recorded ==> end.row.value.eventId == None))
            && (r.AlreadyPublished? ==> IsActive(s) && (!r.recorded ==> end.row == s.row))
            && (r.Withdrew? ==> IsActive(s) && end.row == Some(Row(Withdrawn, s.row.value.eventId)))
            && (r.AlreadyWithdrawn? || r.NotPublished? ==> end.row == s.row && (r.NotPublished? ==> StateOf(s) != Some(Withdrawn)))
            && (r.BootQuiet? ==> end.row.Some? && (s.row.Some? ==> end.row == s.row))
            && (r.BootSent? ==> IsActive(s) && (l.persist && r.eventId.Some? ==> end.row.value.eventId == r.eventId))
            && (r == Failed ==> !l.read || !l.upsert || !l.mark)
  {
  }

  /** A publish is answered with the checks that failed: those that block it, or those an override let through. */
  lemma ReplyTellsChecks(s: Shared, snap: Snapshot, accept: bool, checks: seq<Check>, l: Luck)
    ensures var r := ReplyTo(s, Gate(snap, accept, checks), l);
            var structural, unverified := FailedChecks(checks, false), FailedChecks(checks, true);
            && (r.Superseded? <==> l.read && snap != Snapshot(StateOf(s), s.epoch))
            && (r.BlockedStructural? ==> structural != [] && r.failed == structural)
            && (r.BlockedUnverified? ==> structural == [] && unverified != [] && !accept && r.failed == unverified)
            && (r.Published? || r.AlreadyPublished? ==> structural == [] && (accept || unverified == []) && r.warnings == unverified)
  {
  }

  /** The relays were asked for something. */
  predicate Asked(r: Reply) {
    r.Published? || r.AlreadyPublished? || r.BootSent? || r.Withdrew? || r.AlreadyWithdrawn? || r.NotPublished?
  }

  /** The relays hold what the last request that reached one left there. */
  predicate SlotIsLastOp(s: Shared) {
    s.ops != [] ==> s.relay == match s.ops[|s.ops| - 1] case Put(id) => Some(id) case Drop => None
  }

  /** One request of `op` to the relays, if the section asks them for anything, with the relays' trace and answer. */
  predicate OneRequest(s: Shared, end: Shared, asked: bool, relay: RelayAnswer, op: RelayOp) {
    && (asked && !relay.Lost? ==> end.ops == s.ops + [op] && end.relay == match op case Put(id) => Some(id) case Drop => None)
    && (!asked || relay.Lost? ==> end.ops == s.ops && end.relay == s.relay)
    && end.lastOk == if asked then relay.Confirmed? else s.lastOk
  }

  lemma GateRequest(s: Shared, snap: Snapshot, accept: bool, checks: seq<Check>, l: Luck)
    ensures var sec := Gate(snap, accept, checks); OneRequest(s, Do(s, sec, l), Asked(ReplyTo(s, sec, l)), l.relay, Put(l.id))
  {
    hide FailedChecks;
  }

  lemma WithdrawRequest(s: Shared, l: Luck)
    ensures OneRequest(s, Do(s, Withdraw, l), Asked(ReplyTo(s, Withdraw, l)), l.relay, Drop)
  {
  }

  lemma BootRequest(s: Shared, l: Luck)
    ensures OneRequest(s, Do(s, Boot, l), Asked(ReplyTo(s, Boot, l)), l.relay, Put(l.id))
  {
  }

  /** A section that asks the relays sends one request, a deletion if it withdraws; its trace and answer are the relay's. */
  lemma OneRequestEach(s: Shared, sec: Section, l: Luck)
    ensures OneRequest(s, Do(s, sec, l), Asked(ReplyTo(s, sec, l)), l.relay, if sec.Withdraw? then Drop else Put(l.id))
    ensures SlotIsLastOp(s) ==> SlotIsLastOp(Do(s, sec, l))
  {
    match sec
    case Snap(_) =>
    case Gate(snap, accept, checks) => GateRequest(s, snap, accept, checks, l);
    case Withdraw => WithdrawRequest(s, l);
    case Boot => BootRequest(s, l);
    hide AfterPublish, AfterWithdraw, AfterBoot, PublishReply, WithdrawReply;
  }

  // ----- the verbs, statement by statement

  class Desk {
    var epoch: nat
    var row: Option<Row>
    var relay: Option<string>
    var lastOk: bool
    var ops: seq<RelayOp>

    function View(): Shared
      reads this
    {
      Shared(epoch, row, relay, lastOk, ops)
    }

    function ReadState(): Option<State>
      reads this
    {
      if row.Some? then Some(row.value.state) else None
    }

    /** Everything is read under the lock, the epoch first. */
    method TakeSnapshot(l: Luck) returns (r: Reply)
      ensures r == ReplyTo(View(), Snap(false), l)
    {
      var withdrawEpoch := epoch;
      if !l.read { return Failed; }
      r := Snapped(Snapshot(ReadState(), withdrawEpoch));
    }

    method UpsertRow(l: Luck) returns (ok: bool)
      modifies this`row
      ensures ok == l.upsert
      ensures View() == if ok then Upserted(old(View())) else old(View())
    {
      if !l.upsert { return false; }
      if row.None? {
        row := Some(Row(Unpublished, None));
      }
      ok := true;
    }

    /** An update that matched no row is an error, not a silent success. */
    method SetState(state: State, clearEventId: bool, l: Luck) returns (ok: bool)
      modifies this`row
      ensures ok == (l.mark && old(row).Some?)
      ensures View() == if ok then Marked(old(View()), state, clearEventId) else old(View())
    {
      if !l.mark || row.None? { return false; }
      row := Some(Row(state, if clearEventId then None else row.value.eventId));
      ok := true;
    }

    /** Broadcast, then record the id; failing to record it is not a relay failure. */
    method PublishEvent(l: Luck) returns (eventId: Option<string>, recorded: bool)
      modifies this
      ensures View() == Broadcast(old(View()), l)
      ensures eventId == SentId(l) && recorded == (l.relay.Confirmed? && l.persist)
    {
      match l.relay {
        case Lost =>
          lastOk := false;
          return None, false;
        case Unheard =>
          relay, ops, lastOk := Some(l.id), ops + [Put(l.id)], false;
          return None, false;
        case Confirmed =>
          relay, ops, lastOk := Some(l.id), ops + [Put(l.id)], true;
      }
      if l.persist && row.Some? {
        row := Some(row.value.(eventId := Some(l.id)));
      }
      return Some(l.id), l.persist;
    }

    method RetractFromRelays(l: Luck) returns (retracted: bool)
      modifies this`relay, this`ops, this`lastOk
      ensures View() == Dropped(old(View()), l)
      ensures retracted == l.relay.Confirmed?
    {
      if !l.relay.Lost? {
        relay, ops := None, ops + [Drop];
      }
      retracted := l.relay.Confirmed?;
      lastOk := retracted;
    }

    method Failures(checks: seq<Check>, reachability: bool) returns (failed: seq<Check>)
      ensures failed == FailedChecks(checks, reachability)
    {
      failed := [];
      for i := 0 to |checks|
        invariant failed == FailedChecks(checks[..i], reachability)
      {
        assert checks[..i + 1][..i] == checks[..i];
        if !checks[i].ok && (checks[i].failure == Some(Reachability)) == reachability {
          failed := failed + [checks[i]];
        }
      }
      assert checks[..|checks|] == checks;
    }

    /** The compare-and-swap, the two tiers of checks, and only then the writes and the broadcast. */
    method PublishGated(observed: Snapshot, accept: bool, checks: seq<Check>, l: Luck) returns (r: Reply)
      modifies this
      ensures View() == Do(old(View()), Gate(observed, accept, checks), l)
      ensures r == ReplyTo(old(View()), Gate(observed, accept, checks), l)
    {
      if !l.read { return Failed; }
      var current := ReadState();
      if observed.state != current || observed.epoch != epoch {
        return Superseded(current);
      }
      var wasActive := current == Some(Active);
      var structural := Failures(checks, false);
      if structural != [] {
        return BlockedStructural(structural, wasActive);
      }
      var unverified := Failures(checks, true);
      if unverified != [] && !accept {
        return BlockedUnverified(unverified, wasActive);
      }
      var upserted := UpsertRow(l);
      if !upserted { return Failed; }
      if !wasActive {
        var marked := SetState(Active, true, l);
        if !marked { return Failed; }
      }
      var eventId, recorded := PublishEvent(l);
      r := if wasActive then AlreadyPublished(eventId, recorded, unverified) else Published(eventId, recorded, unverified);
    }

    /** The attempt counts before anything is known about the row; the durable write lands before the retraction. */
    method WithdrawListing(l: Luck) returns (r: Reply)
      modifies this
      ensures View() == Do(old(View()), Withdraw, l)
      ensures r == ReplyTo(old(View()), Withdraw, l)
    {
      epoch := epoch + 1;
      if !l.read { return Failed; }
      var current := ReadState();
      if current == Some(Withdrawn) {
        var again := RetractFromRelays(l);
        return AlreadyWithdrawn(again);
      }
      if current != Some(Active) {
        var asked := RetractFromRelays(l);
        return NotPublished(asked);
      }
      var marked := SetState(Withdrawn, false, l);
      if !marked { return Failed; }
      var retracted := RetractFromRelays(l);
      r := Withdrew(retracted);
    }

    /** Boot refreshes the row and broadcasts only what is already ACTIVE. */
    method RepublishOnBoot(l: Luck) returns (r: Reply)
      modifies this
      ensures View() == Do(old(View()), Boot, l)
      ensures r == ReplyTo(old(View()), Boot, l)
    {
      var upserted := UpsertRow(l);
      if !upserted || !l.read { return Failed; }
      if ReadState() != Some(Active) {
        return BootQuiet;
      }
      var eventId, _ := PublishEvent(l);
      r := BootSent(eventId);
    }
  }
}
