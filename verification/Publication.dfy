/**
The publication protocol: arbitrarily many publishes, withdrawals and boots, interleaved between any two store
or relay calls, with the process dying at any point.

Sections take the transition lock; what runs under it still happens one call at a time, in full view of a crash.
The world records the sections in the order they took the lock; every run is shown to be that serial run.
*/
module Publication {
  import opened Wrappers
  import opened Listing

  /** What ran, in lock order. `Died` is a section the process did not survive. */
  datatype Entry =
    | Ran(tid: nat, sec: Section, luck: Luck)
    | Died(tid: nat, sec: Section, luck: Luck)
    | Restart

  /** A verb in progress. `Held` is inside its critical section, `stage` calls in, with what it has read so far. */
  datatype Thread =
    | Wanting(sec: Section)
    | Held(sec: Section, stage: nat, luck: Luck, cur: Option<State>, epoch: nat)
    | Probing(snap: Snapshot, accept: bool)
    | Done(reply: Reply)

  datatype World = World(
    shared: Shared, threads: map<nat, Thread>, holder: Option<nat>,
    base: Shared, hist: seq<Entry>, replies: seq<(nat, Reply)>)

  datatype Action =
    | Spawn(t: nat, sec: Section)
    | Acquire(t: nat, luck: Luck)
    | Advance(t: nat)
    | Probed(t: nat, checks: seq<Check>)
    | Crash(landed: bool)

  // ----- the serial run

  /** A dead process loses its epoch; if it died inside a section its last relay request counts as failed. */
  function EntryDo(s: Shared, e: Entry): Shared {
    match e
    case Ran(_, sec, l) => Do(s, sec, l)
    case Died(_, sec, l) => Do(s, sec, l).(epoch := 0, lastOk := false)
    case Restart => s.(epoch := 0)
  }

  function Serial(s0: Shared, hist: seq<Entry>): Shared {
    if hist == [] then s0 else EntryDo(Serial(s0, hist[..|hist| - 1]), hist[|hist| - 1])
  }

  /** The replies of the serial run: a section the process died in answers nobody. */
  function Replies(s0: Shared, hist: seq<Entry>): seq<(nat, Reply)> {
    if hist == [] then []
    else
      var e, earlier := hist[|hist| - 1], hist[..|hist| - 1];
      Replies(s0, earlier) + if e.Ran? then [(e.tid, ReplyTo(Serial(s0, earlier), e.sec, e.luck))] else []
  }

  lemma SerialSnoc(s0: Shared, hist: seq<Entry>, e: Entry)
    ensures Serial(s0, hist + [e]) == EntryDo(Serial(s0, hist), e)
    ensures Replies(s0, hist + [e]) ==
            Replies(s0, hist) + if e.Ran? then [(e.tid, ReplyTo(Serial(s0, hist), e.sec, e.luck))] else []
  {
    assert (hist + [e])[..|hist|] == hist;
  }

  // ----- one call at a time

  /** A call either leaves the thread inside its section or ends it with a reply. */
  datatype Call = Stay(s: Shared, th: Thread) | Release(s: Shared, reply: Reply)

  function SnapCall(s: Shared, th: Thread): Call
    requires th.Held?
  {
    if th.stage == 0 then Stay(s, th.(stage := 1, epoch := s.epoch))
    else Release(s, if th.luck.read then Snapped(Snapshot(StateOf(s), th.epoch)) else Failed)
  }

  function GateVerdict(s: Shared, th: Thread): Option<Reply>
    requires th.Held? && th.sec.Gate?
  {
    var unverified := FailedChecks(th.sec.checks, true);
    if th.sec.snap.state != th.cur || th.sec.snap.epoch != s.epoch then Some(Superseded(th.cur))
    else if FailedChecks(th.sec.checks, false) != [] then
      Some(BlockedStructural(FailedChecks(th.sec.checks, false), th.cur == Some(Active)))
    else if unverified != [] && !th.sec.acceptUnverified then Some(BlockedUnverified(unverified, th.cur == Some(Active)))
    else None
  }

  function GateReply(th: Thread): Reply
    requires th.Held? && th.sec.Gate?
  {
    var l, warnings := th.luck, FailedChecks(th.sec.checks, true);
    if th.cur == Some(Active) then AlreadyPublished(SentId(l), l.relay.Confirmed? && l.persist, warnings)
    else Published(SentId(l), l.relay.Confirmed? && l.persist, warnings)
  }

  function GateCall(s: Shared, th: Thread): Call
    requires th.Held? && th.sec.Gate?
  {
    var l := th.luck;
    match th.stage
    case 0 => if l.read then Stay(s, th.(stage := 1, cur := StateOf(s))) else Release(s, Failed)
    case 1 =>
      if GateVerdict(s, th).Some? then Release(s, GateVerdict(s, th).value)
      else if l.upsert then Stay(Upserted(s), th.(stage := 2)) else Release(s, Failed)
    case 2 =>
      if th.cur == Some(Active) then Stay(s, th.(stage := 3))
      else if l.mark && s.row.Some? then Stay(Marked(s, Active, true), th.(stage := 3)) else Release(s, Failed)
    case 3 => if l.relay.Confirmed? then Stay(Sent(s, l), th.(stage := 4)) else Release(Sent(s, l), GateReply(th))
    case _ => Release(if l.persist then Recorded(s, l.id) else s, GateReply(th))
  }

  function WithdrawCall(s: Shared, th: Thread): Call
    requires th.Held?
  {
    var l := th.luck;
    match th.stage
    case 0 => Stay(s.(epoch := s.epoch + 1), th.(stage := 1))
    case 1 => if l.read then Stay(s, th.(stage := 2, cur := StateOf(s))) else Release(s, Failed)
    case 2 =>
      if th.cur != Some(Active) then Stay(s, th.(stage := 3))
      else if l.mark && s.row.Some? then Stay(Marked(s, Withdrawn, false), th.(stage := 3)) else Release(s, Failed)
    case _ =>
      Release(Dropped(s, l),
              match th.cur
              case Some(Withdrawn) => AlreadyWithdrawn(l.relay.Confirmed?)
              case Some(Active) => Withdrew(l.relay.Confirmed?)
              case _ => NotPublished(l.relay.Confirmed?))
  }

  function BootCall(s: Shared, th: Thread): Call
    requires th.Held?
  {
    var l := th.luck;
    match th.stage
    case 0 => if l.upsert then Stay(Upserted(s), th.(stage := 1)) else Release(s, Failed)
    case 1 =>
      if !l.read then Release(s, Failed)
      else if StateOf(s) != Some(Active) then Release(s, BootQuiet) else Stay(s, th.(stage := 2))
    case 2 => if l.relay.Confirmed? then Stay(Sent(s, l), th.(stage := 3)) else Release(Sent(s, l), BootSent(None))
    case _ => Release(if l.persist then Recorded(s, l.id) else s, BootSent(Some(l.id)))
  }

  function NextCall(s: Shared, th: Thread): Call
    requires th.Held?
  {
    match th.sec
    case Snap(_) => SnapCall(s, th)
    case Gate(_, _, _) => GateCall(s, th)
    case Withdraw => WithdrawCall(s, th)
    case Boot => BootCall(s, th)
  }

  // ----- the machine

  predicate Can(w: World, a: Action) {
    match a
    case Spawn(t, sec) => t !in w.threads && !sec.Gate?
    case Acquire(t, _) => w.holder.None? && t in w.threads && w.threads[t].Wanting?
    case Advance(t) => w.holder == Some(t) && t in w.threads && w.threads[t].Held?
    case Probed(t, _) => t in w.threads && w.threads[t].Probing?
    case Crash(_) => true
  }

  /** A publish that took its snapshot goes on to probe; every other section is its verb's last. */
  function Resume(sec: Section, reply: Reply): Thread {
    if sec.Snap? && reply.Snapped? then Probing(reply.snap, sec.accept) else Done(reply)
  }

  /** The holder's next call is its relay call. */
  predicate AtRelay(th: Thread)
    requires th.Held?
  {
    match th.sec
    case Snap(_) => false
    case Gate(_, _, _) => th.stage == 3
    case Withdraw => th.stage == 3
    case Boot => th.stage == 2
  }

  /** The relay took the request, and nobody was left to hear so. */
  function Landed(s: Shared, th: Thread): Shared
    requires th.Held?
  {
    var l := th.luck.(relay := Unheard);
    if !AtRelay(th) then s else if th.sec.Withdraw? then Dropped(s, l) else Sent(s, l)
  }

  /** What a crash makes of the calls a section had not made yet: they count as failed, but for a relay call that landed. */
  function Unfinished(s: Shared, th: Thread, landed: bool): Luck
    requires th.Held?
  {
    var l := th.luck;
    var relay := if landed && AtRelay(th) then Unheard else Lost;
    match th.sec
    case Snap(_) => l
    case Gate(_, _, _) =>
      if th.stage <= 1 then l.(read := false)
      else if th.stage == 2 && !IsActive(s) then l.(mark := false)
      else if th.stage <= 3 then l.(relay := relay) else l.(persist := false)
    case Withdraw =>
      if th.stage <= 1 then l.(read := false)
      else if th.stage == 2 && IsActive(s) then l.(mark := false) else l.(relay := relay)
    case Boot =>
      if th.stage == 0 then l.(upsert := false)
      else if th.stage == 1 then l.(read := false)
      else if th.stage == 2 then l.(relay := relay) else l.(persist := false)
  }

  /** The process dies between two calls, or in the relay call with the request already at the relay. */
  function Crashed(w: World, landed: bool): World {
    if w.holder.Some? && w.holder.value in w.threads && w.threads[w.holder.value].Held? then
      var th := w.threads[w.holder.value];
      var s := (if landed then Landed(w.shared, th) else w.shared).(epoch := 0, lastOk := false);
      World(s, map[], None, s, w.hist + [Died(w.holder.value, th.sec, Unfinished(w.base, th, landed))], w.replies)
    else
      var s := w.shared.(epoch := 0);
      World(s, map[], None, s, w.hist + [Restart], w.replies)
  }

  function Advanced(w: World, t: nat): World
    requires t in w.threads && w.threads[t].Held?
  {
    var th := w.threads[t];
    match NextCall(w.shared, th)
    case Stay(s, th') => w.(shared := s, threads := w.threads[t := th'])
    case Release(s, reply) =>
      World(s, w.threads[t := Resume(th.sec, reply)], None, s, w.hist + [Ran(t, th.sec, th.luck)], w.replies + [(t, reply)])
  }

  function Step(w: World, a: Action): World
    requires Can(w, a)
  {
    match a
    case Spawn(t, sec) => w.(threads := w.threads[t := Wanting(sec)])
    case Acquire(t, luck) =>
      w.(threads := w.threads[t := Held(w.threads[t].sec, 0, luck, None, 0)], holder := Some(t), base := w.shared)
    case Advance(t) => Advanced(w, t)
    case Probed(t, checks) => w.(threads := w.threads[t := Wanting(Gate(w.threads[t].snap, w.threads[t].accept, checks))])
    case Crash(landed) => Crashed(w, landed)
  }

  predicate Valid(w: World, acts: seq<Action>)
    decreases |acts|
  {
    acts == [] || (Can(w, acts[0]) && Valid(Step(w, acts[0]), acts[1..]))
  }

  function After(w: World, acts: seq<Action>): World
    requires Valid(w, acts)
    decreases |acts|
  {
    if acts == [] then w else After(Step(w, acts[0]), acts[1..])
  }

  function Fresh(s0: Shared): World { World(s0, map[], None, s0, [], []) }

  // ----- a section part way through

  /** The shared state after the first `stage` calls of a section that found `base`. */
  function Partial(base: Shared, th: Thread): Shared
    requires th.Held?
  {
    var l, k := th.luck, th.stage;
    match th.sec
    case Snap(_) => base
    case Gate(_, _, _) =>
      var u := Upserted(base);
      var m := if IsActive(base) then u else Marked(u, Active, true);
      if k <= 1 then base else if k == 2 then u else if k == 3 then m else Sent(m, l)
    case Withdraw =>
      var b := base.(epoch := base.epoch + 1);
      if k == 0 then base else if k <= 2 || !IsActive(base) then b else Marked(b, Withdrawn, false)
    case Boot =>
      if k == 0 then base else if k <= 2 then Upserted(base) else Sent(base, l)
  }

  /** What getting this far says about the section's luck and what it has read. */
  predicate Reached(base: Shared, th: Thread)
    requires th.Held?
  {
    var l, k := th.luck, th.stage;
    match th.sec
    case Snap(_) => k <= 1 && (k == 1 ==> th.epoch == base.epoch)
    case Gate(snap, accept, checks) =>
      k <= 4 && (1 <= k ==> l.read && th.cur == StateOf(base))
      && (2 <= k ==> l.upsert && Passes(base, snap) && Clears(accept, checks))
      && (3 <= k && !IsActive(base) ==> l.mark) && (k == 4 ==> l.relay.Confirmed?)
    case Withdraw =>
      k <= 3 && (2 <= k ==> l.read && th.cur == StateOf(base)) && (k == 3 && IsActive(base) ==> l.mark)
    case Boot =>
      k <= 3 && (1 <= k ==> l.upsert) && (2 <= k ==> l.read && IsActive(base)) && (k == 3 ==> l.relay.Confirmed?)
  }

  /** One call of the holder continues the partial section, or completes it as the whole section would. */
  predicate Continues(base: Shared, th: Thread, c: Call)
    requires th.Held?
  {
    match c
    case Stay(s, th') => th'.Held? && th'.sec == th.sec && th'.luck == th.luck && Reached(base, th') && s == Partial(base, th')
    case Release(s, reply) => s == Do(base, th.sec, th.luck) && reply == ReplyTo(base, th.sec, th.luck)
  }

  lemma GateContinues(base: Shared, th: Thread)
    requires th.Held? && th.sec.Gate? && Reached(base, th)
    ensures Continues(base, th, GateCall(Partial(base, th), th))
  {
  }

  lemma WithdrawContinues(base: Shared, th: Thread)
    requires th.Held? && th.sec.Withdraw? && Reached(base, th)
    ensures Continues(base, th, WithdrawCall(Partial(base, th), th))
  {
  }

  lemma BootContinues(base: Shared, th: Thread)
    requires th.Held? && th.sec.Boot? && Reached(base, th)
    ensures Continues(base, th, BootCall(Partial(base, th), th))
  {
  }

  lemma CallContinues(base: Shared, th: Thread)
    requires th.Held? && Reached(base, th)
    ensures Continues(base, th, NextCall(Partial(base, th), th))
  {
    match th.sec
    case Snap(_) =>
    case Gate(_, _, _) => GateContinues(base, th);
    case Withdraw => WithdrawContinues(base, th);
    case Boot => BootContinues(base, th);
  }

  /** A crash part way through a section is the whole section with its remaining calls failing, its relay call heard or not. */
  lemma CrashIsFailure(base: Shared, th: Thread, landed: bool)
    requires th.Held? && Reached(base, th)
    ensures var s := if landed then Landed(Partial(base, th), th) else Partial(base, th);
            s.(epoch := 0, lastOk := false) == Do(base, th.sec, Unfinished(base, th, landed)).(epoch := 0, lastOk := false)
  {
    match th.sec
    case Snap(_) =>
    case Gate(_, _, _) =>
    case Withdraw =>
    case Boot =>
  }

  // ----- every run is its serial run

  predicate Barrier(e: Entry) { e.Died? || e.Restart? }

  predicate SameThread(e: Entry, t: nat) { e.Ran? && e.tid == t }

  /** `snap` is what thread `t` read at entry `p`, in the process still running at entry `n`, which it has not used yet. */
  predicate TakenAt(s0: Shared, hist: seq<Entry>, n: nat, t: nat, snap: Snapshot, p: nat) {
    && p < n <= |hist| && SameThread(hist[p], t) && hist[p].sec.Snap? && Passes(Serial(s0, hist[..p]), snap)
    && forall i :: p < i < n ==> !Barrier(hist[i]) && !SameThread(hist[i], t)
  }

  ghost predicate Taken(s0: Shared, hist: seq<Entry>, n: nat, t: nat, snap: Snapshot) {
    exists p: nat :: TakenAt(s0, hist, n, t, snap, p)
  }

  predicate IsGate(e: Entry) { !e.Restart? && e.sec.Gate? }

  /** Every gate in the history acts on a snapshot its own thread took earlier, in the same process. */
  ghost predicate SnapshotsTrue(s0: Shared, hist: seq<Entry>) {
    forall q :: 0 <= q < |hist| && IsGate(hist[q]) ==> Taken(s0, hist, q, hist[q].tid, hist[q].sec.snap)
  }

  function SnapshotOf(th: Thread): Option<Snapshot> {
    match th
    case Probing(snap, _) => Some(snap)
    case Wanting(Gate(snap, _, _)) => Some(snap)
    case Held(Gate(snap, _, _), _, _, _, _) => Some(snap)
    case _ => None
  }

  function Settled(w: World): Shared { if w.holder.None? then w.shared else w.base }

  /** The lock has one holder, and what it has done so far is its section part way through. */
  ghost predicate Exclusive(w: World) {
    && (forall t :: t in w.threads && w.threads[t].Held? ==> w.holder == Some(t))
    && (w.holder.Some? ==>
          var h := w.holder.value;
          h in w.threads && w.threads[h].Held? && Reached(w.base, w.threads[h]) && w.shared == Partial(w.base, w.threads[h]))
  }

  ghost predicate SnapshotsHeld(s0: Shared, w: World) {
    forall t :: t in w.threads && SnapshotOf(w.threads[t]).Some? ==>
      Taken(s0, w.hist, |w.hist|, t, SnapshotOf(w.threads[t]).value)
  }

  ghost predicate Inv(s0: Shared, w: World) {
    && Settled(w) == Serial(s0, w.hist) && w.replies == Replies(s0, w.hist)
    && Exclusive(w) && SnapshotsHeld(s0, w) && SnapshotsTrue(s0, w.hist)
  }

  lemma TakenStays(s0: Shared, hist: seq<Entry>, n: nat, t: nat, snap: Snapshot, e: Entry)
    requires n <= |hist| && Taken(s0, hist, n, t, snap)
    ensures Taken(s0, hist + [e], n, t, snap)
    ensures n == |hist| && !Barrier(e) && !SameThread(e, t) ==> Taken(s0, hist + [e], n + 1, t, snap)
  {
    var p: nat :| TakenAt(s0, hist, n, t, snap, p);
    assert (hist + [e])[..p] == hist[..p];
    assert TakenAt(s0, hist + [e], n, t, snap, p);
    if n == |hist| && !Barrier(e) && !SameThread(e, t) {
      assert TakenAt(s0, hist + [e], n + 1, t, snap, p);
    }
  }

  lemma SnapshotsTrueSnoc(s0: Shared, hist: seq<Entry>, e: Entry)
    requires SnapshotsTrue(s0, hist)
    requires IsGate(e) ==> Taken(s0, hist, |hist|, e.tid, e.sec.snap)
    ensures SnapshotsTrue(s0, hist + [e])
  {
    forall q | 0 <= q < |hist| + 1 && IsGate((hist + [e])[q])
      ensures Taken(s0, hist + [e], q, (hist + [e])[q].tid, (hist + [e])[q].sec.snap)
    {
      TakenStays(s0, hist, q, (hist + [e])[q].tid, (hist + [e])[q].sec.snap, e);
    }
  }

  /** The entry a finished section leaves keeps every other thread's snapshot, and yields its own if it took one. */
  lemma ReleaseKeepsSnapshots(s0: Shared, w: World, t: nat, e: Entry, reply: Reply, threads: map<nat, Thread>)
    requires Inv(s0, w) && w.holder == Some(t) && e == Ran(t, w.threads[t].sec, w.threads[t].luck)
    requires reply == ReplyTo(w.base, e.sec, e.luck) && threads == w.threads[t := Resume(e.sec, reply)]
    ensures forall k :: k in threads && SnapshotOf(threads[k]).Some? ==>
              Taken(s0, w.hist + [e], |w.hist| + 1, k, SnapshotOf(threads[k]).value)
  {
    forall k | k in threads && SnapshotOf(threads[k]).Some?
      ensures Taken(s0, w.hist + [e], |w.hist| + 1, k, SnapshotOf(threads[k]).value)
    {
      if k == t {
        assert (w.hist + [e])[..|w.hist|] == w.hist;
        assert TakenAt(s0, w.hist + [e], |w.hist| + 1, t, SnapshotOf(threads[t]).value, |w.hist|);
      } else {
        TakenStays(s0, w.hist, |w.hist|, k, SnapshotOf(threads[k]).value, e);
      }
    }
  }

  lemma StayKeepsInv(s0: Shared, w: World, t: nat, s: Shared, th: Thread)
    requires Inv(s0, w) && w.holder == Some(t) && th.Held? && th.sec == w.threads[t].sec
    requires Reached(w.base, th) && s == Partial(w.base, th)
    ensures Inv(s0, w.(shared := s, threads := w.threads[t := th]))
  {
    hide Serial, Replies, Taken, SnapshotsTrue, Reached, Partial;
    assert SnapshotOf(th) == SnapshotOf(w.threads[t]);
  }

  lemma ReleaseKeepsInv(s0: Shared, w: World, t: nat, s: Shared, reply: Reply)
    requires Inv(s0, w) && w.holder == Some(t)
    requires s == Do(w.base, w.threads[t].sec, w.threads[t].luck) && reply == ReplyTo(w.base, w.threads[t].sec, w.threads[t].luck)
    ensures var th := w.threads[t];
            Inv(s0, World(s, w.threads[t := Resume(th.sec, reply)], None, s,
                          w.hist + [Ran(t, th.sec, th.luck)], w.replies + [(t, reply)]))
  {
    var th := w.threads[t];
    var e := Ran(t, th.sec, th.luck);
    AtHolder(s0, w, t);
    ReleaseKeepsSnapshots(s0, w, t, e, reply, w.threads[t := Resume(th.sec, reply)]);
    SerialSnoc(s0, w.hist, e);
    assert Exclusive(World(s, w.threads[t := Resume(th.sec, reply)], None, s, w.hist + [e], w.replies + [(t, reply)]));
    hide Exclusive, Serial, Replies, Taken, SnapshotsTrue, Do, ReplyTo, Resume, SnapshotOf;
    SnapshotsTrueSnoc(s0, w.hist, e);
  }

  lemma AtHolder(s0: Shared, w: World, t: nat)
    requires Inv(s0, w) && w.holder == Some(t)
    ensures w.threads[t].sec.Gate? ==> Taken(s0, w.hist, |w.hist|, t, w.threads[t].sec.snap)
  {
    assert w.threads[t].sec.Gate? ==> SnapshotOf(w.threads[t]) == Some(w.threads[t].sec.snap);
  }

  lemma AdvanceKeepsInv(s0: Shared, w: World, t: nat)
    requires Inv(s0, w) && Can(w, Advance(t))
    ensures Inv(s0, Advanced(w, t))
  {
    CallContinues(w.base, w.threads[t]);
    hide Inv, NextCall, Reached, Partial, Do, ReplyTo;
    match NextCall(w.shared, w.threads[t])
    case Stay(s, th) => StayKeepsInv(s0, w, t, s, th);
    case Release(s, reply) => ReleaseKeepsInv(s0, w, t, s, reply);
  }

  lemma CrashKeepsInv(s0: Shared, w: World, landed: bool)
    requires Inv(s0, w)
    ensures Inv(s0, Crashed(w, landed))
  {
    if w.holder.Some? {
      var th := w.threads[w.holder.value];
      var e := Died(w.holder.value, th.sec, Unfinished(w.base, th, landed));
      CrashIsFailure(w.base, th, landed);
      SerialSnoc(s0, w.hist, e);
      SnapshotsTrueSnoc(s0, w.hist, e);
    } else {
      SerialSnoc(s0, w.hist, Restart);
      SnapshotsTrueSnoc(s0, w.hist, Restart);
    }
  }

  lemma StepKeepsInv(s0: Shared, w: World, a: Action)
    requires Inv(s0, w) && Can(w, a)
    ensures Inv(s0, Step(w, a))
  {
    match a
    case Advance(t) => AdvanceKeepsInv(s0, w, t);
    case Crash(landed) => CrashKeepsInv(s0, w, landed);
    case _ =>
  }

  lemma {:induction false} RunKeepsInv(s0: Shared, w: World, acts: seq<Action>)
    requires Inv(s0, w) && Valid(w, acts)
    ensures Inv(s0, After(w, acts))
    decreases |acts|
  {
    if acts != [] {
      StepKeepsInv(s0, w, acts[0]);
      RunKeepsInv(s0, Step(w, acts[0]), acts[1..]);
    }
  }

  /**
  Any interleaving is the serial run of its sections in lock order: same row, epoch, relay slot and relay
  operations, same replies in the same order; each gate acts on its own earlier snapshot; and a section in
  progress has only its own prefix on top.
  */
  lemma EveryRunIsSerial(s0: Shared, acts: seq<Action>)
    requires Valid(Fresh(s0), acts)
    ensures var w := After(Fresh(s0), acts);
            && w.replies == Replies(s0, w.hist) && SnapshotsTrue(s0, w.hist)
            && (w.holder.None? ==> w.shared == Serial(s0, w.hist))
            && (w.holder.Some? ==> w.holder.value in w.threads && w.threads[w.holder.value].Held?
                                   && w.shared == Partial(Serial(s0, w.hist), w.threads[w.holder.value]))
  {
    RunKeepsInv(s0, Fresh(s0), acts);
  }

  // ----- the compare-and-swap

  predicate IsWithdraw(e: Entry) { e.Ran? && e.sec.Withdraw? }

  /** Nothing happened at entry `i` that a publish must yield to. */
  predicate Quiet(s0: Shared, hist: seq<Entry>, i: nat)
    requires i < |hist|
  {
    var before, after := Serial(s0, hist[..i]), Serial(s0, hist[..i + 1]);
    && !IsWithdraw(hist[i])
    && (before.row.None? ==> after.row.None?)
    && (IsActive(after) ==> IsActive(before))
  }

  function Rank(s: Shared): nat { if s.row.None? then 0 else if IsActive(s) then 2 else 1 }

  /** One section: a withdrawal bumps the epoch; anything else keeps it and only moves the row up. */
  lemma DoMoves(s: Shared, sec: Section, l: Luck)
    ensures Do(s, sec, l).epoch == s.epoch + if sec.Withdraw? then 1 else 0
    ensures !sec.Withdraw? ==>
              Rank(s) <= Rank(Do(s, sec, l)) && (Rank(s) == Rank(Do(s, sec, l)) ==> StateOf(Do(s, sec, l)) == StateOf(s))
  {
  }

  lemma QuietKeepsRank(s0: Shared, hist: seq<Entry>, i: nat)
    requires i < |hist| && hist[i].Ran?
    ensures Serial(s0, hist[..i + 1]) == Do(Serial(s0, hist[..i]), hist[i].sec, hist[i].luck)
    ensures Quiet(s0, hist, i) <==> !IsWithdraw(hist[i]) && Rank(Serial(s0, hist[..i])) == Rank(Serial(s0, hist[..i + 1]))
  {
    assert hist[..i + 1][..i] == hist[..i];
    DoMoves(Serial(s0, hist[..i]), hist[i].sec, hist[i].luck);
    hide Do;
  }

  lemma {:induction false} SinceSnapshot(s0: Shared, hist: seq<Entry>, p: nat, q: nat)
    requires p <= q <= |hist| && forall i :: p <= i < q ==> !Barrier(hist[i])
    ensures var a, b := Serial(s0, hist[..p]), Serial(s0, hist[..q]);
            && a.epoch <= b.epoch
            && (b.epoch == a.epoch <==> forall i :: p <= i < q ==> !IsWithdraw(hist[i]))
            && (b.epoch == a.epoch ==> Rank(a) <= Rank(b) && (Rank(a) == Rank(b) ==> StateOf(a) == StateOf(b)))
            && (b.epoch == a.epoch ==> (Rank(a) == Rank(b) <==> forall i :: p <= i < q ==> Quiet(s0, hist, i)))
  {
    if p < q {
      SinceSnapshot(s0, hist, p, q - 1);
      QuietKeepsRank(s0, hist, q - 1);
      DoMoves(Serial(s0, hist[..q - 1]), hist[q - 1].sec, hist[q - 1].luck);
      hide Do, Quiet, Rank;
    }
  }

  /**
  The publish compare-and-swap is exact: it passes just when, since its snapshot, no withdrawal took the lock,
  the row was not created, and no other publish moved it to ACTIVE. Otherwise nothing is written or sent.
  */
  lemma CasIsExact(s0: Shared, hist: seq<Entry>, p: nat, q: nat)
    requires q < |hist| && IsGate(hist[q]) && TakenAt(s0, hist, q, hist[q].tid, hist[q].sec.snap, p)
    ensures var s, snap := Serial(s0, hist[..q]), hist[q].sec.snap;
            && (Passes(s, snap) <==> forall i :: p < i < q ==> Quiet(s0, hist, i))
            && (!Passes(s, snap) && hist[q].luck.read ==>
                  ReplyTo(s, hist[q].sec, hist[q].luck) == Superseded(StateOf(s)) && Do(s, hist[q].sec, hist[q].luck) == s)
  {
    assert hist[..p + 1][..p] == hist[..p];
    assert Serial(s0, hist[..p + 1]) == Serial(s0, hist[..p]);
    SinceSnapshot(s0, hist, p + 1, q);
    if forall i :: p < i < q ==> Quiet(s0, hist, i) {
      forall i | p + 1 <= i < q ensures !IsWithdraw(hist[i]) { assert Quiet(s0, hist, i); }
    }
  }

  /** A publish that told the operator it is published was not overtaken by any withdrawal since its snapshot. */
  lemma PublishedMeansNoWithdrawal(s0: Shared, hist: seq<Entry>, p: nat, q: nat, i: nat)
    requires q < |hist| && IsGate(hist[q]) && TakenAt(s0, hist, q, hist[q].tid, hist[q].sec.snap, p) && p < i < q
    requires var r := ReplyTo(Serial(s0, hist[..q]), hist[q].sec, hist[q].luck); r.Published? || r.AlreadyPublished?
    ensures !IsWithdraw(hist[i])
  {
    CasIsExact(s0, hist, p, q);
    assert Quiet(s0, hist, i);
  }

  // ----- what the serial run keeps

  /** A withdrawal that answered the operator with anything but an error. */
  predicate Answered(s0: Shared, hist: seq<Entry>, i: nat)
    requires i < |hist|
  {
    IsWithdraw(hist[i]) && ReplyTo(Serial(s0, hist[..i]), hist[i].sec, hist[i].luck) != Failed
  }

  /** Entry `q` is a publish that made the row ACTIVE, on the snapshot it took at entry `p`. */
  predicate WentLive(s0: Shared, hist: seq<Entry>, p: nat, q: nat) {
    && p < q < |hist| && IsGate(hist[q]) && TakenAt(s0, hist, q, hist[q].tid, hist[q].sec.snap, p)
    && !IsActive(Serial(s0, hist[..q])) && IsActive(Serial(s0, hist[..q + 1]))
  }

  predicate Traced(s0: Shared, hist: seq<Entry>, p: nat, q: nat) {
    WentLive(s0, hist, p, q) && forall i :: p < i < |hist| ==> !Answered(s0, hist, i)
  }

  lemma DoActivates(s: Shared, sec: Section, l: Luck)
    ensures !IsActive(s) && IsActive(Do(s, sec, l)) ==> sec.Gate? && Passes(s, sec.snap) && Clears(sec.acceptUnverified, sec.checks)
    ensures sec.Withdraw? && ReplyTo(s, sec, l) != Failed ==> !IsActive(Do(s, sec, l))
  {
  }

  lemma EntryActivates(s0: Shared, hist: seq<Entry>)
    requires hist != []
    ensures var n := |hist| - 1;
            && (!IsActive(Serial(s0, hist[..n])) && IsActive(Serial(s0, hist)) ==>
                  IsGate(hist[n]) && Passes(Serial(s0, hist[..n]), hist[n].sec.snap))
            && (Answered(s0, hist, n) ==> !IsActive(Serial(s0, hist)))
  {
    var e := hist[|hist| - 1];
    if !e.Restart? { DoActivates(Serial(s0, hist[..|hist| - 1]), e.sec, e.luck); }
    hide Do, ReplyTo;
  }

  lemma PrefixTraced(s0: Shared, hist: seq<Entry>, p: nat, q: nat)
    requires hist != [] && Traced(s0, hist[..|hist| - 1], p, q) && !Answered(s0, hist, |hist| - 1)
    ensures Traced(s0, hist, p, q)
  {
    var init := hist[..|hist| - 1];
    assert init[..p] == hist[..p] && init[..q] == hist[..q] && init[..q + 1] == hist[..q + 1];
    forall i | p < i < |init| ensures !Answered(s0, hist, i) {
      assert !Answered(s0, init, i) && init[..i] == hist[..i];
    }
  }

  lemma PrefixSnapshotsTrue(s0: Shared, hist: seq<Entry>)
    requires hist != [] && SnapshotsTrue(s0, hist)
    ensures SnapshotsTrue(s0, hist[..|hist| - 1])
  {
    var init := hist[..|hist| - 1];
    forall q | 0 <= q < |init| && IsGate(init[q]) ensures Taken(s0, init, q, init[q].tid, init[q].sec.snap) {
      assert Taken(s0, hist, q, hist[q].tid, hist[q].sec.snap);
      var p: nat :| TakenAt(s0, hist, q, hist[q].tid, hist[q].sec.snap, p);
      assert init[..p] == hist[..p];
      assert TakenAt(s0, init, q, init[q].tid, init[q].sec.snap, p);
    }
  }

  /**
  An ACTIVE row always traces to a publish that made it so and whose snapshot follows the last answered
  withdrawal. No boot, crash, refusal or superseded publish can be that entry.
  */
  lemma {:induction false} ActiveIsTraced(s0: Shared, hist: seq<Entry>) returns (p: nat, q: nat)
    requires !IsActive(s0) && SnapshotsTrue(s0, hist) && IsActive(Serial(s0, hist))
    ensures Traced(s0, hist, p, q)
  {
    assert hist != [];
    var n := |hist| - 1;
    EntryActivates(s0, hist);
    if IsActive(Serial(s0, hist[..n])) {
      PrefixSnapshotsTrue(s0, hist);
      p, q := ActiveIsTraced(s0, hist[..n]);
      PrefixTraced(s0, hist, p, q);
    } else {
      q := n;
      assert Taken(s0, hist, q, hist[q].tid, hist[q].sec.snap);
      p :| TakenAt(s0, hist, q, hist[q].tid, hist[q].sec.snap, p);
      CasIsExact(s0, hist, p, q);
      assert hist[..q + 1] == hist;
      forall i | p < i < |hist| ensures !Answered(s0, hist, i) {
        if i < q { assert Quiet(s0, hist, i); }
      }
    }
  }

  /** Entry `q` is the withdrawal that found the row ACTIVE and left it WITHDRAWN; it has been so since. */
  predicate WithdrewAt(s0: Shared, hist: seq<Entry>, q: nat) {
    && q < |hist| && !hist[q].Restart? && hist[q].sec.Withdraw?
    && IsActive(Serial(s0, hist[..q])) && forall j :: q < j <= |hist| ==> StateOf(Serial(s0, hist[..j])) == Some(Withdrawn)
  }

  /** Only a withdrawal of an ACTIVE row makes it WITHDRAWN; only a publish takes it out of that state. */
  lemma DoWithdraws(s: Shared, sec: Section, l: Luck)
    ensures StateOf(s) != Some(Withdrawn) && StateOf(Do(s, sec, l)) == Some(Withdrawn) ==> sec.Withdraw? && IsActive(s)
    ensures StateOf(s) == Some(Withdrawn) && StateOf(Do(s, sec, l)) != Some(Withdrawn) ==> sec.Gate? && IsActive(Do(s, sec, l))
  {
  }

  /** A WITHDRAWN row traces to a withdrawal that found it ACTIVE, with no activation since. */
  lemma {:induction false} WithdrawnIsTraced(s0: Shared, hist: seq<Entry>) returns (q: nat)
    requires StateOf(s0) != Some(Withdrawn) && StateOf(Serial(s0, hist)) == Some(Withdrawn)
    ensures WithdrewAt(s0, hist, q)
  {
    hide Do;
    var n := |hist| - 1;
    var init := hist[..n];
    assert hist[..n + 1] == hist;
    if StateOf(Serial(s0, init)) == Some(Withdrawn) {
      q := WithdrawnIsTraced(s0, init);
      forall j | q < j <= |hist| ensures StateOf(Serial(s0, hist[..j])) == Some(Withdrawn) {
        if j <= n { assert init[..j] == hist[..j]; }
      }
      assert init[..q] == hist[..q];
    } else {
      q := n;
      if !hist[n].Restart? { DoWithdraws(Serial(s0, init), hist[n].sec, hist[n].luck); }
    }
  }

  lemma DoCreates(s: Shared, sec: Section, l: Luck)
    requires s.row.None? && Do(s, sec, l).row.Some?
    ensures !sec.Withdraw? && !sec.Snap?
    ensures StateOf(Do(s, sec, l)) == Some(Unpublished) || (sec.Gate? && IsActive(Do(s, sec, l)))
    ensures StateOf(Do(s, sec, l)) == Some(Unpublished) ==> Do(s, sec, l).row.value.eventId == None
  {
  }

  /** The row is born UNPUBLISHED and with no event, by a publish or a boot, or goes ACTIVE by that very publish. */
  lemma BornQuiet(s0: Shared, hist: seq<Entry>, i: nat)
    requires i < |hist| && Serial(s0, hist[..i]).row.None? && Serial(s0, hist[..i + 1]).row.Some?
    ensures !hist[i].Restart? && (hist[i].sec.Gate? || hist[i].sec.Boot?)
    ensures var born := Serial(s0, hist[..i + 1]);
            born.row == Some(Row(Unpublished, None)) || (hist[i].sec.Gate? && IsActive(born))
  {
    hide Do;
    assert hist[..i + 1][..i] == hist[..i];
    if !hist[i].Restart? { DoCreates(Serial(s0, hist[..i]), hist[i].sec, hist[i].luck); }
  }

  /** On relays the last request that got through decides, in any run; none but withdrawals delete. */
  lemma {:induction false} LastRequestDecides(s0: Shared, hist: seq<Entry>)
    requires SlotIsLastOp(s0)
    ensures SlotIsLastOp(Serial(s0, hist))
  {
    if hist != [] {
      var e := hist[|hist| - 1];
      LastRequestDecides(s0, hist[..|hist| - 1]);
      if !e.Restart? { OneRequestEach(Serial(s0, hist[..|hist| - 1]), e.sec, e.luck); }
      hide Do;
    }
  }

  /** Without a publish that gets through its gate nothing ever becomes ACTIVE: boots and crashes resurrect nothing. */
  lemma {:induction false} OnlyPublishesActivate(s0: Shared, hist: seq<Entry>)
    requires !IsActive(s0) && forall i :: 0 <= i < |hist| ==> !IsGate(hist[i])
    ensures !IsActive(Serial(s0, hist))
  {
    if hist != [] {
      OnlyPublishesActivate(s0, hist[..|hist| - 1]);
      EntryActivates(s0, hist);
    }
  }

  /** With the last relay request confirmed, relays serve the listing exactly when the row is ACTIVE. */
  predicate InSync(s: Shared) { s.lastOk ==> (s.relay.Some? <==> IsActive(s)) }

  lemma DoKeepsSync(s: Shared, sec: Section, l: Luck)
    requires InSync(s)
    ensures InSync(Do(s, sec, l))
  {
  }

  lemma {:induction false} RelayMatchesRow(s0: Shared, hist: seq<Entry>)
    requires InSync(s0)
    ensures InSync(Serial(s0, hist))
  {
    if hist != [] {
      var e := hist[|hist| - 1];
      RelayMatchesRow(s0, hist[..|hist| - 1]);
      if !e.Restart? { DoKeepsSync(Serial(s0, hist[..|hist| - 1]), e.sec, e.luck); }
      hide Do;
    }
  }

  /** Whenever the lock is free and the latest relay request was confirmed, relays serve iff the row is ACTIVE. */
  lemma RelayServesIffActive(s0: Shared, acts: seq<Action>)
    requires InSync(s0) && Valid(Fresh(s0), acts)
    ensures var w := After(Fresh(s0), acts);
            w.holder.None? && w.shared.lastOk ==> (w.shared.relay.Some? <==> IsActive(w.shared))
  {
    EveryRunIsSerial(s0, acts);
    RelayMatchesRow(s0, After(Fresh(s0), acts).hist);
  }

  /** A relay confirmed the event `id` at entry `i`. */
  predicate ConfirmedAt(s0: Shared, hist: seq<Entry>, i: nat, id: string)
    requires i < |hist|
  {
    var before, after := Serial(s0, hist[..i]), Serial(s0, hist[..i + 1]);
    && !hist[i].Restart? && hist[i].luck.relay.Confirmed? && hist[i].luck.id == id
    && after.relay == Some(id) && after.ops == before.ops + [Put(id)]
  }

  predicate ActiveSince(s0: Shared, hist: seq<Entry>, i: nat) {
    forall j :: i < j <= |hist| ==> IsActive(Serial(s0, hist[..j]))
  }

  function EventId(s: Shared): Option<string> { if s.row.Some? then s.row.value.eventId else None }

  /** The recorded id of an ACTIVE row is kept, or replaced by one a relay confirmed in this very section. */
  lemma DoRecords(s: Shared, sec: Section, l: Luck, id: string)
    requires IsActive(Do(s, sec, l)) && EventId(Do(s, sec, l)) == Some(id)
    ensures (IsActive(s) && EventId(s) == Some(id))
            || (l.relay.Confirmed? && l.id == id && Do(s, sec, l).relay == Some(id) && Do(s, sec, l).ops == s.ops + [Put(id)])
  {
  }

  /** An ACTIVE row's recorded event id was confirmed by a relay, and the row has been ACTIVE ever since. */
  lemma {:induction false} EventIdIsCurrent(s0: Shared, hist: seq<Entry>, id: string) returns (i: nat)
    requires !IsActive(s0) && IsActive(Serial(s0, hist)) && EventId(Serial(s0, hist)) == Some(id)
    ensures i < |hist| && ConfirmedAt(s0, hist, i, id) && ActiveSince(s0, hist, i)
  {
    assert hist != [];
    var n := |hist| - 1;
    var s, e := Serial(s0, hist[..n]), hist[n];
    assert hist[..n + 1] == hist;
    if !e.Restart? { DoRecords(s, e.sec, e.luck, id); }
    hide Do;
    if IsActive(s) && EventId(s) == Some(id) {
      i := EventIdIsCurrent(s0, hist[..n], id);
      assert hist[..n][..i] == hist[..i] && hist[..n][..i + 1] == hist[..i + 1];
      forall j | i < j <= |hist| ensures IsActive(Serial(s0, hist[..j])) {
        if j <= n { assert hist[..n][..j] == hist[..j]; }
      }
    } else {
      i := n;
    }
  }
}
