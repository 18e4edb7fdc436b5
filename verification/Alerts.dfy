/**
The operator alert's cooldown under concurrent dispatchers.

A dispatcher reads the clock, then takes the lock, checks, commits and stamps. Clock readings are arbitrary and
reach the lock in any order; a commit may fail; a dispatcher may be dropped at any await.
*/
module Alerts {
  import opened Wrappers

  const COOLDOWN: int := 6 * 3600

  datatype Key = Key(kind: string, subject: string)

  /** An alert row. Its id is the key and the second, so the table holds each at most once. */
  datatype Fire = Fire(key: Key, at: int)

  /** INSERT ... ON CONFLICT(id) DO NOTHING. */
  function Inserted(fires: seq<Fire>, f: Fire): seq<Fire> { if f in fires then fires else fires + [f] }

  // ----- one dispatch

  /** The cooldown check. */
  predicate Suppressed(lastSent: map<Key, int>, key: Key, now: int) { key in lastSent && now - lastSent[key] < COOLDOWN }

  class Dispatcher {
    const enabled: bool
    var lastSent: map<Key, int>
    var outbox: seq<Fire>

    constructor (enabled: bool)
      ensures this.enabled == enabled && lastSent == map[] && outbox == []
    {
      this.enabled := enabled;
      lastSent, outbox := map[], [];
    }

    /** Ok(true) iff the enqueue committed; a row whose id is taken stays one row, and a failed commit leaves no stamp. */
    method Dispatch(key: Key, now: int, commits: bool) returns (r: Result<bool, ()>)
      modifies this
      ensures !enabled || Suppressed(old(lastSent), key, now) ==> r == Ok(false) && lastSent == old(lastSent) && outbox == old(outbox)
      ensures enabled && !Suppressed(old(lastSent), key, now) ==>
                if commits then r == Ok(true) && lastSent == old(lastSent)[key := now] && outbox == Inserted(old(outbox), Fire(key, now))
                else r == Err(()) && lastSent == old(lastSent) && outbox == old(outbox)
    {
      if !enabled { return Ok(false); }
      if key in lastSent && now - lastSent[key] < COOLDOWN { return Ok(false); }
      if !commits { return Err(()); }
      if Fire(key, now) !in outbox {
        outbox := outbox + [Fire(key, now)];
      }
      lastSent := lastSent[key := now];
      r := Ok(true);
    }
  }

  // ----- many at once

  datatype Phase =
    | Waiting(key: Key, now: int)
    | Checked(key: Key, now: int)
    | Enqueued(key: Key, now: int)
    | Finished

  datatype World = World(lastSent: map<Key, int>, fires: seq<Fire>, lock: Option<nat>, tasks: map<nat, Phase>)

  datatype Step =
    | Arrive(t: nat, key: Key, now: int)
    | Enter(t: nat)
    | Commit(t: nat, ok: bool)
    | Stamp(t: nat)
    | Drop(t: nat)

  predicate Can(w: World, step: Step) {
    match step
    case Arrive(t, _, _) => t !in w.tasks
    case Enter(t) => w.lock.None? && t in w.tasks && w.tasks[t].Waiting?
    case Commit(t, _) => w.lock == Some(t) && t in w.tasks && w.tasks[t].Checked?
    case Stamp(t) => w.lock == Some(t) && t in w.tasks && w.tasks[t].Enqueued?
    case Drop(t) => t in w.tasks
  }

  function Unlocked(w: World, t: nat): World {
    w.(tasks := w.tasks[t := Finished], lock := if w.lock == Some(t) then None else w.lock)
  }

  function Next(w: World, step: Step): World
    requires Can(w, step)
  {
    match step
    case Arrive(t, key, now) => w.(tasks := w.tasks[t := Waiting(key, now)])
    case Enter(t) =>
      var p := w.tasks[t];
      if Suppressed(w.lastSent, p.key, p.now) then Unlocked(w, t)
      else w.(tasks := w.tasks[t := Checked(p.key, p.now)], lock := Some(t))
    case Commit(t, ok) =>
      var p := w.tasks[t];
      if ok then w.(fires := Inserted(w.fires, Fire(p.key, p.now)), tasks := w.tasks[t := Enqueued(p.key, p.now)]) else Unlocked(w, t)
    case Stamp(t) => Unlocked(w, t).(lastSent := w.lastSent[w.tasks[t].key := w.tasks[t].now])
    case Drop(t) => Unlocked(w, t)
  }

  predicate Valid(w: World, steps: seq<Step>)
    decreases |steps|
  {
    steps == [] || (Can(w, steps[0]) && Valid(Next(w, steps[0]), steps[1..]))
  }

  function After(w: World, steps: seq<Step>): World
    requires Valid(w, steps)
    decreases |steps|
  {
    if steps == [] then w else After(Next(w, steps[0]), steps[1..])
  }

  /** A dispatcher dropped in the one bad window: its alert is committed, its stamp is not. */
  predicate DropsUnstamped(w: World, step: Step) { step.Drop? && step.t in w.tasks && w.tasks[step.t].Enqueued? }

  predicate NoneUnstamped(w: World, steps: seq<Step>)
    requires Valid(w, steps)
    decreases |steps|
  {
    steps == [] || (!DropsUnstamped(w, steps[0]) && NoneUnstamped(Next(w, steps[0]), steps[1..]))
  }

  function Fresh(): World { World(map[], [], None, map[]) }

  /** Two alerts of one key are at least a cooldown apart, in the order they were committed. */
  predicate Spaced(fires: seq<Fire>) {
    forall i, j :: 0 <= i < j < |fires| && fires[i].key == fires[j].key ==> fires[i].at + COOLDOWN <= fires[j].at
  }

  /** The newest committed alert of a key. */
  function LastFire(fires: seq<Fire>, key: Key): Option<int> {
    if fires == [] then None
    else if fires[|fires| - 1].key == key then Some(fires[|fires| - 1].at)
    else LastFire(fires[..|fires| - 1], key)
  }

  lemma {:induction false} LastFireIsLast(fires: seq<Fire>, key: Key)
    requires Spaced(fires)
    ensures LastFire(fires, key).None? ==> forall i :: 0 <= i < |fires| ==> fires[i].key != key
    ensures LastFire(fires, key).Some? ==>
              (exists i :: 0 <= i < |fires| && fires[i] == Fire(key, LastFire(fires, key).value))
              && forall i :: 0 <= i < |fires| && fires[i].key == key ==> fires[i].at <= LastFire(fires, key).value
  {
    if fires != [] {
      var n := |fires| - 1;
      if fires[n].key == key {
        assert fires[n] == Fire(key, fires[n].at);
      } else {
        LastFireIsLast(fires[..n], key);
        if LastFire(fires, key).Some? {
          var i :| 0 <= i < n && fires[..n][i] == Fire(key, LastFire(fires, key).value);
          assert fires[i] == Fire(key, LastFire(fires, key).value);
        }
      }
    }
  }

  /** Outside the lock the stamps are the newest committed alerts; the holder has passed the check. */
  ghost predicate Inv(w: World) {
    && Spaced(w.fires)
    && (forall t :: t in w.tasks && (w.tasks[t].Checked? || w.tasks[t].Enqueued?) ==> w.lock == Some(t))
    && (w.lock.Some? ==> w.lock.value in w.tasks && (w.tasks[w.lock.value].Checked? || w.tasks[w.lock.value].Enqueued?))
    && (forall key :: StampOf(w, key) == LastFire(w.fires, key))
    && (w.lock.Some? ==> !Suppressed(w.lastSent, w.tasks[w.lock.value].key, w.tasks[w.lock.value].now))
  }

  /** The stamp a key has, or is about to get from the dispatcher that just committed. */
  function StampOf(w: World, key: Key): Option<int> {
    if w.lock.Some? && w.lock.value in w.tasks && w.tasks[w.lock.value].Enqueued? && w.tasks[w.lock.value].key == key
    then Some(w.tasks[w.lock.value].now)
    else if key in w.lastSent then Some(w.lastSent[key]) else None
  }

  /** A key that passed the check has no alert within the cooldown, so its id is free. */
  lemma CommitKeepsInv(w: World, t: nat)
    requires Inv(w) && Can(w, Commit(t, true))
    ensures Inv(Next(w, Commit(t, true)))
  {
    var p := w.tasks[t];
    var fires := w.fires + [Fire(p.key, p.now)];
    LastFireIsLast(w.fires, p.key);
    assert StampOf(w, p.key) == LastFire(w.fires, p.key);
    assert Fire(p.key, p.now) !in w.fires;
    assert fires[..|w.fires|] == w.fires;
    forall key ensures StampOf(Next(w, Commit(t, true)), key) == LastFire(fires, key) {
      assert StampOf(w, key) == LastFire(w.fires, key);
    }
  }

  lemma StepKeepsInv(w: World, step: Step)
    requires Inv(w) && Can(w, step) && !DropsUnstamped(w, step)
    ensures Inv(Next(w, step))
  {
    if step.Commit? && step.ok {
      CommitKeepsInv(w, step.t);
    } else {
      hide Spaced;
      forall key ensures StampOf(Next(w, step), key) == LastFire(w.fires, key) {
        assert StampOf(w, key) == LastFire(w.fires, key);
      }
    }
  }

  lemma {:induction false} RunKeepsInv(w: World, steps: seq<Step>)
    requires Inv(w) && Valid(w, steps) && NoneUnstamped(w, steps)
    ensures Inv(After(w, steps))
    decreases |steps|
  {
    if steps != [] {
      StepKeepsInv(w, steps[0]);
      RunKeepsInv(Next(w, steps[0]), steps[1..]);
    }
  }

  /** Under any interleaving and any clock: alerts of one key are a cooldown apart in commit order. */
  lemma FiresAreSpaced(steps: seq<Step>)
    requires Valid(Fresh(), steps) && NoneUnstamped(Fresh(), steps)
    ensures Spaced(After(Fresh(), steps).fires)
  {
    RunKeepsInv(Fresh(), steps);
  }

  predicate NoRowTwice(fires: seq<Fire>) { forall i, j :: 0 <= i < j < |fires| ==> fires[i] != fires[j] }

  /** Drops or not, a row is there once, and none is ever lost: the id of an alert is its key and second. */
  lemma {:induction false} RowsStayUnique(w: World, steps: seq<Step>)
    requires NoRowTwice(w.fires) && Valid(w, steps)
    ensures NoRowTwice(After(w, steps).fires) && w.fires <= After(w, steps).fires
    decreases |steps|
  {
    if steps != [] {
      RowsStayUnique(Next(w, steps[0]), steps[1..]);
    }
  }

  /** A dispatch is suppressed exactly when an alert of its key was committed less than a cooldown before its clock reading. */
  lemma SuppressionIsEarned(steps: seq<Step>, t: nat)
    requires Valid(Fresh(), steps) && NoneUnstamped(Fresh(), steps) && Can(After(Fresh(), steps), Enter(t))
    ensures var w := After(Fresh(), steps); var p := w.tasks[t];
            Next(w, Enter(t)).lock.None? <==>
              exists i :: 0 <= i < |w.fires| && w.fires[i].key == p.key && p.now - w.fires[i].at < COOLDOWN
  {
    RunKeepsInv(Fresh(), steps);
    var w := After(Fresh(), steps);
    var p := w.tasks[t];
    LastFireIsLast(w.fires, p.key);
    assert StampOf(w, p.key) == LastFire(w.fires, p.key);
    if Suppressed(w.lastSent, p.key, p.now) {
      var i :| 0 <= i < |w.fires| && w.fires[i] == Fire(p.key, LastFire(w.fires, p.key).value);
      assert w.fires[i].key == p.key && p.now - w.fires[i].at < COOLDOWN;
    }
  }

  /** A failed commit suppresses nothing: no stamp and no alert appears, and the same key at the same second may go again. */
  lemma FailedCommitSuppressesNothing(w: World, t: nat)
    requires Inv(w) && Can(w, Commit(t, false))
    ensures var w' := Next(w, Commit(t, false));
            && w'.lastSent == w.lastSent && w'.fires == w.fires && w'.lock.None?
            && !Suppressed(w'.lastSent, w.tasks[t].key, w.tasks[t].now)
            && forall u :: u != t ==> (u in w.tasks <==> u in w'.tasks) && (u in w.tasks ==> w'.tasks[u] == w.tasks[u])
  {
  }

  /** The one step that breaks the invariant is dropping a dispatcher between its commit and its stamp. */
  lemma OnlyUnstampedDropsBreak(w: World, step: Step)
    requires Inv(w) && Can(w, step)
    ensures Inv(Next(w, step)) <==> !DropsUnstamped(w, step)
  {
    if DropsUnstamped(w, step) {
      var key := w.tasks[step.t].key;
      assert StampOf(w, key) == Some(w.tasks[step.t].now) == LastFire(w.fires, key);
      assert StampOf(Next(w, step), key) != LastFire(w.fires, key);
    } else {
      StepKeepsInv(w, step);
    }
  }

  lemma {:induction false} FreshTask(tasks: set<nat>) returns (u: nat)
    ensures forall t :: t in tasks ==> t < u
    decreases |tasks|
  {
    if tasks == {} {
      u := 0;
    } else {
      var m :| m in tasks;
      var v := FreshTask(tasks - {m});
      u := if m < v then v else m + 1;
      forall t | t in tasks ensures t < u { assert t == m || t in tasks - {m}; }
    }
  }

  /** One second later the same key fires again. */
  function Again(u: nat, key: Key, now: int): seq<Step> { [Arrive(u, key, now + 1), Enter(u), Commit(u, true)] }

  lemma AgainRuns(w: World, u: nat, key: Key, now: int)
    requires w.lock.None? && u !in w.tasks && !Suppressed(w.lastSent, key, now + 1)
    ensures Valid(w, Again(u, key, now)) && NoneUnstamped(w, Again(u, key, now))
    ensures After(w, Again(u, key, now)).fires == Inserted(w.fires, Fire(key, now + 1))
  {
    var steps := Again(u, key, now);
    var w1 := Next(w, steps[0]);
    var w2 := Next(w1, steps[1]);
    var w3 := Next(w2, steps[2]);
    Cons(w2, steps[2..]);
    Cons(w1, steps[1..]);
    Cons(w, steps);
  }

  /** And it always costs: after such a drop some run without another one fires the same key twice, a second apart. */
  lemma UnstampedDropFiresTwice(w: World, t: nat) returns (steps: seq<Step>)
    requires Inv(w) && Can(w, Drop(t)) && DropsUnstamped(w, Drop(t))
    ensures var w' := Next(w, Drop(t)); Valid(w', steps) && NoneUnstamped(w', steps) && !Spaced(After(w', steps).fires)
  {
    var key, now := w.tasks[t].key, w.tasks[t].now;
    var w' := Next(w, Drop(t));
    var u := FreshTask(w'.tasks.Keys);
    assert StampOf(w, key) == Some(now) == LastFire(w.fires, key);
    LastFireIsLast(w.fires, key);
    steps := Again(u, key, now);
    AgainRuns(w', u, key, now);
    var i :| 0 <= i < |w.fires| && w.fires[i] == Fire(key, now);
    var fires := After(w', steps).fires;
    assert fires[i].key == fires[|w.fires|].key == key;
  }

  /** Such a drop is reached by the first alert of any key at any clock reading. */
  lemma UnstampedDropIsReached(key: Key, now: int) returns (before: seq<Step>, more: seq<Step>)
    ensures Valid(Fresh(), before) && NoneUnstamped(Fresh(), before) && DropsUnstamped(After(Fresh(), before), Drop(0))
    ensures var w := Next(After(Fresh(), before), Drop(0)); Valid(w, more) && NoneUnstamped(w, more) && !Spaced(After(w, more).fires)
  {
    before := [Arrive(0, key, now), Enter(0), Commit(0, true)];
    var w1 := Next(Fresh(), before[0]);
    var w2 := Next(w1, before[1]);
    var w3 := Next(w2, before[2]);
    assert Valid(w3, before[3..]) && After(w3, before[3..]) == w3;
    Cons(w2, before[2..]);
    Cons(w1, before[1..]);
    Cons(Fresh(), before);
    RunKeepsInv(Fresh(), before);
    more := UnstampedDropFiresTwice(w3, 0);
  }

  lemma Cons(w: World, steps: seq<Step>)
    requires steps != [] && Can(w, steps[0]) && Valid(Next(w, steps[0]), steps[1..])
    ensures Valid(w, steps) && After(w, steps) == After(Next(w, steps[0]), steps[1..])
    ensures NoneUnstamped(w, steps) <==> !DropsUnstamped(w, steps[0]) && NoneUnstamped(Next(w, steps[0]), steps[1..])
  {
  }

  // ----- the operator's view

  datatype Alert = Alert(kind: string, subject: string, detail: string)

  /** An outbox row under an alert id; `alert` is None when its type or payload does not decode. */
  datatype HistoryRow = HistoryRow(at: int, alert: Option<Alert>)

  datatype Shown = Shown(subject: string, detail: string, at: int)

  predicate Readable(rows: seq<HistoryRow>, kind: string) {
    forall i :: 0 <= i < |rows| ==> rows[i].alert.Some? && rows[i].alert.value.kind == kind
  }

  predicate NewestFirst(rows: seq<HistoryRow>) { forall i, j :: 0 <= i < j < |rows| ==> rows[j].at <= rows[i].at }

  function Subjects(shown: seq<Shown>): set<string> { set i | 0 <= i < |shown| :: shown[i].subject }

  function ShownOf(row: HistoryRow): Shown
    requires row.alert.Some?
  {
    Shown(row.alert.value.subject, row.alert.value.detail, row.at)
  }

  /** The first row of each subject, in the order of the rows. */
  function FirstOfEach(rows: seq<HistoryRow>, kind: string): seq<Shown>
    requires Readable(rows, kind)
  {
    if rows == [] then []
    else
      var earlier, row := FirstOfEach(rows[..|rows| - 1], kind), rows[|rows| - 1];
      if row.alert.value.subject in Subjects(earlier) then earlier else earlier + [ShownOf(row)]
  }

  lemma SubjectsGrow(shown: seq<Shown>, v: Shown)
    ensures Subjects(shown + [v]) == Subjects(shown) + {v.subject}
  {
    assert (shown + [v])[|shown|] == v;
    forall subject | subject in Subjects(shown) ensures subject in Subjects(shown + [v]) {
      var i :| 0 <= i < |shown| && shown[i].subject == subject;
      assert (shown + [v])[i].subject == subject;
    }
  }

  lemma {:induction false} EachSubjectOnce(rows: seq<HistoryRow>, kind: string, i: nat, j: nat)
    requires Readable(rows, kind) && i < j < |FirstOfEach(rows, kind)|
    ensures FirstOfEach(rows, kind)[i].subject != FirstOfEach(rows, kind)[j].subject
  {
    var earlier := FirstOfEach(rows[..|rows| - 1], kind);
    if j < |earlier| {
      EachSubjectOnce(rows[..|rows| - 1], kind, i, j);
    } else {
      assert earlier[i].subject in Subjects(earlier);
    }
  }

  lemma {:induction false} NothingInvented(rows: seq<HistoryRow>, kind: string, k: nat) returns (i: nat)
    requires Readable(rows, kind) && k < |FirstOfEach(rows, kind)|
    ensures i < |rows| && FirstOfEach(rows, kind)[k] == Shown(rows[i].alert.value.subject, rows[i].alert.value.detail, rows[i].at)
  {
    if k < |FirstOfEach(rows[..|rows| - 1], kind)| {
      i := NothingInvented(rows[..|rows| - 1], kind, k);
    } else {
      i := |rows| - 1;
    }
  }

  /** Every row's subject is shown, and with the newest alert it has. */
  lemma {:induction false} NewestIsShown(rows: seq<HistoryRow>, kind: string, i: nat) returns (k: nat)
    requires Readable(rows, kind) && NewestFirst(rows) && i < |rows|
    ensures k < |FirstOfEach(rows, kind)|
    ensures FirstOfEach(rows, kind)[k].subject == rows[i].alert.value.subject && rows[i].at <= FirstOfEach(rows, kind)[k].at
  {
    var n := |rows| - 1;
    var earlier := FirstOfEach(rows[..n], kind);
    if i < n {
      k := NewestIsShown(rows[..n], kind, i);
    } else if rows[n].alert.value.subject in Subjects(earlier) {
      k :| 0 <= k < |earlier| && earlier[k].subject == rows[n].alert.value.subject;
      var first := NothingInvented(rows[..n], kind, k);
      assert rows[n].at <= rows[first].at;
    } else {
      k := |earlier|;
    }
  }

  /** What is shown is an alert of the history as it was sent, and the newest come first. */
  lemma {:induction false} ShownInOrder(rows: seq<HistoryRow>, kind: string, j: nat, k: nat)
    requires Readable(rows, kind) && NewestFirst(rows) && j <= k < |FirstOfEach(rows, kind)|
    ensures FirstOfEach(rows, kind)[k].at <= FirstOfEach(rows, kind)[j].at
    ensures exists i :: 0 <= i < |rows| && var a := rows[i].alert.value;
              FirstOfEach(rows, kind)[k] == Shown(a.subject, a.detail, rows[i].at)
  {
    var i := NothingInvented(rows, kind, k);
    var init := rows[..|rows| - 1];
    var earlier := FirstOfEach(init, kind);
    if k < |earlier| {
      ShownInOrder(init, kind, j, k);
    } else if j < |earlier| {
      var first := NothingInvented(init, kind, j);
    }
  }

  /** recent_alerts: one unreadable row makes the whole history unknown; otherwise each subject once, by its first row. */
  method RecentAlerts(rows: seq<HistoryRow>, kind: string) returns (r: Result<seq<Shown>, ()>)
    ensures r.Ok? <==> Readable(rows, kind)
    ensures r.Ok? ==> r.value == FirstOfEach(rows, kind)
  {
    var seen: set<string> := {};
    var shown: seq<Shown> := [];
    for i := 0 to |rows|
      invariant Readable(rows[..i], kind) && shown == FirstOfEach(rows[..i], kind) && seen == Subjects(shown)
    {
      if rows[i].alert.None? || rows[i].alert.value.kind != kind { return Err(()); }
      assert rows[..i + 1][..i] == rows[..i];
      var a := rows[i].alert.value;
      if a.subject !in seen {
        SubjectsGrow(shown, ShownOf(rows[i]));
        seen := seen + {a.subject};
        shown := shown + [Shown(a.subject, a.detail, rows[i].at)];
      }
    }
    assert rows[..|rows|] == rows;
    r := Ok(shown);
  }
}
