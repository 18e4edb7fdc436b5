/**
The variant the source argues against: a withdrawal that bumps the epoch before it takes the lock. One schedule
of it takes a withdrawal the operator was answered and then publishes over it.
*/
module EarlyBump {
  import opened Wrappers
  import opened Listing
  import opened Publication

  /** As the real machine, except that a withdrawal counts itself on arrival and not under the lock. */
  function EarlyStep(w: World, a: Action): World
    requires Can(w, a)
  {
    match a
    case Spawn(_, Withdraw) => Step(w, a).(shared := w.shared.(epoch := w.shared.epoch + 1))
    case Acquire(t, l) =>
      if w.threads[t].sec.Withdraw? then Step(w, a).(threads := w.threads[t := Held(Withdraw, 1, l, None, 0)]) else Step(w, a)
    case _ => Step(w, a)
  }

  predicate EarlyValid(w: World, acts: seq<Action>)
    decreases |acts|
  {
    acts == [] || (Can(w, acts[0]) && EarlyValid(EarlyStep(w, acts[0]), acts[1..]))
  }

  function EarlyAfter(w: World, acts: seq<Action>): World
    requires EarlyValid(w, acts)
    decreases |acts|
  {
    if acts == [] then w else EarlyAfter(EarlyStep(w, acts[0]), acts[1..])
  }

  lemma EarlyCons(w: World, a: Action, rest: seq<Action>)
    requires Can(w, a) && EarlyValid(EarlyStep(w, a), rest)
    ensures EarlyValid(w, [a] + rest) && EarlyAfter(w, [a] + rest) == EarlyAfter(EarlyStep(w, a), rest)
  {
    assert ([a] + rest)[1..] == rest;
  }

  lemma EarlyTwo(w: World, a: seq<Action>, b: seq<Action>)
    requires EarlyValid(w, a) && EarlyValid(EarlyAfter(w, a), b)
    ensures EarlyValid(w, a + b) && EarlyAfter(w, a + b) == EarlyAfter(EarlyAfter(w, a), b)
    decreases |a|
  {
    if a == [] {
      assert a + b == b;
    } else {
      EarlyTwo(EarlyStep(w, a[0]), a[1..], b);
      EarlyCons(w, a[0], a[1..] + b);
      assert a + b == [a[0]] + (a[1..] + b);
    }
  }

  function AllGood(): Luck { Luck(true, true, true, Confirmed, true, "ev") }

  function Quiet0(): Shared { Shared(0, Some(Row(Unpublished, None)), None, true, []) }

  function Snap1(): Snapshot { Snapshot(Some(Unpublished), 1) }

  function Halfway(): World {
    World(Quiet0().(epoch := 1), map[1 := Probing(Snap1(), false), 2 := Wanting(Withdraw)], None,
          Quiet0().(epoch := 1), [Ran(1, Snap(false), AllGood())], [(1, Snapped(Snap1()))])
  }

  /** The withdrawal counts itself, then the publish takes its snapshot and leaves to probe. */
  lemma FirstHalf() returns (acts: seq<Action>)
    ensures EarlyValid(Fresh(Quiet0()), acts)
    ensures EarlyAfter(Fresh(Quiet0()), acts) == Halfway()
  {
    acts := [Spawn(1, Snap(false)), Spawn(2, Withdraw), Acquire(1, AllGood()), Advance(1), Advance(1)];
    var w0 := Fresh(Quiet0());
    var w1 := EarlyStep(w0, acts[0]);
    var w2 := EarlyStep(w1, acts[1]);
    var w3 := EarlyStep(w2, acts[2]);
    var w4 := EarlyStep(w3, acts[3]);
    var w5 := EarlyStep(w4, acts[4]);
    EarlyCons(w4, acts[4], []);
    EarlyCons(w3, acts[3], [acts[4]]);
    EarlyCons(w2, acts[2], [acts[3], acts[4]]);
    EarlyCons(w1, acts[1], [acts[2], acts[3], acts[4]]);
    EarlyCons(w0, acts[0], [acts[1], acts[2], acts[3], acts[4]]);
  }

  function Dropped1(): Shared { Shared(1, Some(Row(Unpublished, None)), None, true, [Drop]) }

  function Answered1(): World {
    World(Dropped1(), map[1 := Probing(Snap1(), false), 2 := Done(NotPublished(true))], None, Dropped1(),
          [Ran(1, Snap(false), AllGood()), Ran(2, Withdraw, AllGood())], [(1, Snapped(Snap1())), (2, NotPublished(true))])
  }

  /** The withdrawal runs its whole section: nothing durable to write, the relay drops the coordinate, the operator is told. */
  lemma WithdrawalAnswers() returns (acts: seq<Action>)
    ensures EarlyValid(Halfway(), acts) && EarlyAfter(Halfway(), acts) == Answered1()
  {
    acts := [Acquire(2, AllGood()), Advance(2), Advance(2), Advance(2)];
    var w0 := Halfway();
    var w1 := EarlyStep(w0, acts[0]);
    var w2 := EarlyStep(w1, acts[1]);
    var w3 := EarlyStep(w2, acts[2]);
    EarlyCons(w3, acts[3], []);
    EarlyCons(w2, acts[2], [acts[3]]);
    EarlyCons(w1, acts[1], [acts[2], acts[3]]);
    EarlyCons(w0, acts[0], [acts[1], acts[2], acts[3]]);
  }

  function Resurrected(): World {
    var live := Shared(1, Some(Row(Active, Some("ev"))), Some("ev"), true, [Drop, Put("ev")]);
    var reply := Published(Some("ev"), true, []);
    World(live, map[1 := Done(reply), 2 := Done(NotPublished(true))], None, live,
          [Ran(1, Snap(false), AllGood()), Ran(2, Withdraw, AllGood()), Ran(1, Gate(Snap1(), false, []), AllGood())],
          [(1, Snapped(Snap1())), (2, NotPublished(true)), (1, reply)])
  }

  /** The publish comes back from its probes: its epoch already contains the withdrawal, so nothing stops it. */
  lemma PublishResurrects() returns (acts: seq<Action>)
    ensures EarlyValid(Answered1(), acts) && EarlyAfter(Answered1(), acts) == Resurrected()
  {
    var adv := Advance(1);
    acts := [Probed(1, []), Acquire(1, AllGood()), adv, adv, adv, adv, adv];
    var w0 := Answered1();
    var w1 := EarlyStep(w0, acts[0]);
    var w2 := EarlyStep(w1, acts[1]);
    var w3 := EarlyStep(w2, adv);
    var w4 := EarlyStep(w3, adv);
    var w5 := EarlyStep(w4, adv);
    var w6 := EarlyStep(w5, adv);
    EarlyCons(w6, adv, []);
    EarlyCons(w5, adv, [adv]);
    EarlyCons(w4, adv, [adv, adv]);
    EarlyCons(w3, adv, [adv, adv, adv]);
    EarlyCons(w2, adv, [adv, adv, adv, adv]);
    EarlyCons(w1, acts[1], [adv, adv, adv, adv, adv]);
    EarlyCons(w0, acts[0], [acts[1], adv, adv, adv, adv, adv]);
  }

  /**
  With the early bump some schedule answers a withdrawal between a publish's snapshot and its gate, and the
  publish still goes live: the run `Publication.PublishedMeansNoWithdrawal` excludes for the real machine.
  */
  lemma EarlyBumpResurrects() returns (acts: seq<Action>)
    ensures EarlyValid(Fresh(Quiet0()), acts)
    ensures var w := EarlyAfter(Fresh(Quiet0()), acts);
            && IsActive(w.shared) && w.shared.relay.Some? && |w.replies| == 3 && w.replies[1] == (2, NotPublished(true))
            && |w.hist| == 3 && SameThread(w.hist[0], 1) && w.hist[0].sec.Snap? && IsWithdraw(w.hist[1])
            && SameThread(w.hist[2], 1) && IsGate(w.hist[2]) && w.replies[2].1.Published?
  {
    var a := FirstHalf();
    var b := WithdrawalAnswers();
    var c := PublishResurrects();
    hide EarlyValid, EarlyAfter;
    EarlyTwo(Fresh(Quiet0()), a, b);
    EarlyTwo(Fresh(Quiet0()), a + b, c);
    acts := a + b + c;
  }
}
