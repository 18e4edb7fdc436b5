/**
The socket server and its shutdown drain: an accept loop, one handler task per connection, and the signal that
stops the first and waits for the rest.

Handlers move on their own, in any order. `began` and `answered` record which mutating requests started dispatch
and which had their result reach the reply; they are bookkeeping that no step looks at.
*/
module Drain {
  import opened Wrappers
  import opened Sums

  datatype Reply = Answer(result: string) | ShuttingDown | BadRequest

  datatype Phase =
    | Reading
    | Dispatching(mutating: bool)
    | Writing(reply: Reply)
    | Closed

  datatype Server = Accepting | Draining | Stopped(graceful: bool)

  datatype World = World(server: Server, cancelled: bool, conns: map<nat, Phase>, began: set<nat>, answered: map<nat, Reply>)

  datatype Step =
    | Accept(t: nat)
    | AcceptError
    | Reap(t: nat)
    | Signal
    | DrainDone
    | ReadRequest(t: nat, mutating: bool)
    | ReadRefused(t: nat)
    | ReadFailed(t: nat)
    | Finish(t: nat, result: string)
    | Cut(t: nat)
    | WriteReply(t: nat)

  predicate At(w: World, t: nat, p: Phase) { t in w.conns && w.conns[t] == p }

  predicate Can(w: World, step: Step) {
    match step
    case Accept(t) => w.server.Accepting? && t !in w.conns && t !in w.began && t !in w.answered
    case AcceptError => w.server.Accepting?
    case Reap(t) => w.server.Accepting? && At(w, t, Closed)
    case Signal => w.server.Accepting?
    case DrainDone => w.server.Draining? && forall t :: t in w.conns ==> w.conns[t].Closed?
    case ReadRequest(t, _) => At(w, t, Reading)
    case ReadRefused(t) => At(w, t, Reading)
    case ReadFailed(t) => At(w, t, Reading)
    case Finish(t, _) => t in w.conns && w.conns[t].Dispatching?
    case Cut(t) => w.cancelled && At(w, t, Dispatching(false))
    case WriteReply(t) => t in w.conns && w.conns[t].Writing?
  }

  function Moved(w: World, t: nat, p: Phase): World { w.(conns := w.conns[t := p]) }

  function Replied(w: World, t: nat, reply: Reply): World {
    Moved(w, t, Writing(reply)).(answered := w.answered[t := reply])
  }

  /** An accept error leaves the loop at once: the task set goes with it, and every handler in it. */
  function Next(w: World, step: Step): World
    requires Can(w, step)
  {
    match step
    case Accept(t) => Moved(w, t, Reading)
    case AcceptError => w.(server := Stopped(false), conns := map[])
    case Reap(t) => w.(conns := w.conns - {t})
    case Signal => w.(server := Draining, cancelled := true)
    case DrainDone => w.(server := Stopped(true), conns := map[])
    case ReadRequest(t, mutating) =>
      Moved(w, t, Dispatching(mutating)).(began := if mutating then w.began + {t} else w.began)
    case ReadRefused(t) => Replied(w, t, BadRequest)
    case ReadFailed(t) => Moved(w, t, Closed)
    case Finish(t, result) => Replied(w, t, Answer(result))
    case Cut(t) => Replied(w, t, ShuttingDown)
    case WriteReply(t) => Moved(w, t, Closed)
  }

  predicate Valid(w: World, steps: seq<Step>)
    decreases |steps|
  {
    steps == [] || (Can(w, steps[0]) && Valid(Next(w, steps[0]), steps[1..]))
  }

  function After(w: World, steps: seq<Step>): World
    requires Valid(w, steps)
    decreases |steps|
  {
    if steps == [] then w else After(Next(w, steps[0]), steps[1..])
  }

  function Fresh(): World { World(Accepting, false, map[], {}, map[]) }

  // ----- who can be dropped

  /** A mutating request in the middle of its dispatch. */
  predicate InFlight(w: World, t: nat) { At(w, t, Dispatching(true)) }

  /** `step` takes a mutating request out of its dispatch without a result. */
  ghost predicate Drops(w: World, step: Step)
    requires Can(w, step)
  {
    exists t :: InFlight(w, t) && !InFlight(Next(w, step), t) && t !in Next(w, step).answered
  }

  ghost predicate Inv(w: World) {
    && (forall t :: t in w.conns && (w.conns[t].Reading? || w.conns[t].Dispatching?) ==> t !in w.answered)
    && (forall t :: t in w.conns && w.conns[t].Reading? ==> t !in w.began)
    && (forall t :: t in w.conns && w.conns[t] == Dispatching(false) ==> t !in w.began)
    && (forall t :: t in w.answered && t in w.began ==> w.answered[t].Answer?)
    && (forall t :: t in w.answered && w.answered[t].ShuttingDown? ==> w.cancelled)
    && (w.cancelled ==> !w.server.Accepting?) && (w.server == Stopped(true) ==> w.conns == map[])
  }

  lemma StepKeepsInv(w: World, step: Step)
    requires Inv(w) && Can(w, step)
    ensures Inv(Next(w, step))
  {
  }

  /**
  The only thing that drops a mutating request is an accept error while one is in flight: the loop returns with
  `?`, before the drain, and takes the task set with it. Every other step, the shutdown signal included, drops none.
  */
  lemma OnlyAcceptErrorsDrop(w: World, step: Step)
    requires Inv(w) && Can(w, step)
    ensures Drops(w, step) <==> step.AcceptError? && exists t :: InFlight(w, t)
  {
    if step.AcceptError? {
      if t :| InFlight(w, t) { assert !InFlight(Next(w, step), t) && t !in Next(w, step).answered; }
    }
  }

  ghost predicate DropFree(w: World, steps: seq<Step>)
    requires Valid(w, steps)
    decreases |steps|
  {
    steps == [] || (!(steps[0].AcceptError? && exists t :: InFlight(w, t)) && DropFree(Next(w, steps[0]), steps[1..]))
  }

  /** Every mutating request that began is still in its dispatch or has its own result in the reply. */
  ghost predicate Kept(w: World) {
    forall t :: t in w.began ==> InFlight(w, t) || (t in w.answered && w.answered[t].Answer?)
  }

  lemma StepKeeps(w: World, step: Step)
    requires Inv(w) && Kept(w) && Can(w, step) && !(step.AcceptError? && exists t :: InFlight(w, t))
    ensures Kept(Next(w, step))
  {
    hide Inv;
    forall t | t in Next(w, step).began
      ensures InFlight(Next(w, step), t) || (t in Next(w, step).answered && Next(w, step).answered[t].Answer?)
    {
      AtOne(w, step, t);
    }
  }

  lemma AtOne(w: World, step: Step, t: nat)
    requires Inv(w) && Kept(w) && Can(w, step) && !(step.AcceptError? && exists u :: InFlight(w, u))
    requires t in Next(w, step).began
    ensures InFlight(Next(w, step), t) || (t in Next(w, step).answered && Next(w, step).answered[t].Answer?)
  {
  }

  lemma {:induction false} RunKeeps(w: World, steps: seq<Step>)
    requires Inv(w) && Kept(w) && Valid(w, steps) && DropFree(w, steps)
    ensures Inv(After(w, steps)) && Kept(After(w, steps))
    decreases |steps|
  {
    if steps != [] {
      StepKeepsInv(w, steps[0]);
      StepKeeps(w, steps[0]);
      RunKeeps(Next(w, steps[0]), steps[1..]);
    }
  }

  /**
  In every run without such an accept error a mutating request that began is never dropped, and never answered
  with anything but its own result; once the drain is over all of them have their result in the reply.
  */
  lemma MutationsAreNeverLost(steps: seq<Step>)
    requires Valid(Fresh(), steps) && DropFree(Fresh(), steps)
    ensures var w := After(Fresh(), steps);
            && (forall t :: t in w.began ==> InFlight(w, t) || (t in w.answered && w.answered[t].Answer?))
            && (w.server == Stopped(true) ==> forall t :: t in w.began ==> t in w.answered && w.answered[t].Answer?)
  {
    RunKeeps(Fresh(), steps);
  }

  lemma {:induction false} RunKeepsInv(w: World, steps: seq<Step>)
    requires Inv(w) && Valid(w, steps)
    ensures Inv(After(w, steps))
    decreases |steps|
  {
    if steps != [] {
      StepKeepsInv(w, steps[0]);
      RunKeepsInv(Next(w, steps[0]), steps[1..]);
    }
  }

  /** The reply a handler step puts down for its connection. */
  predicate PutsDown(step: Step, t: nat, reply: Reply) {
    match step
    case Finish(u, result) => t == u && reply == Answer(result)
    case Cut(u) => t == u && reply == ShuttingDown
    case ReadRefused(u) => t == u && reply == BadRequest
    case _ => false
  }

  lemma ReplyIsPut(w: World, step: Step, t: nat)
    requires Inv(w) && Can(w, step)
    ensures var w' := Next(w, step);
            t in w'.answered <==> t in w.answered || exists reply :: PutsDown(step, t, reply)
    ensures t in Next(w, step).answered ==>
              if t in w.answered then Next(w, step).answered[t] == w.answered[t] else PutsDown(step, t, Next(w, step).answered[t])
  {
    assert t in w.answered ==> !(t in w.conns && (w.conns[t].Reading? || w.conns[t].Dispatching?));
    hide Inv;
    match step
    case Finish(u, result) => assert PutsDown(step, u, Answer(result));
    case Cut(u) => assert PutsDown(step, u, ShuttingDown);
    case ReadRefused(u) => assert PutsDown(step, u, BadRequest);
    case _ =>
  }

  /** A connection's reply is the one its own handler put down, the first and only one in any run: its own result, whole. */
  lemma {:induction false} RepliesAreOwn(w: World, steps: seq<Step>, t: nat)
    requires Inv(w) && Valid(w, steps) && t !in w.answered
    ensures Inv(After(w, steps))
    ensures t in After(w, steps).answered <==> exists i, reply :: 0 <= i < |steps| && PutsDown(steps[i], t, reply)
    ensures t in After(w, steps).answered ==>
              forall i, reply :: 0 <= i < |steps| && PutsDown(steps[i], t, reply) ==> After(w, steps).answered[t] == reply
    decreases |steps|
  {
    hide Inv, Can, Next, PutsDown;
    if steps != [] {
      var w' := Next(w, steps[0]);
      ReplyIsPut(w, steps[0], t);
      StepKeepsInv(w, steps[0]);
      assert forall i :: 0 <= i < |steps| - 1 ==> steps[1..][i] == steps[i + 1];
      if t !in w'.answered {
        RepliesAreOwn(w', steps[1..], t);
      } else {
        RepliesStay(w', steps[1..], t);
        OneReplyPerStep(steps[0], t, w'.answered[t]);
        forall i, reply | 0 <= i < |steps| && PutsDown(steps[i], t, reply) ensures After(w, steps).answered[t] == reply {
          if i == 0 { OneReplyPerStep(steps[0], t, reply); }
        }
      }
    }
  }

  lemma OneReplyPerStep(step: Step, t: nat, reply: Reply)
    ensures PutsDown(step, t, reply) ==> forall other :: PutsDown(step, t, other) ==> other == reply
  {
  }

  lemma NotPutTwice(w: World, step: Step, t: nat)
    requires Inv(w) && Can(w, step) && t in w.answered
    ensures t in Next(w, step).answered && Next(w, step).answered[t] == w.answered[t]
    ensures forall reply :: !PutsDown(step, t, reply)
  {
  }

  lemma {:induction false} RepliesStay(w: World, steps: seq<Step>, t: nat)
    requires Inv(w) && Valid(w, steps) && t in w.answered
    ensures Inv(After(w, steps)) && t in After(w, steps).answered && After(w, steps).answered[t] == w.answered[t]
    ensures forall i, reply :: 0 <= i < |steps| ==> !PutsDown(steps[i], t, reply)
    decreases |steps|
  {
    hide Inv, Can, Next, PutsDown;
    if steps != [] {
      NotPutTwice(w, steps[0], t);
      StepKeepsInv(w, steps[0]);
      RepliesStay(Next(w, steps[0]), steps[1..], t);
      assert forall i :: 0 < i < |steps| ==> steps[i] == steps[1..][i - 1];
    }
  }

  /** A read-only request is cut short only by the shutdown, and only to the retryable reply. */
  lemma OnlyReadsAreCut(steps: seq<Step>, t: nat)
    requires Valid(Fresh(), steps) && t in After(Fresh(), steps).answered && After(Fresh(), steps).answered[t].ShuttingDown?
    ensures t !in After(Fresh(), steps).began && After(Fresh(), steps).cancelled
  {
    RunKeepsInv(Fresh(), steps);
  }

  /** The run the guard is about: a mutating request begins, the next accept fails, and its result is lost. */
  lemma AcceptErrorLosesAMutation(t: nat) returns (steps: seq<Step>)
    ensures Valid(Fresh(), steps) && t in After(Fresh(), steps).began && t !in After(Fresh(), steps).answered
    ensures After(Fresh(), steps).conns == map[]
  {
    steps := [Accept(t), ReadRequest(t, true), AcceptError];
    var w1 := Next(Fresh(), steps[0]);
    var w2 := Next(w1, steps[1]);
    var w3 := Next(w2, steps[2]);
    assert Valid(w3, []) && After(w3, []) == w3;
    assert steps[2..][1..] == [] && steps[1..][1..] == steps[2..];
    assert Valid(w2, steps[2..]) && After(w2, steps[2..]) == w3;
    assert Valid(w1, steps[1..]) && After(w1, steps[1..]) == w3;
  }

  // ----- the drain ends

  function Weight(p: Phase): nat {
    match p
    case Reading => 3
    case Dispatching(_) => 2
    case Writing(_) => 1
    case Closed => 0
  }

  function Weights(conns: map<nat, Phase>): map<nat, nat> { map t | t in conns :: Weight(conns[t]) }

  /** How many handler steps are left at most. */
  ghost function Left(w: World): nat { Sum(Weights(w.conns)) }

  predicate HandlerStep(step: Step) {
    step.ReadRequest? || step.ReadRefused? || step.ReadFailed? || step.Finish? || step.Cut? || step.WriteReply?
  }

  lemma MoveLightens(w: World, t: nat, p: Phase)
    requires t in w.conns && Weight(p) < Weight(w.conns[t])
    ensures Sum(Weights(w.conns[t := p])) < Left(w)
  {
    assert Weights(w.conns[t := p]) == Weights(w.conns)[t := Weight(p)];
    SumPut(Weights(w.conns), t, Weight(p));
  }

  lemma HandlerStepsCountDown(w: World, step: Step)
    requires Can(w, step) && HandlerStep(step)
    ensures Left(Next(w, step)) < Left(w) && Next(w, step).server == w.server
  {
    MoveLightens(w, step.t, Next(w, step).conns[step.t]);
  }

  /** While draining, only handlers move and the drain itself ends; so it lasts no longer than its handlers have steps left. */
  lemma {:induction false} DrainIsBounded(w: World, steps: seq<Step>)
    requires w.server.Draining? && Valid(w, steps) && After(w, steps).server.Draining?
    ensures |steps| <= Left(w)
    decreases |steps|
  {
    if steps != [] {
      if HandlerStep(steps[0]) {
        HandlerStepsCountDown(w, steps[0]);
        DrainIsBounded(Next(w, steps[0]), steps[1..]);
      } else {
        StaysStopped(Next(w, steps[0]), steps[1..]);
      }
    }
  }

  lemma {:induction false} StaysStopped(w: World, steps: seq<Step>)
    requires w.server.Stopped? && Valid(w, steps)
    ensures After(w, steps).server.Stopped?
    decreases |steps|
  {
    if steps != [] { StaysStopped(Next(w, steps[0]), steps[1..]); }
  }

  /** A drain is never stuck, given that dispatches and writes return: some handler can move, or the drain is over. */
  lemma DrainProgresses(w: World) returns (step: Step)
    requires w.server.Draining?
    ensures Can(w, step) && (HandlerStep(step) || step.DrainDone?)
  {
    if t :| t in w.conns && !w.conns[t].Closed? {
      step := match w.conns[t]
        case Reading => ReadFailed(t)
        case Dispatching(_) => Finish(t, "")
        case Writing(_) => WriteReply(t)
        case Closed => DrainDone;
    } else {
      step := DrainDone;
    }
  }
}
