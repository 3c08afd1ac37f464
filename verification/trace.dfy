/**
  Runs of the scheduler: sequences of the events an instance reacts to, and what every
  run keeps — the bookkeeping invariant (under fresh ids), the queue-length and completed
  counters, and the [1, 10] band of the ceiling.
*/
module Trace {
  import opened Registry
  import opened Scorer
  import opened SmartQueue
  import opened QueueInvariants
  import Controller

  /** One event: an `add` call, a deferred `schedule()` pass, the settlement of the `k`-th launch, or an `adjustConcurrency()` call. */
  datatype Event =
    | Submit(id: string, urgency: Option<real>, now: int)
    | Tick(p: Reading)
    | Finish(k: nat, succeeded: bool, now: int, p: Reading)
    | Tune

  /** The event applied to a state, or `None` when it cannot occur there: a settlement of no pending launch. */
  function Step(s: Queue, e: Event): (r: Option<Queue>)
    ensures !e.Finish? ==> r.Some?
    ensures e.Finish? ==> (r.Some? <==> CanSettle(s, e.k))
  {
    match e
    case Submit(id, urgency, now) => Some(Add(s, id, urgency, now).0)
    case Tick(p) => Some(Dispatch(s, p))
    case Finish(k, succeeded, now, p) =>
      if CanSettle(s, k) then Some(Settle(s, k, succeeded, now, p)) else None
    case Tune => Some(AdjustConcurrency(s))
  }

  /** The events applied in order; `None` as soon as one cannot occur. */
  function Run(s: Queue, es: seq<Event>): Option<Queue>
    decreases |es|
  {
    if es == [] then Some(s)
    else
      match Step(s, es[0])
      case None => None
      case Some(s') => Run(s', es[1..])
  }

  function Submits(es: seq<Event>): nat
  {
    if es == [] then 0 else (if es[0].Submit? then 1 else 0) + Submits(es[1..])
  }

  function Finishes(es: seq<Event>): nat
  {
    if es == [] then 0 else (if es[0].Finish? then 1 else 0) + Finishes(es[1..])
  }

  function Successes(es: seq<Event>): nat
  {
    if es == [] then 0 else (if es[0].Finish? && es[0].succeeded then 1 else 0) + Successes(es[1..])
  }

  /** Every event of the run can occur, and every submitted id is absent from the registry when it is submitted. */
  ghost predicate FreshRun(s: Queue, es: seq<Event>)
    decreases |es|
  {
    es == [] ||
    (Step(s, es[0]).Some?
     && (es[0].Submit? ==> es[0].id !in IdSet(s.tasks))
     && FreshRun(Step(s, es[0]).value, es[1..]))
  }

  /** One event keeps the invariant, and under the invariant only a settlement of a launch that does not exist is refused. */
  lemma StepInv(s: Queue, e: Event)
    requires Inv(s)
    requires e.Submit? ==> e.id !in IdSet(s.tasks)
    ensures e.Finish? ==> (Step(s, e).Some? <==> e.k < |s.inflight|)
    ensures Step(s, e).Some? ==> Inv(Step(s, e).value)
  {
    match e
    case Submit(id, urgency, now) => AddInv(s, id, urgency, now);
    case Tick(p) => DispatchInv(s, p);
    case Finish(k, succeeded, now, p) =>
      if k < |s.inflight| {
        SettleInv(s, k, succeeded, now, p);
      }
    case Tune => AdjustInv(s);
  }

  /** A run with fresh ids from an invariant state never gets stuck and ends in an invariant state. */
  lemma {:induction false} RunInv(s: Queue, es: seq<Event>)
    requires Inv(s) && FreshRun(s, es)
    ensures Run(s, es).Some? && Inv(Run(s, es).value)
    decreases |es|
  {
    if es != [] {
      StepInv(s, es[0]);
      RunInv(Step(s, es[0]).value, es[1..]);
    }
  }

  /** What each event does to the counters and the ceiling. */
  lemma StepCounts(s: Queue, e: Event)
    requires Step(s, e).Some?
    ensures var r := Step(s, e).value;
            && r.metrics.queueLength == s.metrics.queueLength + (if e.Submit? then 1 else 0) - (if e.Finish? then 1 else 0)
            && r.metrics.completed == s.metrics.completed + (if e.Finish? && e.succeeded then 1 else 0)
            && (!e.Tune? ==> r.ceiling == s.ceiling)
            && (Controller.MinCeiling <= s.ceiling <= Controller.MaxCeiling ==>
                  Controller.MinCeiling <= r.ceiling <= Controller.MaxCeiling)
  {
  }

  /**
    Along any run the queue length moves by +1 per submission and -1 per settlement, the
    completed counter grows by the successful settlements, and a ceiling in [1, 10] stays there.
  */
  lemma {:induction false} RunCounts(s: Queue, es: seq<Event>)
    requires Run(s, es).Some?
    ensures var r := Run(s, es).value;
            && r.metrics.queueLength == s.metrics.queueLength + Submits(es) - Finishes(es)
            && r.metrics.completed == s.metrics.completed + Successes(es)
            && (Controller.MinCeiling <= s.ceiling <= Controller.MaxCeiling ==>
                  Controller.MinCeiling <= r.ceiling <= Controller.MaxCeiling)
    decreases |es|
  {
    if es != [] {
      StepCounts(s, es[0]);
      RunCounts(Step(s, es[0]).value, es[1..]);
    }
  }

  /**
    From a fresh instance, with fresh ids, the queue length is always the registry size and
    equals the submissions minus the settlements; the completed counter counts the successes.
  */
  lemma FromInit(opts: Options, es: seq<Event>)
    requires FreshRun(Init(opts), es)
    ensures Run(Init(opts), es).Some?
    ensures var r := Run(Init(opts), es).value;
            && r.metrics.queueLength == |r.tasks| == Submits(es) - Finishes(es)
            && r.metrics.completed == Successes(es)
            && r.running == IdSet(r.inflight)
  {
    InitInv(opts);
    RunInv(Init(opts), es);
    RunCounts(Init(opts), es);
  }

  /** A submission, a pass or a settlement never pushes the running set past the ceiling. */
  lemma StepWithinCeiling(s: Queue, e: Event)
    requires WithinCeiling(s) && Step(s, e).Some? && !e.Tune?
    ensures WithinCeiling(Step(s, e).value)
  {
    match e {
      case Submit(id, urgency, now) => CeilingKept(s, id, urgency, now, Reading(0.0, 0.0), 0, false);
      case Tick(p) => CeilingKept(s, "", None, 0, p, 0, false);
      case Finish(k, succeeded, now, p) => CeilingKept(s, "", None, now, p, k, succeeded);
    }
  }

  /** Without `Tune` events, the running set never outgrows the ceiling. */
  lemma {:induction false} UntunedWithinCeiling(s: Queue, es: seq<Event>)
    requires WithinCeiling(s) && Run(s, es).Some?
    requires forall i :: 0 <= i < |es| ==> !es[i].Tune?
    ensures WithinCeiling(Run(s, es).value)
    decreases |es|
  {
    if es != [] {
      StepWithinCeiling(s, es[0]);
      assert forall i :: 0 <= i < |es[1..]| ==> es[1..][i] == es[i + 1];
      UntunedWithinCeiling(Step(s, es[0]).value, es[1..]);
    }
  }
}
