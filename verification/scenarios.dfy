/**
  Concrete runs of the scheduler: the two behaviours its test suite checks, a failing
  task, and two runs that reach states a caller would not expect.
*/
module Scenarios {
  import opened Registry
  import opened Ranking
  import opened Scorer
  import opened Metrics
  import opened SmartQueue
  import Controller
  import QueueInvariants

  const One := Options(Some(1), None, None, None)
  const Two := Options(Some(2), None, None, None)

  /** A pass over a registry holding one pending task, with a slot free, launches it. */
  lemma LoneDispatch(s: Queue, p: Reading, t: Task)
    requires s.tasks == [t] && t.status == Pending
    requires |s.running| < s.ceiling
    ensures var r := Dispatch(s, p);
            && r.tasks == [t.(status := Running)]
            && r.inflight == s.inflight + [t.(status := Running)]
            && r.running == s.running + {t.id}
            && r.metrics == s.metrics && r.ceiling == s.ceiling
            && KeyOf(p, t) in r.q && r.q[KeyOf(p, t)] == Value(s.q, KeyOf(p, t))
  {
    var e := Entry(t, Score(s.weights, p, s.q, t), 0);
    assert Collect(s.tasks, s.weights, p, s.q, 1) == [];
    assert Candidates(s, p) == [e];
    assert RankedCandidates(s, p) == [e];
    assert Chosen(s, p) == [e];
    assert TasksOf([e]) == [t];
    assert IdSet([t]) == {t.id};
    assert MarkRunning([t], {t.id}) == [t.(status := Running)];
  }

  /** Settling the one execution of a registry that holds only it empties the queue and leaves nothing to launch. */
  lemma LoneSettle(s: Queue, succeeded: bool, now: int, p: Reading, u: Task)
    requires s.tasks == [u] && s.inflight == [u] && s.running == {u.id}
    ensures var r := Settle(s, 0, succeeded, now, p);
            && r.tasks == [] && r.inflight == [] && r.running == {}
            && r.metrics.queueLength == s.metrics.queueLength - 1
            && r.metrics.completed == s.metrics.completed + (if succeeded then 1 else 0)
            && r.metrics.waitTimes == (if succeeded then Push(s.metrics.waitTimes, now - u.startTime) else s.metrics.waitTimes)
  {
    LoneSettleIsComplete(s, succeeded, now, p, u);
    assert s.inflight[0] == u;
  }

  /** With nothing else registered, the pass after the settlement has nothing to launch. */
  lemma LoneSettleIsComplete(s: Queue, succeeded: bool, now: int, p: Reading, u: Task)
    requires s.tasks == [u] && s.inflight == [u] && s.running == {u.id}
    ensures var c := Complete(s, 0, succeeded, now, p);
            && Settle(s, 0, succeeded, now, p) == c
            && c.tasks == [] && c.inflight == []
  {
    var c := Complete(s, 0, succeeded, now, p);
    assert c.tasks == [] by {
      assert Remove([u], u.id) == [];
    }
    assert c.inflight == [] by {
      assert s.inflight[..0] + s.inflight[1..] == [];
    }
    assert !Fires(c, p) by {
      assert Candidates(c, p) == [];
    }
    assert Dispatch(c, p) == c;
  }

  /** ... and its table is the source's update of the settled task's entry, with nothing seeded after it. */
  lemma LoneSettleTable(s: Queue, succeeded: bool, now: int, p: Reading, u: Task)
    requires s.tasks == [u] && s.inflight == [u] && s.running == {u.id}
    ensures Settle(s, 0, succeeded, now, p).q
         == UpdateQValue(s.alpha, s.gamma, s.q, [u], p, Outcome(u, succeeded), Reward(succeeded))
  {
    LoneSettleIsComplete(s, succeeded, now, p, u);
  }

  /** The state right after `add({id: 'test'})` on a queue with a ceiling of 1. */
  function OneAdded(t0: int): Queue
  {
    Queue([Task("test", DefaultUrgency, Pending, t0)], {}, [], 1, DefaultWeights, DefaultAlpha, DefaultGamma, map[], MetricsData(1, [], 0))
  }

  /** With a ceiling of 1 and no urgency given, `add` stores a pending record of urgency 0.5 and counts it. */
  lemma SingleTaskAdded(t0: int)
    ensures Add(Init(One), "test", None, t0).0 == OneAdded(t0)
  {
  }

  function OneLaunched(t0: int, p: Reading): Queue
  {
    Dispatch(OneAdded(t0), p)
  }

  /** The deferred pass after that `add` launches the task. */
  lemma SingleTaskLaunches(p: Reading, t0: int)
    ensures var u := Task("test", DefaultUrgency, Running, t0);
            && OneLaunched(t0, p).tasks == [u] && OneLaunched(t0, p).inflight == [u]
            && OneLaunched(t0, p).running == {"test"}
            && OneLaunched(t0, p).metrics == MetricsData(1, [], 0)
  {
    LoneDispatch(OneAdded(t0), p, Task("test", DefaultUrgency, Pending, t0));
    assert [] + [Task("test", DefaultUrgency, Running, t0)] == [Task("test", DefaultUrgency, Running, t0)];
  }

  /** Its successful settlement counts it as completed, records its wait and drops it. */
  lemma SingleTaskCompletes(p: Reading, t0: int, t1: int)
    ensures var s3 := Settle(OneLaunched(t0, p), 0, true, t1, p);
            && s3.metrics == MetricsData(0, [t1 - t0], 1)
            && s3.tasks == [] && s3.running == {} && s3.inflight == []
  {
    SingleTaskLaunches(p, t0);
    LoneSettle(OneLaunched(t0, p), true, t1, p, Task("test", DefaultUrgency, Running, t0));
    PushEmpty(t1 - t0);
  }

  lemma PushEmpty(w: int)
    ensures Push([], w) == [w]
  {
  }

  /** The first report after that settlement: nothing queued, one completion, and the single wait as the average. */
  lemma SingleTaskReport(w: int)
    ensures Report(MetricsData(0, [w], 1)) == Snapshot(0, w as real, 1)
  {
    assert Sum([w]) == w;
  }

  function Fresh(id: string, urgency: real, now: int): Task
  {
    Task(id, urgency, Pending, now)
  }

  /** `add` under an id the registry does not hold appends a pending record and counts it. */
  lemma AddFresh(s: Queue, id: string, urgency: real, now: int)
    requires id !in IdSet(s.tasks)
    ensures Add(s, id, Some(urgency), now).0
         == s.(tasks := s.tasks + [Fresh(id, urgency, now)], metrics := s.metrics.(queueLength := s.metrics.queueLength + 1))
  {
  }

  /** The state after the test's three `add` calls on a queue with a ceiling of 2. */
  function ThreeAdded(now: int): Queue
  {
    var s1 := Add(Init(Two), "task1", Some(0.8), now).0;
    var s2 := Add(s1, "task2", Some(0.6), now).0;
    Add(s2, "task3", Some(0.9), now).0
  }

  function Submitted(now: int): Queue
  {
    Queue([Fresh("task1", 0.8, now), Fresh("task2", 0.6, now), Fresh("task3", 0.9, now)],
          {}, [], 2, DefaultWeights, DefaultAlpha, DefaultGamma, map[], MetricsData(3, [], 0))
  }

  lemma ThreeAddedIsSubmitted(now: int)
    ensures ThreeAdded(now) == Submitted(now)
  {
    var t1, t2 := Fresh("task1", 0.8, now), Fresh("task2", 0.6, now);
    var s2 := Add(Add(Init(Two), "task1", Some(0.8), now).0, "task2", Some(0.6), now).0;
    TwoAdded(now);
    assert IdSet([t1, t2]) == {"task1", "task2"};
    AddFresh(s2, "task3", 0.9, now);
  }

  lemma TwoAdded(now: int)
    ensures Add(Add(Init(Two), "task1", Some(0.8), now).0, "task2", Some(0.6), now).0
         == Submitted(now).(tasks := Submitted(now).tasks[..2], metrics := MetricsData(2, [], 0))
  {
    var t1 := Fresh("task1", 0.8, now);
    var s0 := Init(Two);
    AddFresh(s0, "task1", 0.8, now);
    var s1 := Add(s0, "task1", Some(0.8), now).0;
    assert IdSet([t1]) == {"task1"};
    AddFresh(s1, "task2", 0.6, now);
  }

  /** The pending tasks of the submitted state, scored on its empty table, in registry order. */
  lemma SubmittedCandidates(now: int, p: Reading)
    ensures var w := DefaultWeights;
            var ts := Submitted(now).tasks;
            (Candidates(Submitted(now), p)
             == [Entry(ts[0], Score(w, p, map[], ts[0]), 0), Entry(ts[1], Score(w, p, map[], ts[1]), 1),
                 Entry(ts[2], Score(w, p, map[], ts[2]), 2)])
  {
    var s := Submitted(now);
    var w := DefaultWeights;
    var e3 := Entry(s.tasks[2], Score(w, p, map[], s.tasks[2]), 2);
    var e2 := Entry(s.tasks[1], Score(w, p, map[], s.tasks[1]), 1);
    assert Collect(s.tasks, w, p, map[], 3) == [];
    assert Collect(s.tasks, w, p, map[], 2) == [e3];
    assert Collect(s.tasks, w, p, map[], 1) == [e2, e3];
  }

  lemma SortTwo(e1: Entry, e2: Entry)
    requires e1.score >= e2.score
    ensures SortByScore([e1, e2]) == [e1, e2]
  {
    assert [e1, e2][..1] == [e1];
    assert SortByScore([e1]) == [e1];
  }

  /** Insertion sort of three entries whose scores order them third, first, second. */
  lemma SortThree(e1: Entry, e2: Entry, e3: Entry)
    requires e1.score >= e2.score && e3.score > e1.score
    ensures SortByScore([e1, e2, e3]) == [e3, e1, e2]
  {
    assert [e1, e2, e3][..2] == [e1, e2];
    SortTwo(e1, e2);
    assert Insert(e3, [e1, e2]) == [e3, e1, e2];
  }

  /** Under any reading, on an empty table, urgency alone separates the three scores. */
  lemma SubmittedScores(now: int, p: Reading)
    ensures var ts := Submitted(now).tasks;
            var w := DefaultWeights;
            && Score(w, p, map[], ts[0]) >= Score(w, p, map[], ts[1])
            && Score(w, p, map[], ts[2]) > Score(w, p, map[], ts[0])
  {
    var ts := Submitted(now).tasks;
    ScoreDifference(DefaultWeights, p, map[], ts[0], ts[1]);
    ScoreDifference(DefaultWeights, p, map[], ts[2], ts[0]);
  }

  /** Under any reading the three candidates rank task3, task1, task2. */
  lemma SubmittedRanked(now: int, p: Reading)
    ensures TasksOf(RankedCandidates(Submitted(now), p))
         == [Fresh("task3", 0.9, now), Fresh("task1", 0.8, now), Fresh("task2", 0.6, now)]
  {
    var ts := Submitted(now).tasks;
    var w := DefaultWeights;
    SubmittedCandidates(now, p);
    SubmittedScores(now, p);
    var e1 := Entry(ts[0], Score(w, p, map[], ts[0]), 0);
    var e2 := Entry(ts[1], Score(w, p, map[], ts[1]), 1);
    var e3 := Entry(ts[2], Score(w, p, map[], ts[2]), 2);
    SortThree(e1, e2, e3);
    TasksOfThree(e3, e1, e2);
  }

  lemma TasksOfThree(a: Entry, b: Entry, c: Entry)
    ensures TasksOf([a, b, c]) == [a.task, b.task, c.task]
  {
  }

  /** With two free slots, the first two of the ranking are taken. */
  lemma SubmittedChosen(now: int, p: Reading)
    ensures Fires(Submitted(now), p)
    ensures TasksOf(Chosen(Submitted(now), p)) == [Fresh("task3", 0.9, now), Fresh("task1", 0.8, now)]
  {
    var s := Submitted(now);
    SubmittedCandidates(now, p);
    SubmittedRanked(now, p);
    var ranked := RankedCandidates(s, p);
    assert Chosen(s, p) == ranked[..2];
    assert TasksOf(ranked)[..2] == TasksOf(ranked[..2]);
  }

  /** The first pass over the submitted state launches task3, then task1. */
  lemma SubmittedLaunch(now: int, p: Reading)
    ensures Dispatch(Submitted(now), p).inflight
         == [Task("task3", 0.9, Running, now), Task("task1", 0.8, Running, now)]
    ensures Dispatch(Submitted(now), p).running == {"task3", "task1"}
  {
    var s := Submitted(now);
    SubmittedChosen(now, p);
    var chosen := TasksOf(Chosen(s, p));
    var s0 := s.(q := SeedAll(s.q, p, Candidates(s, p)));
    assert Dispatch(s, p) == Launch(s0, chosen);
    TwoStarted(chosen);
  }

  /** Launching two distinct tasks from an idle state. */
  lemma TwoStarted(chosen: seq<Task>)
    requires |chosen| == 2
    ensures Started(chosen) == [chosen[0].(status := Running), chosen[1].(status := Running)]
    ensures IdSet(chosen) == {chosen[0].id, chosen[1].id}
  {
    assert chosen == [chosen[0], chosen[1]];
  }

  /**
    The test's second case: with a ceiling of 2, the first pass after the three adds launches
    task3 and then task1 (task3 first, as the test expects) and leaves task2 pending.
  */
  lemma HighestUrgencyFirst(now: int, p: Reading)
    ensures Dispatch(ThreeAdded(now), p).inflight
         == [Task("task3", 0.9, Running, now), Task("task1", 0.8, Running, now)]
    ensures Dispatch(ThreeAdded(now), p).running == {"task3", "task1"}
    ensures Fresh("task2", 0.6, now) in Dispatch(ThreeAdded(now), p).tasks
  {
    ThreeAddedIsSubmitted(now);
    SubmittedLaunch(now, p);
    DispatchRegistryAndTable(Submitted(now), p);
    assert Dispatch(Submitted(now), p).tasks[1] == Fresh("task2", 0.6, now);
  }

  /** A failed run: the task is dropped and the queue emptied, and nothing is counted as completed or recorded as a wait. */
  lemma SingleTaskFails(p: Reading, t0: int, t1: int)
    ensures var s3 := Settle(OneLaunched(t0, p), 0, false, t1, p);
            && s3.metrics == MetricsData(0, [], 0)
            && s3.tasks == [] && s3.running == {} && s3.inflight == []
  {
    SingleTaskLaunches(p, t0);
    LoneSettle(OneLaunched(t0, p), false, t1, p, Task("test", DefaultUrgency, Running, t0));
  }

  /** Settling a lone launched task whose entry reads 0 leaves the entry at the learning rate times the reward. */
  lemma LoneRewarded(s: Queue, succeeded: bool, now: int, p: Reading, u: Task)
    requires s.tasks == [u] && s.inflight == [u] && s.running == {u.id}
    requires Value(s.q, KeyOf(p, u)) == 0.0
    ensures Value(Settle(s, 0, succeeded, now, p).q, KeyOf(p, u)) == s.alpha * Reward(succeeded)
  {
    var v := Outcome(u, succeeded);
    SettledRecord(p, u, succeeded);
    LoneSettleTable(s, succeeded, now, p, u);
    LoneZeroUpdate(s.alpha, s.gamma, s.q, p, u, v, Reward(succeeded));
  }

  /** The settled task's entry in the table moves from 0 to the learning rate on success and to minus it on failure. */
  lemma SingleTaskRewarded(p: Reading, t0: int, t1: int, succeeded: bool)
    ensures var t := Task("test", DefaultUrgency, Pending, t0);
            Value(Settle(OneLaunched(t0, p), 0, succeeded, t1, p).q, KeyOf(p, t))
              == (if succeeded then DefaultAlpha else -DefaultAlpha)
  {
    var t := Task("test", DefaultUrgency, Pending, t0);
    var u := t.(status := Running);
    var s2 := OneLaunched(t0, p);
    SingleTaskLaunches(p, t0);
    LoneDispatch(OneAdded(t0), p, t);
    assert KeyOf(p, u) == KeyOf(p, t);
    assert s2.alpha == DefaultAlpha;
    LoneRewarded(s2, succeeded, t1, p, u);
  }

  /** Three queued against a ceiling of 2: the estimate is about 12820 ms, above 5000, so the ceiling drops to 1. */
  lemma ShrinkThreeOverTwo()
    ensures Controller.Estimate(3, 2).Above(Controller.ShrinkAboveMs)
    ensures Controller.Adjust(3, 2) == 1
  {
    assert Controller.Estimate(3, 2) == Controller.Finite(0.00005 / (0.002 * 0.00195) * 1000.0);
  }

  /**
    `adjustConcurrency` right after the test's first pass (3 queued, ceiling 2, two tasks
    running) lowers the ceiling to 1 while both keep running.
  */
  lemma TuneUndercutsRunning(now: int, p: Reading)
    ensures var r := AdjustConcurrency(Dispatch(Submitted(now), p));
            && r.ceiling == 1 && |r.running| == 2
            && !QueueInvariants.WithinCeiling(r)
  {
    SubmittedLaunch(now, p);
    var s := Dispatch(Submitted(now), p);
    assert s.metrics.queueLength == 3 && s.ceiling == 2;
    ShrinkThreeOverTwo();
    assert |{"task3", "task1"}| == 2;
  }

  // A re-used id. The registry keeps one record per id, so a second `add` under the id of a
  // running task replaces its record, and the first settlement then deletes the record of the
  // second, still running, execution.

  /** `add` under the id of the only record replaces it in place. */
  lemma AddReplacesLone(s: Queue, x: Task, urgency: Option<real>, now: int)
    requires s.tasks == [x]
    ensures Add(s, x.id, urgency, now).0.tasks == [Add(s, x.id, urgency, now).1]
    ensures Add(s, x.id, urgency, now).0.metrics.queueLength == s.metrics.queueLength + 1
  {
    assert x.id in IdSet(s.tasks) by { assert x in s.tasks; }
    var r := Add(s, x.id, urgency, now).0;
    assert |r.tasks| == 1;
    assert Lookup(r.tasks, x.id).value in r.tasks;
  }

  /** Settling the older of two executions sharing the id of the only record deletes that record. */
  lemma SettleShadowed(s: Queue, x: Task, u: Task, succeeded: bool, now: int, p: Reading)
    requires s.tasks == [u] && s.inflight == [x, u] && x.id == u.id
    ensures var r := Settle(s, 0, succeeded, now, p);
            && r.tasks == [] && r.inflight == [u] && r.running == s.running - {u.id}
            && r.metrics.queueLength == s.metrics.queueLength - 1
  {
    var c := Complete(s, 0, succeeded, now, p);
    assert Remove([u], u.id) == [];
    assert c.inflight == [u];
    assert Candidates(c, p) == [];
  }

  function DupAdded(t0: int): Queue
  {
    Queue([Task("a", DefaultUrgency, Pending, t0)], {}, [], 2, DefaultWeights, DefaultAlpha, DefaultGamma, map[], MetricsData(1, [], 0))
  }

  lemma DupAddedReached(t0: int)
    ensures Add(Init(Two), "a", None, t0).0 == DupAdded(t0)
  {
  }

  function DupLaunched(t0: int, p: Reading): Queue
  {
    Dispatch(DupAdded(t0), p)
  }

  function DupReAdded(t0: int, t1: int, p: Reading): Queue
  {
    Add(DupLaunched(t0, p), "a", None, t1).0
  }

  function DupRelaunched(t0: int, t1: int, p: Reading): Queue
  {
    Dispatch(DupReAdded(t0, t1, p), p)
  }

  lemma DupLaunchedShape(t0: int, p: Reading)
    ensures DupLaunched(t0, p).tasks == [Task("a", DefaultUrgency, Running, t0)]
    ensures DupLaunched(t0, p).inflight == [Task("a", DefaultUrgency, Running, t0)]
    ensures DupLaunched(t0, p).running == {"a"} && DupLaunched(t0, p).ceiling == 2
    ensures DupLaunched(t0, p).metrics.queueLength == 1
  {
    LoneDispatch(DupAdded(t0), p, Task("a", DefaultUrgency, Pending, t0));
  }

  lemma DupReAddedShape(t0: int, t1: int, p: Reading)
    ensures DupReAdded(t0, t1, p).tasks == [Task("a", DefaultUrgency, Pending, t1)]
    ensures DupReAdded(t0, t1, p).inflight == [Task("a", DefaultUrgency, Running, t0)]
    ensures DupReAdded(t0, t1, p).running == {"a"} && DupReAdded(t0, t1, p).ceiling == 2
    ensures DupReAdded(t0, t1, p).metrics.queueLength == 2
  {
    DupLaunchedShape(t0, p);
    AddReplacesLone(DupLaunched(t0, p), Task("a", DefaultUrgency, Running, t0), None, t1);
  }

  lemma DupRelaunchedShape(t0: int, t1: int, p: Reading)
    ensures DupRelaunched(t0, t1, p).tasks == [Task("a", DefaultUrgency, Running, t1)]
    ensures DupRelaunched(t0, t1, p).inflight == [Task("a", DefaultUrgency, Running, t0), Task("a", DefaultUrgency, Running, t1)]
    ensures DupRelaunched(t0, t1, p).running == {"a"}
    ensures DupRelaunched(t0, t1, p).metrics.queueLength == 2
  {
    DupReAddedShape(t0, t1, p);
    LoneDispatch(DupReAdded(t0, t1, p), p, Task("a", DefaultUrgency, Pending, t1));
  }

  /**
    Add "a", run it, add "a" again while it runs: the second record is launched too, and when
    the first execution settles the registry is empty while the second is still in flight.
    Its own settlement then finds no task to take the maximum over: as written the source's
    next-state estimate is `-Infinity` (and the learned value with it), where the corrected
    estimate is 0. The queue length, 1, also no longer matches the empty registry.
  */
  lemma DuplicateIdEmptiesRegistry(t0: int, t1: int, t2: int, p: Reading)
    ensures var r := Settle(DupRelaunched(t0, t1, p), 0, true, t2, p);
            && r.tasks == [] && r.inflight == [Task("a", DefaultUrgency, Running, t1)]
            && r.running == {} && r.metrics.queueLength == 1
            && NextAsWritten(r.q, r.tasks, StateOf(p, r.inflight[0])) == NegInf
            && NextValue(r.q, r.tasks, StateOf(p, r.inflight[0])) == 0.0
  {
    DupRelaunchedShape(t0, t1, p);
    SettleShadowed(DupRelaunched(t0, t1, p), Task("a", DefaultUrgency, Running, t0), Task("a", DefaultUrgency, Running, t1), true, t2, p);
  }
}
