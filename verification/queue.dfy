/**
  The SmartQueue scheduler as a functional state machine. One value of `Queue` is the whole
  instance state; each operation is a pure transition. Asynchronous execution is split into
  discrete events: `Add` registers a task, `Dispatch` is one `schedule()` pass (the deferred
  one that `add` queues, or the one at the end of a settlement), and `Settle` is the
  resolution of one launched execution followed by its re-dispatch.
*/
module SmartQueue {
  import opened Registry
  import opened Ranking
  import opened Scorer
  import opened Metrics
  import Controller

  const DefaultCeiling := 4
  const DefaultUrgency := 0.5
  const DefaultAlpha := 0.1
  const DefaultGamma := 0.9

  /** Constructor options; `None` is an omitted option. */
  datatype Options = Options(
    maxConcurrency: Option<int>,
    weights: Option<Weights>,
    learningRate: Option<real>,
    discountFactor: Option<real>)

  datatype Queue = Queue(
    tasks: seq<Task>,        // the registry, in insertion order
    running: set<string>,    // the `running` set of ids
    inflight: seq<Task>,     // launched executions not yet settled, in launch order
    ceiling: int,            // `maxConcurrency`
    weights: Weights,
    alpha: real,
    gamma: real,
    q: QTable,
    metrics: MetricsData)

  /** `option || fallback`: an omitted or zero (falsy) option takes the fallback. */
  function OrDefault<T(==)>(o: Option<T>, zero: T, fallback: T): (r: T)
    ensures o.Some? && o.value != zero ==> r == o.value
    ensures o.None? || o.value == zero ==> r == fallback
  {
    if o.Some? && o.value != zero then o.value else fallback
  }

  /** The constructor. */
  function Init(opts: Options): (s: Queue)
    ensures s.tasks == [] && s.running == {} && s.inflight == [] && s.q == map[]
    ensures s.metrics == EmptyMetrics
    ensures opts.maxConcurrency.None? ==> s.ceiling == DefaultCeiling
    ensures opts.maxConcurrency == Some(0) ==> s.ceiling == DefaultCeiling
    ensures opts.maxConcurrency.Some? && opts.maxConcurrency.value != 0 ==> s.ceiling == opts.maxConcurrency.value
    ensures s.weights == (if opts.weights.Some? then opts.weights.value else DefaultWeights)
    ensures s.alpha == OrDefault(opts.learningRate, 0.0, DefaultAlpha)
    ensures s.gamma == OrDefault(opts.discountFactor, 0.0, DefaultGamma)
  {
    Queue(
      [], {}, [],
      OrDefault(opts.maxConcurrency, 0, DefaultCeiling),
      if opts.weights.Some? then opts.weights.value else DefaultWeights,
      OrDefault(opts.learningRate, 0.0, DefaultAlpha),
      OrDefault(opts.discountFactor, 0.0, DefaultGamma),
      map[],
      EmptyMetrics)
  }

  // ---------------------------------------------------------------- add

  /**
    `add({id, urgency, run})` at time `now`: stores a pending record under `id` (replacing
    any record already there) and counts it in the queue length. It returns the record.
  */
  function Add(s: Queue, id: string, urgency: Option<real>, now: int): (r: (Queue, Task))
    ensures r.1 == Task(id, if urgency.Some? then urgency.value else DefaultUrgency, Pending, now)
    ensures Lookup(r.0.tasks, id) == Some(r.1)
    ensures forall x :: x != id ==> Lookup(r.0.tasks, x) == Lookup(s.tasks, x)
    ensures r.0.metrics == s.metrics.(queueLength := s.metrics.queueLength + 1)
    ensures r.0 == s.(tasks := r.0.tasks, metrics := r.0.metrics)
    ensures id !in IdSet(s.tasks) ==> r.0.tasks == s.tasks + [r.1]
  {
    var t := Task(id, if urgency.Some? then urgency.value else DefaultUrgency, Pending, now);
    (s.(tasks := Put(s.tasks, t), metrics := s.metrics.(queueLength := s.metrics.queueLength + 1)), t)
  }

  // ---------------------------------------------------------------- schedule

  /** The pending tasks of the registry from position `i` on, each with its score and position. */
  function Collect(tasks: seq<Task>, w: Weights, p: Reading, q: QTable, i: nat): (r: seq<Entry>)
    requires i <= |tasks|
    ensures Ascending(r)
    ensures forall e :: e in r ==>
              && i <= e.order < |tasks|
              && tasks[e.order].status == Pending
              && e == Entry(tasks[e.order], Score(w, p, q, tasks[e.order]), e.order)
    ensures forall j :: i <= j < |tasks| && tasks[j].status == Pending ==>
              Entry(tasks[j], Score(w, p, q, tasks[j]), j) in r
    decreases |tasks| - i
  {
    if i == |tasks| then []
    else
      var rest := Collect(tasks, w, p, q, i + 1);
      if tasks[i].status == Pending then [Entry(tasks[i], Score(w, p, q, tasks[i]), i)] + rest
      else rest
  }

  /** The pending tasks, scored, in registry order. */
  function Candidates(s: Queue, p: Reading): seq<Entry>
  {
    Collect(s.tasks, s.weights, p, s.q, 0)
  }

  function Min(a: int, b: int): int
  {
    if a <= b then a else b
  }

  /** Free slots under the ceiling. */
  function Slots(s: Queue): int
  {
    s.ceiling - |s.running|
  }

  /** The pass admits something: a free slot and at least one pending task. */
  predicate Fires(s: Queue, p: Reading)
  {
    Slots(s) > 0 && |Candidates(s, p)| > 0
  }

  /** The two early returns of `schedule`: a pass goes on only with a free slot and a pending task. */
  lemma FiresExactly(s: Queue, p: Reading)
    ensures Fires(s, p) <==>
              |s.running| < s.ceiling && exists i :: 0 <= i < |s.tasks| && s.tasks[i].status == Pending
  {
    var c := Candidates(s, p);
    if i :| 0 <= i < |s.tasks| && s.tasks[i].status == Pending {
      assert Entry(s.tasks[i], Score(s.weights, p, s.q, s.tasks[i]), i) in c;
    }
    if |c| > 0 {
      assert c[0] in c;
      assert s.tasks[c[0].order].status == Pending;
    }
  }

  function RankedCandidates(s: Queue, p: Reading): seq<Entry>
  {
    SortByScore(Candidates(s, p))
  }

  /** `scoredTasks.slice(0, maxConcurrency - running.size)`. */
  function Chosen(s: Queue, p: Reading): (r: seq<Entry>)
    requires Fires(s, p)
    ensures 0 < |r| == Min(|Candidates(s, p)|, Slots(s))
    ensures r == RankedCandidates(s, p)[..|r|]
  {
    RankedCandidates(s, p)[..Min(|RankedCandidates(s, p)|, Slots(s))]
  }

  function TasksOf(es: seq<Entry>): (r: seq<Task>)
    ensures |r| == |es| && forall i :: 0 <= i < |es| ==> r[i] == es[i].task
  {
    seq(|es|, i requires 0 <= i < |es| => es[i].task)
  }

  /** The records of launched tasks, their status set to running. */
  function Started(ts: seq<Task>): (r: seq<Task>)
    ensures |r| == |ts| && forall i :: 0 <= i < |ts| ==> r[i] == ts[i].(status := Running)
  {
    seq(|ts|, i requires 0 <= i < |ts| => ts[i].(status := Running))
  }

  function MarkRunning(tasks: seq<Task>, ids: set<string>): (r: seq<Task>)
    ensures |r| == |tasks|
    ensures forall i :: 0 <= i < |tasks| ==>
              r[i] == (if tasks[i].id in ids then tasks[i].(status := Running) else tasks[i])
  {
    seq(|tasks|, i requires 0 <= i < |tasks| => if tasks[i].id in ids then tasks[i].(status := Running) else tasks[i])
  }

  /** The keys `getScore` reads for the given entries under one reading. */
  function KeysOf(p: Reading, es: seq<Entry>): set<QKey>
  {
    set e | e in es :: KeyOf(p, e.task)
  }

  /** The table after `getScore` has been called for every candidate. */
  function SeedAll(q: QTable, p: Reading, es: seq<Entry>): (r: QTable)
    ensures q.Keys <= r.Keys
    ensures forall k :: k in q ==> r[k] == q[k]
    ensures forall k :: Value(r, k) == Value(q, k)
    ensures forall e :: e in es ==> KeyOf(p, e.task) in r
    decreases |es|
  {
    if es == [] then q
    else
      var r := SeedAll(Seed(q, KeyOf(p, es[0].task)), p, es[1..]);
      assert forall e :: e in es ==> e == es[0] || e in es[1..];
      r
  }

  /** Scoring the candidates adds exactly their keys that were missing, and no other key. */
  lemma {:induction false} SeedAllKeys(q: QTable, p: Reading, es: seq<Entry>)
    ensures SeedAll(q, p, es).Keys == q.Keys + KeysOf(p, es)
    decreases |es|
  {
    if es != [] {
      SeedAllKeys(Seed(q, KeyOf(p, es[0].task)), p, es[1..]);
      assert forall e :: e in es <==> e == es[0] || e in es[1..];
      assert KeysOf(p, es) == {KeyOf(p, es[0].task)} + KeysOf(p, es[1..]);
    }
  }

  /** The admission loop: each chosen task joins `running`, becomes running and is launched. */
  function Launch(s: Queue, chosen: seq<Task>): Queue
  {
    s.(running := s.running + IdSet(chosen),
       tasks := MarkRunning(s.tasks, IdSet(chosen)),
       inflight := s.inflight + Started(chosen))
  }

  /** The ids launched by a pass that took `s` to `r`. */
  function LaunchedIds(s: Queue, r: Queue): set<string>
    requires |s.inflight| <= |r.inflight|
  {
    IdSet(r.inflight[|s.inflight|..])
  }

  /**
    `schedule()`: no-op when the running set fills the ceiling or nothing is pending;
    otherwise scores the pending tasks, stable-sorts them by descending score and launches
    the first `maxConcurrency - running.size` of them.
  */
  function Dispatch(s: Queue, p: Reading): (r: Queue)
    ensures Slots(s) <= 0 ==> r == s
    ensures (forall i :: 0 <= i < |s.tasks| ==> s.tasks[i].status != Pending) ==> r == s
    ensures r == s.(tasks := r.tasks, running := r.running, inflight := r.inflight, q := r.q)
    ensures |r.inflight| == |s.inflight| + (if Fires(s, p) then Min(|Candidates(s, p)|, Slots(s)) else 0)
    ensures r.inflight[..|s.inflight|] == s.inflight
    ensures r.running == s.running + LaunchedIds(s, r)
    ensures |s.running| <= s.ceiling ==> |r.running| <= s.ceiling
  {
    if !Fires(s, p) then
      assert (forall i :: 0 <= i < |s.tasks| ==> s.tasks[i].status != Pending) ==> |Candidates(s, p)| == 0 by {
        if |Candidates(s, p)| > 0 {
          assert Candidates(s, p)[0] in Candidates(s, p);
        }
      }
      s
    else
      LaunchFacts(s.(q := SeedAll(s.q, p, Candidates(s, p))), TasksOf(Chosen(s, p)));
      Admitted(s, p)
  }

  /** A pass that fires: every candidate is scored (seeding the table), then the chosen ones are launched. */
  function Admitted(s: Queue, p: Reading): Queue
    requires Fires(s, p)
  {
    Launch(s.(q := SeedAll(s.q, p, Candidates(s, p))), TasksOf(Chosen(s, p)))
  }

  /**
    A pass changes the registry only by marking the launched tasks running, and changes no
    value a table read sees (it only seeds absent keys with 0).
  */
  lemma DispatchRegistryAndTable(s: Queue, p: Reading)
    ensures var r := Dispatch(s, p);
            && |r.tasks| == |s.tasks|
            && (forall i :: 0 <= i < |s.tasks| && s.tasks[i].id !in LaunchedIds(s, r) ==> r.tasks[i] == s.tasks[i])
            && (forall i :: 0 <= i < |s.tasks| && s.tasks[i].id in LaunchedIds(s, r) ==>
                  r.tasks[i] == s.tasks[i].(status := Running))
            && s.q.Keys <= r.q.Keys && (forall k :: k in s.q ==> r.q[k] == s.q[k])
            && (forall k :: Value(r.q, k) == Value(s.q, k))
  {
    if Fires(s, p) {
      var chosen := TasksOf(Chosen(s, p));
      var s0 := s.(q := SeedAll(s.q, p, Candidates(s, p)));
      LaunchFacts(s0, chosen);
    }
  }

  /** A pass adds to the table exactly the keys of the candidates it scores, and none when it returns early. */
  lemma DispatchTableKeys(s: Queue, p: Reading)
    ensures Dispatch(s, p).q.Keys == s.q.Keys + (if Fires(s, p) then KeysOf(p, Candidates(s, p)) else {})
  {
    if Fires(s, p) {
      SeedAllKeys(s.q, p, Candidates(s, p));
    }
  }

  lemma LaunchFacts(s: Queue, chosen: seq<Task>)
    ensures Launch(s, chosen).inflight[|s.inflight|..] == Started(chosen)
    ensures LaunchedIds(s, Launch(s, chosen)) == IdSet(chosen)
    ensures |Launch(s, chosen).running| <= |s.running| + |chosen|
  {
    var r := Launch(s, chosen);
    assert r.inflight[|s.inflight|..] == Started(chosen);
    forall x | x in IdSet(chosen) ensures x in IdSet(Started(chosen)) {
      var t :| t in chosen && t.id == x;
      var i :| 0 <= i < |chosen| && chosen[i] == t;
      assert Started(chosen)[i].id == x;
    }
    IdSetSize(chosen);
  }

  // ---------------------------------------------------------------- settle

  /** Only a launched execution that has not settled yet can settle. */
  predicate CanSettle(s: Queue, k: nat)
  {
    k < |s.inflight|
  }

  /** The record of a settled run: completed on success, failed otherwise. */
  function Outcome(t: Task, succeeded: bool): Task
  {
    t.(status := if succeeded then Completed else Failed)
  }

  /** The reward `execute` feeds to the value update: +1 on success, -1 on failure. */
  function Reward(succeeded: bool): real
  {
    if succeeded then 1.0 else -1.0
  }

  /**
    A settled record differs from the launched one only in its status, completed exactly on
    success and failed exactly on failure, so it keeps its table key; the reward is +1 or -1,
    positive exactly on success.
  */
  lemma SettledRecord(p: Reading, t: Task, succeeded: bool)
    ensures Outcome(t, succeeded).(status := t.status) == t
    ensures Outcome(t, succeeded).status == Completed <==> succeeded
    ensures Outcome(t, succeeded).status == Failed <==> !succeeded
    ensures KeyOf(p, Outcome(t, succeeded)) == KeyOf(p, t)
    ensures (Reward(succeeded) == 1.0 || Reward(succeeded) == -1.0) && (Reward(succeeded) > 0.0 <==> succeeded)
  {
  }

  /**
    `execute`'s settle path for the `k`-th launched execution at time `now`: on success the
    task is marked completed, its wait recorded and its value updated with reward +1; on
    failure it is marked failed and updated with reward -1, the update taking its next-state
    maximum over the registry before the removal. Either way its id leaves the
    running set and the registry and the queue length drops by one.
  */
  function Complete(s: Queue, k: nat, succeeded: bool, now: int, p: Reading): (r: Queue)
    requires CanSettle(s, k)
    ensures r.tasks == Remove(s.tasks, s.inflight[k].id)
    ensures var id := s.inflight[k].id;
            && r.running == s.running - {id}
            && (UniqueIds(s.tasks) ==> id !in IdSet(r.tasks) && UniqueIds(r.tasks))
            && (id in IdSet(s.tasks) ==> |r.tasks| == |s.tasks| - 1)
    ensures r.metrics.queueLength == s.metrics.queueLength - 1
    ensures succeeded ==> r.metrics.completed == s.metrics.completed + 1
    ensures succeeded ==> r.metrics.waitTimes == Push(s.metrics.waitTimes, now - s.inflight[k].startTime)
    ensures !succeeded ==> r.metrics.completed == s.metrics.completed && r.metrics.waitTimes == s.metrics.waitTimes
    ensures r.inflight == s.inflight[..k] + s.inflight[k + 1..]
    ensures r.q == UpdateQValue(s.alpha, s.gamma, s.q, s.tasks, p, Outcome(s.inflight[k], succeeded), Reward(succeeded))
    ensures r == s.(tasks := r.tasks, running := r.running, inflight := r.inflight, q := r.q, metrics := r.metrics)
  {
    var t := Outcome(s.inflight[k], succeeded);
    var w := now - s.inflight[k].startTime;
    assert t.startTime == s.inflight[k].startTime;
    var m := if succeeded then UpdateMetrics(s.metrics, t, now) else s.metrics;
    assert succeeded ==> m.waitTimes == Push(s.metrics.waitTimes, w);
    var q := UpdateQValue(s.alpha, s.gamma, s.q, s.tasks, p, t, Reward(succeeded));
    s.(running := s.running - {t.id},
       tasks := Remove(s.tasks, t.id),
       inflight := s.inflight[..k] + s.inflight[k + 1..],
       q := q,
       metrics := m.(queueLength := m.queueLength - 1))
  }

  /** A settlement writes only the settled task's own key; the status it records is not part of the key. */
  lemma CompleteKeepsOtherKeys(s: Queue, k: nat, succeeded: bool, now: int, p: Reading)
    requires CanSettle(s, k)
    ensures var r := Complete(s, k, succeeded, now, p);
            && r.q.Keys == s.q.Keys + {KeyOf(p, s.inflight[k])}
            && forall key :: key in s.q && key != KeyOf(p, s.inflight[k]) ==> r.q[key] == s.q[key]
  {
    SettledRecord(p, s.inflight[k], succeeded);
  }

  /** Settlement followed by the `schedule()` call in `finally`. */
  function Settle(s: Queue, k: nat, succeeded: bool, now: int, p: Reading): (r: Queue)
    requires CanSettle(s, k)
    ensures UniqueIds(s.tasks) ==> s.inflight[k].id !in IdSet(r.tasks)
    ensures r.metrics.queueLength == s.metrics.queueLength - 1
    ensures r.metrics.completed == s.metrics.completed + (if succeeded then 1 else 0)
    ensures r.ceiling == s.ceiling
  {
    var c := Complete(s, k, succeeded, now, p);
    var r := Dispatch(c, p);
    DispatchRegistryAndTable(c, p);
    assert UniqueIds(s.tasks) ==> s.inflight[k].id !in IdSet(r.tasks) by {
      if UniqueIds(s.tasks) {
        var id := s.inflight[k].id;
        forall x | x in r.tasks ensures x.id != id {
          var i :| 0 <= i < |r.tasks| && r.tasks[i] == x;
          assert c.tasks[i] in c.tasks;
        }
      }
    }
    r
  }

  // ---------------------------------------------------------------- controller and metrics

  /** `adjustConcurrency()`: only the ceiling moves. */
  function AdjustConcurrency(s: Queue): (r: Queue)
    ensures r == s.(ceiling := r.ceiling)
    ensures s.ceiling - 1 <= r.ceiling <= s.ceiling + 1
    ensures Controller.MinCeiling <= s.ceiling <= Controller.MaxCeiling ==>
              Controller.MinCeiling <= r.ceiling <= Controller.MaxCeiling
  {
    assert Controller.MinCeiling <= s.ceiling <= Controller.MaxCeiling ==>
             Controller.MinCeiling <= Controller.Adjust(s.metrics.queueLength, s.ceiling) <= Controller.MaxCeiling by {
      if Controller.MinCeiling <= s.ceiling <= Controller.MaxCeiling {
        Controller.AdjustInBounds(s.metrics.queueLength, s.ceiling);
      }
    }
    s.(ceiling := Controller.Adjust(s.metrics.queueLength, s.ceiling))
  }

  /** `estimateWaitTime()`: the controller's estimate for the current queue length and ceiling. */
  function EstimateWaitTime(s: Queue): (r: Controller.Wait)
    ensures r.Overloaded? <==> s.metrics.queueLength >= 60 * s.ceiling
    ensures r.MinusInfinity? <==> s.ceiling == 0 && s.metrics.queueLength < 0
    ensures r.Finite? && s.metrics.queueLength >= 0 ==>
              r.ms >= 0.0 && (r.ms == 0.0 <==> s.metrics.queueLength == 0)
  {
    Controller.Estimate(s.metrics.queueLength, s.ceiling)
  }

  /** `metrics()`: the counters as they stand and the mean of the recorded waits (0 for none). */
  function MetricsOf(s: Queue): (r: Snapshot)
    ensures r.queueLength == s.metrics.queueLength && r.completed == s.metrics.completed
    ensures |s.metrics.waitTimes| == 0 ==> r.avgWaitTime == 0.0
    ensures |s.metrics.waitTimes| > 0 ==>
              r.avgWaitTime * |s.metrics.waitTimes| as real == Sum(s.metrics.waitTimes) as real
  {
    Report(s.metrics)
  }

  /**
    `adjustConcurrency()` acts on `estimateWaitTime()`: it lowers the ceiling exactly when the
    estimate is above 5000 ms and the ceiling is above 1, and otherwise raises it exactly when
    the estimate is below 1000 ms and the ceiling is below 10.
  */
  lemma TuneFollowsEstimate(s: Queue)
    ensures var c := AdjustConcurrency(s).ceiling;
            && (c == s.ceiling - 1 <==> EstimateWaitTime(s).Above(Controller.ShrinkAboveMs) && s.ceiling > Controller.MinCeiling)
            && (c == s.ceiling + 1 <==>
                  !(EstimateWaitTime(s).Above(Controller.ShrinkAboveMs) && s.ceiling > Controller.MinCeiling)
                  && EstimateWaitTime(s).Below(Controller.GrowBelowMs) && s.ceiling < Controller.MaxCeiling)
  {
  }
}
