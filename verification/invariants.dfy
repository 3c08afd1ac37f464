/**
  Properties of the scheduler state machine: which tasks a dispatch pass admits, and the
  invariant that ties the registry, the running set, the launched executions and the
  queue length together while ids are not reused.
*/
module QueueInvariants {
  import opened Registry
  import opened Ranking
  import opened Scorer
  import opened Metrics
  import opened SmartQueue

  /** A candidate is a pending registry entry carrying its own score and position. */
  lemma CandidateShape(s: Queue, p: Reading, e: Entry)
    requires e in Candidates(s, p)
    ensures 0 <= e.order < |s.tasks| && s.tasks[e.order] == e.task && e.task.status == Pending
    ensures e.score == Score(s.weights, p, s.q, e.task)
  {
  }

  lemma RankedIsCandidate(s: Queue, p: Reading, x: int)
    requires 0 <= x < |RankedCandidates(s, p)|
    ensures RankedCandidates(s, p)[x] in Candidates(s, p)
  {
    var ranking := RankedCandidates(s, p);
    assert ranking[x] in multiset(ranking);
  }

  /** Every pending registry entry appears in the ranking. */
  lemma PendingIsRanked(s: Queue, p: Reading, j: int) returns (m: nat)
    requires 0 <= j < |s.tasks| && s.tasks[j].status == Pending
    ensures m < |RankedCandidates(s, p)|
    ensures RankedCandidates(s, p)[m] == Entry(s.tasks[j], Score(s.weights, p, s.q, s.tasks[j]), j)
  {
    var f := Entry(s.tasks[j], Score(s.weights, p, s.q, s.tasks[j]), j);
    var ranking := RankedCandidates(s, p);
    assert f in multiset(Candidates(s, p));
    assert f in multiset(ranking);
    m :| 0 <= m < |ranking| && ranking[m] == f;
  }

  /** The `k`-th chosen entry outranks a pending task that was not chosen. */
  lemma OutranksLeftBehind(s: Queue, p: Reading, k: int, j: int)
    requires UniqueIds(s.tasks) && Fires(s, p)
    requires 0 <= k < |Chosen(s, p)|
    requires 0 <= j < |s.tasks| && s.tasks[j].status == Pending
    requires s.tasks[j].id !in IdSet(TasksOf(Chosen(s, p)))
    ensures var e := RankedCandidates(s, p)[k];
            var b := Score(s.weights, p, s.q, s.tasks[j]);
            e.score > b || (e.score == b && Find(s.tasks, e.task.id) < j)
  {
    var ranking := RankedCandidates(s, p);
    var chosen := TasksOf(Chosen(s, p));
    var m := PendingIsRanked(s, p, j);
    SortRanked(Candidates(s, p));
    assert Beats(ranking[k], ranking[m]);
    RankedIsCandidate(s, p, k);
    CandidateShape(s, p, ranking[k]);
    FindUnique(s.tasks, ranking[k].order);
  }

  /** The `k`-th task a pass launches is the `k`-th of the ranking, now running. */
  lemma AdmittedRecord(s: Queue, p: Reading, k: int)
    requires Fires(s, p) && 0 <= k < |Chosen(s, p)|
    ensures |Admitted(s, p).inflight| == |s.inflight| + |Chosen(s, p)|
    ensures Admitted(s, p).inflight[|s.inflight| + k] == RankedCandidates(s, p)[k].task.(status := Running)
  {
  }

  lemma AdmittedIds(s: Queue, p: Reading)
    requires Fires(s, p)
    ensures IdSet(Admitted(s, p).inflight[|s.inflight|..]) == IdSet(TasksOf(Chosen(s, p)))
  {
    LaunchFacts(s.(q := SeedAll(s.q, p, Candidates(s, p))), TasksOf(Chosen(s, p)));
  }

  lemma LaunchedOutranks(s: Queue, p: Reading, i: int, j: int)
    requires UniqueIds(s.tasks) && Fires(s, p)
    requires |s.inflight| <= i < |Admitted(s, p).inflight|
    requires 0 <= j < |s.tasks| && s.tasks[j].status == Pending
    requires s.tasks[j].id !in IdSet(Admitted(s, p).inflight[|s.inflight|..])
    ensures var a := Score(s.weights, p, s.q, Admitted(s, p).inflight[i]);
            var b := Score(s.weights, p, s.q, s.tasks[j]);
            a > b || (a == b && Find(s.tasks, Admitted(s, p).inflight[i].id) < j)
  {
    var k := i - |s.inflight|;
    var e := RankedCandidates(s, p)[k];
    var a := Admitted(s, p).inflight[i];
    AdmittedRecord(s, p, k);
    assert a == e.task.(status := Running);
    AdmittedIds(s, p);
    RankedIsCandidate(s, p, k);
    CandidateShape(s, p, e);
    ScoreIgnoresStatus(s.weights, p, s.q, e.task, Running);
    assert Score(s.weights, p, s.q, a) == e.score;
    assert a.id == e.task.id;
    OutranksLeftBehind(s, p, k, j);
  }

  /**
    Every task a pass launches outranks every pending task it leaves behind: a higher score,
    or an equal score and an earlier registry position (the sort is stable).
  */
  lemma DispatchAdmitsBest(s: Queue, p: Reading)
    requires UniqueIds(s.tasks)
    ensures var r := Dispatch(s, p);
            forall i, j ::
              |s.inflight| <= i < |r.inflight| && 0 <= j < |s.tasks|
              && s.tasks[j].status == Pending && s.tasks[j].id !in LaunchedIds(s, r) ==>
                var a := Score(s.weights, p, s.q, r.inflight[i]);
                var b := Score(s.weights, p, s.q, s.tasks[j]);
                a > b || (a == b && Find(s.tasks, r.inflight[i].id) < j)
  {
    if Fires(s, p) {
      assert Dispatch(s, p) == Admitted(s, p);
      forall i, j |
        |s.inflight| <= i < |Admitted(s, p).inflight| && 0 <= j < |s.tasks|
        && s.tasks[j].status == Pending && s.tasks[j].id !in IdSet(Admitted(s, p).inflight[|s.inflight|..])
        ensures var a := Score(s.weights, p, s.q, Admitted(s, p).inflight[i]);
                var b := Score(s.weights, p, s.q, s.tasks[j]);
                a > b || (a == b && Find(s.tasks, Admitted(s, p).inflight[i].id) < j)
      {
        LaunchedOutranks(s, p, i, j);
      }
    }
  }

  /** The invariant of a scheduler whose ids are never reused while tracked. */
  ghost predicate Inv(s: Queue)
  {
    && UniqueIds(s.tasks)
    && (forall t :: t in s.tasks ==> t.status == Pending || t.status == Running)
    && (forall i, j :: 0 <= i < j < |s.inflight| ==> s.inflight[i].id != s.inflight[j].id)
    && (forall t :: t in s.inflight ==> t in s.tasks && t.status == Running)
    && (forall t :: t in s.tasks && t.status == Running ==> t in s.inflight)
    && s.running == IdSet(s.inflight)
    && s.metrics.queueLength == |s.tasks|
  }

  /** Every id in the running set names a registered task whose status is running. */
  lemma RunningAreRunning(s: Queue, id: string)
    requires Inv(s) && id in s.running
    ensures Lookup(s.tasks, id).Some? && Lookup(s.tasks, id).value.status == Running
  {
    var t :| t in s.inflight && t.id == id;
    var i :| 0 <= i < |s.tasks| && s.tasks[i] == t;
    FindUnique(s.tasks, i);
  }

  lemma InitInv(opts: Options)
    ensures Inv(Init(opts))
  {
  }

  /** Adding a task under a fresh id keeps the invariant. */
  lemma AddInv(s: Queue, id: string, urgency: Option<real>, now: int)
    requires Inv(s) && id !in IdSet(s.tasks)
    ensures Inv(Add(s, id, urgency, now).0)
  {
    var r := Add(s, id, urgency, now).0;
    assert r.tasks == s.tasks + [Add(s, id, urgency, now).1];
  }

  /** What the admission loop needs of the tasks it launches: pending registry entries with distinct ids. */
  ghost predicate Launchable(s: Queue, chosen: seq<Task>)
  {
    && Inv(s)
    && (forall x :: 0 <= x < |chosen| ==> chosen[x] in s.tasks && chosen[x].status == Pending)
    && (forall x, y :: 0 <= x < y < |chosen| ==> chosen[x].id != chosen[y].id)
  }

  /** The tasks a firing pass chooses are launchable. */
  lemma ChosenLaunchable(s: Queue, p: Reading)
    requires Inv(s) && Fires(s, p)
    ensures Launchable(s, TasksOf(Chosen(s, p)))
  {
    var ranking := RankedCandidates(s, p);
    var chosen := TasksOf(Chosen(s, p));
    forall x | 0 <= x < |chosen| ensures chosen[x] in s.tasks && chosen[x].status == Pending {
      RankedIsCandidate(s, p, x);
      CandidateShape(s, p, ranking[x]);
    }
    forall x, y | 0 <= x < y < |chosen| ensures chosen[x].id != chosen[y].id {
      RankedIsCandidate(s, p, x);
      RankedIsCandidate(s, p, y);
      CandidateShape(s, p, ranking[x]);
      CandidateShape(s, p, ranking[y]);
      SortRanked(Candidates(s, p));
      RankedDistinct(ranking, x, y);
    }
  }

  /** A registry entry whose id is launched is the launched (pending) record itself. */
  lemma LaunchedEntry(s: Queue, chosen: seq<Task>, j: int) returns (x: int)
    requires Launchable(s, chosen)
    requires 0 <= j < |s.tasks| && s.tasks[j].id in IdSet(chosen)
    ensures 0 <= x < |chosen| && chosen[x] == s.tasks[j]
  {
    var c :| c in chosen && c.id == s.tasks[j].id;
    x :| 0 <= x < |chosen| && chosen[x] == c;
    var o :| 0 <= o < |s.tasks| && s.tasks[o] == c;
  }

  lemma LaunchKeepsOld(s: Queue, chosen: seq<Task>, t: Task)
    requires Launchable(s, chosen) && t in s.inflight
    ensures t.id !in IdSet(chosen) && t in Launch(s, chosen).tasks
  {
    var j :| 0 <= j < |s.tasks| && s.tasks[j] == t;
    if t.id in IdSet(chosen) {
      var x := LaunchedEntry(s, chosen, j);
      assert false;
    }
    assert Launch(s, chosen).tasks[j] == t;
  }

  lemma LaunchRegistersNew(s: Queue, chosen: seq<Task>, x: int)
    requires Launchable(s, chosen) && 0 <= x < |chosen|
    ensures Started(chosen)[x] in Launch(s, chosen).tasks
  {
    var o :| 0 <= o < |s.tasks| && s.tasks[o] == chosen[x];
    assert chosen[x] in chosen;
    assert Launch(s, chosen).tasks[o] == Started(chosen)[x];
  }

  lemma LaunchRunningInflight(s: Queue, chosen: seq<Task>, j: int)
    requires Launchable(s, chosen)
    requires 0 <= j < |s.tasks| && Launch(s, chosen).tasks[j].status == Running
    ensures Launch(s, chosen).tasks[j] in Launch(s, chosen).inflight
  {
    var r := Launch(s, chosen);
    if s.tasks[j].id in IdSet(chosen) {
      var x := LaunchedEntry(s, chosen, j);
      assert r.inflight[|s.inflight| + x] == Started(chosen)[x] == r.tasks[j];
    } else {
      assert s.tasks[j] == r.tasks[j];
      assert s.tasks[j] in s.tasks;
    }
  }

  lemma LaunchDistinct(s: Queue, chosen: seq<Task>, i: int, j: int)
    requires Launchable(s, chosen)
    requires 0 <= i < j < |Launch(s, chosen).inflight|
    ensures Launch(s, chosen).inflight[i].id != Launch(s, chosen).inflight[j].id
  {
    var r := Launch(s, chosen);
    if j >= |s.inflight| {
      assert r.inflight[j] == Started(chosen)[j - |s.inflight|];
      if i < |s.inflight| {
        assert r.inflight[i] in s.inflight;
        LaunchKeepsOld(s, chosen, r.inflight[i]);
        assert chosen[j - |s.inflight|] in chosen;
      } else {
        assert r.inflight[i] == Started(chosen)[i - |s.inflight|];
      }
    }
  }

  lemma LaunchInflightRegistered(s: Queue, chosen: seq<Task>)
    requires Launchable(s, chosen)
    ensures forall t :: t in Launch(s, chosen).inflight ==> t in Launch(s, chosen).tasks && t.status == Running
  {
    var r := Launch(s, chosen);
    var started := Started(chosen);
    assert r.inflight == s.inflight + started;
    forall t | t in r.inflight ensures t in r.tasks && t.status == Running {
      if t in s.inflight {
        LaunchKeepsOld(s, chosen, t);
      } else {
        var x :| 0 <= x < |started| && started[x] == t;
        LaunchRegistersNew(s, chosen, x);
      }
    }
  }

  lemma LaunchRunningLaunched(s: Queue, chosen: seq<Task>)
    requires Launchable(s, chosen)
    ensures forall t :: t in Launch(s, chosen).tasks && t.status == Running ==> t in Launch(s, chosen).inflight
  {
    var r := Launch(s, chosen);
    forall t | t in r.tasks && t.status == Running ensures t in r.inflight {
      var j :| 0 <= j < |r.tasks| && r.tasks[j] == t;
      LaunchRunningInflight(s, chosen, j);
    }
  }

  lemma LaunchRegistryShape(s: Queue, chosen: seq<Task>)
    requires Launchable(s, chosen)
    ensures UniqueIds(Launch(s, chosen).tasks)
    ensures forall t :: t in Launch(s, chosen).tasks ==> t.status == Pending || t.status == Running
  {
    var r := Launch(s, chosen);
    assert forall i :: 0 <= i < |r.tasks| ==> r.tasks[i].id == s.tasks[i].id;
    forall t | t in r.tasks ensures t.status == Pending || t.status == Running {
      var j :| 0 <= j < |r.tasks| && r.tasks[j] == t;
      assert s.tasks[j] in s.tasks;
    }
  }

  lemma LaunchRunningSet(s: Queue, chosen: seq<Task>)
    requires Launchable(s, chosen)
    ensures Launch(s, chosen).running == IdSet(Launch(s, chosen).inflight)
  {
    LaunchFacts(s, chosen);
    IdSetConcat(s.inflight, Started(chosen));
    assert Launch(s, chosen).inflight == s.inflight + Started(chosen);
  }

  /** The admission loop keeps the invariant. */
  lemma LaunchInv(s: Queue, chosen: seq<Task>)
    requires Launchable(s, chosen)
    ensures Inv(Launch(s, chosen))
  {
    var r := Launch(s, chosen);
    LaunchInflightRegistered(s, chosen);
    LaunchRunningLaunched(s, chosen);
    LaunchRegistryShape(s, chosen);
    LaunchRunningSet(s, chosen);
    forall i, j | 0 <= i < j < |r.inflight| ensures r.inflight[i].id != r.inflight[j].id {
      LaunchDistinct(s, chosen, i, j);
    }
    assert r.metrics.queueLength == |r.tasks|;
  }

  /** A dispatch pass keeps the invariant. */
  lemma DispatchInv(s: Queue, p: Reading)
    requires Inv(s)
    ensures Inv(Dispatch(s, p))
  {
    if Fires(s, p) {
      var chosen := TasksOf(Chosen(s, p));
      var s0 := s.(q := SeedAll(s.q, p, Candidates(s, p)));
      assert Dispatch(s, p) == Launch(s0, chosen);
      ChosenLaunchable(s, p);
      LaunchInv(s0, chosen);
    }
  }

  /** The launched executions other than the `k`-th. */
  function Others(s: Queue, k: nat): seq<Task>
    requires k < |s.inflight|
  {
    s.inflight[..k] + s.inflight[k + 1..]
  }

  lemma OthersIndex(s: Queue, k: nat)
    requires k < |s.inflight|
    ensures |Others(s, k)| == |s.inflight| - 1
    ensures forall i :: 0 <= i < k ==> Others(s, k)[i] == s.inflight[i]
    ensures forall i :: k <= i < |Others(s, k)| ==> Others(s, k)[i] == s.inflight[i + 1]
  {
  }

  lemma OthersMembers(s: Queue, k: nat)
    requires Inv(s) && k < |s.inflight|
    ensures forall u :: u in Others(s, k) ==> u in s.inflight && u.id != s.inflight[k].id
  {
    var rest := Others(s, k);
    OthersIndex(s, k);
    forall u | u in rest ensures u in s.inflight && u.id != s.inflight[k].id {
      var i :| 0 <= i < |rest| && rest[i] == u;
      if i < k { assert u == s.inflight[i]; } else { assert u == s.inflight[i + 1]; }
    }
  }

  lemma OthersDistinct(s: Queue, k: nat)
    requires Inv(s) && k < |s.inflight|
    ensures forall i, j :: 0 <= i < j < |Others(s, k)| ==> Others(s, k)[i].id != Others(s, k)[j].id
  {
    var rest := Others(s, k);
    OthersIndex(s, k);
    forall i, j | 0 <= i < j < |rest| ensures rest[i].id != rest[j].id {
      var i' := if i < k then i else i + 1;
      var j' := if j < k then j else j + 1;
      assert rest[i] == s.inflight[i'] && rest[j] == s.inflight[j'];
    }
  }

  lemma OthersIds(s: Queue, k: nat)
    requires Inv(s) && k < |s.inflight|
    ensures IdSet(Others(s, k)) == IdSet(s.inflight) - {s.inflight[k].id}
  {
    var rest := Others(s, k);
    OthersIndex(s, k);
    OthersMembers(s, k);
    forall x | x in IdSet(s.inflight) - {s.inflight[k].id} ensures x in IdSet(rest) {
      var u :| u in s.inflight && u.id == x;
      var i :| 0 <= i < |s.inflight| && s.inflight[i] == u;
      if i < k { assert rest[i] == u; } else { assert rest[i - 1] == u; }
    }
  }

  /** A running registry entry other than the settling one is among the other executions. */
  lemma OthersCoverRunning(s: Queue, k: nat, u: Task)
    requires Inv(s) && k < |s.inflight|
    requires u in s.tasks && u.status == Running && u.id != s.inflight[k].id
    ensures u in Others(s, k)
  {
    var i :| 0 <= i < |s.inflight| && s.inflight[i] == u;
    assert i != k;
    if i < k { assert Others(s, k)[i] == u; } else { assert Others(s, k)[i - 1] == u; }
  }

  /** Settling a launched execution (before its re-dispatch) keeps the invariant. */
  lemma CompleteInv(s: Queue, k: nat, succeeded: bool, now: int, p: Reading)
    requires Inv(s) && k < |s.inflight|
    ensures CanSettle(s, k)
    ensures Inv(Complete(s, k, succeeded, now, p))
  {
    var t := s.inflight[k];
    assert t in s.inflight;
    assert t in s.tasks;
    var r := Complete(s, k, succeeded, now, p);
    var rest := Others(s, k);
    assert r.inflight == rest;
    OthersMembers(s, k);
    OthersDistinct(s, k);
    OthersIds(s, k);
    assert r.tasks == Remove(s.tasks, t.id);
    forall u | u in r.tasks && u.status == Running ensures u in rest {
      OthersCoverRunning(s, k, u);
    }
  }

  /** A whole settlement, re-dispatch included, keeps the invariant. */
  lemma SettleInv(s: Queue, k: nat, succeeded: bool, now: int, p: Reading)
    requires Inv(s) && k < |s.inflight|
    ensures CanSettle(s, k)
    ensures Inv(Settle(s, k, succeeded, now, p))
  {
    CompleteInv(s, k, succeeded, now, p);
    DispatchInv(Complete(s, k, succeeded, now, p), p);
  }

  /** Tuning keeps the invariant; under it the queue length is never negative. */
  lemma AdjustInv(s: Queue)
    requires Inv(s)
    ensures s.metrics.queueLength >= 0
    ensures Inv(AdjustConcurrency(s))
  {
  }

  /** `|running| <= maxConcurrency`, the bound a dispatch pass respects. */
  ghost predicate WithinCeiling(s: Queue)
  {
    |s.running| <= s.ceiling
  }

  /** Adding, dispatching and settling never push the running set past the ceiling. */
  lemma CeilingKept(s: Queue, id: string, urgency: Option<real>, now: int, p: Reading, k: nat, succeeded: bool)
    requires WithinCeiling(s)
    ensures WithinCeiling(Add(s, id, urgency, now).0)
    ensures WithinCeiling(Dispatch(s, p))
    ensures CanSettle(s, k) ==> WithinCeiling(Settle(s, k, succeeded, now, p))
  {
    if CanSettle(s, k) {
      var c := Complete(s, k, succeeded, now, p);
      assert c.running <= s.running;
      assert |c.running| <= |s.running| by { SubsetCard(c.running, s.running); }
    }
  }

  lemma SubsetCard<T>(a: set<T>, b: set<T>)
    requires a <= b
    ensures |a| <= |b|
  {
    assert b == a + (b - a);
  }
}
