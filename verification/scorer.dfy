/**
  The value estimator: a table from (discretised state, task id) to a learned value,
  the priority score built on it, and the one-step temporal-difference update run when
  a task settles.
*/
module Scorer {
  import opened Registry
  import RealArith

  /** The two probe readings, `state.resource()` and `state.userContext()`, taken during one event. */
  datatype Reading = Reading(resource: real, userContext: real)

  datatype Weights = Weights(urgency: real, resource: real, userContext: real)

  const DefaultWeights := Weights(0.4, 0.3, 0.3)

  /**
    A number printed by `toFixed(2)`: its sign and its magnitude as a count of hundredths.
    A negative number keeps its minus sign even when the magnitude rounds to 0 (`"-0.00"`).
  */
  datatype Fixed2 = Fixed2(negative: bool, hundredths: nat)

  /**
    `toFixed(2)`: the sign, then the magnitude kept to hundredths with halves rounded up,
    which for a negative reading rounds away from zero.
  */
  function Round2(x: real): (r: Fixed2)
    ensures r.negative <==> x < 0.0
    ensures var m := if x < 0.0 then -x else x;
            (r.hundredths as real) / 100.0 <= m + 0.005 < (r.hundredths as real + 1.0) / 100.0
  {
    var m := if x < 0.0 then -x else x;
    Fixed2(x < 0.0, (m * 100.0 + 0.5).Floor)
  }

  /** A negative reading prints as a minus sign followed by its magnitude printed alone. */
  lemma RoundNegation(x: real)
    requires x > 0.0
    ensures Round2(-x) == Round2(x).(negative := true)
  {
  }

  /** Readings just below and just above 0 print as `"-0.00"` and `"0.00"`: two different keys. */
  lemma SignedZeroKeys()
    ensures Round2(-0.001) == Fixed2(true, 0) && Round2(0.001) == Fixed2(false, 0)
    ensures Round2(-0.015) == Fixed2(true, 2)
  {
  }

  /** `getState`: the discretised state (resource, userContext, urgency). */
  datatype StateKey = StateKey(resource: Fixed2, userContext: Fixed2, urgency: Fixed2)

  /** The table key `${JSON.stringify(state)}:${id}`: a state paired with the task id as action. */
  datatype QKey = QKey(state: StateKey, action: string)

  type QTable = map<QKey, real>

  function StateOf(p: Reading, t: Task): StateKey
  {
    StateKey(Round2(p.resource), Round2(p.userContext), Round2(t.urgency))
  }

  function KeyOf(p: Reading, t: Task): QKey
  {
    QKey(StateOf(p, t), t.id)
  }

  /** A table read where an absent entry counts as 0 (`qTable.get(k) || 0`). */
  function Value(q: QTable, k: QKey): real
  {
    if k in q then q[k] else 0.0
  }

  /** The first step of `getScore`: insert 0 for a missing key, leave every present entry alone. */
  function Seed(q: QTable, k: QKey): (r: QTable)
    ensures r.Keys == q.Keys + {k}
    ensures forall k' :: k' in q ==> r[k'] == q[k']
    ensures k !in q ==> r[k] == 0.0
    ensures forall k' :: Value(r, k') == Value(q, k')
  {
    if k in q then q else q[k := 0.0]
  }

  /** `getScore`: the value of the task's key plus the weighted urgency, spare resource and context. */
  function Score(w: Weights, p: Reading, q: QTable, t: Task): real
  {
    Value(q, KeyOf(p, t))
      + w.urgency * t.urgency
      + w.resource * (1.0 - p.resource)
      + w.userContext * p.userContext
  }

  /**
    Within one reading the probe terms cancel: two scores differ by the difference of
    their table values plus the urgency weight times the difference of urgencies.
  */
  lemma ScoreDifference(w: Weights, p: Reading, q: QTable, a: Task, b: Task)
    ensures Score(w, p, q, a) - Score(w, p, q, b)
         == (Value(q, KeyOf(p, a)) - Value(q, KeyOf(p, b))) + w.urgency * (a.urgency - b.urgency)
  {
  }

  /** With equal table values and a positive urgency weight, strictly higher urgency scores strictly higher. */
  lemma ScoreUrgencyMonotone(w: Weights, p: Reading, q: QTable, a: Task, b: Task)
    requires Value(q, KeyOf(p, a)) == Value(q, KeyOf(p, b))
    requires w.urgency > 0.0 && a.urgency > b.urgency
    ensures Score(w, p, q, a) > Score(w, p, q, b)
  {
    var du := a.urgency - b.urgency;
    ScoreDifference(w, p, q, a, b);
    RealArith.PositiveProduct(w.urgency, du);
    assert Score(w, p, q, a) - Score(w, p, q, b) == w.urgency * du;
  }

  /**
    Lower resource load gives a higher score: for one task under two readings with the same
    user context, a positive resource weight and equal table values (the rounded load is part
    of the key, so the values may differ otherwise), the lighter load scores strictly higher.
  */
  lemma ScoreResourceMonotone(w: Weights, p1: Reading, p2: Reading, q: QTable, t: Task)
    requires Value(q, KeyOf(p1, t)) == Value(q, KeyOf(p2, t))
    requires p1.userContext == p2.userContext
    requires w.resource > 0.0 && p1.resource < p2.resource
    ensures Score(w, p1, q, t) > Score(w, p2, q, t)
  {
    var dr := p2.resource - p1.resource;
    RealArith.PositiveProduct(w.resource, dr);
    assert Score(w, p1, q, t) - Score(w, p2, q, t) == w.resource * dr;
  }

  /** Under one reading, the key depends only on the id and the rounded urgency. */
  lemma SharedKey(p: Reading, a: Task, b: Task)
    ensures KeyOf(p, a) == KeyOf(p, b) <==> a.id == b.id && Round2(a.urgency) == Round2(b.urgency)
  {
  }

  /** The score reads only the id and the urgency of a task, never its status. */
  lemma ScoreIgnoresStatus(w: Weights, p: Reading, q: QTable, t: Task, st: Status)
    ensures Score(w, p, q, t.(status := st)) == Score(w, p, q, t)
  {
  }

  /** Seeding the table for a score does not change any value a later read sees. */
  lemma SeedKeepsScores(w: Weights, p: Reading, q: QTable, k: QKey, t: Task)
    ensures Score(w, p, Seed(q, k), t) == Score(w, p, q, t)
  {
  }

  /** `Math.max` over the values at `state` of the ids of a non-empty registry. */
  function MaxValue(q: QTable, tasks: seq<Task>, state: StateKey): (r: real)
    requires |tasks| > 0
    ensures forall t :: t in tasks ==> Value(q, QKey(state, t.id)) <= r
    ensures exists t :: t in tasks && Value(q, QKey(state, t.id)) == r
  {
    var v := Value(q, QKey(state, tasks[0].id));
    if |tasks| == 1 then v
    else
      var rest := MaxValue(q, tasks[1..], state);
      assert forall t :: t in tasks ==> t == tasks[0] || t in tasks[1..];
      if v >= rest then v else rest
  }

  /** A JavaScript number as far as `Math.max` is concerned here: finite, or `-Infinity`. */
  datatype Bound = NegInf | Fin(v: real)

  /**
    The next-state estimate as the source computes it: `Math.max(...values) || 0`. `Math.max()`
    of no arguments is `-Infinity`, which is truthy, so the `|| 0` fallback only replaces a 0.
  */
  function NextAsWritten(q: QTable, tasks: seq<Task>, state: StateKey): (r: Bound)
    ensures tasks == [] ==> r == NegInf
    ensures tasks != [] ==> r == Fin(MaxValue(q, tasks, state))
  {
    var m := if tasks == [] then NegInf else Fin(MaxValue(q, tasks, state));
    if m == Fin(0.0) then Fin(0.0) else m
  }

  /**
    The next-state estimate with the fallback applied where it is evidently meant: the
    maximum over the registry, or 0 when the registry is empty.
  */
  function NextValue(q: QTable, tasks: seq<Task>, state: StateKey): (r: real)
    ensures tasks == [] ==> r == 0.0
    ensures forall t :: t in tasks ==> Value(q, QKey(state, t.id)) <= r
    ensures tasks != [] ==> exists t :: t in tasks && Value(q, QKey(state, t.id)) == r
  {
    if tasks == [] then 0.0 else MaxValue(q, tasks, state)
  }

  /** The two agree on every non-empty registry; on the empty one the source yields `-Infinity`. */
  lemma NextAgreesWhenNonEmpty(q: QTable, tasks: seq<Task>, state: StateKey)
    ensures tasks != [] <==> NextAsWritten(q, tasks, state) == Fin(NextValue(q, tasks, state))
    ensures tasks == [] ==> NextAsWritten(q, tasks, state) == NegInf
  {
  }

  /**
    `updateQValue(task, reward)`: key = the task's key under the current reading,
    new value = (1 - alpha) * current + alpha * (reward + gamma * next), where next is the
    corrected `NextValue` (0 over an empty registry).
  */
  function UpdateQValue(alpha: real, gamma: real, q: QTable, tasks: seq<Task>, p: Reading, t: Task, reward: real): (r: QTable)
    ensures r.Keys == q.Keys + {KeyOf(p, t)}
    ensures forall k :: k in q && k != KeyOf(p, t) ==> r[k] == q[k]
    ensures var cur := Value(q, KeyOf(p, t));
            var next := NextValue(q, tasks, StateOf(p, t));
            r[KeyOf(p, t)] - cur == alpha * (reward + gamma * next - cur)
  {
    var key := KeyOf(p, t);
    var cur := Value(q, key);
    var next := NextValue(q, tasks, StateOf(p, t));
    q[key := (1.0 - alpha) * cur + alpha * (reward + gamma * next)]
  }

  /**
    The settling task is still in the registry when its value is updated, so the
    maximum over the registry is at least its own current value.
  */
  lemma NextAtLeastCurrent(q: QTable, tasks: seq<Task>, p: Reading, t: Task)
    requires t.id in IdSet(tasks)
    ensures |tasks| > 0
    ensures NextValue(q, tasks, StateOf(p, t)) >= Value(q, KeyOf(p, t))
  {
    var u :| u in tasks && u.id == t.id;
  }

  /**
    A task alone in the registry whose entry reads 0 (absent or zero): failure (reward -1)
    drives its entry to -alpha, success (reward +1) to +alpha. The registry may hold the task's
    record under another status; only its id and urgency matter.
  */
  lemma LoneZeroUpdate(alpha: real, gamma: real, q: QTable, p: Reading, u: Task, t: Task, reward: real)
    requires u.id == t.id && u.urgency == t.urgency
    requires Value(q, KeyOf(p, t)) == 0.0
    ensures UpdateQValue(alpha, gamma, q, [u], p, t, reward)[KeyOf(p, t)] == alpha * reward
  {
    assert NextValue(q, [u], StateOf(p, t)) == 0.0;
  }

  /** For a task alone in the registry whose entry is 0, a failure with a positive rate moves the entry strictly down. */
  lemma FailureLowersValue(alpha: real, gamma: real, q: QTable, p: Reading, t: Task)
    requires alpha > 0.0
    requires Value(q, KeyOf(p, t)) == 0.0
    ensures UpdateQValue(alpha, gamma, q, [t], p, t, -1.0)[KeyOf(p, t)] < Value(q, KeyOf(p, t))
  {
    LoneZeroUpdate(alpha, gamma, q, p, t, t, -1.0);
  }
}
