/**
  The task registry of SmartQueue: a JavaScript `Map` from task id to task record.
  A `Map` iterates in insertion order, `set` on an existing key replaces the value in place
  (keeping its position) and `delete` removes the entry. It is modelled as a sequence of
  tasks whose ids are pairwise distinct, in insertion order.
*/
module Registry {

  /** A lookup result: `Map.get` gives a record or nothing; an omitted option is also `None`. */
  datatype Option<+T> = None | Some(value: T)

  datatype Status = Pending | Running | Completed | Failed

  /** The record built by `add`: id, urgency, lifecycle status and submission time (ms). */
  datatype Task = Task(id: string, urgency: real, status: Status, startTime: int)

  /** No two entries share an id: the shape every `Map` has. */
  predicate UniqueIds(tasks: seq<Task>)
  {
    forall i, j :: 0 <= i < j < |tasks| ==> tasks[i].id != tasks[j].id
  }

  function IdSet(tasks: seq<Task>): set<string>
  {
    set t | t in tasks :: t.id
  }

  /** Position of the (first) entry with this id, or -1 when there is none. */
  function Find(tasks: seq<Task>, id: string): (r: int)
    ensures -1 <= r < |tasks|
    ensures r >= 0 ==> tasks[r].id == id
    ensures r >= 0 ==> forall i :: 0 <= i < r ==> tasks[i].id != id
    ensures r < 0 <==> id !in IdSet(tasks)
  {
    if |tasks| == 0 then -1
    else if tasks[0].id == id then 0
    else
      var r := Find(tasks[1..], id);
      assert IdSet(tasks) == {tasks[0].id} + IdSet(tasks[1..]) by {
        assert tasks == [tasks[0]] + tasks[1..];
      }
      if r < 0 then -1 else r + 1
  }

  /** `Map.get`: the task stored under `id`, if any. */
  function Lookup(tasks: seq<Task>, id: string): (r: Option<Task>)
    ensures r.Some? <==> id in IdSet(tasks)
    ensures r.Some? ==> r.value in tasks && r.value.id == id
  {
    var i := Find(tasks, id);
    if i < 0 then None else Some(tasks[i])
  }

  /** `Map.set`: replaces the entry with the same id in place, or appends a new one. */
  function Put(tasks: seq<Task>, t: Task): (r: seq<Task>)
    ensures Lookup(r, t.id) == Some(t)
    ensures IdSet(r) == IdSet(tasks) + {t.id}
    ensures t.id !in IdSet(tasks) ==> r == tasks + [t]
    ensures t.id in IdSet(tasks) ==> |r| == |tasks|
    ensures t.id in IdSet(tasks) ==> forall i :: 0 <= i < |tasks| && tasks[i].id != t.id ==> r[i] == tasks[i]
    ensures UniqueIds(tasks) ==> UniqueIds(r)
    ensures forall x :: x != t.id ==> Lookup(r, x) == Lookup(tasks, x)
  {
    var i := Find(tasks, t.id);
    if i < 0 then
      PutAppends(tasks, t);
      tasks + [t]
    else
      PutReplaces(tasks, t, i);
      tasks[i := t]
  }

  lemma PutAppends(tasks: seq<Task>, t: Task)
    requires t.id !in IdSet(tasks)
    ensures Find(tasks + [t], t.id) == |tasks|
    ensures forall x :: x != t.id ==> Find(tasks + [t], x) == Find(tasks, x)
    ensures IdSet(tasks + [t]) == IdSet(tasks) + {t.id}
  {
    var r := tasks + [t];
    FindPrefix(tasks, [t], t.id);
    forall x | x != t.id ensures Find(r, x) == Find(tasks, x) { FindAppendOther(tasks, t, x); }
    IdSetConcat(tasks, [t]);
    assert IdSet([t]) == {t.id};
  }

  lemma PutReplaces(tasks: seq<Task>, t: Task, i: int)
    requires 0 <= i < |tasks| && Find(tasks, t.id) == i
    ensures Find(tasks[i := t], t.id) == i
    ensures forall x :: x != t.id ==> Find(tasks[i := t], x) == Find(tasks, x)
    ensures IdSet(tasks[i := t]) == IdSet(tasks) + {t.id}
  {
    var r := tasks[i := t];
    FindAt(r, t.id, i);
    forall x | x != t.id ensures Find(r, x) == Find(tasks, x) { FindSameIds(r, tasks, x); }
    forall x | x in IdSet(tasks) ensures x in IdSet(r) {
      var y :| y in tasks && y.id == x;
      var j :| 0 <= j < |tasks| && tasks[j] == y;
      if j == i { assert r[i].id == x; } else { assert r[j] == y; }
    }
    forall x | x in IdSet(r) ensures x in IdSet(tasks) + {t.id} {
      var y :| y in r && y.id == x;
      var j :| 0 <= j < |r| && r[j] == y;
      if j != i { assert tasks[j] == y; }
    }
  }

  /** Every record of `r` comes from `tasks`, in the order `tasks` holds them. */
  predicate InOrder(tasks: seq<Task>, r: seq<Task>)
  {
    forall i, j :: 0 <= i < j < |r| ==> Find(tasks, r[i].id) < Find(tasks, r[j].id)
  }

  /** `Map.delete`: removes the entry with this id, if there is one. */
  function Remove(tasks: seq<Task>, id: string): (r: seq<Task>)
    ensures id in IdSet(tasks) ==> |r| == |tasks| - 1
    ensures id !in IdSet(tasks) ==> r == tasks
    ensures UniqueIds(tasks) ==> UniqueIds(r) && IdSet(r) == IdSet(tasks) - {id}
    ensures UniqueIds(tasks) ==> forall t :: t in tasks && t.id != id ==> t in r
    ensures forall t :: t in r ==> t in tasks
    ensures UniqueIds(tasks) ==> InOrder(tasks, r)
  {
    var i := Find(tasks, id);
    if i < 0 then tasks
    else
      RemoveAt(tasks, i);
      RemoveKeepsOrder(tasks, i);
      tasks[..i] + tasks[i + 1..]
  }

  lemma RemoveAt(tasks: seq<Task>, i: int)
    requires 0 <= i < |tasks|
    ensures var r := tasks[..i] + tasks[i + 1..];
            && (forall t :: t in r ==> t in tasks)
            && (UniqueIds(tasks) ==> UniqueIds(r))
            && (UniqueIds(tasks) ==> IdSet(r) == IdSet(tasks) - {tasks[i].id})
            && (UniqueIds(tasks) ==> forall t :: t in tasks && t.id != tasks[i].id ==> t in r)
  {
    var r := tasks[..i] + tasks[i + 1..];
    assert forall j :: 0 <= j < i ==> r[j] == tasks[j];
    assert forall j :: i <= j < |r| ==> r[j] == tasks[j + 1];
    if UniqueIds(tasks) {
      forall t | t in tasks && t.id != tasks[i].id ensures t in r {
        var j :| 0 <= j < |tasks| && tasks[j] == t;
        if j < i { assert r[j] == t; } else { assert r[j - 1] == t; }
      }
    }
  }

  /** Deleting one entry keeps the others in their insertion order. */
  lemma RemoveKeepsOrder(tasks: seq<Task>, i: int)
    requires 0 <= i < |tasks|
    ensures var r := tasks[..i] + tasks[i + 1..];
            UniqueIds(tasks) ==> InOrder(tasks, r)
  {
    var r := tasks[..i] + tasks[i + 1..];
    forall a, b | UniqueIds(tasks) && 0 <= a < b < |r| ensures Find(tasks, r[a].id) < Find(tasks, r[b].id) {
      var a' := if a < i then a else a + 1;
      var b' := if b < i then b else b + 1;
      assert r[a] == tasks[a'] && r[b] == tasks[b'];
      FindUnique(tasks, a');
      FindUnique(tasks, b');
    }
  }

  lemma FindPrefix(a: seq<Task>, b: seq<Task>, id: string)
    requires id !in IdSet(a) && |b| > 0 && b[0].id == id
    ensures Find(a + b, id) == |a|
  {
    assert (a + b)[|a|] in a + b;
    assert forall j :: 0 <= j < |a| ==> (a + b)[j] == a[j] && a[j] in a;
  }

  lemma FindAppendOther(a: seq<Task>, t: Task, x: string)
    requires x != t.id
    ensures Find(a + [t], x) == Find(a, x)
  {
    var r := Find(a, x);
    if r >= 0 {
      FindAt(a + [t], x, r);
    } else {
      assert forall j :: 0 <= j < |a| ==> (a + [t])[j] == a[j] && a[j] in a;
      assert forall y :: y in a + [t] ==> y in a || y == t;
    }
  }

  lemma {:induction false} FindSameIds(a: seq<Task>, b: seq<Task>, x: string)
    requires |a| == |b| && forall j :: 0 <= j < |a| ==> a[j].id == b[j].id
    ensures Find(a, x) == Find(b, x)
  {
    if |a| > 0 && a[0].id != x {
      FindSameIds(a[1..], b[1..], x);
    }
  }

  /** Ids of a concatenation. */
  lemma IdSetConcat(a: seq<Task>, b: seq<Task>)
    ensures IdSet(a + b) == IdSet(a) + IdSet(b)
  {
    forall x | x in IdSet(a + b) ensures x in IdSet(a) + IdSet(b) {
      var y :| y in a + b && y.id == x;
    }
  }

  /** A sequence has at most as many distinct ids as entries. */
  lemma {:induction false} IdSetSize(ts: seq<Task>)
    ensures |IdSet(ts)| <= |ts|
  {
    if ts != [] {
      var init := ts[..|ts| - 1];
      IdSetSize(init);
      assert ts == init + [ts[|ts| - 1]];
      IdSetConcat(init, [ts[|ts| - 1]]);
      assert IdSet([ts[|ts| - 1]]) == {ts[|ts| - 1].id};
    }
  }

  lemma FindAt(tasks: seq<Task>, id: string, i: int)
    requires 0 <= i < |tasks| && tasks[i].id == id
    requires forall j :: 0 <= j < i ==> tasks[j].id != id
    ensures Find(tasks, id) == i
  {
    assert tasks[i] in tasks;
  }

  /** In a registry with distinct ids, an entry is found at its own position. */
  lemma FindUnique(tasks: seq<Task>, i: int)
    requires UniqueIds(tasks) && 0 <= i < |tasks|
    ensures Find(tasks, tasks[i].id) == i
    ensures Lookup(tasks, tasks[i].id) == Some(tasks[i])
  {
    FindAt(tasks, tasks[i].id, i);
  }
}
