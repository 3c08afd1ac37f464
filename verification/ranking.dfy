/**
  The ordering step of a dispatch pass: `scoredTasks.sort((a, b) => b.score - a.score)`.
  `Array.prototype.sort` is stable, so tasks of equal score keep their registry order.
  It is modelled as a stable insertion sort that compares scores only; `order` records
  each candidate's position in the registry so that the stability can be stated.
*/
module Ranking {
  import opened Registry

  /** A pending task with the score computed for it and its position in the registry. */
  datatype Entry = Entry(task: Task, score: real, order: nat)

  /** `a` is admitted before `b`: a higher score, or an equal score and an earlier registry position. */
  predicate Beats(a: Entry, b: Entry)
  {
    a.score > b.score || (a.score == b.score && a.order < b.order)
  }

  /** Every entry beats every entry after it. */
  predicate Ranked(s: seq<Entry>)
  {
    forall i, j :: 0 <= i < j < |s| ==> Beats(s[i], s[j])
  }

  /** Entries listed in registry order. */
  predicate Ascending(s: seq<Entry>)
  {
    forall i, j :: 0 <= i < j < |s| ==> s[i].order < s[j].order
  }

  /** Inserts `e` after every entry whose score is at least its own. */
  function Insert(e: Entry, s: seq<Entry>): (r: seq<Entry>)
    ensures multiset(r) == multiset(s) + multiset{e}
    ensures |r| == |s| + 1
  {
    if s == [] then [e]
    else if s[0].score >= e.score then
      assert s == [s[0]] + s[1..];
      [s[0]] + Insert(e, s[1..])
    else [e] + s
  }

  /** Stable sort by descending score. */
  function SortByScore(s: seq<Entry>): (r: seq<Entry>)
    ensures multiset(r) == multiset(s)
    ensures |r| == |s|
  {
    if s == [] then []
    else
      assert s == s[..|s| - 1] + [s[|s| - 1]];
      Insert(s[|s| - 1], SortByScore(s[..|s| - 1]))
  }

  lemma {:induction false} InsertRanked(e: Entry, s: seq<Entry>)
    requires Ranked(s)
    requires forall x :: x in s ==> x.order < e.order
    ensures Ranked(Insert(e, s))
  {
    if s == [] {
    } else if s[0].score >= e.score {
      var tail := Insert(e, s[1..]);
      InsertRanked(e, s[1..]);
      forall x | x in tail ensures Beats(s[0], x) {
        assert x in multiset(tail);
        if x != e {
          assert x in s[1..];
          var j :| 0 <= j < |s[1..]| && s[1..][j] == x;
          assert s[j + 1] == x;
        }
      }
      var r := [s[0]] + tail;
      forall i, j | 0 <= i < j < |r| ensures Beats(r[i], r[j]) {
        if i == 0 {
          assert r[j] == tail[j - 1];
          assert r[j] in tail;
        } else {
          assert r[i] == tail[i - 1] && r[j] == tail[j - 1];
        }
      }
    } else {
      var r := [e] + s;
      forall i, j | 0 <= i < j < |r| ensures Beats(r[i], r[j]) {
        if i == 0 {
          assert r[j] == s[j - 1];
          if j > 1 {
            assert Beats(s[0], s[j - 1]);
          }
        } else {
          assert r[i] == s[i - 1] && r[j] == s[j - 1];
        }
      }
    }
  }

  /**
    Sorting candidates listed in registry order yields the ranking of `Beats`: descending score,
    ties in registry order. This is the stability of the sort.
  */
  lemma {:induction false} SortRanked(s: seq<Entry>)
    requires Ascending(s)
    ensures Ranked(SortByScore(s))
  {
    if s != [] {
      var init := s[..|s| - 1];
      var e := s[|s| - 1];
      SortRanked(init);
      forall x | x in SortByScore(init) ensures x.order < e.order {
        assert x in multiset(SortByScore(init));
        var j :| 0 <= j < |init| && init[j] == x;
      }
      InsertRanked(e, SortByScore(init));
    }
  }

  /** A ranked sequence has no repeated entry. */
  lemma RankedDistinct(s: seq<Entry>, i: int, j: int)
    requires Ranked(s) && 0 <= i < j < |s|
    ensures s[i] != s[j]
  {
    assert Beats(s[i], s[j]);
  }
}
