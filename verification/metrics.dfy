/**
  The metrics collector: a live queue-length counter, a FIFO window of the most recent
  wait times (integer milliseconds, at most 100 of them) and a counter of completed tasks.
*/
module Metrics {
  import opened Registry

  const WindowSize := 100

  datatype MetricsData = MetricsData(queueLength: int, waitTimes: seq<int>, completed: nat)

  /** What `metrics()` returns. */
  datatype Snapshot = Snapshot(queueLength: int, avgWaitTime: real, completed: nat)

  const EmptyMetrics := MetricsData(0, [], 0)

  /** `waitTimes.push(w)` followed by one `shift()` when the window has grown past 100. */
  function Push(window: seq<int>, w: int): (r: seq<int>)
    ensures |window| <= WindowSize ==> |r| <= WindowSize
    ensures |window| < WindowSize ==> r == window + [w]
    ensures |window| >= WindowSize ==> r == window[1..] + [w]
  {
    var grown := window + [w];
    if |grown| > WindowSize then grown[1..] else grown
  }

  /**
    `updateMetrics(task)` at time `now`: records the task's wait `now - startTime`, and counts
    the task as completed only when its status says so. The queue length is not touched.
  */
  function UpdateMetrics(m: MetricsData, t: Task, now: int): (r: MetricsData)
    ensures r.queueLength == m.queueLength
    ensures r.waitTimes == Push(m.waitTimes, now - t.startTime)
    ensures |r.waitTimes| > 0 && r.waitTimes[|r.waitTimes| - 1] == now - t.startTime
    ensures |m.waitTimes| < WindowSize ==> r.waitTimes == m.waitTimes + [now - t.startTime]
    ensures |m.waitTimes| <= WindowSize ==> |r.waitTimes| <= WindowSize
    ensures r.completed == m.completed + 1 <==> t.status == Completed
    ensures t.status != Completed ==> r.completed == m.completed
  {
    MetricsData(
      m.queueLength,
      Push(m.waitTimes, now - t.startTime),
      if t.status == Completed then m.completed + 1 else m.completed)
  }

  /** The last `WindowSize` elements of `s`, or all of them when there are fewer. */
  function LastWindow(s: seq<int>): (r: seq<int>)
  {
    if |s| <= WindowSize then s else s[|s| - WindowSize..]
  }

  /** Records every wait time in `ws`, oldest first. */
  function RecordAll(window: seq<int>, ws: seq<int>): seq<int>
    decreases |ws|
  {
    if ws == [] then window else RecordAll(Push(window, ws[0]), ws[1..])
  }

  /** After any run of records the window is exactly the most recent (at most 100) wait times, in order. */
  lemma {:induction false} WindowKeepsMostRecent(window: seq<int>, ws: seq<int>)
    requires |window| <= WindowSize
    ensures RecordAll(window, ws) == LastWindow(window + ws)
    decreases |ws|
  {
    if ws != [] {
      WindowKeepsMostRecent(Push(window, ws[0]), ws[1..]);
      PushThenRest(window, ws);
    }
  }

  /** Pushing the first wait time and then taking the window of the rest is the window of the whole. */
  lemma PushThenRest(window: seq<int>, ws: seq<int>)
    requires |window| <= WindowSize && ws != []
    ensures LastWindow(Push(window, ws[0]) + ws[1..]) == LastWindow(window + ws)
  {
    PushKeepsLast(window, ws[0]);
    LastWindowAppend(window + [ws[0]], ws[1..]);
    assert (window + [ws[0]]) + ws[1..] == window + ws;
  }

  /** One push keeps exactly the last (at most 100) elements. */
  lemma PushKeepsLast(window: seq<int>, w: int)
    requires |window| <= WindowSize
    ensures Push(window, w) == LastWindow(window + [w])
    ensures |Push(window, w)| <= WindowSize
  {
  }

  /** Trimming to a window before appending the rest gives the same final window. */
  lemma LastWindowAppend(a: seq<int>, b: seq<int>)
    ensures LastWindow(LastWindow(a) + b) == LastWindow(a + b)
  {
    if |a| > WindowSize {
      var t := a[|a| - WindowSize..];
      if |t + b| > WindowSize {
        assert (t + b)[|t + b| - WindowSize..] == (a + b)[|a + b| - WindowSize..];
      } else {
        assert b == [];
        assert a + b == a;
      }
    }
  }

  /** `reduce((a, b) => a + b, 0)`: a left fold from 0. */
  function Sum(s: seq<int>): int
  {
    if s == [] then 0 else Sum(s[..|s| - 1]) + s[|s| - 1]
  }

  /** `metrics()`: a pure read whose average is the mean of the window, or 0 when it is empty. */
  function Report(m: MetricsData): (r: Snapshot)
    ensures r.queueLength == m.queueLength && r.completed == m.completed
    ensures |m.waitTimes| == 0 ==> r.avgWaitTime == 0.0
    ensures |m.waitTimes| > 0 ==> r.avgWaitTime * |m.waitTimes| as real == Sum(m.waitTimes) as real
  {
    var n := |m.waitTimes|;
    Snapshot(m.queueLength, if n > 0 then Sum(m.waitTimes) as real / n as real else 0.0, m.completed)
  }

  lemma {:induction false} SumBounds(s: seq<int>, lo: int, hi: int)
    requires forall i :: 0 <= i < |s| ==> lo <= s[i] <= hi
    ensures lo * |s| <= Sum(s) <= hi * |s|
  {
    if s != [] {
      var n := |s| - 1;
      SumBounds(s[..n], lo, hi);
      assert lo * |s| == lo * n + lo && hi * |s| == hi * n + hi;
    }
  }

  /** The reported average lies between any lower and upper bound of the recorded wait times. */
  lemma AverageBetween(m: MetricsData, lo: int, hi: int)
    requires |m.waitTimes| > 0
    requires forall i :: 0 <= i < |m.waitTimes| ==> lo <= m.waitTimes[i] <= hi
    ensures lo as real <= Report(m).avgWaitTime <= hi as real
  {
    var n := |m.waitTimes|;
    SumBounds(m.waitTimes, lo, hi);
    CastProduct(lo, n);
    CastProduct(hi, n);
    MeanBetween(lo as real, hi as real, Report(m).avgWaitTime, n as real, Sum(m.waitTimes) as real);
  }

  lemma CastProduct(a: int, n: int)
    ensures (a * n) as real == a as real * n as real
  {
  }

  /** A mean of values in [lo, hi] lies in [lo, hi]. */
  lemma MeanBetween(lo: real, hi: real, avg: real, n: real, total: real)
    requires n > 0.0 && avg * n == total
    requires lo * n <= total <= hi * n
    ensures lo <= avg <= hi
  {
    ScaleCancel(lo, avg, n);
    ScaleCancel(avg, hi, n);
  }

  lemma ScaleCancel(a: real, b: real, n: real)
    requires n > 0.0 && a * n <= b * n
    ensures a <= b
  {
  }
}
