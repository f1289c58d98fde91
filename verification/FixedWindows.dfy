/**
 Fixed-window budgets. A budget keeps one window start and what was spent in
 that window; the log of everything it ever allowed is what it is judged by.
 */
module FixedWindows {
  import opened Clock

  /** One allowed event: when, in the window started when, and at what cost. */
  datatype Entry = Entry(time: Instant, window: Instant, cost: nat)

  /** The two fields every budget keeps. */
  datatype Window = Window(started: Instant, used: nat)

  /** Total cost allowed in the window started at `window`. */
  function Spent(log: seq<Entry>, window: Instant): nat {
    if log == [] then 0
    else Spent(log[..|log| - 1], window) + if log[|log| - 1].window == window then log[|log| - 1].cost else 0
  }

  /** Total cost allowed during the closed interval `[from, to]`, whatever the windows. */
  function SpentBetween(log: seq<Entry>, from: Instant, to: Instant): nat {
    if log == [] then 0
    else SpentBetween(log[..|log| - 1], from, to) + if from <= log[|log| - 1].time <= to then log[|log| - 1].cost else 0
  }

  ghost predicate InWindow(e: Entry, width: nat) {
    e.window <= e.time < e.window + width
  }

  /** Every entry lies in its window, windows do not overlap and come in order, and none is overspent. */
  ghost predicate WindowLog(log: seq<Entry>, width: nat, max: nat) {
    && (forall i :: 0 <= i < |log| ==> InWindow(log[i], width))
    && (forall i, j :: 0 <= i < j < |log| ==>
          log[i].window == log[j].window || log[i].window + width <= log[j].window)
    && (forall w :: Spent(log, w) <= max)
  }

  /** The budget's fields summarise its log. */
  ghost predicate Tracks(w: Window, log: seq<Entry>, width: nat, max: nat) {
    && WindowLog(log, width, max)
    && w.used == Spent(log, w.started)
    && forall i :: 0 <= i < |log| ==> log[i].window == w.started || log[i].window + width <= w.started
  }

  /** Start a new window if the current one has run its width. */
  function Roll(w: Window, width: nat, checked: Instant, restarted: Instant): Window {
    if Elapsed(checked, w.started) >= width then Window(restarted, 0) else w
  }

  /** The instant an event counts as happening: the last clock reading taken for it. */
  function Stamp(w: Window, width: nat, checked: Instant, restarted: Instant): Instant {
    if Elapsed(checked, w.started) >= width then restarted else checked
  }

  // ----- Keeping the log -----

  lemma {:induction false} SpentNothing(log: seq<Entry>, window: Instant)
    requires forall i :: 0 <= i < |log| ==> log[i].window != window
    ensures Spent(log, window) == 0
  {
    if log != [] {
      SpentNothing(log[..|log| - 1], window);
    }
  }

  lemma {:induction false} SpentPrefix(log: seq<Entry>, n: nat, window: Instant)
    requires n <= |log|
    ensures Spent(log[..n], window) <= Spent(log, window)
  {
    if n < |log| {
      assert log[..|log| - 1][..n] == log[..n];
      SpentPrefix(log[..|log| - 1], n, window);
    } else {
      assert log[..n] == log;
    }
  }

  lemma RollTracks(w: Window, log: seq<Entry>, width: nat, max: nat, checked: Instant, restarted: Instant)
    requires Tracks(w, log, width, max) && width > 0 && w.started <= checked <= restarted
    ensures Tracks(Roll(w, width, checked, restarted), log, width, max)
  {
    if Elapsed(checked, w.started) >= width {
      SpentNothing(log, restarted);
    }
  }

  lemma SpentPush(log: seq<Entry>, e: Entry, window: Instant)
    ensures Spent(log + [e], window) == Spent(log, window) + if e.window == window then e.cost else 0
  {
    assert (log + [e])[..|log|] == log;
  }

  /** Charging a window that has room extends the log by exactly that event. */
  lemma ChargeTracks(w: Window, log: seq<Entry>, width: nat, max: nat, time: Instant, cost: nat)
    requires Tracks(w, log, width, max) && w.started <= time < w.started + width && w.used + cost <= max
    ensures Tracks(w.(used := w.used + cost), log + [Entry(time, w.started, cost)], width, max)
  {
    var e := Entry(time, w.started, cost);
    forall x ensures Spent(log + [e], x) <= max {
      SpentPush(log, e, x);
    }
    SpentPush(log, e, w.started);
    PushInOrder(log, e, width);
  }

  lemma PushInOrder(log: seq<Entry>, e: Entry, width: nat)
    requires InWindow(e, width) && forall i :: 0 <= i < |log| ==> InWindow(log[i], width)
    requires forall i, j :: 0 <= i < j < |log| ==>
               log[i].window == log[j].window || log[i].window + width <= log[j].window
    requires forall i :: 0 <= i < |log| ==> log[i].window == e.window || log[i].window + width <= e.window
    ensures
      var longer := log + [e];
      && (forall i :: 0 <= i < |longer| ==> InWindow(longer[i], width))
      && (forall i, j :: 0 <= i < j < |longer| ==>
            longer[i].window == longer[j].window || longer[i].window + width <= longer[j].window)
      && (forall i :: 0 <= i < |longer| ==> longer[i].window == e.window || longer[i].window + width <= e.window)
  {}

  lemma NeverOverspent(w: Window, log: seq<Entry>, width: nat, max: nat)
    requires Tracks(w, log, width, max)
    ensures w.used <= max
  {}

  // ----- The interval bound -----

  /** How many windows starting no later than `top` can reach `from` or beyond. */
  function Slots(from: Instant, top: int, width: nat): nat
    requires width > 0
  {
    if top + width <= from then 0 else (top + width - from - 1) / width + 1
  }

  lemma DivUnique(n: nat, d: nat, q: nat)
    requires d > 0 && q * d <= n < q * d + d
    ensures n / d == q
  {
    var r := n / d;
    assert r * d <= n < r * d + d;
    if r < q {
      Distribute(r, q, d);
    } else if q < r {
      Distribute(q, r, d);
    }
  }

  lemma SlotsStep(from: Instant, top: int, width: nat)
    requires width > 0 && top + width > from
    ensures Slots(from, top, width) == Slots(from, top - width, width) + 1
  {
    var n := top + width - from - 1;
    if top > from {
      var q := (n - width) / width;
      assert q * width <= n - width < q * width + width;
      assert (q + 1) * width == q * width + width;
      DivUnique(n, width, q + 1);
    } else {
      DivUnique(n, width, 0);
    }
  }

  lemma SlotsMonotone(from: Instant, low: int, high: int, width: nat)
    requires width > 0 && low <= high
    ensures Slots(from, low, width) <= Slots(from, high, width)
  {
    if low + width > from {
      DivMonotone(low + width - from - 1, high + width - from - 1, width);
    }
  }

  lemma DivMonotone(a: nat, b: nat, d: nat)
    requires a <= b && d > 0
    ensures a / d <= b / d
  {
    var p, q := a / d, b / d;
    assert p * d <= a && b < q * d + d;
    if q < p {
      Distribute(q, p, d);
    }
  }

  lemma {:induction false} SpentBetweenSplit(log: seq<Entry>, n: nat, window: Instant, from: Instant, to: Instant)
    requires n <= |log| && forall i :: n <= i < |log| ==> log[i].window == window
    ensures SpentBetween(log, from, to) <= SpentBetween(log[..n], from, to) + Spent(log, window)
  {
    if n == |log| {
      assert log[..n] == log;
    } else {
      var front := log[..|log| - 1];
      assert front[..n] == log[..n];
      SpentBetweenSplit(front, n, window, from, to);
    }
  }

  lemma {:induction false} SpentBetweenNothing(log: seq<Entry>, from: Instant, to: Instant)
    requires forall i :: 0 <= i < |log| ==> log[i].time < from || to < log[i].time
    ensures SpentBetween(log, from, to) == 0
  {
    if log != [] {
      SpentBetweenNothing(log[..|log| - 1], from, to);
    }
  }

  lemma PrefixIsWindowLog(log: seq<Entry>, n: nat, width: nat, max: nat)
    requires WindowLog(log, width, max) && n <= |log|
    ensures WindowLog(log[..n], width, max)
  {
    forall w ensures Spent(log[..n], w) <= max {
      SpentPrefix(log, n, w);
    }
  }

  /** The first entry of the last window. */
  lemma {:induction false} LastWindowStart(log: seq<Entry>, n: nat, width: nat) returns (m: nat)
    requires n < |log| && forall i, j :: 0 <= i < j < |log| ==>
               log[i].window == log[j].window || log[i].window + width <= log[j].window
    requires forall i :: n <= i < |log| ==> log[i].window == log[|log| - 1].window
    ensures m <= n && (forall i :: m <= i < |log| ==> log[i].window == log[|log| - 1].window)
    ensures forall i :: 0 <= i < m ==> log[i].window + width <= log[|log| - 1].window
  {
    if n > 0 && log[n - 1].window == log[|log| - 1].window {
      m := LastWindowStart(log, n - 1, width);
    } else {
      m := n;
      forall i | 0 <= i < m ensures log[i].window + width <= log[|log| - 1].window {
        assert log[n - 1].window + width <= log[|log| - 1].window;
        assert log[i].window <= log[n - 1].window;
      }
    }
  }

  /** Windows that end before the interval contribute nothing to it. */
  lemma OldWindowsBound(log: seq<Entry>, width: nat, max: nat, from: Instant, to: Instant)
    requires WindowLog(log, width, max) && log != [] && log[|log| - 1].window + width <= from
    ensures SpentBetween(log, from, to) == 0
  {
    forall i | 0 <= i < |log| ensures log[i].time < from {
      assert InWindow(log[i], width);
    }
    SpentBetweenNothing(log, from, to);
  }

  /** The last window adds at most one allowance and one slot. */
  lemma LastWindowBound(log: seq<Entry>, m: nat, width: nat, max: nat, from: Instant, to: Instant, top: int)
    requires WindowLog(log, width, max) && width > 0 && m < |log| && log[|log| - 1].window <= top
    requires from < log[|log| - 1].window + width
    requires forall i :: m <= i < |log| ==> log[i].window == log[|log| - 1].window
    requires SpentBetween(log[..m], from, to) <= Slots(from, log[|log| - 1].window - width, width) * max
    ensures SpentBetween(log, from, to) <= Slots(from, top, width) * max
  {
    var w := log[|log| - 1].window;
    assert Spent(log, w) <= max;
    SpentBetweenSplit(log, m, w, from, to);
    SlotsStep(from, w, width);
    SlotsMonotone(from, w, top, width);
    hide *;
    Distribute(Slots(from, w - width, width), Slots(from, top, width), max);
  }

  lemma {:induction false} WindowsBound(log: seq<Entry>, width: nat, max: nat, from: Instant, to: Instant, top: int)
    requires WindowLog(log, width, max) && width > 0
    requires forall i :: 0 <= i < |log| ==> log[i].window <= top
    ensures SpentBetween(log, from, to) <= Slots(from, top, width) * max
    decreases |log|
  {
    if log == [] || log[|log| - 1].window + width <= from {
      if log != [] {
        OldWindowsBound(log, width, max, from, to);
      }
      hide *;
      NothingIsWithin(Slots(from, top, width), max);
    } else {
      var w := log[|log| - 1].window;
      var m := LastWindowStart(log, |log| - 1, width);
      PrefixIsWindowLog(log, m, width, max);
      hide WindowLog, SpentBetween, Slots;
      WindowsBound(log[..m], width, max, from, to, w - width);
      LastWindowBound(log, m, width, max, from, to, top);
    }
  }

  lemma NothingIsWithin(slots: nat, max: nat)
    ensures 0 <= slots * max
  {}

  lemma Distribute(a: nat, b: nat, m: nat)
    requires a < b
    ensures a * m + m <= b * m
  {
    var gap := b - a - 1;
    assert 0 <= gap * m;
    calc {
      b * m;
      (a + 1 + gap) * m;
      a * m + m + gap * m;
    }
  }

  function CeilDiv(a: nat, b: nat): nat
    requires b > 0
  {
    (a + b - 1) / b
  }

  /** Entries of windows that start after the interval contribute nothing to it. */
  lemma {:induction false} IntervalBoundUpTo(log: seq<Entry>, width: nat, max: nat, from: Instant, to: Instant)
    requires WindowLog(log, width, max) && width > 0
    ensures SpentBetween(log, from, to) <= Slots(from, to, width) * max
  {
    if log != [] && log[|log| - 1].window > to {
      assert InWindow(log[|log| - 1], width);
      PrefixIsWindowLog(log, |log| - 1, width, max);
      IntervalBoundUpTo(log[..|log| - 1], width, max, from, to);
    } else if log != [] {
      forall i | 0 <= i < |log| ensures log[i].window <= to {
        assert i < |log| - 1 ==> log[i].window <= log[|log| - 1].window;
      }
      WindowsBound(log, width, max, from, to, to);
    }
  }

  /** In any closed interval, wherever it starts, a budget allows at most (ceil(length / width) + 1) * max. */
  lemma IntervalBound(log: seq<Entry>, width: nat, max: nat, from: Instant, length: nat)
    requires WindowLog(log, width, max) && width > 0
    ensures SpentBetween(log, from, from + length) <= (CeilDiv(length, width) + 1) * max
  {
    IntervalBoundUpTo(log, width, max, from, from + length);
    assert Slots(from, from + length, width) == CeilDiv(length, width) + 1;
  }

  /** Across any one width, a budget can be exceeded by at most a factor of two. */
  lemma OneWidthBound(log: seq<Entry>, width: nat, max: nat, from: Instant)
    requires WindowLog(log, width, max) && width > 0
    ensures SpentBetween(log, from, from + width) <= 2 * max
  {
    IntervalBound(log, width, max, from, width);
    DivUnique(2 * width - 1, width, 1);
  }
}
