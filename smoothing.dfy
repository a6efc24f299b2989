/**
 * The smoothing window: a fixed ring of five slots holding the most recent
 * readings, and the trailing simple moving average computed over the slots
 * written so far.
 */
module Smoothing {

  /** Number of slots in the ring. */
  const Capacity: nat := 5

  /** The slot written by push number j (counting from 0). */
  function Slot(j: nat): (k: nat)
    ensures k < Capacity
  {
    j % 5
  }

  /** Sum of readings, added left to right. */
  function Sum(s: seq<real>): real
  {
    if s == [] then 0.0 else Sum(s[..|s| - 1]) + s[|s| - 1]
  }

  /** Arithmetic mean of a non-empty sequence of readings. */
  function Mean(s: seq<real>): real
    requires |s| > 0
  {
    Sum(s) / (|s| as real)
  }

  /** How many slots are averaged after n pushes: the smaller of n and the capacity. */
  function SampleCount(n: nat): (c: nat)
    ensures c <= n && c <= Capacity
    ensures c == n || c == Capacity
    ensures n >= 1 ==> 1 <= c
  {
    if n < Capacity then n else Capacity
  }

  /** The readings the window stands for after the pushes in h: the last SampleCount(|h|) of them. */
  function LastSamples(h: seq<real>): (w: seq<real>)
    ensures |w| == SampleCount(|h|)
    ensures |h| <= Capacity ==> w == h
    ensures forall i :: 0 <= i < |w| ==> w[i] == h[|h| - |w| + i]
  {
    h[|h| - SampleCount(|h|)..]
  }

  /** The value returned by the push that completes the history h. */
  function Smoothed(h: seq<real>): real
    requires |h| >= 1
  {
    Mean(LastSamples(h))
  }

  lemma {:induction false} SumAppend(a: seq<real>, b: seq<real>)
    ensures Sum(a + b) == Sum(a) + Sum(b)
  {
    if b == [] {
      assert a + b == a;
    } else {
      assert (a + b)[..|a + b| - 1] == a + b[..|b| - 1];
      SumAppend(a, b[..|b| - 1]);
    }
  }

  lemma {:induction false} SumBounds(s: seq<real>, lo: real, hi: real)
    requires forall i :: 0 <= i < |s| ==> lo <= s[i] <= hi
    ensures lo * (|s| as real) <= Sum(s) <= hi * (|s| as real)
  {
    if s != [] {
      SumBounds(s[..|s| - 1], lo, hi);
    }
  }

  /** The mean of readings lies between any lower and upper bound of the readings. */
  lemma MeanBounds(s: seq<real>, lo: real, hi: real)
    requires |s| > 0
    requires forall i :: 0 <= i < |s| ==> lo <= s[i] <= hi
    ensures lo <= Mean(s) <= hi
  {
    SumBounds(s, lo, hi);
    var n := |s| as real;
    assert Mean(s) * n == Sum(s);
  }

  /** During start-up (at most five pushes) the result is the plain average of every reading so far. */
  lemma StartupMean(h: seq<real>)
    requires 1 <= |h| <= Capacity
    ensures Smoothed(h) == Sum(h) / (|h| as real)
  {
  }

  /** From the fifth push on, the result is the average of the last five readings. */
  lemma SteadyMean(h: seq<real>)
    requires |h| >= Capacity
    ensures Smoothed(h) == Sum(h[|h| - Capacity..]) / 5.0
  {
  }

  /** The smoothed value lies between the smallest and largest of the readings it averages. */
  lemma SmoothedWithinRecent(h: seq<real>, lo: real, hi: real)
    requires |h| >= 1
    requires forall i :: |h| - SampleCount(|h|) <= i < |h| ==> lo <= h[i] <= hi
    ensures lo <= Smoothed(h) <= hi
  {
    var w := LastSamples(h);
    forall i | 0 <= i < |w| ensures lo <= w[i] <= hi {
      assert w[i] == h[|h| - |w| + i];
    }
    MeanBounds(w, lo, hi);
  }

  /** The least of a non-empty sequence of readings. */
  function Least(s: seq<real>): (m: real)
    requires |s| > 0
    ensures forall i :: 0 <= i < |s| ==> m <= s[i]
    ensures m in s
  {
    if |s| == 1 then s[0]
    else
      var rest := Least(s[..|s| - 1]);
      if rest <= s[|s| - 1] then rest else s[|s| - 1]
  }

  /** An upper bound of the readings the window averages bounds the smoothed value. */
  lemma SmoothedAtMost(h: seq<real>, hi: real)
    requires |h| >= 1
    requires forall i :: |h| - SampleCount(|h|) <= i < |h| ==> h[i] <= hi
    ensures Smoothed(h) <= hi
  {
    var w := LastSamples(h);
    var lo := Least(w);
    forall i | |h| - SampleCount(|h|) <= i < |h| ensures lo <= h[i] <= hi {
      assert h[i] == w[i - (|h| - |w|)];
    }
    SmoothedWithinRecent(h, lo, hi);
  }

  /** Readings older than the last five have no influence on the smoothed value. */
  lemma Forgetting(a: seq<real>, b: seq<real>, r: seq<real>)
    requires |r| >= Capacity
    ensures Smoothed(a + r) == Smoothed(b + r)
  {
    assert LastSamples(a + r) == r[|r| - Capacity..];
    assert LastSamples(b + r) == r[|r| - Capacity..];
  }

  /** Five equal readings in a row make the smoothed value that reading, whatever came before. */
  lemma SteadyReading(h: seq<real>, t: real)
    ensures Smoothed(h + [t, t, t, t, t]) == t
  {
    var g := h + [t, t, t, t, t];
    forall i | |g| - SampleCount(|g|) <= i < |g| ensures t <= g[i] <= t {
    }
    SmoothedWithinRecent(g, t, t);
  }

  /** Three pushes 10, 20, 30 give 20: the two unwritten slots do not pull the mean down. */
  lemma StartupScenario()
    ensures Smoothed([10.0, 20.0, 30.0]) == 20.0
  {
    var h := [10.0, 20.0, 30.0];
    assert Sum([10.0]) == 10.0 by { assert [10.0][..0] == []; }
    assert Sum([10.0, 20.0]) == 30.0 by { assert [10.0, 20.0][..1] == [10.0]; }
    assert Sum(h) == 60.0 by { assert h[..2] == [10.0, 20.0]; }
  }

  /** Six pushes 10 .. 60 give 40, the mean of the last five. */
  lemma SteadyScenario()
    ensures Smoothed([10.0, 20.0, 30.0, 40.0, 50.0, 60.0]) == 40.0
  {
    var w := [20.0, 30.0, 40.0, 50.0, 60.0];
    assert LastSamples([10.0, 20.0, 30.0, 40.0, 50.0, 60.0]) == w;
    assert Sum([20.0]) == 20.0 by { assert [20.0][..0] == []; }
    assert Sum([20.0, 30.0]) == 50.0 by { assert [20.0, 30.0][..1] == [20.0]; }
    assert Sum([20.0, 30.0, 40.0]) == 90.0 by { assert [20.0, 30.0, 40.0][..2] == [20.0, 30.0]; }
    assert Sum([20.0, 30.0, 40.0, 50.0]) == 140.0 by { assert [20.0, 30.0, 40.0, 50.0][..3] == [20.0, 30.0, 40.0]; }
    assert Sum(w) == 200.0 by { assert w[..4] == [20.0, 30.0, 40.0, 50.0]; }
  }

  lemma ModOfShift(q: nat, k: nat)
    requires 0 <= k < Capacity
    ensures Slot(Capacity * q + k) == k
  {
  }

  /** Two pushes less than five apart write different slots. */
  lemma SlotsDistinct(i: nat, j: nat)
    requires i < j < i + Capacity
    ensures Slot(i) != Slot(j)
  {
    ModOfShift(i / 5, Slot(i));
    ModOfShift(j / 5, Slot(j));
  }

  /**
   * The ring's representation invariant, on values: slot j % 5 holds reading j for
   * each of the last five pushes, and slots never written still hold 0.0.
   */
  ghost predicate SlotsHold(slots: seq<real>, h: seq<real>)
  {
    |slots| == Capacity &&
    (forall j :: 0 <= j < |h| && |h| - j <= Capacity ==> slots[Slot(j)] == h[j]) &&
    (forall k :: |h| <= k < Capacity ==> slots[k] == 0.0)
  }

  /** Writing reading number |h| into its slot keeps the invariant for the longer history. */
  lemma PushKeepsSlots(slots: seq<real>, h: seq<real>, t: real)
    requires SlotsHold(slots, h)
    ensures SlotsHold(slots[Slot(|h|) := t], h + [t])
  {
    var slots', h' := slots[Slot(|h|) := t], h + [t];
    forall j | 0 <= j < |h'| && |h'| - j <= Capacity ensures slots'[Slot(j)] == h'[j] {
      if j < |h| {
        SlotsDistinct(j, |h|);
      }
    }
    forall k | |h'| <= k < Capacity ensures slots'[k] == 0.0 {
      ModOfShift(0, |h|);
    }
  }

  /** During start-up the written slots hold the readings in push order. */
  lemma StartupSlots(slots: seq<real>, h: seq<real>)
    requires SlotsHold(slots, h) && |h| < Capacity
    ensures slots[..|h|] == h
  {
    forall k | 0 <= k < |h| ensures slots[k] == h[k] {
      ModOfShift(0, k);
      assert slots[Slot(k)] == h[k];
    }
  }

  /** Once the ring is full, slot k holds the last five readings rotated by |h| % 5. */
  lemma SteadySlot(slots: seq<real>, h: seq<real>, k: nat)
    requires SlotsHold(slots, h) && |h| >= Capacity && k < Capacity
    ensures var s := Slot(|h|);
      slots[k] == if k < s then h[|h| - s + k] else h[|h| - s + k - Capacity]
  {
    var n := |h|;
    var s := Slot(n);
    var q: nat := n / 5;
    if k < s {
      ModOfShift(q, k);
      assert slots[Slot(n - s + k)] == h[n - s + k];
    } else {
      ModOfShift(q - 1, k);
      assert slots[Slot(n - s + k - Capacity)] == h[n - s + k - Capacity];
    }
  }

  lemma SteadySlots(slots: seq<real>, h: seq<real>)
    requires SlotsHold(slots, h) && |h| >= Capacity
    ensures var w, s := LastSamples(h), Slot(|h|);
      slots == w[Capacity - s..] + w[..Capacity - s]
  {
    var w, s := LastSamples(h), Slot(|h|);
    var rotated := w[Capacity - s..] + w[..Capacity - s];
    forall k | 0 <= k < Capacity ensures slots[k] == rotated[k] {
      SteadySlot(slots, h, k);
    }
  }

  /** Rotating a sequence does not change its sum. */
  lemma SumRotate(w: seq<real>, c: nat)
    requires c <= |w|
    ensures Sum(w[c..] + w[..c]) == Sum(w)
  {
    SumAppend(w[c..], w[..c]);
    SumAppend(w[..c], w[c..]);
    assert w[..c] + w[c..] == w;
  }

  /**
   * If slot j % 5 holds reading j for each of the last five pushes, the slots the
   * average reads sum to the sum of the readings the window stands for: in start-up
   * the slots are the readings in order, later they are the last five rotated.
   */
  lemma SlotSum(slots: seq<real>, h: seq<real>)
    requires SlotsHold(slots, h)
    ensures Sum(slots[..SampleCount(|h|)]) == Sum(LastSamples(h))
  {
    if |h| < Capacity {
      StartupSlots(slots, h);
    } else {
      SteadySlots(slots, h);
      assert slots[..SampleCount(|h|)] == slots;
      SumRotate(LastSamples(h), Capacity - Slot(|h|));
    }
  }

  /**
   * The ring and its counter. `samples` is the fixed array of five slots, `index`
   * the number of pushes so far; the ghost `history` is every reading ever pushed.
   */
  class SmoothingWindow {
    const samples: array<real>
    var index: nat
    ghost var history: seq<real>

    /**
     * Slot j % 5 holds reading j for each of the last five pushes; slots never
     * written still hold the initial 0.0.
     */
    ghost predicate Valid()
      reads this, samples
    {
      samples.Length == Capacity &&
      index == |history| &&
      SlotsHold(samples[..], history)
    }

    /** The zero-initialised buffer and counter of a freshly started process. */
    constructor ()
      ensures Valid() && fresh(samples)
      ensures index == 0 && history == []
    {
      samples := new real[Capacity](_ => 0.0);
      index := 0;
      history := [];
    }

    /**
     * Store a reading in slot index % 5, advance the counter, and return the mean
     * of the last min(index, 5) readings.
     */
    method Push(t: real) returns (mean: real)
      requires Valid()
      modifies this, samples
      ensures Valid()
      ensures history == old(history) + [t] && index == old(index) + 1
      ensures samples[Slot(old(index))] == t
      ensures forall k :: 0 <= k < Capacity && k != Slot(old(index)) ==> samples[k] == old(samples[k])
      ensures mean == Smoothed(history)
    {
      PushKeepsSlots(samples[..], history, t);
      samples[Slot(index)] := t;
      index := index + 1;
      history := history + [t];
      mean := Average();
    }

    /** Sum the first min(index, 5) slots and divide by their number. */
    method Average() returns (mean: real)
      requires Valid() && index >= 1
      ensures mean == Smoothed(history)
    {
      var count := if index < Capacity then index else Capacity;
      var sum := 0.0;
      for i := 0 to count
        invariant sum == Sum(samples[..i])
      {
        assert samples[..i + 1][..i] == samples[..i];
        sum := sum + samples[i];
      }
      SlotSum(samples[..], history);
      assert samples[..][..count] == samples[..count];
      mean := sum / (count as real);
    }
  }
}
