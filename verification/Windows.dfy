/** The staleness window: one observer's looks at one work ref. */
module Windows {
  import opened Wrappers

  /** time.Time's zero value: no look yet. */
  const ZERO_TIME: int := 0

  /** `tip` is None for the empty string; `voided` is the gap that threw the previous
    window away. */
  datatype Window<T> = Window(tip: Option<T>, first: int, last: int, samples: nat, voided: Option<int>)

  /** `gap` is the sample-gap bound in force at the look. */
  datatype Look<T> = Look(tip: Option<T>, at: int, gap: int)

  function Zero<T>(): Window<T> {
    Window(None, ZERO_TIME, ZERO_TIME, 0, None)
  }

  function Span<T>(w: Window<T>): int {
    if w.first == ZERO_TIME then 0 else w.last - w.first
  }

  /** One look folded in: the same tip in time extends, anything else starts over. */
  function Observe<T(==)>(w: Window<T>, tip: Option<T>, now: int, sMax: int): Window<T> {
    if w.tip.None? || w.tip != tip then Window(tip, now, now, 1, None)
    else if now - w.last > sMax then Window(tip, now, now, 1, Some(now - w.last))
    else w.(last := now, samples := w.samples + 1)
  }

  predicate StaleHold<T>(w: Window<T>, now: int, t: int, sMax: int) {
    w.tip.Some? && now - w.last <= sMax && Span(w) > t
  }

  /** Every look so far, oldest first, folded from the zero window. */
  function ObserveAll<T(==)>(looks: seq<Look<T>>): Window<T> {
    if looks == [] then Zero()
    else
      var n := |looks| - 1;
      Observe(ObserveAll(looks[..n]), looks[n].tip, looks[n].at, looks[n].gap)
  }

  /** Look k continues look k-1: the same tip, within the gap bound. */
  predicate Joins<T(==)>(looks: seq<Look<T>>, k: nat)
    requires 1 <= k < |looks|
  {
    looks[k-1].tip.Some? && looks[k].tip == looks[k-1].tip && looks[k].at - looks[k-1].at <= looks[k].gap
  }

  /** Looks i.. are one unbroken run on one tip. */
  ghost predicate RunFrom<T>(looks: seq<Look<T>>, i: nat) {
    i < |looks| && forall k: nat | i < k < |looks| :: Joins(looks, k)
  }

  /** The gap that cut look k off from one before it that saw the same tip. */
  function VoidedAt<T(==)>(looks: seq<Look<T>>, k: nat): Option<int>
    requires 1 <= k < |looks|
  {
    if looks[k-1].tip.Some? && looks[k-1].tip == looks[k].tip then Some(looks[k].at - looks[k-1].at) else None
  }

  /** The window is the longest unbroken run of looks that ends with the last one:
    its tip, its first and last times, its length, and the gap that cut it off. */
  lemma {:induction false} WindowIsTheLatestRun<T>(looks: seq<Look<T>>)
    requires |looks| > 0
    ensures var w, n := ObserveAll(looks), |looks|;
      && 1 <= w.samples <= n
      && w.tip == looks[n-1].tip && w.last == looks[n-1].at && w.first == looks[n - w.samples].at
      && RunFrom(looks, n - w.samples)
      && (w.samples < n ==> !Joins(looks, n - w.samples))
      && w.voided == (if w.samples < n then VoidedAt(looks, n - w.samples) else None)
    decreases |looks|
  {
    var n := |looks| - 1;
    if n > 0 {
      var before := looks[..n];
      WindowIsTheLatestRun(before);
      var w := ObserveAll(before);
      if Joins(looks, n) {
        var i := n - w.samples;
        assert RunFrom(before, i);
        forall k: nat | i < k < |looks| ensures Joins(looks, k) {
          if k < n { assert Joins(before, k); }
        }
        if w.samples < n { assert !Joins(before, i); }
      }
      if w.samples < n { assert VoidedAt(before, n - w.samples) == VoidedAt(looks, n - w.samples); }
    }
  }

  /** The looks of a run all saw the run's tip. */
  lemma {:induction false} RunSeesOneTip<T>(looks: seq<Look<T>>, i: nat, j: nat)
    requires RunFrom(looks, i) && i <= j < |looks|
    ensures looks[j].tip == looks[i].tip
    decreases j
  {
    if i < j {
      RunSeesOneTip(looks, i, j - 1);
      assert Joins(looks, j);
    }
  }

  /** No look of the window was taken under a larger bound. */
  ghost predicate GapsWithin<T>(looks: seq<Look<T>>, sMax: int) {
    forall k | 0 <= k < |looks| && |looks| - ObserveAll(looks).samples <= k :: looks[k].gap <= sMax
  }

  /** A window never spans more than its gaps allow, even when the clock stepped
    back between looks. */
  lemma {:induction false} SpanIsSampled<T>(looks: seq<Look<T>>, sMax: int)
    requires |looks| > 0 && sMax > 0 && GapsWithin(looks, sMax)
    ensures var w := ObserveAll(looks);
      && (w.samples - 1) * sMax >= w.last - w.first
      && (w.samples - 1) * sMax >= Span(w)
    decreases |looks|
  {
    var n := |looks| - 1;
    var before := looks[..n];
    if n > 0 {
      WindowIsTheLatestRun(before);
      WindowIsTheLatestRun(looks);
      var v, w := ObserveAll(before), ObserveAll(looks);
      if w.samples == v.samples + 1 {
        SpanIsSampled(before, sMax);
        OneMore(v.samples - 1, sMax);
      }
    }
  }

  lemma OneMore(n: int, c: int)
    ensures (n + 1) * c == n * c + c
  {
  }

  /** A matured window is honest: its samples are the latest looks, all on the tip,
    no two further apart than the bound, and spanning more than the threshold. */
  lemma MaturedWindowIsHonest<T>(looks: seq<Look<T>>, now: int, t: int, sMax: int)
    requires t >= 0 && StaleHold(ObserveAll(looks), now, t, sMax)
    ensures var w, n := ObserveAll(looks), |looks|;
      && 1 <= w.samples <= n && RunFrom(looks, n - w.samples)
      && (forall k | n - w.samples <= k < n :: looks[k].tip == w.tip)
      && looks[n-1].at - looks[n - w.samples].at > t && now - looks[n-1].at <= sMax
  {
    if looks != [] {
      WindowIsTheLatestRun(looks);
      var i := |looks| - ObserveAll(looks).samples;
      forall k | i <= k < |looks| ensures looks[k].tip == looks[|looks|-1].tip {
        RunSeesOneTip(looks, i, k);
        RunSeesOneTip(looks, i, |looks| - 1);
      }
    }
  }

  /** With the default bound of a quarter window, a matured window holds at least six
    samples, one more than the documentation's five. */
  lemma MaturedWindowHasSixSamples<T>(looks: seq<Look<T>>, now: int, t: int)
    requires t > 0 && GapsWithin(looks, t / 4) && StaleHold(ObserveAll(looks), now, t, t / 4)
    ensures ObserveAll(looks).samples >= 6
  {
    MaturedWindowIsHonest(looks, now, t, t / 4);
    var w := ObserveAll(looks);
    if t / 4 > 0 {
      SpanIsSampled(looks, t / 4);
      AtMost(w.samples - 1, 4, t / 4);
    } else {
      RunNeverAdvances(looks, |looks| - w.samples, |looks| - 1);
    }
  }

  lemma AtMost(a: int, b: int, c: int)
    requires c >= 0
    ensures a <= b ==> a * c <= b * c
  {
  }

  /** Under a zero bound a run does not advance the clock. */
  lemma {:induction false} RunNeverAdvances<T>(looks: seq<Look<T>>, i: nat, j: nat)
    requires RunFrom(looks, i) && i <= j < |looks| && forall k | i <= k < |looks| :: looks[k].gap <= 0
    ensures looks[j].at <= looks[i].at
    decreases j
  {
    if i < j {
      RunNeverAdvances(looks, i, j - 1);
      assert Joins(looks, j);
    }
  }

  ghost predicate SteadyClock<T>(looks: seq<Look<T>>) {
    && (forall i | 0 <= i < |looks| :: looks[i].at > ZERO_TIME)
    && (forall i, j | 0 <= i <= j < |looks| :: looks[i].at <= looks[j].at)
  }

  /** Some latest looks all saw one tip in time, over more than t, the last just now. */
  ghost predicate SeenUnmoved<T>(looks: seq<Look<T>>, now: int, t: int, sMax: int) {
    exists i: nat :: RunFrom(looks, i) && looks[i].tip.Some?
      && looks[|looks|-1].at - looks[i].at > t && now - looks[|looks|-1].at <= sMax
  }

  /** On a clock that does not step back, a hold reads stale exactly when its tip was
    seen unmoved, in time, over more than the threshold. */
  lemma StaleExactlyWhenSeenUnmoved<T>(looks: seq<Look<T>>, now: int, t: int, sMax: int)
    requires t >= 0 && SteadyClock(looks)
    ensures StaleHold(ObserveAll(looks), now, t, sMax) <==> SeenUnmoved(looks, now, t, sMax)
  {
    var w := ObserveAll(looks);
    if StaleHold(w, now, t, sMax) {
      MaturedWindowIsHonest(looks, now, t, sMax);
      assert looks[|looks| - w.samples].tip == w.tip;
    }
    if SeenUnmoved(looks, now, t, sMax) {
      var i: nat :| RunFrom(looks, i) && looks[i].tip.Some?
        && looks[|looks|-1].at - looks[i].at > t && now - looks[|looks|-1].at <= sMax;
      WindowIsTheLatestRun(looks);
      RunSeesOneTip(looks, i, |looks| - 1);
    }
  }

  /** A clock that steps back can hide a run that is long enough: the window keeps
    the first look it started from. It then only delays a takeover. */
  lemma ClockStepDelays(tip: int) returns (looks: seq<Look<int>>)
    ensures SeenUnmoved(looks, 70, 10, 100) && !StaleHold(ObserveAll(looks), 70, 10, 100)
  {
    looks := [Look(Some(tip), 100, 100), Look(Some(tip), 50, 100), Look(Some(tip), 70, 100)];
    assert looks[..2] == [looks[0], looks[1]] && looks[..2][..1] == [looks[0]];
    assert looks[..1][..0] == [];
    assert ObserveAll(looks[..2][..1]) == Window(Some(tip), 100, 100, 1, None);
    assert ObserveAll(looks[..2]) == Window(Some(tip), 100, 50, 2, None);
    assert RunFrom(looks, 1);
  }
}
