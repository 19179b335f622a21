/** When the thermal watchdog trips, as a predicate over the samples since it
    was armed. */
module WatchdogProofs {
  import opened Prelude
  import opened Controller

  function WatchedAfter(h: seq<Sample>): Watchdog {
    if h == [] then ARMED else Observe(WatchedAfter(h[..|h| - 1]), h[|h| - 1]).0
  }

  predicate HotSample(s: Sample) {
    (s.cpuTemp.Some? && s.cpuTemp.value >= CPU_TRIP_C) || (s.gpuTemp.Some? && s.gpuTemp.value >= GPU_TRIP_C)
  }

  /** A temperature was read and none was hot. */
  predicate CoolSample(s: Sample) {
    (s.cpuTemp.Some? || s.gpuTemp.Some?) && !HotSample(s)
  }

  /** A hot sample with no cool one after it; unreadable ones are neither. */
  predicate StillHot(h: seq<Sample>, i: nat) {
    i < |h| && HotSample(h[i]) && forall k :: i <= k < |h| ==> !CoolSample(h[k])
  }

  ghost predicate OneHot(h: seq<Sample>) {
    exists i: nat :: StillHot(h, i)
  }

  ghost predicate TwoHot(h: seq<Sample>) {
    exists i: nat, j: nat :: i < j && StillHot(h, i) && StillHot(h, j)
  }

  /** The last n samples had no CPU temperature. */
  predicate Lost(h: seq<Sample>, n: nat) {
    n <= |h| && forall k :: |h| - n <= k < |h| ==> h[k].cpuTemp.None?
  }

  lemma {:induction false} StillHotSnoc(h: seq<Sample>, s: Sample, i: nat)
    ensures StillHot(h + [s], i) <==> !CoolSample(s) && (StillHot(h, i) || (i == |h| && HotSample(s)))
  {
    hide HotSample, CoolSample;
    var all := h + [s];
    assert forall k :: 0 <= k < |h| ==> all[k] == h[k];
    assert all[|h|] == s;
    assert HotSample(s) ==> !CoolSample(s) by { HotIsNotCool(s); }
  }

  lemma {:induction false} HotIsNotCool(s: Sample)
    ensures HotSample(s) ==> !CoolSample(s)
  {
  }

  lemma {:induction false} LostSnoc(h: seq<Sample>, s: Sample, n: nat)
    ensures Lost(h + [s], n + 1) <==> s.cpuTemp.None? && Lost(h, n)
  {
    var all := h + [s];
    assert forall k :: 0 <= k < |h| ==> all[k] == h[k];
    assert all[|h|] == s;
  }

  lemma {:induction false} HotCountsSnoc(h: seq<Sample>, s: Sample)
    ensures OneHot(h + [s]) <==> !CoolSample(s) && (OneHot(h) || HotSample(s))
    ensures TwoHot(h + [s]) <==> !CoolSample(s) && (TwoHot(h) || (OneHot(h) && HotSample(s)))
  {
    hide HotSample, CoolSample, StillHot;
    var all := h + [s];
    HotIsNotCool(s);
    forall i: nat
      ensures StillHot(all, i) <==> !CoolSample(s) && (StillHot(h, i) || (i == |h| && HotSample(s)))
    {
      StillHotSnoc(h, s, i);
    }
    forall i: nat ensures StillHot(h, i) ==> i < |h| {
      StillHotInside(h, i);
    }
    assert StillHot(all, |h|) <==> !CoolSample(s) && HotSample(s);
  }

  lemma {:induction false} StillHotInside(h: seq<Sample>, i: nat)
    ensures StillHot(h, i) ==> i < |h|
  {
    hide HotSample, CoolSample;
  }

  /** Until it trips the watchdog counts exactly the hot samples since the last
      cool one and the samples without a CPU temperature at the end. */
  lemma {:induction false} StreaksMeaning(h: seq<Sample>)
    requires !WatchedAfter(h).tripped
    ensures var w := WatchedAfter(h);
            && w.hot < TRIP_STREAK && w.lost < SENSOR_LOST_STREAK
            && (w.hot >= 1 <==> OneHot(h)) && (w.hot >= 2 <==> TwoHot(h))
            && Lost(h, w.lost) && !Lost(h, w.lost + 1)
  {
    hide OneHot, TwoHot, Lost;
    if h == [] {
      NothingSeen();
    } else {
      var front, s := h[..|h| - 1], h[|h| - 1];
      assert h == front + [s];
      StreaksMeaning(front);
      HotCountsSnoc(front, s);
      LostSnoc(front, s, WatchedAfter(front).lost);
      LostSnoc(front, s, WatchedAfter(front).lost + 1);
      NoneLost(h);
      LostSnoc(front, s, 0);
      NoneLost(front);
    }
  }

  lemma {:induction false} NothingSeen()
    ensures !OneHot([]) && !TwoHot([]) && Lost([], 0) && !Lost([], 1)
  {
  }

  lemma {:induction false} NoneLost(h: seq<Sample>)
    ensures Lost(h, 0)
  {
  }

  lemma {:induction false} FewerLost(h: seq<Sample>, n: nat, m: nat)
    requires Lost(h, n) && m <= n
    ensures Lost(h, m)
  {
  }

  /** The next sample trips as a lost sensor exactly when it is the tenth in a
      row without a CPU temperature, and thermally exactly when it is not and
      is hot with two more hot samples since the last cool one. */
  lemma {:induction false} TripMeaning(h: seq<Sample>, s: Sample)
    requires !WatchedAfter(h).tripped
    ensures var trip := Observe(WatchedAfter(h), s).1;
            && (trip == LostSensor <==> Lost(h + [s], SENSOR_LOST_STREAK))
            && (trip == Thermal <==> HotSample(s) && TwoHot(h) && !Lost(h + [s], SENSOR_LOST_STREAK))
  {
    hide OneHot, TwoHot, Lost;
    StreaksMeaning(h);
    var n := WatchedAfter(h).lost;
    LostSnoc(h, s, SENSOR_LOST_STREAK - 1);
    if Lost(h, SENSOR_LOST_STREAK - 1) && n < SENSOR_LOST_STREAK - 1 {
      FewerLost(h, SENSOR_LOST_STREAK - 1, n + 1);
    }
  }

  /** A tripped watchdog is silent and unmoved whatever comes, until it is
      armed again. */
  lemma {:induction false} TrippedIsSilent(h: seq<Sample>, more: seq<Sample>, s: Sample)
    requires WatchedAfter(h).tripped
    ensures WatchedAfter(h + more) == WatchedAfter(h)
    ensures Observe(WatchedAfter(h + more), s) == (WatchedAfter(h), NoTrip)
  {
    hide WatchedAfter;
    if more == [] {
      assert h + more == h;
    } else {
      var front, last := more[..|more| - 1], more[|more| - 1];
      TrippedIsSilent(h, front, last);
      WatchedSnoc(h + front, last);
      assert h + more == (h + front) + [last];
    }
  }

  lemma {:induction false} WatchedSnoc(h: seq<Sample>, s: Sample)
    ensures WatchedAfter(h + [s]) == Observe(WatchedAfter(h), s).0
  {
    hide Observe;
    assert (h + [s])[..|h|] == h;
  }
}
