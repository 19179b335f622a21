/** The elapsed-time sliding windows of guided calibration: one deque of
    (time, value) readings, trimmed from the front and emptied by a missing
    reading. */
module TimedWindow {
  import opened Prelude

  datatype Reading = Reading(at: real, value: real)

  /** Drops readings from the front while the second one is already at or
      before the boundary `now - horizon`. */
  function Trim(w: seq<Reading>, now: real, horizon: real): seq<Reading> {
    if |w| >= 2 && now - w[1].at >= horizon then Trim(w[1..], now, horizon) else w
  }

  function Push(w: seq<Reading>, value: Option<real>, now: real, horizon: real): seq<Reading> {
    match value
    case None => []
    case Some(v) => Trim(w + [Reading(now, v)], now, horizon)
  }

  function Low(w: seq<Reading>): real
    requires w != []
  {
    if |w| == 1 then w[0].value else MinR(Low(w[..|w| - 1]), w[|w| - 1].value)
  }

  function High(w: seq<Reading>): real
    requires w != []
  {
    if |w| == 1 then w[0].value else MaxR(High(w[..|w| - 1]), w[|w| - 1].value)
  }

  predicate SpanWithin(w: seq<Reading>, horizon: real, tolerance: real) {
    && w != []
    && w[|w| - 1].at - w[0].at >= horizon
    && High(w) - Low(w) <= tolerance
  }

  /** The window update, popping one reading at a time. */
  method PushTimedOptional(window: seq<Reading>, value: Option<Float>, now: real, horizon: real)
    returns (w: seq<Reading>)
    ensures w == Push(window, FiniteOf(value), now, horizon)
  {
    match value {
      case Some(Finite(v)) =>
        w := window + [Reading(now, v)];
        while |w| >= 2 && now - w[1].at >= horizon
          invariant Trim(w, now, horizon) == Trim(window + [Reading(now, v)], now, horizon)
        {
          w := w[1..];
        }
      case _ =>
        w := [];
    }
  }

  /** The flatness test, folding the lowest and the highest value. */
  method TimedSpanWithin(window: seq<Reading>, horizon: real, tolerance: real) returns (flat: bool)
    ensures flat == SpanWithin(window, horizon, tolerance)
  {
    if window == [] {
      return false;
    }
    if window[|window| - 1].at - window[0].at < horizon {
      return false;
    }
    var lo, hi := window[0].value, window[0].value;
    for i := 1 to |window|
      invariant lo == Low(window[..i]) && hi == High(window[..i])
    {
      assert window[..i + 1][..i] == window[..i];
      lo, hi := MinR(lo, window[i].value), MaxR(hi, window[i].value);
    }
    assert window[..|window|] == window;
    return hi - lo <= tolerance;
  }

  // ---- The window as a function of everything ever pushed ----

  datatype Event = Event(at: real, value: Option<real>)

  function Replay(events: seq<Event>, horizon: real): seq<Reading> {
    if events == [] then []
    else
      var last := events[|events| - 1];
      Push(Replay(events[..|events| - 1], horizon), last.value, last.at, horizon)
  }

  /** Every reading since the last missing one. */
  function SinceMissing(events: seq<Event>): seq<Reading> {
    if events == [] then []
    else
      var last := events[|events| - 1];
      match last.value
      case None => []
      case Some(v) => SinceMissing(events[..|events| - 1]) + [Reading(last.at, v)]
  }

  ghost predicate Nondecreasing(events: seq<Event>) {
    forall i, j :: 0 <= i <= j < |events| ==> events[i].at <= events[j].at
  }

  ghost predicate SortedReadings(h: seq<Reading>) {
    forall i, j :: 0 <= i <= j < |h| ==> h[i].at <= h[j].at
  }

  /** Index of the latest reading at or before `bound`; 0 if there is none. */
  function CoverStart(h: seq<Reading>, bound: real): (k: nat)
    ensures k == 0 || (k < |h| && h[k].at <= bound)
    ensures forall i :: k < i < |h| ==> h[i].at > bound
  {
    if h == [] then 0
    else if h[|h| - 1].at <= bound then |h| - 1
    else CoverStart(h[..|h| - 1], bound)
  }

  lemma {:induction false} SinceMissingSorted(events: seq<Event>)
    requires Nondecreasing(events)
    ensures SortedReadings(SinceMissing(events))
    ensures forall r :: r in SinceMissing(events) ==> events != [] && r.at <= events[|events| - 1].at
  {
    if events != [] {
      SinceMissingSorted(events[..|events| - 1]);
    }
  }

  lemma {:induction false} TrimIsSuffix(h: seq<Reading>, k: nat, now: real, horizon: real)
    requires SortedReadings(h) && k < |h|
    requires k == 0 || h[k].at <= now - horizon
    ensures Trim(h[k..], now, horizon) == h[CoverStart(h, now - horizon)..]
    decreases |h| - k
  {
    if |h| - k >= 2 && h[k + 1].at <= now - horizon {
      assert h[k..][1..] == h[k + 1..];
      TrimIsSuffix(h, k + 1, now, horizon);
    }
  }

  lemma {:induction false} SliceOfAppend(h: seq<Reading>, k: nat, r: Reading)
    requires k <= |h|
    ensures h[k..] + [r] == (h + [r])[k..]
  {
  }

  lemma {:induction false} PushExtendsSuffix(h: seq<Reading>, k: nat, r: Reading, g: seq<Reading>, horizon: real)
    requires g == h + [r] && SortedReadings(g) && k <= |h|
    requires k == 0 || g[k].at <= r.at - horizon
    ensures Push(h[k..], Some(r.value), r.at, horizon) == g[CoverStart(g, r.at - horizon)..]
  {
    hide CoverStart, Trim, SortedReadings;
    SliceOfAppend(h, k, r);
    TrimIsSuffix(g, k, r.at, horizon);
    var pushed := h[k..] + [Reading(r.at, r.value)];
    assert Push(h[k..], Some(r.value), r.at, horizon) == Trim(pushed, r.at, horizon);
  }

  /** Refinement: after any pushes with nondecreasing times the deque is the
      history since the last missing reading, cut at the latest reading at or
      before the boundary. */
  lemma {:induction false} WindowIsCoveringSuffix(events: seq<Event>, horizon: real)
    requires Nondecreasing(events) && events != []
    ensures var h := SinceMissing(events);
            Replay(events, horizon) == h[CoverStart(h, events[|events| - 1].at - horizon)..]
  {
    hide Trim, Push, Replay, SinceMissing, CoverStart, SortedReadings;
    var front, last := events[..|events| - 1], events[|events| - 1];
    LastEvent(events, horizon);
    if last.value.Some? {
      var h' := SinceMissing(front);
      var r := Reading(last.at, last.value.value);
      SinceMissingSorted(events);
      if front == [] {
        PushExtendsSuffix(h', 0, r, SinceMissing(events), horizon);
      } else {
        WindowIsCoveringSuffix(front, horizon);
        assert front[|front| - 1].at <= last.at;
        PushExtendsSuffix(h', CoverStart(h', front[|front| - 1].at - horizon), r, SinceMissing(events), horizon);
      }
    }
  }

  lemma {:induction false} LastEvent(events: seq<Event>, horizon: real)
    requires events != []
    ensures var front, last := events[..|events| - 1], events[|events| - 1];
            && Replay(events, horizon) == Push(Replay(front, horizon), last.value, last.at, horizon)
            && SinceMissing(events) == match last.value { case None => [] case Some(v) => SinceMissing(front) + [Reading(last.at, v)] }
            && (last.value.None? ==> Replay(events, horizon) == [])
            && (front == [] ==> Replay(front, horizon) == SinceMissing(front)[0..])
  {
  }

  /** From index k on, no two readings differ by more than the tolerance. */
  ghost predicate FlatFrom(h: seq<Reading>, k: nat, tolerance: real) {
    forall i, j :: k <= i < |h| && k <= j < |h| ==> h[i].value - h[j].value <= tolerance
  }

  lemma {:induction false} LowHighAreExtremes(w: seq<Reading>)
    requires w != []
    ensures forall i :: 0 <= i < |w| ==> Low(w) <= w[i].value <= High(w)
    ensures exists i :: 0 <= i < |w| && w[i].value == Low(w)
    ensures exists i :: 0 <= i < |w| && w[i].value == High(w)
  {
    if |w| > 1 {
      var front := w[..|w| - 1];
      LowHighAreExtremes(front);
      assert forall i :: 0 <= i < |front| ==> w[i] == front[i];
      var i :| 0 <= i < |front| && front[i].value == Low(front);
      var j :| 0 <= j < |front| && front[j].value == High(front);
      var lo := if Low(front) <= w[|w| - 1].value then i else |w| - 1;
      var hi := if High(front) >= w[|w| - 1].value then j else |w| - 1;
      assert w[lo].value == Low(w) && w[hi].value == High(w);
    } else {
      assert w[0].value == Low(w) && w[0].value == High(w);
    }
  }

  /** A span test passes exactly when no two readings differ by more than
      the tolerance and the first and last are a horizon apart. */
  lemma {:induction false} SpanWithinMeaning(w: seq<Reading>, horizon: real, tolerance: real)
    ensures SpanWithin(w, horizon, tolerance) <==>
            && w != []
            && w[|w| - 1].at - w[0].at >= horizon
            && FlatFrom(w, 0, tolerance)
  {
    if w != [] {
      LowHighAreExtremes(w);
      var i :| 0 <= i < |w| && w[i].value == High(w);
      var j :| 0 <= j < |w| && w[j].value == Low(w);
    }
  }

  lemma {:induction false} SuffixSpan(h: seq<Reading>, k: nat, now: real, horizon: real, tolerance: real)
    requires SortedReadings(h) && k < |h| && h[|h| - 1].at == now
    requires k == 0 || h[k].at <= now - horizon
    requires forall i :: k < i < |h| ==> h[i].at > now - horizon
    ensures SpanWithin(h[k..], horizon, tolerance) <==>
              && now - h[0].at >= horizon
              && FlatFrom(h, k, tolerance)
  {
    var w := h[k..];
    SpanWithinMeaning(w, horizon, tolerance);
    assert forall i :: k <= i < |h| ==> h[i] == w[i - k];
    assert forall i :: 0 <= i < |w| ==> w[i] == h[i + k];
    assert w[|w| - 1] == h[|h| - 1] && w[0] == h[k];
    assert h[0].at <= h[k].at;
  }

  lemma {:induction false} LastIsNow(events: seq<Event>)
    requires SinceMissing(events) != []
    ensures events != []
    ensures var h := SinceMissing(events); h[|h| - 1].at == events[|events| - 1].at
  {
  }

  /** The flatness gate in terms of the whole history: the history since the
      last missing reading reaches back a full horizon, and from the covering
      reading on no two values differ by more than the tolerance. */
  lemma {:induction false} FlatMeansHistoryFlat(events: seq<Event>, horizon: real, tolerance: real)
    requires Nondecreasing(events) && events != []
    ensures var h := SinceMissing(events);
            var now := events[|events| - 1].at;
            SpanWithin(Replay(events, horizon), horizon, tolerance) <==>
              && h != []
              && now - h[0].at >= horizon
              && FlatFrom(h, CoverStart(h, now - horizon), tolerance)
  {
    hide Replay, FlatFrom, SinceMissing, Nondecreasing, SortedReadings, CoverStart, SpanWithin;
    var h := SinceMissing(events);
    var now := events[|events| - 1].at;
    var k := CoverStart(h, now - horizon);
    WindowIsCoveringSuffix(events, horizon);
    SinceMissingSorted(events);
    if h == [] {
      EmptyHistoryIsNotFlat(events, horizon, tolerance);
    } else {
      LastIsNow(events);
      SuffixSpan(h, k, now, horizon, tolerance);
    }
  }

  lemma {:induction false} EmptyHistoryIsNotFlat(events: seq<Event>, horizon: real, tolerance: real)
    requires Nondecreasing(events) && events != [] && SinceMissing(events) == []
    ensures !SpanWithin(Replay(events, horizon), horizon, tolerance)
  {
    hide SinceMissing, Nondecreasing;
    WindowIsCoveringSuffix(events, horizon);
  }
}
