/** The per-actuator strike counter over read-back verdicts, and its value as
    a predicate over everything observed. */
module Verdicts {
  import opened Prelude

  const RELEASE_STRIKES: nat := 3
  const BLIND_STRIKES: nat := 6
  const U8_MAX: nat := 255

  datatype Verdict = Verified | Unreadable | Unverifiable | Mismatch

  datatype Outcome = Quiet | Recovered | Struck | Released | Blind

  datatype Counter = Counter(strikes: nat, unreadables: nat, released: bool, blind: bool) {
    predicate InEpisode() {
      strikes > 0 || released
    }
  }

  const FRESH := Counter(0, 0, false, false)

  function Score(c: Counter, verdict: Verdict, suppress: bool): (Counter, Outcome) {
    match verdict
    case Verified => (FRESH, if c.InEpisode() || c.blind then Recovered else Quiet)
    case Unreadable =>
      if suppress then (c, Quiet)
      else
        var n := MinN(c.unreadables + 1, U8_MAX);
        if n >= BLIND_STRIKES && !c.blind then (c.(unreadables := n, blind := true), Blind)
        else (c.(unreadables := n), Quiet)
    case Unverifiable => (c.(unreadables := 0), Quiet)
    case Mismatch =>
      var c' := c.(unreadables := 0);
      if suppress then (c', Quiet)
      else
        var n := MinN(c.strikes + 1, U8_MAX);
        if n >= RELEASE_STRIKES then (c'.(strikes := 0, released := true), Released)
        else (c'.(strikes := n), Struck)
  }

  class VerdictState {
    var mismatchStreak: nat
    var unreadableStreak: nat
    var released: bool
    var blind: bool

    ghost function Abs(): Counter
      reads this
    {
      Counter(mismatchStreak, unreadableStreak, released, blind)
    }

    constructor ()
      ensures Abs() == FRESH
    {
      mismatchStreak, unreadableStreak, released, blind := 0, 0, false, false;
    }

    method Observe(verdict: Verdict, suppress: bool) returns (outcome: Outcome)
      modifies this
      ensures (Abs(), outcome) == Score(old(Abs()), verdict, suppress)
    {
      match verdict {
        case Verified =>
          unreadableStreak := 0;
          var wasTrouble := mismatchStreak > 0 || released || blind;
          mismatchStreak, released, blind := 0, false, false;
          return if wasTrouble then Recovered else Quiet;
        case Unreadable =>
          if suppress {
            return Quiet;
          }
          unreadableStreak := MinN(unreadableStreak + 1, U8_MAX);
          if unreadableStreak >= BLIND_STRIKES && !blind {
            blind := true;
            return Blind;
          }
          return Quiet;
        case Unverifiable =>
          unreadableStreak := 0;
          return Quiet;
        case Mismatch =>
          unreadableStreak := 0;
          if suppress {
            return Quiet;
          }
          mismatchStreak := MinN(mismatchStreak + 1, U8_MAX);
          if mismatchStreak >= RELEASE_STRIKES {
            mismatchStreak, released := 0, true;
            return Released;
          }
          return Struck;
      }
    }
  }

  // ---- The counter as a predicate over its history ----

  datatype Seen = Seen(verdict: Verdict, suppress: bool)

  function After(h: seq<Seen>): Counter {
    if h == [] then FRESH
    else Score(After(h[..|h| - 1]), h[|h| - 1].verdict, h[|h| - 1].suppress).0
  }

  /** The outcome of one more observation. */
  function Next(h: seq<Seen>, s: Seen): Outcome {
    Score(After(h), s.verdict, s.suppress).1
  }

  predicate Strike(s: Seen) {
    s.verdict == Mismatch && !s.suppress
  }

  predicate Dark(s: Seen) {
    s.verdict == Unreadable && !s.suppress
  }

  /** Unsuppressed mismatches since the last verified read. */
  function Strikes(h: seq<Seen>): nat {
    if h == [] then 0
    else
      var last := h[|h| - 1];
      if last.verdict == Verified then 0
      else Strikes(h[..|h| - 1]) + if Strike(last) then 1 else 0
  }

  /** Unsuppressed unreadable reads in a stretch. */
  function Darks(h: seq<Seen>): nat {
    if h == [] then 0 else Darks(h[..|h| - 1]) + if Dark(h[|h| - 1]) then 1 else 0
  }

  predicate NoneVerified(h: seq<Seen>) {
    forall i :: 0 <= i < |h| ==> h[i].verdict != Verified
  }

  predicate Unbroken(h: seq<Seen>) {
    forall i :: 0 <= i < |h| ==> h[i].verdict != Mismatch && h[i].verdict != Unverifiable
  }

  /** Six unreadable reads between lo and hi with nothing readable between
      them, and no verified read since. */
  ghost predicate DarkStretch(h: seq<Seen>, lo: nat, hi: nat) {
    && lo <= hi <= |h|
    && NoneVerified(h[lo..]) && Unbroken(h[lo..hi]) && Darks(h[lo..hi]) >= BLIND_STRIKES
  }

  /** Start of the current unbroken stretch of unreadable reads. */
  function StretchStart(h: seq<Seen>): (k: nat)
    ensures k <= |h|
  {
    if h == [] then 0
    else
      match h[|h| - 1].verdict
      case Unreadable => StretchStart(h[..|h| - 1])
      case _ => |h|
  }

  lemma {:induction false} StrikesFollow(h: seq<Seen>)
    ensures After(h).strikes == Strikes(h) % RELEASE_STRIKES
    ensures After(h).released <==> Strikes(h) >= RELEASE_STRIKES
  {
    hide MinN;
    if h != [] {
      StrikesFollow(h[..|h| - 1]);
      var before := After(h[..|h| - 1]);
      hide After, Strikes;
      StrikeCycle(before, h[|h| - 1], Strikes(h[..|h| - 1]));
      StrikesUnfold(h);
    }
  }

  lemma {:induction false} StrikesUnfold(h: seq<Seen>)
    requires h != []
    ensures var front, last := h[..|h| - 1], h[|h| - 1];
            && After(h) == Score(After(front), last.verdict, last.suppress).0
            && Strikes(h) == if last.verdict == Verified then 0 else Strikes(front) + if Strike(last) then 1 else 0
  {
    hide Score;
  }

  lemma {:induction false} StrikeCycle(c: Counter, s: Seen, n: nat)
    requires c.strikes == n % RELEASE_STRIKES && (c.released <==> n >= RELEASE_STRIKES)
    ensures var c', n' := Score(c, s.verdict, s.suppress).0, if s.verdict == Verified then 0 else n + if Strike(s) then 1 else 0;
            c'.strikes == n' % RELEASE_STRIKES && (c'.released <==> n' >= RELEASE_STRIKES)
  {
    assert (n + 1) % RELEASE_STRIKES == if n % RELEASE_STRIKES + 1 == RELEASE_STRIKES then 0 else n % RELEASE_STRIKES + 1;
  }

  lemma {:induction false} StretchIsUnbroken(h: seq<Seen>)
    ensures NoneVerified(h[StretchStart(h)..]) && Unbroken(h[StretchStart(h)..])
  {
    hide After;
    if h != [] && h[|h| - 1].verdict == Unreadable {
      var front := h[..|h| - 1];
      StretchIsUnbroken(front);
      assert h[StretchStart(front)..] == front[StretchStart(front)..] + [h[|h| - 1]];
    }
  }

  lemma {:induction false} DarksFollow(h: seq<Seen>)
    ensures After(h).unreadables == MinN(Darks(h[StretchStart(h)..]), U8_MAX)
  {
    if h != [] {
      var front, last := h[..|h| - 1], h[|h| - 1];
      if last.verdict == Unreadable {
        DarksFollow(front);
        var k := StretchStart(front);
        var stretch := h[k..];
        assert stretch[..|stretch| - 1] == front[k..] && stretch[|stretch| - 1] == last;
      } else {
        assert h[StretchStart(h)..] == [];
      }
    }
  }

  ghost predicate StruckAt(h: seq<Seen>, i: nat) {
    i < |h| && Strike(h[i]) && NoneVerified(h[i..])
  }

  lemma {:induction false} StruckAtExtends(front: seq<Seen>, last: Seen, i: nat)
    requires i <= |front|
    ensures StruckAt(front + [last], i) <==>
              if i < |front| then StruckAt(front, i) && last.verdict != Verified else Strike(last)
  {
    var h := front + [last];
    assert h[i..] == front[i..] + [last];
    assert h[i..][|front| - i] == last;
    assert forall j :: 0 <= j < |front| - i ==> h[i..][j] == front[i..][j];
  }

  lemma {:induction false} StrikesSinceVerified(h: seq<Seen>)
    ensures Strikes(h) > 0 <==> exists i: nat :: StruckAt(h, i)
  {
    hide StruckAt;
    if h == [] {
      NeverStruckYet();
    } else {
      var front, last := h[..|h| - 1], h[|h| - 1];
      assert h == front + [last];
      StrikesSinceVerified(front);
      forall i: nat | i <= |front|
        ensures StruckAt(h, i) <==> if i < |front| then StruckAt(front, i) && last.verdict != Verified else Strike(last)
      {
        StruckAtExtends(front, last, i);
      }
      StruckInside(front);
      StruckInside(h);
      if Strikes(h) > 0 {
        if Strike(last) {
          assert StruckAt(h, |front|);
        } else {
          var i: nat :| StruckAt(front, i);
          assert StruckAt(h, i);
        }
      }
    }
  }

  lemma {:induction false} NeverStruckYet()
    ensures forall i: nat :: !StruckAt([], i)
  {
  }

  lemma {:induction false} StruckInside(h: seq<Seen>)
    ensures forall i: nat :: StruckAt(h, i) ==> i < |h|
  {
    hide NoneVerified;
  }

  /** An episode is exactly an unsuppressed mismatch since the last verified
      read; the release comes at every third one. */
  lemma {:induction false} EpisodeMeaning(h: seq<Seen>, s: Seen)
    ensures After(h).InEpisode() <==> exists i: nat :: StruckAt(h, i)
    ensures Next(h, s) == Released <==> Strike(s) && (Strikes(h) + 1) % RELEASE_STRIKES == 0
    ensures Next(h, s) == Struck <==> Strike(s) && (Strikes(h) + 1) % RELEASE_STRIKES != 0
  {
    hide Strikes, StruckAt, Darks, After;
    StrikesFollow(h);
    StrikesSinceVerified(h);
  }

  lemma {:induction false} DarkStretchExtends(h: seq<Seen>, s: Seen, lo: nat, hi: nat)
    requires hi <= |h|
    ensures DarkStretch(h + [s], lo, hi) <==> DarkStretch(h, lo, hi) && s.verdict != Verified
  {
    if lo <= hi {
      assert (h + [s])[lo..] == h[lo..] + [s];
      assert (h + [s])[lo..hi] == h[lo..hi];
      assert s.verdict == Verified ==> (h + [s])[lo..][|h| - lo].verdict == Verified;
      assert forall i :: 0 <= i < |h[lo..]| ==> (h + [s])[lo..][i] == h[lo..][i];
    }
  }

  lemma {:induction false} DarksGrow(a: seq<Seen>, b: seq<Seen>)
    ensures Darks(a + b) == Darks(a) + Darks(b)
  {
    if b == [] {
      assert a + b == a;
    } else {
      var n := |b| - 1;
      DarksGrow(a, b[..n]);
      assert (a + b)[..|a + b| - 1] == a + b[..n];
    }
  }

  /** A stretch that is unbroken up to now lies inside the current one. */
  lemma {:induction false} StretchIsLongest(h: seq<Seen>, lo: nat)
    requires lo <= |h| && NoneVerified(h[lo..]) && Unbroken(h[lo..])
    ensures StretchStart(h) <= lo
  {
    if lo < |h| {
      var front := h[..|h| - 1];
      assert h[lo..][|h| - 1 - lo] == h[|h| - 1];
      assert forall i :: 0 <= i < |front[lo..]| ==> front[lo..][i] == h[lo..][i];
      StretchIsLongest(front, lo);
    }
  }

  lemma {:induction false} CurrentStretchIsDark(h: seq<Seen>)
    ensures After(h).unreadables >= BLIND_STRIKES <==> exists lo: nat :: DarkStretch(h, lo, |h|)
  {
    hide NoneVerified, Unbroken, After, Darks, StretchStart;
    DarksFollow(h);
    StretchIsUnbroken(h);
    var k := StretchStart(h);
    assert h[k..|h|] == h[k..];
    if After(h).unreadables >= BLIND_STRIKES {
      assert DarkStretch(h, k, |h|);
    }
    if lo: nat :| DarkStretch(h, lo, |h|) {
      assert h[lo..|h|] == h[lo..];
      StretchIsLongest(h, lo);
      assert h[k..] == h[k..lo] + h[lo..];
      DarksGrow(h[k..lo], h[lo..]);
    }
  }

  /** Blindness is exactly six unsuppressed unreadable reads, with no mismatch
      and no unverifiable read between them, since the last verified read. */
  lemma {:induction false} BlindMeaning(h: seq<Seen>)
    ensures After(h).blind <==> exists lo: nat, hi: nat :: DarkStretch(h, lo, hi)
  {
    hide DarkStretch, Strikes, Darks;
    if h == [] {
      NoDarkStretchYet();
    } else {
      var front, last := h[..|h| - 1], h[|h| - 1];
      assert h == front + [last];
      BlindMeaning(front);
      forall lo: nat, hi: nat | hi <= |front|
        ensures DarkStretch(h, lo, hi) <==> DarkStretch(front, lo, hi) && last.verdict != Verified
      {
        DarkStretchExtends(front, last, lo, hi);
      }
      CurrentStretchIsDark(h);
      CurrentStretchIsDark(front);
      StretchBounds(h);
      StretchBounds(front);
    }
  }

  lemma {:induction false} NoDarkStretchYet()
    ensures forall lo: nat, hi: nat :: !DarkStretch([], lo, hi)
  {
  }

  lemma {:induction false} StretchBounds(h: seq<Seen>)
    ensures forall lo: nat, hi: nat :: DarkStretch(h, lo, hi) ==> hi <= |h|
  {
    hide NoneVerified, Unbroken, Darks;
  }

  /** Recovery is announced exactly by a verified read after trouble, and
      blindness exactly when it begins. */
  lemma {:induction false} AnnouncementsMatchHistory(h: seq<Seen>, s: Seen)
    ensures Next(h, s) == Recovered <==>
              s.verdict == Verified && ((exists i: nat :: StruckAt(h, i)) || exists lo: nat, hi: nat :: DarkStretch(h, lo, hi))
    ensures Next(h, s) == Blind <==>
              (forall lo: nat, hi: nat :: !DarkStretch(h, lo, hi)) && exists lo: nat, hi: nat :: DarkStretch(h + [s], lo, hi)
  {
    hide StruckAt, DarkStretch;
    EpisodeMeaning(h, s);
    BlindMeaning(h);
    BlindMeaning(h + [s]);
    assert (h + [s])[..|h + [s]| - 1] == h;
  }
}
