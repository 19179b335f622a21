/** Read-back verification of the GPU clock lock: each sample is paired with
    the command in force when it was acquired, and three violations in a row
    make a mismatch. */
module GpuVerify {
  import opened Prelude

  const MIN_MAX_CLOCK_MHZ: nat := 1000
  const MAX_MAX_CLOCK_MHZ: nat := 3090
  const UTIL_FLOOR_PCT := 90.0
  const CLOCK_SLACK_MHZ: nat := 30
  const VERIFY_STRIKES: nat := 3
  const LAG_WINDOW_S := 1.0
  const KEPT_COMMANDS: nat := 3

  function ClampGpuClock(mhz: nat): nat {
    ClampN(mhz, MIN_MAX_CLOCK_MHZ, MAX_MAX_CLOCK_MHZ)
  }

  datatype Command = Command(locked: nat, completedAt: real)

  datatype Verdict = Unverifiable | Verified(mhz: nat) | Mismatch(ceiling: nat, read: nat)

  /** One sample's evidence. */
  datatype Reading = Reading(util: real, sm: nat, at: real, commands: seq<Command>)

  /** Index of the latest command completed by the time of the sample. */
  function PairedIndex(commands: seq<Command>, at: real): (i: Option<nat>)
    ensures i.Some? ==> i.value < |commands| && commands[i.value].completedAt <= at
    ensures forall j :: (if i.Some? then i.value + 1 else 0) <= j < |commands| ==> commands[j].completedAt > at
  {
    if commands == [] then None
    else if commands[|commands| - 1].completedAt <= at then Some(|commands| - 1)
    else PairedIndex(commands[..|commands| - 1], at)
  }

  /** A descent at index i, at most a second old. */
  predicate RecentDescent(commands: seq<Command>, i: nat, at: real) {
    && 0 < i < |commands|
    && commands[i].locked < commands[i - 1].locked
    && at - commands[i].completedAt <= LAG_WINDOW_S
  }

  /** The lock a sample is held to; None when no command can be paired. */
  function Allowed(commands: seq<Command>, at: real): Option<nat> {
    match PairedIndex(commands, at)
    case None => None
    case Some(i) => Some(if RecentDescent(commands, i, at) then commands[i - 1].locked else commands[i].locked)
  }

  function ScoreAgainst(streak: nat, util: real, sm: nat, lock: nat): (nat, Verdict) {
    if util <= UTIL_FLOOR_PCT then (0, Unverifiable)
    else if sm <= lock + CLOCK_SLACK_MHZ then (0, Verified(sm))
    else (streak + 1, if streak + 1 >= VERIFY_STRIKES then Mismatch(lock + CLOCK_SLACK_MHZ, sm) else Unverifiable)
  }

  function Score(streak: nat, r: Reading): (nat, Verdict) {
    match Allowed(r.commands, r.at)
    case None => (streak, Unverifiable)
    case Some(lock) => ScoreAgainst(streak, r.util, r.sm, lock)
  }

  class GpuLockVerifier {
    var violationStreak: nat

    constructor ()
      ensures violationStreak == 0
    {
      violationStreak := 0;
    }

    method VerifyAgainstLock(util: real, sm: nat, lock: nat) returns (verdict: Verdict)
      modifies this
      ensures (violationStreak, verdict) == ScoreAgainst(old(violationStreak), util, sm, lock)
    {
      if util <= UTIL_FLOOR_PCT {
        violationStreak := 0;
        return Unverifiable;
      }
      var ceiling := lock + CLOCK_SLACK_MHZ;
      if sm <= ceiling {
        violationStreak := 0;
        return Verified(sm);
      }
      violationStreak := violationStreak + 1;
      if violationStreak >= VERIFY_STRIKES {
        return Mismatch(ceiling, sm);
      }
      return Unverifiable;
    }

    method VerifyPaired(r: Reading) returns (verdict: Verdict)
      modifies this
      ensures (violationStreak, verdict) == Score(old(violationStreak), r)
    {
      var index := LatestCompleted(r.commands, r.at);
      if index.None? {
        return Unverifiable;
      }
      var i := index.value;
      var lock := r.commands[i].locked;
      if i > 0 && lock < r.commands[i - 1].locked && r.at - r.commands[i].completedAt <= LAG_WINDOW_S {
        lock := if lock >= r.commands[i - 1].locked then lock else r.commands[i - 1].locked;
      }
      verdict := VerifyAgainstLock(r.util, r.sm, lock);
    }
  }

  /** The backwards search for the paired command. */
  method LatestCompleted(commands: seq<Command>, at: real) returns (index: Option<nat>)
    ensures index == PairedIndex(commands, at)
  {
    var i := |commands|;
    assert commands[..i] == commands;
    while i > 0
      invariant i <= |commands|
      invariant PairedIndex(commands, at) == PairedIndex(commands[..i], at)
    {
      i := i - 1;
      if commands[i].completedAt <= at {
        return Some(i);
      }
      assert commands[..i + 1][..i] == commands[..i];
    }
    return None;
  }

  // ---- The verdict as a predicate over the readings ----

  predicate Paired(r: Reading) {
    Allowed(r.commands, r.at).Some?
  }

  /** Over 90 % load and above the allowed lock by more than the slack. */
  predicate Violates(r: Reading) {
    Paired(r) && r.util > UTIL_FLOOR_PCT && r.sm > Allowed(r.commands, r.at).value + CLOCK_SLACK_MHZ
  }

  function StreakAfter(h: seq<Reading>): nat {
    if h == [] then 0 else Score(StreakAfter(h[..|h| - 1]), h[|h| - 1]).0
  }

  function PairedOnly(h: seq<Reading>): seq<Reading> {
    if h == [] then []
    else if Paired(h[|h| - 1]) then PairedOnly(h[..|h| - 1]) + [h[|h| - 1]]
    else PairedOnly(h[..|h| - 1])
  }

  /** The streak is the length of the violating tail of the paired readings. */
  ghost predicate ViolatingTail(p: seq<Reading>, n: nat) {
    && n <= |p|
    && (forall i :: |p| - n <= i < |p| ==> Violates(p[i]))
    && (n < |p| ==> !Violates(p[|p| - n - 1]))
  }

  lemma {:induction false} StreakIsViolatingTail(h: seq<Reading>)
    ensures ViolatingTail(PairedOnly(h), StreakAfter(h))
  {
    hide Allowed;
    if h != [] {
      var front, last := h[..|h| - 1], h[|h| - 1];
      StreakIsViolatingTail(front);
      if Paired(last) {
        var p := PairedOnly(front);
        assert forall i :: 0 <= i < |p| ==> (p + [last])[i] == p[i];
      }
    }
  }

  predicate LastThreeViolate(p: seq<Reading>) {
    |p| >= VERIFY_STRIKES && Violates(p[|p| - 1]) && Violates(p[|p| - 2]) && Violates(p[|p| - 3])
  }

  /** A mismatch is reported exactly when the reading is paired and the last
      three paired readings, unpaired ones ignored, were all violations. */
  lemma {:induction false} MismatchMeaning(h: seq<Reading>, r: Reading)
    ensures Score(StreakAfter(h), r).1.Mismatch? <==> Paired(r) && LastThreeViolate(PairedOnly(h + [r]))
    ensures Score(StreakAfter(h), r).1.Verified? <==> Paired(r) && r.util > UTIL_FLOOR_PCT && !Violates(r)
  {
    StreakIsViolatingTail(h);
    var p := PairedOnly(h);
    assert (h + [r])[..|h + [r]| - 1] == h;
    hide Allowed, StreakAfter;
    assert PairedOnly(h + [r]) == if Paired(r) then p + [r] else p;
    assert forall i :: 0 <= i < |p| ==> (p + [r])[i] == p[i];
    if |p| >= 2 {
      assert StreakAfter(h) >= 2 <==> Violates(p[|p| - 1]) && Violates(p[|p| - 2]);
    }
  }

  // ---- Keeping only the last three commands ----

  function Kept(history: seq<Command>): seq<Command> {
    if |history| <= KEPT_COMMANDS then history else history[|history| - KEPT_COMMANDS..]
  }

  /** Appends a completed command and drops the oldest beyond three. */
  method RecordGpuCommand(commands: seq<Command>, applied: nat, completedAt: real) returns (kept: seq<Command>)
    ensures kept == Kept(commands + [Command(applied, completedAt)])
  {
    kept := commands + [Command(applied, completedAt)];
    ghost var all := kept;
    ghost var dropped := 0;
    while |kept| > KEPT_COMMANDS
      invariant 0 <= dropped <= |all| && kept == all[dropped..]
      invariant dropped > 0 ==> |kept| >= KEPT_COMMANDS
    {
      kept := kept[1..];
      dropped := dropped + 1;
    }
  }

  /** Recording one command at a time keeps the last three of the history. */
  lemma {:induction false} RecordingKeepsLastThree(history: seq<Command>, c: Command)
    ensures Kept(Kept(history) + [c]) == Kept(history + [c])
  {
    if |history| > KEPT_COMMANDS {
      var n := |history| - KEPT_COMMANDS;
      assert history[n..] + [c] == (history + [c])[n..];
    }
  }

  lemma {:induction false} PairedIndexOfSuffix(history: seq<Command>, k: nat, at: real)
    requires k <= |history|
    ensures PairedIndex(history[k..], at) ==
              match PairedIndex(history, at) { case None => None case Some(i) => if i >= k then Some(i - k) else None }
  {
    var kept := history[k..];
    assert forall j :: 0 <= j < |kept| ==> kept[j] == history[j + k];
    assert forall j :: k <= j < |history| ==> history[j] == kept[j - k];
  }

  /** The command a sample pairs with was dropped, or is the oldest kept and a
      descent of the last second, whose predecessor was dropped. */
  predicate Forgotten(history: seq<Command>, at: real) {
    && |history| > KEPT_COMMANDS && PairedIndex(history, at).Some?
    && var i := PairedIndex(history, at).value;
       i < |history| - KEPT_COMMANDS || (i == |history| - KEPT_COMMANDS && RecentDescent(history, i, at))
  }

  /** Truncation changes what a sample is allowed exactly when it forgot what
      the sample is judged by. */
  lemma {:induction false} TruncationKeepsAllowance(history: seq<Command>, at: real)
    ensures Allowed(Kept(history), at) == Allowed(history, at) <==> !Forgotten(history, at)
  {
    hide Allowed, PairedIndex, RecentDescent;
    if |history| > KEPT_COMMANDS {
      SuffixAllowance(history, |history| - KEPT_COMMANDS, at);
    }
  }

  lemma {:induction false} SuffixAllowance(history: seq<Command>, k: nat, at: real)
    requires k <= |history|
    ensures var i := PairedIndex(history, at);
            Allowed(history[k..], at) == Allowed(history, at) <==>
              k == 0 || i.None? || i.value > k || (i.value == k && !RecentDescent(history, k, at))
  {
    hide PairedIndex, RecentDescent;
    var i := PairedIndex(history, at);
    PairedIndexOfSuffix(history, k, at);
    if i.Some? && i.value >= k {
      SuffixDescent(history, k, i.value, at);
    }
    if k == 0 {
      assert history[k..] == history;
    }
  }

  lemma {:induction false} SuffixDescent(history: seq<Command>, k: nat, i: nat, at: real)
    requires k <= i < |history|
    ensures RecentDescent(history[k..], i - k, at) <==> i > k && RecentDescent(history, i, at)
    ensures history[k..][i - k] == history[i]
    ensures i > k ==> history[k..][i - k - 1] == history[i - 1]
    ensures RecentDescent(history, i, at) ==> i > 0 && history[i - 1].locked != history[i].locked
  {
  }

  // ---- A card that lags one command behind ----

  /** The clock obeys the paired command or, within a second of its completion,
      the command before it. */
  predicate OneCommandBehind(r: Reading) {
    match PairedIndex(r.commands, r.at)
    case None => true
    case Some(i) =>
      || r.sm <= r.commands[i].locked + CLOCK_SLACK_MHZ
      || (i > 0 && r.at - r.commands[i].completedAt <= LAG_WINDOW_S && r.sm <= r.commands[i - 1].locked + CLOCK_SLACK_MHZ)
  }

  /** The exact law of one reading: it violates when the card is loaded and
      obeys neither its command nor, in the first second, the one before. */
  lemma {:induction false} ViolatesExactly(r: Reading)
    requires Paired(r)
    ensures Violates(r) <==> r.util > 90.0 && !OneCommandBehind(r)
  {
    hide PairedIndex;
  }

  /** The paired command's lock, or the one before while that is higher and the
      paired one a second old at most; 0 when nothing is paired. */
  function AllowedLock(r: Reading): nat {
    match PairedIndex(r.commands, r.at)
    case None => 0
    case Some(i) =>
      if i > 0 && r.at - r.commands[i].completedAt <= 1.0 && r.commands[i - 1].locked > r.commands[i].locked
      then r.commands[i - 1].locked else r.commands[i].locked
  }

  /** The exact law of a run: a mismatch is reported when a reading is paired
      and the last three paired readings were all loaded and more than one
      command or more than one second behind; it names the clock read. */
  lemma {:induction false} MismatchExactly(h: seq<Reading>, r: Reading)
    ensures var verdict, p := Score(StreakAfter(h), r).1, PairedOnly(h + [r]);
            && (verdict.Mismatch? <==>
                  && PairedIndex(r.commands, r.at).Some? && |p| >= 3
                  && forall i :: |p| - 3 <= i < |p| ==> p[i].util > 90.0 && !OneCommandBehind(p[i]))
            && (verdict.Verified? <==> PairedIndex(r.commands, r.at).Some? && r.util > 90.0 && OneCommandBehind(r))
            && (verdict.Mismatch? ==> verdict.read == r.sm && verdict.ceiling == AllowedLock(r) + 30)
            && (verdict.Verified? ==> verdict.mhz == r.sm)
  {
    MismatchMeaning(h, r);
    hide OneCommandBehind, StreakAfter, Violates;
    var p := PairedOnly(h + [r]);
    PairedOnlyPairs(h + [r]);
    forall i | 0 <= i < |p| ensures Violates(p[i]) <==> p[i].util > 90.0 && !OneCommandBehind(p[i]) {
      ViolatesExactly(p[i]);
    }
    if Paired(r) {
      ViolatesExactly(r);
    }
  }

  lemma {:induction false} PairedOnlyPairs(h: seq<Reading>)
    ensures forall i :: 0 <= i < |PairedOnly(h)| ==> Paired(PairedOnly(h)[i])
  {
    hide Paired;
    if h != [] {
      PairedOnlyPairs(h[..|h| - 1]);
    }
  }

  /** A card that lags at most one command for at most a second is never
      struck, over any run. */
  lemma {:induction false} LaggingCardNeverStruck(h: seq<Reading>, r: Reading)
    requires forall i :: 0 <= i < |h| ==> OneCommandBehind(h[i])
    requires OneCommandBehind(r)
    ensures StreakAfter(h) == 0 && !Violates(r) && !Score(StreakAfter(h), r).1.Mismatch?
  {
    if h != [] {
      LaggingCardNeverStruck(h[..|h| - 1], h[|h| - 1]);
    }
  }

  // ---- The same card, judged by the three commands kept ----

  /** The reading as the verifier is shown it. */
  function Shown(r: Reading): Reading {
    r.(commands := Kept(r.commands))
  }

  function ShownAll(h: seq<Reading>): (shown: seq<Reading>)
    ensures |shown| == |h| && forall i :: 0 <= i < |h| ==> shown[i] == Shown(h[i])
  {
    seq(|h|, i requires 0 <= i < |h| => Shown(h[i]))
  }

  /** Readings of the run that truncation judges differently. */
  function ForgottenIn(h: seq<Reading>): nat {
    if h == [] then 0
    else ForgottenIn(h[..|h| - 1]) + if Forgotten(h[|h| - 1].commands, h[|h| - 1].at) then 1 else 0
  }

  lemma {:induction false} ShownStep(h: seq<Reading>, r: Reading)
    requires OneCommandBehind(r)
    ensures Score(StreakAfter(ShownAll(h)), Shown(r)).0 <= StreakAfter(ShownAll(h)) + if Forgotten(r.commands, r.at) then 1 else 0
    ensures Score(StreakAfter(ShownAll(h)), Shown(r)).1.Mismatch? ==> Forgotten(r.commands, r.at) && StreakAfter(ShownAll(h)) >= 2
  {
    TruncationKeepsAllowance(r.commands, r.at);
    hide StreakAfter, Kept, Forgotten, PairedIndex;
    if Allowed(Kept(r.commands), r.at) == Allowed(r.commands, r.at) {
      LaggingCardNeverStruck([], r);
    }
  }

  /** A card at most one command and one second behind the whole history, but
      judged by the last three commands, is struck only by readings that
      truncation judges differently: at least three of them, the last included. */
  lemma {:induction false} LaggingCardStruckOnlyByTruncation(h: seq<Reading>, r: Reading)
    requires forall i :: 0 <= i < |h| ==> OneCommandBehind(h[i])
    requires OneCommandBehind(r)
    ensures StreakAfter(ShownAll(h)) <= ForgottenIn(h)
    ensures Score(StreakAfter(ShownAll(h)), Shown(r)).1.Mismatch? ==> Forgotten(r.commands, r.at) && ForgottenIn(h) >= 2
  {
    hide Score, OneCommandBehind, Forgotten, Shown;
    if h != [] {
      var front, last := h[..|h| - 1], h[|h| - 1];
      LaggingCardStruckOnlyByTruncation(front, last);
      ShownStep(front, last);
      assert ShownAll(h)[..|h| - 1] == ShownAll(front);
    }
    ShownStep(h, r);
  }

  /** Four commands, and a reading between the second and the third: a descent
      of the last second whose predecessor is no longer kept. */
  const RUSHED := Reading(95.0, 3000, 0.5, [Command(3000, 0.0), Command(1000, 0.25), Command(1000, 0.75), Command(1000, 0.75)])

  /** Truncation can strike: three readings of a card one command behind. */
  lemma {:induction false} TruncationStrikesALaggingCard()
    ensures OneCommandBehind(RUSHED) && Forgotten(RUSHED.commands, RUSHED.at)
    ensures Score(StreakAfter(ShownAll([RUSHED, RUSHED])), Shown(RUSHED)).1.Mismatch?
  {
    RushedPairs();
    hide PairedIndex;
    var two := ShownAll([RUSHED, RUSHED]);
    assert two[..1] == [Shown(RUSHED)] && two[..1][..0] == [];
    assert StreakAfter(two[..1][..0]) == 0;
    assert Violates(Shown(RUSHED));
    assert StreakAfter(two[..1]) == 1 && StreakAfter(two) == 2;
  }

  lemma {:induction false} RushedPairs()
    ensures PairedIndex(RUSHED.commands, RUSHED.at) == Some(1)
    ensures PairedIndex(Kept(RUSHED.commands), RUSHED.at) == Some(0)
    ensures Kept(RUSHED.commands) == RUSHED.commands[1..]
  {
  }
}
