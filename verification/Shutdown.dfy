/** The shutdown protocol: main, the controller thread and the final restore
    as interleaved steps over shared flags and the hardware. A write is its
    fence check with the start of the external call; the call may land any
    number of steps later, or never. */
module Shutdown {
  import opened Prelude

  const GRACE_POLLS: nat := 20

  datatype Main = Running | Raised | Joining | Reaping | Dropping | Polling(left: nat) | Finished | Exited

  /** Past the fence of a reassert, the GPU write is not checked again. */
  datatype Controller = Selecting | Serving | Reasserting | Writing(inReassert: bool) | Restoring | Marking | Ended | Unwinding | Dead

  datatype State = State(
    shutdown: bool, quit: bool, restored: bool, capped: bool, main: Main, ctl: Controller,
    // What happened: writes started after shutdown, restores completed,
    // whether the controller was past a reassert's fence when the flag went
    // up, and whether a write was still possible at the fresh restore.
    lateStarts: nat, restores: nat, pastFenceAtRaise: bool, caughtMidWrite: bool)

  const START := State(false, false, false, false, Running, Selecting, 0, 0, false, false)

  datatype Action =
    // main
    | Raise | SendQuit | JoinEnds | JoinTimesOut | Reap | FinalCheck | Poll | FreshRestore | Exit
    // controller
    | TakeSample | DropSample | TakeCommand | TakeQuit
    | StartWrite | SkipWrite | EnterReassert | MaintainCpu | ReassertGpu | LeaveReassert
    | Land | Fail | Release | FinishService
    | RestoreAll | MarkRestored | Panic | Unwind

  predicate OfMain(a: Action) {
    a.Raise? || a.SendQuit? || a.JoinEnds? || a.JoinTimesOut? || a.Reap? || a.FinalCheck? || a.Poll? || a.FreshRestore? || a.Exit?
  }

  predicate PastFence(c: Controller) {
    c.Reasserting? || (c.Writing? && c.inReassert)
  }

  predicate MidWrite(c: Controller) {
    c.Reasserting? || c.Writing?
  }

  predicate Enabled(s: State, a: Action) {
    s.main != Exited &&
    match a
    case Raise => s.main == Running
    case SendQuit => s.main == Raised
    case JoinEnds => s.main == Joining && (s.ctl == Ended || s.ctl == Dead)
    case JoinTimesOut => s.main == Joining
    case Reap => s.main == Reaping
    case FinalCheck => s.main == Dropping
    case Poll => s.main.Polling? && s.main.left > 0
    case FreshRestore => s.main == Polling(0)
    case Exit => s.main == Finished
    case TakeSample => s.ctl == Selecting && !s.shutdown
    case DropSample => s.ctl == Selecting && s.shutdown
    case TakeCommand => s.ctl == Selecting
    case TakeQuit => s.ctl == Selecting && s.quit
    case StartWrite => s.ctl == Serving && !s.shutdown
    case SkipWrite => s.ctl == Serving && s.shutdown
    case EnterReassert => s.ctl == Serving && !s.shutdown
    case MaintainCpu => s.ctl == Reasserting && !s.shutdown
    case ReassertGpu => s.ctl == Reasserting
    case LeaveReassert => s.ctl == Reasserting
    case Land => s.ctl.Writing?
    case Fail => s.ctl.Writing?
    case Release => s.ctl == Serving
    case FinishService => s.ctl == Serving
    case RestoreAll => s.ctl == Restoring
    case MarkRestored => s.ctl == Marking
    case Panic => s.ctl == Serving || s.ctl == Reasserting || s.ctl == Restoring
    case Unwind => s.ctl == Unwinding
  }

  function Started(s: State, inReassert: bool): State {
    s.(ctl := Writing(inReassert), lateStarts := s.lateStarts + if s.shutdown then 1 else 0)
  }

  function After(s: State): Controller
    requires s.ctl.Writing?
  {
    if s.ctl.inReassert then Reasserting else Serving
  }

  function Do(s: State, a: Action): State
    requires Enabled(s, a)
  {
    match a
    case Raise => s.(main := Raised, shutdown := true, pastFenceAtRaise := PastFence(s.ctl))
    case SendQuit => s.(main := Joining, quit := true)
    case JoinEnds => s.(main := Reaping)
    case JoinTimesOut => s.(main := Reaping)
    case Reap => s.(main := Dropping)
    case FinalCheck => s.(main := if s.restored then Finished else Polling(GRACE_POLLS))
    case Poll => s.(main := if s.restored then Finished else Polling(s.main.left - 1))
    case FreshRestore => s.(main := Finished, capped := false, restores := s.restores + 1, caughtMidWrite := MidWrite(s.ctl))
    case Exit => s.(main := Exited)
    case TakeSample => s.(ctl := Serving)
    case DropSample => s
    case TakeCommand => s.(ctl := Serving)
    case TakeQuit => s.(ctl := Restoring)
    case StartWrite => Started(s, false)
    case SkipWrite => s
    case EnterReassert => s.(ctl := Reasserting)
    case MaintainCpu => Started(s, true)
    case ReassertGpu => Started(s, false)
    case LeaveReassert => s.(ctl := Serving)
    case Land => s.(ctl := After(s), capped := true)
    case Fail => s.(ctl := After(s))
    case Release => s.(capped := false)
    case FinishService => s.(ctl := Selecting)
    case RestoreAll => s.(ctl := Marking, capped := false, restores := s.restores + 1)
    case MarkRestored => s.(ctl := Ended, restored := true)
    case Panic => s.(ctl := Unwinding)
    case Unwind => s.(ctl := Dead, capped := false, restores := s.restores + 1)
  }

  /** The state after an interleaving; None if some step was not possible. */
  function Run(s: State, actions: seq<Action>): Option<State> {
    if actions == [] then Some(s)
    else
      match Run(s, actions[..|actions| - 1])
      case None => None
      case Some(t) => if Enabled(t, actions[|actions| - 1]) then Some(Do(t, actions[|actions| - 1])) else None
  }

  // ---- Every interleaving ----

  predicate Fenced(s: State) {
    && (!s.shutdown ==> s.lateStarts == 0 && !s.pastFenceAtRaise)
    && s.lateStarts <= (if s.pastFenceAtRaise then 1 else 0)
    && (s.shutdown && PastFence(s.ctl) ==> s.pastFenceAtRaise && s.lateStarts == 0)
  }

  predicate Stock(s: State) {
    && (s.main == Running <==> !s.shutdown)
    && (s.quit ==> s.shutdown)
    && (s.ctl == Marking || s.ctl == Ended || s.ctl == Dead ==> !s.capped && s.restores > 0)
    && (s.restored ==> s.ctl == Ended)
    && (s.main == Finished || s.main == Exited ==>
          s.restores > 0 && (s.restored || s.caughtMidWrite || (!s.capped && !MidWrite(s.ctl))))
  }

  lemma {:induction false} StepKeeps(s: State, a: Action)
    requires Fenced(s) && Stock(s) && Enabled(s, a)
    ensures Fenced(Do(s, a)) && Stock(Do(s, a))
  {
    hide Run;
  }

  lemma {:induction false} RunKeeps(actions: seq<Action>)
    requires Run(START, actions).Some?
    ensures Fenced(Run(START, actions).value) && Stock(Run(START, actions).value)
  {
    if actions != [] {
      hide Fenced, Stock, Do, Enabled;
      var front := actions[..|actions| - 1];
      RunKeeps(front);
      StepKeeps(Run(START, front).value, actions[|actions| - 1]);
    } else {
      assert Fenced(START) && Stock(START);
    }
  }

  /** The fence: over every interleaving at most one cap write starts after
      the shutdown flag is up, and then only the GPU half of a reassert whose
      own fence had been passed before. */
  lemma {:induction false} NoWriteStartsAfterShutdown(actions: seq<Action>)
    requires Run(START, actions).Some?
    ensures var s := Run(START, actions).value;
            s.lateStarts <= 1 && (s.lateStarts == 1 ==> s.pastFenceAtRaise)
  {
    hide Run;
    RunKeeps(actions);
  }

  /** The process exits only after a restore, and leaves a cap in place only
      if the controller never reported its restore and was caught between a
      write's start (or a reassert's fence) and its landing. */
  lemma {:induction false} ExitLeavesStock(actions: seq<Action>)
    requires Run(START, actions).Some? && Run(START, actions).value.main == Exited
    ensures var s := Run(START, actions).value;
            && s.restores > 0
            && (s.capped ==> !s.restored && s.caughtMidWrite)
  {
    hide Run;
    RunKeeps(actions);
  }

  // ---- Atomic writes ----

  /** Main never moves while the controller is inside a write or a reassert. */
  ghost predicate Atomic(s: State, actions: seq<Action>) {
    forall i :: 0 <= i < |actions| && OfMain(actions[i]) && Run(s, actions[..i]).Some? ==> !MidWrite(Run(s, actions[..i]).value.ctl)
  }

  predicate Untouched(s: State) {
    !s.pastFenceAtRaise && !s.caughtMidWrite
  }

  lemma {:induction false} AtomicRunsAreUntouched(actions: seq<Action>)
    requires Run(START, actions).Some? && Atomic(START, actions)
    ensures Untouched(Run(START, actions).value)
  {
    if actions != [] {
      hide Enabled, MidWrite;
      var n := |actions| - 1;
      var front := actions[..n];
      forall i | 0 <= i < n && OfMain(front[i]) && Run(START, front[..i]).Some? ensures !MidWrite(Run(START, front[..i]).value.ctl) {
        assert front[..i] == actions[..i];
      }
      AtomicRunsAreUntouched(front);
      UntouchedStep(Run(START, front).value, actions[n]);
    }
  }

  lemma {:induction false} UntouchedStep(s: State, a: Action)
    requires Enabled(s, a) && Untouched(s) && (OfMain(a) ==> !MidWrite(s.ctl))
    ensures Untouched(Do(s, a))
  {
  }

  /** With writes and reasserts taken as single steps, no write ever starts
      after the flag and the process always exits with stock hardware. */
  lemma {:induction false} AtomicShutdownIsClean(actions: seq<Action>)
    requires Run(START, actions).Some? && Atomic(START, actions)
    ensures var s := Run(START, actions).value;
            && s.lateStarts == 0
            && (s.main == Exited ==> !s.capped && s.restores > 0)
  {
    hide Run, Atomic;
    RunKeeps(actions);
    AtomicRunsAreUntouched(actions);
  }

  // ---- The interleavings that do leave a cap ----

  /** The last steps of a shutdown that gives up on the controller, in order. */
  function GivesUp(polls: nat): seq<Action> {
    [Raise, SendQuit, JoinTimesOut, Reap, FinalCheck] + Polls(polls)
  }

  function Polls(n: nat): (r: seq<Action>)
    ensures |r| == n
  {
    if n == 0 then [] else Polls(n - 1) + [Poll]
  }

  lemma {:induction false} RunSnoc(s: State, actions: seq<Action>, a: Action)
    ensures Run(s, actions + [a]) ==
              match Run(s, actions) { case None => None case Some(t) => if Enabled(t, a) then Some(Do(t, a)) else None }
  {
    hide Enabled, Do;
    assert (actions + [a])[..|actions + [a]| - 1] == actions;
  }

  lemma {:induction false} RunAppend(s: State, a: seq<Action>, b: seq<Action>)
    ensures Run(s, a + b) == match Run(s, a) { case None => None case Some(t) => Run(t, b) }
  {
    hide Enabled, Do;
    if b == [] {
      assert a + b == a;
    } else {
      var n := |b| - 1;
      RunAppend(s, a, b[..n]);
      assert a + b == (a + b[..n]) + [b[n]];
      RunSnoc(s, a + b[..n], b[n]);
    }
  }

  lemma {:induction false} Then(s: State, actions: seq<Action>, t: State, a: Action)
    requires Run(s, actions) == Some(t) && Enabled(t, a)
    ensures Run(s, actions + [a]) == Some(Do(t, a))
  {
    hide Run;
    RunSnoc(s, actions, a);
  }

  lemma {:induction false} PollsRun(s: State, n: nat)
    requires s.main == Polling(GRACE_POLLS) && !s.restored && n <= GRACE_POLLS
    ensures Run(s, Polls(n)) == Some(s.(main := Polling(GRACE_POLLS - n)))
  {
    hide Run, PastFence, MidWrite;
    if n == 0 {
      EmptyRun(s);
    } else {
      PollsRun(s, n - 1);
      Then(s, Polls(n - 1), s.(main := Polling(GRACE_POLLS - (n - 1))), Poll);
    }
  }

  /** Main's five steps up to the grace polls. */
  lemma {:induction false} HeadRun(s: State)
    requires s.main == Running && !s.restored && !s.shutdown
    ensures Run(s, [Raise, SendQuit, JoinTimesOut, Reap, FinalCheck])
         == Some(s.(main := Polling(GRACE_POLLS), shutdown := true, quit := true, pastFenceAtRaise := PastFence(s.ctl)))
  {
    var s1 := s.(main := Raised, shutdown := true, pastFenceAtRaise := PastFence(s.ctl));
    var s2 := s1.(main := Joining, quit := true);
    EmptyRun(s);
    hide Run, PastFence;
    Then(s, [], s, Raise);
    assert [] + [Raise] == [Raise];
    Then(s, [Raise], s1, SendQuit);
    assert [Raise] + [SendQuit] == [Raise, SendQuit];
    Then(s, [Raise, SendQuit], s2, JoinTimesOut);
    assert [Raise, SendQuit] + [JoinTimesOut] == [Raise, SendQuit, JoinTimesOut];
    Then(s, [Raise, SendQuit, JoinTimesOut], s2.(main := Reaping), Reap);
    assert [Raise, SendQuit, JoinTimesOut] + [Reap] == [Raise, SendQuit, JoinTimesOut, Reap];
    Then(s, [Raise, SendQuit, JoinTimesOut, Reap], s2.(main := Dropping), FinalCheck);
    assert [Raise, SendQuit, JoinTimesOut, Reap] + [FinalCheck] == [Raise, SendQuit, JoinTimesOut, Reap, FinalCheck];
  }

  lemma {:induction false} EmptyRun(s: State)
    ensures Run(s, []) == Some(s)
  {
  }

  lemma {:induction false} GivesUpRun(s: State)
    requires s.main == Running && !s.restored && !s.shutdown
    ensures Run(s, GivesUp(GRACE_POLLS))
         == Some(s.(main := Polling(0), shutdown := true, quit := true, pastFenceAtRaise := PastFence(s.ctl)))
  {
    hide Run, PastFence, Polls, Enabled, Do;
    var t := s.(main := Polling(GRACE_POLLS), shutdown := true, quit := true, pastFenceAtRaise := PastFence(s.ctl));
    HeadRun(s);
    PollsRun(t, GRACE_POLLS);
    RunAppend(s, [Raise, SendQuit, JoinTimesOut, Reap, FinalCheck], Polls(GRACE_POLLS));
  }

  /** The controller takes a sample and one more step before the shutdown. */
  lemma {:induction false} Caught(a: Action, s: State)
    requires Enabled(START.(ctl := Serving), a) && s == Do(START.(ctl := Serving), a) && !s.restored && !s.shutdown && s.main == Running
    ensures Run(START, [TakeSample, a] + GivesUp(GRACE_POLLS))
         == Some(s.(main := Polling(0), shutdown := true, quit := true, pastFenceAtRaise := PastFence(s.ctl)))
  {
    EmptyRun(START);
    hide Run, GivesUp, PastFence;
    Then(START, [], START, TakeSample);
    assert [] + [TakeSample] == [TakeSample];
    Then(START, [TakeSample], START.(ctl := Serving), a);
    assert [TakeSample] + [a] == [TakeSample, a];
    GivesUpRun(s);
    RunAppend(START, [TakeSample, a], GivesUp(GRACE_POLLS));
  }

  /** An interleaving that ends the process with a cap in place. */
  ghost predicate LeavesCap(actions: seq<Action>, lateStarts: nat) {
    && Run(START, actions).Some?
    && Run(START, actions).value.main == Exited && Run(START, actions).value.capped
    && Run(START, actions).value.lateStarts == lateStarts
  }

  lemma {:induction false} LandsAndExits(actions: seq<Action>, t: State)
    requires Run(START, actions) == Some(t) && t.main == Finished && t.ctl == Writing(false)
    ensures LeavesCap(actions + [Land] + [Exit], t.lateStarts)
  {
    hide Run;
    Then(START, actions, t, Land);
    Then(START, actions + [Land], t.(ctl := Serving, capped := true), Exit);
  }

  lemma {:induction false} FreshRestoreRuns(actions: seq<Action>, t: State)
    requires Run(START, actions) == Some(t) && t.main == Polling(0)
    ensures Run(START, actions + [FreshRestore])
         == Some(t.(main := Finished, capped := false, restores := t.restores + 1, caughtMidWrite := MidWrite(t.ctl)))
  {
    hide Run, MidWrite;
    Then(START, actions, t, FreshRestore);
  }

  /** A write under way when the join times out can land after the fresh
      restore and survive the exit. */
  lemma {:induction false} AbandonedWriteSurvives()
    ensures exists actions :: LeavesCap(actions, 0)
  {
    hide Run, GivesUp, LeavesCap;
    var s := START.(ctl := Writing(false));
    Caught(StartWrite, s);
    var actions := [TakeSample, StartWrite] + GivesUp(GRACE_POLLS);
    var t := s.(main := Polling(0), shutdown := true, quit := true);
    FreshRestoreRuns(actions, t);
    LandsAndExits(actions + [FreshRestore], t.(main := Finished, capped := false, restores := 1, caughtMidWrite := true));
  }

  /** A reassert past its fence can start its GPU write after the fresh
      restore. */
  lemma {:induction false} UnfencedReassertSurvives()
    ensures exists actions :: LeavesCap(actions, 1)
  {
    hide Run, GivesUp, LeavesCap;
    var s := START.(ctl := Reasserting);
    Caught(EnterReassert, s);
    var actions := [TakeSample, EnterReassert] + GivesUp(GRACE_POLLS);
    var t := s.(main := Polling(0), shutdown := true, quit := true, pastFenceAtRaise := true);
    FreshRestoreRuns(actions, t);
    var t1 := t.(main := Finished, capped := false, restores := 1, caughtMidWrite := true);
    ReassertStarts(actions + [FreshRestore], t1);
    LandsAndExits(actions + [FreshRestore] + [ReassertGpu], t1.(ctl := Writing(false), lateStarts := 1));
  }

  lemma {:induction false} ReassertStarts(actions: seq<Action>, t: State)
    requires Run(START, actions) == Some(t) && t.main != Exited && t.ctl == Reasserting && t.shutdown
    ensures Run(START, actions + [ReassertGpu]) == Some(t.(ctl := Writing(false), lateStarts := t.lateStarts + 1))
  {
    hide Run;
    Then(START, actions, t, ReassertGpu);
  }

  // ---- Exactly when a write can still come ----

  lemma {:induction false} HistoryBitsStay(s: State, more: seq<Action>)
    requires Run(s, more).Some?
    ensures s.main != Running ==> Run(s, more).value.main != Running && Run(s, more).value.pastFenceAtRaise == s.pastFenceAtRaise
    ensures s.main == Finished || s.main == Exited ==>
              var t := Run(s, more).value; (t.main == Finished || t.main == Exited) && t.caughtMidWrite == s.caughtMidWrite
  {
    if more != [] {
      hide Enabled, Do;
      var front := more[..|more| - 1];
      HistoryBitsStay(s, front);
      BitsStayOneStep(Run(s, front).value, more[|more| - 1]);
    }
  }

  lemma {:induction false} BitsStayOneStep(s: State, a: Action)
    requires Enabled(s, a)
    ensures s.main != Running ==> Do(s, a).main != Running && Do(s, a).pastFenceAtRaise == s.pastFenceAtRaise
    ensures s.main == Finished || s.main == Exited ==>
              (Do(s, a).main == Finished || Do(s, a).main == Exited) && Do(s, a).caughtMidWrite == s.caughtMidWrite
  {
    hide Run, PastFence, MidWrite;
    match a {
      case Raise =>
      case SendQuit =>
      case JoinEnds =>
      case JoinTimesOut =>
      case Reap =>
      case FinalCheck =>
      case Poll =>
      case FreshRestore =>
      case Exit =>
      case TakeSample =>
      case DropSample =>
      case TakeCommand =>
      case TakeQuit =>
      case StartWrite =>
      case SkipWrite =>
      case EnterReassert =>
      case MaintainCpu =>
      case ReassertGpu =>
      case LeaveReassert =>
      case Land =>
      case Fail =>
      case Release =>
      case FinishService =>
      case RestoreAll =>
      case MarkRestored =>
      case Panic =>
      case Unwind =>
    }
  }

  /** A continuation after which some cap write has started late. */
  ghost predicate CanStartLate(s: State) {
    exists more :: Run(s, more).Some? && Run(s, more).value.lateStarts > 0
  }

  /** A continuation that exits with a cap in place. */
  ghost predicate CanExitCapped(s: State) {
    exists more :: Run(s, more).Some? && Run(s, more).value.main == Exited && Run(s, more).value.capped
  }

  lemma {:induction false} LateAfter(s: State, t: State, more: seq<Action>)
    requires Run(s, more) == Some(t) && t.main != Exited && t.ctl == Reasserting && t.shutdown
    ensures CanStartLate(s)
  {
    hide Run;
    Then(s, more, t, ReassertGpu);
  }

  /** Exactly when the fence can be passed: in every reachable state in which
      the flag goes up, some continuation starts a cap write afterwards if and
      only if the controller is past the fence of a reassert just then. */
  lemma {:induction false} LateStartExactlyPastFence(actions: seq<Action>)
    requires Run(START, actions).Some? && Run(START, actions).value.main == Running
    ensures var s := Run(START, actions).value; CanStartLate(Do(s, Raise)) <==> PastFence(s.ctl)
  {
    var s := Run(START, actions).value;
    var t := Do(s, Raise);
    RunKeeps(actions);
    EmptyRun(t);
    hide Run;
    if PastFence(s.ctl) {
      if s.ctl == Reasserting {
        LateAfter(t, t, []);
      } else {
        Then(t, [], t, Land);
        LateAfter(t, Do(t, Land), [] + [Land]);
      }
    }
    if more :| Run(t, more).Some? && Run(t, more).value.lateStarts > 0 {
      Then(START, actions, s, Raise);
      RunAppend(START, actions + [Raise], more);
      NoWriteStartsAfterShutdown(actions + [Raise] + more);
      HistoryBitsStay(t, more);
    }
  }

  lemma {:induction false} CappedAfter(s: State, t: State, more: seq<Action>)
    requires Run(s, more) == Some(t) && t.main == Finished && t.ctl.Writing?
    ensures CanExitCapped(s)
  {
    hide Run;
    Then(s, more, t, Land);
    Then(s, more + [Land], Do(t, Land), Exit);
  }

  /** Exactly when the last restore can be undone: in every reachable state in
      which main restores with fresh actuators, some continuation exits with a
      cap in place if and only if the controller is inside a write or past a
      reassert's fence at that moment. */
  lemma {:induction false} CapSurvivesExactlyMidWrite(actions: seq<Action>)
    requires Run(START, actions).Some? && Run(START, actions).value.main == Polling(0)
    ensures var s := Run(START, actions).value; CanExitCapped(Do(s, FreshRestore)) <==> MidWrite(s.ctl)
  {
    var s := Run(START, actions).value;
    var t := Do(s, FreshRestore);
    EmptyRun(t);
    hide Run;
    if MidWrite(s.ctl) {
      if s.ctl == Reasserting {
        Then(t, [], t, ReassertGpu);
        CappedAfter(t, Do(t, ReassertGpu), [] + [ReassertGpu]);
      } else {
        CappedAfter(t, t, []);
      }
    }
    if more :| Run(t, more).Some? && Run(t, more).value.main == Exited && Run(t, more).value.capped {
      Then(START, actions, s, FreshRestore);
      RunAppend(START, actions + [FreshRestore], more);
      ExitLeavesStock(actions + [FreshRestore] + more);
      HistoryBitsStay(t, more);
    }
  }

  // ---- Main always gets through ----

  function StepsLeft(m: Main): nat {
    match m
    case Running => GRACE_POLLS + 8
    case Raised => GRACE_POLLS + 7
    case Joining => GRACE_POLLS + 6
    case Reaping => GRACE_POLLS + 5
    case Dropping => GRACE_POLLS + 4
    case Polling(left) => left + 3
    case Finished => 1
    case Exited => 0
  }

  function MainSteps(actions: seq<Action>): nat {
    if actions == [] then 0 else MainSteps(actions[..|actions| - 1]) + if OfMain(actions[|actions| - 1]) then 1 else 0
  }

  predicate PollsBounded(m: Main) {
    m.Polling? ==> m.left <= GRACE_POLLS
  }

  lemma {:induction false} ControllerLeavesMain(s: State, a: Action)
    requires Enabled(s, a) && !OfMain(a)
    ensures Do(s, a).main == s.main
  {
    hide Run, PastFence, MidWrite;
    match a {
      case TakeSample =>
      case DropSample =>
      case TakeCommand =>
      case TakeQuit =>
      case StartWrite =>
      case SkipWrite =>
      case EnterReassert =>
      case MaintainCpu =>
      case ReassertGpu =>
      case LeaveReassert =>
      case Land =>
      case Fail =>
      case Release =>
      case FinishService =>
      case RestoreAll =>
      case MarkRestored =>
      case Panic =>
      case Unwind =>
      case _ => assert false;
    }
  }

  lemma {:induction false} MainStepSpends(s: State, a: Action)
    requires Enabled(s, a) && OfMain(a) && PollsBounded(s.main)
    ensures PollsBounded(Do(s, a).main)
    ensures StepsLeft(Do(s, a).main) < StepsLeft(s.main)
  {
    hide Run, PastFence, MidWrite;
    match a {
      case Raise =>
      case SendQuit =>
      case JoinEnds =>
      case JoinTimesOut =>
      case Reap =>
      case FinalCheck =>
      case Poll =>
      case FreshRestore =>
      case Exit =>
      case _ => assert false;
    }
  }

  lemma {:induction false} MainIsBounded(actions: seq<Action>)
    requires Run(START, actions).Some?
    ensures PollsBounded(Run(START, actions).value.main)
    ensures MainSteps(actions) + StepsLeft(Run(START, actions).value.main) <= GRACE_POLLS + 8
  {
    if actions != [] {
      hide Enabled, Do, StepsLeft;
      var front := actions[..|actions| - 1];
      MainIsBounded(front);
      var a := actions[|actions| - 1];
      if OfMain(a) {
        MainStepSpends(Run(START, front).value, a);
      } else {
        ControllerLeavesMain(Run(START, front).value, a);
      }
    }
  }

  /** Whatever the controller does or fails to do, main always has a next step
      and reaches the exit within 28 of its own. */
  lemma {:induction false} MainNeverWaitsForever(actions: seq<Action>)
    requires Run(START, actions).Some?
    ensures var s := Run(START, actions).value;
            && MainSteps(actions) <= GRACE_POLLS + 8
            && (s.main != Exited ==> exists a :: OfMain(a) && Enabled(s, a))
  {
    hide Run, MainSteps;
    MainIsBounded(actions);
    var s := Run(START, actions).value;
    if s.main != Exited {
      var a := match s.main
        case Running => Raise
        case Raised => SendQuit
        case Joining => JoinTimesOut
        case Reaping => Reap
        case Dropping => FinalCheck
        case Polling(left) => if left > 0 then Poll else FreshRestore
        case Finished => Exit
        case Exited => Raise;
      assert OfMain(a) && Enabled(s, a);
    }
  }
}
