/** What each operation of the controller leaves on the hardware: the last
    operation on each part against the limits the status reports. */
module ControllerHardware {
  import opened Prelude
  import opened Controller
  import opened ControllerProofs
  import opened ControllerSessions
  import opened Runner
  import StepTest
  import G = GpuVerify
  import V = Verdicts

  /** What the controller drives: the CPU's power limit, the GPU's clock lock
      and the burner. */
  datatype Part = Processor | Card | Heater

  predicate Moves(p: Part, op: Operation) {
    match p
    case Processor => op == CapCpu || op == StockCpu || op == RestoreAll
    case Card => op == CapGpu || op == StockGpu || op == RestoreAll
    case Heater => op.Burner?
  }

  /** The last operation on a part, if any. */
  function LastOn(p: Part, ops: seq<Operation>): Option<Operation> {
    if ops == [] then None
    else if Moves(p, ops[|ops| - 1]) then Some(ops[|ops| - 1])
    else LastOn(p, ops[..|ops| - 1])
  }

  function Driven(p: Part): Operation {
    match p case Processor => CapCpu case Card => CapGpu case Heater => Burner(true)
  }

  function Stocked(p: Part): Operation {
    match p case Processor => StockCpu case Card => StockGpu case Heater => Burner(false)
  }

  predicate Present(p: Part, world: World) {
    match p case Processor => world.hasCpu case Card => world.hasGpu case Heater => true
  }

  /** The status says the part is driven. */
  predicate InForce(p: Part, sh: Shell) {
    match p case Processor => sh.status.cpuLimit.Some? case Card => sh.status.gpuMax.Some? case Heater => sh.burner
  }

  /** Nothing is in force, and the last operation says so. */
  predicate AtStock(p: Part, sh: Shell, world: World) {
    !InForce(p, sh) && (Present(p, world) ==> LastOn(p, sh.hardware) == Some(Stocked(p)))
  }

  /** What is in force was the last thing done to the part; a burner that is
      off was not the last started. */
  predicate Backed(p: Part, sh: Shell) {
    && (InForce(p, sh) ==> LastOn(p, sh.hardware) == Some(Driven(p)))
    && (p == Heater && !InForce(p, sh) ==> LastOn(p, sh.hardware) != Some(Driven(p)))
  }

  /** Backing is kept, and what stops being in force was put back to stock. */
  predicate Follows(p: Part, world: World, sh: Shell, sh': Shell) {
    && (Backed(p, sh) ==> Backed(p, sh'))
    && (InForce(p, sh) && !InForce(p, sh') ==> AtStock(p, sh', world))
  }

  predicate Untouched(p: Part, sh: Shell, sh': Shell) {
    (InForce(p, sh') <==> InForce(p, sh)) && LastOn(p, sh'.hardware) == LastOn(p, sh.hardware)
  }

  /** An operation that cannot put an idle part to work. */
  predicate Tends(p: Part, world: World, sh: Shell, sh': Shell) {
    Follows(p, world, sh, sh') && (!InForce(p, sh) ==> Untouched(p, sh, sh'))
  }

  /** An operation that ends nothing in force. */
  predicate Holds(p: Part, sh: Shell, sh': Shell) {
    (Backed(p, sh) ==> Backed(p, sh')) && (InForce(p, sh) ==> InForce(p, sh'))
  }

  lemma {:induction false} LastSnoc(p: Part, ops: seq<Operation>, op: Operation)
    ensures LastOn(p, ops + [op]) == if Moves(p, op) then Some(op) else LastOn(p, ops)
  {
    assert (ops + [op])[..|ops + [op]| - 1] == ops;
  }

  lemma {:induction false} UntouchedTends(p: Part, world: World, sh: Shell, sh': Shell)
    requires Untouched(p, sh, sh')
    ensures Tends(p, world, sh, sh') && Holds(p, sh, sh')
  {
    hide LastOn;
  }

  lemma {:induction false} UntouchedChain(p: Part, a: Shell, b: Shell, c: Shell)
    requires Untouched(p, a, b) && Untouched(p, b, c)
    ensures Untouched(p, a, c)
  {
    hide LastOn;
  }

  lemma {:induction false} TendsChain(p: Part, world: World, a: Shell, b: Shell, c: Shell)
    requires Tends(p, world, a, b) && Tends(p, world, b, c)
    ensures Tends(p, world, a, c)
  {
    hide LastOn, Stocked, Driven;
  }

  lemma {:induction false} FollowsThenTends(p: Part, world: World, a: Shell, b: Shell, c: Shell)
    requires Follows(p, world, a, b) && Tends(p, world, b, c)
    ensures Follows(p, world, a, c)
  {
    hide LastOn, Stocked, Driven;
  }

  lemma {:induction false} HoldsThenFollows(p: Part, world: World, a: Shell, b: Shell, c: Shell)
    requires Holds(p, a, b) && Follows(p, world, b, c)
    ensures Follows(p, world, a, c)
  {
    hide LastOn, Stocked, Driven, Backed;
  }

  lemma {:induction false} HoldsChain(p: Part, a: Shell, b: Shell, c: Shell)
    requires Holds(p, a, b) && Holds(p, b, c)
    ensures Holds(p, a, c)
  {
    hide Backed;
  }

  lemma {:induction false} HoldsFollows(p: Part, world: World, sh: Shell, sh': Shell)
    requires Holds(p, sh, sh')
    ensures Follows(p, world, sh, sh')
  {
    hide Backed, AtStock;
  }

  // ---- Bookkeeping ----

  lemma {:induction false} SyncTouchesNothing(p: Part, sh: Shell, f: Flag, on: bool)
    ensures Untouched(p, sh, SyncFlag(sh, f, on)) && Untouched(p, sh, AddFlag(sh, f)) && Untouched(p, sh, RemoveFlag(sh, f))
  {
    hide Without, LastOn;
  }

  lemma {:induction false} RemovalsTouchNothing(p: Part, sh: Shell, flags: seq<Flag>)
    ensures Untouched(p, sh, RemoveAll(sh, flags))
  {
    hide RemoveFlag, LastOn, InForce;
    if flags != [] {
      var front, last := flags[..|flags| - 1], flags[|flags| - 1];
      RemovalsTouchNothing(p, sh, front);
      SyncTouchesNothing(p, RemoveAll(sh, front), last, false);
    }
  }

  lemma {:induction false} UpdatesTouchNothing(p: Part, sh: Shell, updates: seq<FlagUpdate>)
    ensures Untouched(p, sh, SyncAll(sh, updates))
  {
    hide SyncFlag, LastOn, InForce;
    if updates != [] {
      var front, last := updates[..|updates| - 1], updates[|updates| - 1];
      UpdatesTouchNothing(p, sh, front);
      SyncTouchesNothing(p, SyncAll(sh, front), last.flag, last.on);
    }
  }

  lemma {:induction false} SameStatusUntouched(p: Part, sh: Shell, sh': Shell)
    requires sh'.status.cpuLimit == sh.status.cpuLimit && sh'.status.gpuMax == sh.status.gpuMax
    requires sh'.burner == sh.burner && sh'.hardware == sh.hardware
    ensures Untouched(p, sh, sh')
  {
    hide LastOn;
  }

  lemma {:induction false} IssueMoves(p: Part, sh: Shell, op: Operation)
    ensures LastOn(p, Issue(sh, op).hardware) == if Moves(p, op) then Some(op) else LastOn(p, sh.hardware)
    ensures InForce(p, Issue(sh, op)) <==> InForce(p, sh)
  {
    LastSnoc(p, sh.hardware, op);
    hide LastOn;
  }

  // ---- Releases ----

  /** Both devices are restored, the GPU first, whatever came before. */
  lemma {:induction false} StockedLast(sh: Shell, world: World)
    ensures var sh1 := if world.hasGpu then Issue(sh, StockGpu) else sh;
            var sh2 := if world.hasCpu then Issue(sh1, StockCpu) else sh1;
            && (world.hasCpu ==> LastOn(Processor, sh2.hardware) == Some(StockCpu))
            && (world.hasGpu ==> LastOn(Card, sh2.hardware) == Some(StockGpu))
            && LastOn(Heater, sh2.hardware) == LastOn(Heater, sh.hardware)
  {
    hide LastOn;
    var sh1 := if world.hasGpu then Issue(sh, StockGpu) else sh;
    IssueMoves(Processor, sh1, StockCpu);
    IssueMoves(Card, sh, StockGpu);
    IssueMoves(Card, sh1, StockCpu);
    IssueMoves(Heater, sh, StockGpu);
    IssueMoves(Heater, sh1, StockCpu);
  }

  lemma {:induction false} ReleaseRestores(sh: Shell, world: World)
    ensures var sh' := ReleaseToStock(sh, world);
            && AtStock(Processor, sh', world) && AtStock(Card, sh', world) && Untouched(Heater, sh, sh')
  {
    hide LastOn, RemoveAll;
    var sh1 := if world.hasGpu then Issue(sh, StockGpu) else sh;
    var sh2 := if world.hasCpu then Issue(sh1, StockCpu) else sh1;
    StockedLast(sh, world);
    var sh3 := sh2.(status := Status(Monitor, None, None, sh2.status.flags), timers := sh2.timers.(stick := 0, lastReassert := None));
    RemovalsTouchNothing(Processor, sh3, AUTO_FLAGS);
    RemovalsTouchNothing(Card, sh3, AUTO_FLAGS);
    RemovalsTouchNothing(Heater, sh3, AUTO_FLAGS);
  }

  lemma {:induction false} VerdictsTouchNothing(p: Part, sh: Shell)
    ensures Untouched(p, sh, SyncVerdicts(sh))
  {
    hide AddFlag, RemoveFlag, LastOn, InForce;
    SyncTouchesNothing(p, sh, LimitNotSticking, true);
    SyncTouchesNothing(p, sh, ReadbackBlind, true);
    SyncTouchesNothing(p, AddFlag(sh, LimitNotSticking), ReadbackBlind, true);
    SyncTouchesNothing(p, sh, ReadbackBlind, false);
    SyncTouchesNothing(p, AddFlag(sh, LimitNotSticking), ReadbackBlind, false);
  }

  /** A CPU verdict puts the CPU back to stock exactly when it releases. */
  lemma {:induction false} CpuVerdictRestores(sh: Shell, verdict: V.Verdict, suppress: bool)
    ensures var sh' := ScoreCpu(sh, verdict, suppress);
            && (if sh.auto.Some? && V.Score(sh.auto.value.cpu, verdict, suppress).1 == V.Released
                then LastOn(Processor, sh'.hardware) == Some(StockCpu) && !InForce(Processor, sh')
                else Untouched(Processor, sh, sh'))
            && Untouched(Card, sh, sh') && Untouched(Heater, sh, sh')
  {
    hide LastOn, SyncVerdicts, V.Score;
    if sh.auto.Some? {
      var (counter, outcome) := V.Score(sh.auto.value.cpu, verdict, suppress);
      var sh1 := sh.(auto := Some(sh.auto.value.(cpu := counter)));
      var sh2 := if outcome == V.Released then WithCpu(Issue(sh1, StockCpu), None) else sh1;
      IssueMoves(Processor, sh1, StockCpu);
      IssueMoves(Card, sh1, StockCpu);
      IssueMoves(Heater, sh1, StockCpu);
      VerdictsTouchNothing(Processor, sh2);
      VerdictsTouchNothing(Card, sh2);
      VerdictsTouchNothing(Heater, sh2);
    }
  }

  /** A GPU verdict puts the GPU back to stock exactly when it releases. */
  lemma {:induction false} GpuVerdictRestores(sh: Shell, seen: V.Seen, world: World)
    ensures var sh' := ScoreGpu(sh, seen, world);
            && (if GpuReleased(sh, Some(seen)) then AtStock(Card, sh', world) else Untouched(Card, sh, sh'))
            && Untouched(Processor, sh, sh') && Untouched(Heater, sh, sh')
  {
    hide LastOn, SyncVerdicts, V.Score;
    if sh.auto.Some? {
      var (counter, outcome) := V.Score(sh.auto.value.gpu, seen.verdict, seen.suppress);
      var sh1 := sh.(auto := Some(sh.auto.value.(gpu := counter)));
      var sh2 := if outcome == V.Released then WithGpu(if world.hasGpu then Issue(sh1, StockGpu) else sh1, None) else sh1;
      IssueMoves(Processor, sh1, StockGpu);
      IssueMoves(Card, sh1, StockGpu);
      IssueMoves(Heater, sh1, StockGpu);
      VerdictsTouchNothing(Processor, sh2);
      VerdictsTouchNothing(Card, sh2);
      VerdictsTouchNothing(Heater, sh2);
    }
  }

  // ---- The closed loops ----

  /** One CPU write, seen from one part. */
  lemma {:induction false} CpuWriteHolds(p: Part, world: World, sh: Shell, try: CpuTry)
    ensures var sh1 := Issue(sh, CapCpu);
            var sh2 := if try.retried then Issue(sh1, CapCpu) else sh1;
            var sh3 := if try.verdict == V.Verified then WithCpu(sh2, Some(try.value)) else sh2;
            if p == Processor then Follows(p, world, sh, sh3) && Holds(p, sh, sh3) else Untouched(p, sh, sh3)
  {
    hide LastOn;
    IssueMoves(p, sh, CapCpu);
    IssueMoves(p, Issue(sh, CapCpu), CapCpu);
  }

  lemma {:induction false} CpuWriteFollows(sh: Shell, try: Option<CpuTry>, world: World)
    ensures var sh' := AutoCpu(sh, try, world);
            Follows(Processor, world, sh, sh') && Untouched(Card, sh, sh') && Untouched(Heater, sh, sh')
  {
    hide LastOn, ScoreCpu, V.Score, Issue, WithCpu, Holds;
    if try.Some? && !world.down && world.hasCpu {
      var sh1 := Issue(sh, CapCpu);
      var sh2 := if try.value.retried then Issue(sh1, CapCpu) else sh1;
      var sh3 := if try.value.verdict == V.Verified then WithCpu(sh2, Some(try.value.value)) else sh2;
      CpuWriteHolds(Processor, world, sh, try.value);
      CpuWriteHolds(Card, world, sh, try.value);
      CpuWriteHolds(Heater, world, sh, try.value);
      CpuVerdictRestores(sh3, try.value.verdict, try.value.suppress);
      HoldsThenFollows(Processor, world, sh, sh3, ScoreCpu(sh3, try.value.verdict, try.value.suppress));
    }
  }

  lemma {:induction false} GpuWriteFollows(sh: Shell, a: AutoTick, world: World)
    ensures var sh' := AutoGpu(sh, a, world);
            Follows(Card, world, sh, sh') && Untouched(Processor, sh, sh') && Untouched(Heater, sh, sh')
  {
    hide LastOn, ScoreGpu, GpuReleased;
    var sh1 := if a.gpuSeen.Some? then ScoreGpu(sh, a.gpuSeen.value, world) else sh;
    if a.gpuSeen.Some? {
      GpuVerdictRestores(sh, a.gpuSeen.value, world);
    }
    IssueMoves(Processor, sh1, CapGpu);
    IssueMoves(Card, sh1, CapGpu);
    IssueMoves(Heater, sh1, CapGpu);
  }

  /** The end of an engagement: the change itself restores both devices. */
  lemma {:induction false} DisengageRestores(sh: Shell, changed: bool, world: World)
    ensures var sh' := Disengage(sh, changed, world);
            && (if changed then AtStock(Processor, sh', world) && AtStock(Card, sh', world)
                else Untouched(Processor, sh, sh') && Untouched(Card, sh, sh'))
            && Untouched(Heater, sh, sh')
  {
    hide LastOn, RemoveFlag;
    var sh1 := sh.(auto := if sh.auto.Some? then Some(AutoState(V.FRESH, V.FRESH)) else None,
                   timers := sh.timers.(stick := 0, lastReassert := None));
    var sh2 := RemoveFlag(sh1, ReadbackBlind);
    var sh3 := RemoveFlag(sh2, LimitNotSticking);
    CalmTouchesNothing(Processor, sh, sh1);
    CalmTouchesNothing(Card, sh, sh1);
    CalmTouchesNothing(Heater, sh, sh1);
    StockedLast(sh3, world);
  }

  lemma {:induction false} CalmTouchesNothing(p: Part, sh: Shell, sh1: Shell)
    requires sh1 == sh.(auto := sh1.auto, timers := sh1.timers)
    ensures Untouched(p, sh, RemoveFlag(RemoveFlag(sh1, ReadbackBlind), LimitNotSticking))
  {
    hide LastOn, RemoveFlag, InForce;
    SameStatusUntouched(p, sh, sh1);
    SyncTouchesNothing(p, sh1, ReadbackBlind, false);
    SyncTouchesNothing(p, RemoveFlag(sh1, ReadbackBlind), LimitNotSticking, false);
  }

  lemma {:induction false} LoopsFollow(p: Part, sh: Shell, a: AutoTick, world: World)
    ensures Follows(p, world, sh, AutoSample(sh, a, world))
    ensures a.engagement == Disengaged(true) && p != Heater ==> AtStock(p, AutoSample(sh, a, world), world)
  {
    hide LastOn, AutoCpu, AutoGpu, SyncAll, Disengage, InForce, Follows, AtStock;
    var sh1 := SyncAll(sh, a.flags);
    UpdatesTouchNothing(p, sh, a.flags);
    UntouchedTends(p, world, sh, sh1);
    match a.engagement {
      case Disengaged(changed) =>
        DisengageRestores(sh1, changed, world);
        var sh2 := Disengage(sh1, changed, world);
        if p == Heater || !changed {
          UntouchedTends(p, world, sh1, sh2);
          HoldsThenFollows(p, world, sh, sh1, sh2) by { UnfoldTends(p, world, sh1, sh2); }
        } else {
          RestoredFollows(p, world, sh, sh2);
        }
      case Engaged =>
        var sh2 := AutoCpu(sh1, a.cpu, world);
        var sh3 := AutoGpu(sh2, a, world);
        CpuWriteFollows(sh1, a.cpu, world);
        GpuWriteFollows(sh2, a, world);
        if p == Processor {
          UntouchedTends(p, world, sh2, sh3);
          FollowsThenTends(p, world, sh1, sh2, sh3);
        } else {
          UntouchedTends(p, world, sh1, sh2);
          if p == Heater {
            UntouchedTends(p, world, sh2, sh3);
            UnfoldTends(p, world, sh2, sh3);
          }
          HoldsThenFollows(p, world, sh1, sh2, sh3);
        }
        HoldsThenFollows(p, world, sh, sh1, sh3);
    }
  }

  lemma {:induction false} UnfoldTends(p: Part, world: World, sh: Shell, sh': Shell)
    requires Tends(p, world, sh, sh')
    ensures Follows(p, world, sh, sh')
  {
    hide LastOn, Follows;
  }

  /** A part that is put back has followed, whether or not it is present. */
  lemma {:induction false} RestoredFollows(p: Part, world: World, sh: Shell, sh': Shell)
    requires AtStock(p, sh', world) && p != Heater
    ensures Follows(p, world, sh, sh')
  {
    hide LastOn;
  }

  // ---- Maintenance ----

  /** A mismatch nobody excuses, after two others. */
  predicate ThirdStrike(c: V.Counter, verdict: V.Verdict, suppress: bool) {
    verdict == V.Mismatch && !suppress && c.strikes >= 2
  }

  lemma {:induction false} ReleasedByThirdStrike(c: V.Counter, verdict: V.Verdict, suppress: bool)
    ensures V.Score(c, verdict, suppress).1 == V.Released <==> ThirdStrike(c, verdict, suppress)
  {
    match verdict {
      case Verified =>
      case Unreadable =>
      case Unverifiable =>
      case Mismatch =>
    }
  }

  lemma {:induction false} CpuVerdictIssues(sh: Shell, verdict: V.Verdict, suppress: bool)
    ensures var sh' := ScoreCpu(sh, verdict, suppress);
            var strikes := sh.auto.Some? && ThirdStrike(sh.auto.value.cpu, verdict, suppress);
            && sh'.hardware == sh.hardware + (if strikes then [StockCpu] else [])
            && sh'.status.cpuLimit == (if strikes then None else sh.status.cpuLimit)
            && sh'.status.gpuMax == sh.status.gpuMax && sh'.burner == sh.burner && sh'.timers == sh.timers
  {
    hide SyncVerdicts, V.Score, ThirdStrike;
    if sh.auto.Some? {
      var (counter, outcome) := V.Score(sh.auto.value.cpu, verdict, suppress);
      ReleasedByThirdStrike(sh.auto.value.cpu, verdict, suppress);
      var sh1 := sh.(auto := Some(sh.auto.value.(cpu := counter)));
      VerdictsKeepMachine(if outcome == V.Released then WithCpu(Issue(sh1, StockCpu), None) else sh1);
    }
  }

  predicate SameMachine(sh: Shell, sh': Shell) {
    && sh'.hardware == sh.hardware && sh'.status.cpuLimit == sh.status.cpuLimit && sh'.status.gpuMax == sh.status.gpuMax
    && sh'.burner == sh.burner && sh'.timers == sh.timers && sh'.auto == sh.auto
  }

  lemma {:induction false} FlagKeepsMachine(sh: Shell, f: Flag)
    ensures SameMachine(sh, AddFlag(sh, f)) && SameMachine(sh, RemoveFlag(sh, f))
  {
    hide Without;
  }

  lemma {:induction false} VerdictsKeepMachine(sh: Shell)
    ensures SameMachine(sh, SyncVerdicts(sh))
  {
    hide AddFlag, RemoveFlag, V.Counter.InEpisode;
    var sh1 := AddFlag(sh, LimitNotSticking);
    FlagKeepsMachine(sh, LimitNotSticking);
    FlagKeepsMachine(sh, ReadbackBlind);
    FlagKeepsMachine(sh1, ReadbackBlind);
  }

  /** The CPU half of a maintenance pass. */
  lemma {:induction false} RepairWrites(sh: Shell, m: Maintenance)
    ensures var sh' := ScoreCpu(if m.repaired then Issue(sh, CapCpu) else sh, m.verdict, m.suppress);
            var strikes := sh.auto.Some? && ThirdStrike(sh.auto.value.cpu, m.verdict, m.suppress);
            && sh'.hardware == sh.hardware + (if m.repaired then [CapCpu] else []) + (if strikes then [StockCpu] else [])
            && sh'.status.cpuLimit == (if strikes then None else sh.status.cpuLimit)
            && sh'.status.gpuMax == sh.status.gpuMax && sh'.burner == sh.burner && sh'.timers == sh.timers
  {
    hide ScoreCpu, ThirdStrike;
    CpuVerdictIssues(if m.repaired then Issue(sh, CapCpu) else sh, m.verdict, m.suppress);
  }

  /** One maintenance pass, operation by operation: the CPU cap is written
      again exactly when it was repaired and released on a third strike; the
      GPU lock in force is always written again, last. */
  lemma {:induction false} ReassertWrites(sh: Shell, m: Maintenance, world: World)
    ensures var sh' := Reassert(sh, m, world);
            var cpu := !world.down && world.hasCpu && sh.status.cpuLimit.Some?;
            var gpu := !world.down && world.hasGpu && sh.status.gpuMax.Some?;
            var strikes := cpu && sh.auto.Some? && ThirdStrike(sh.auto.value.cpu, m.verdict, m.suppress);
            && sh'.hardware == sh.hardware + (if cpu && m.repaired then [CapCpu] else []) + (if strikes then [StockCpu] else [])
                               + (if gpu then [CapGpu] else [])
            && sh'.status.cpuLimit == (if strikes then None else sh.status.cpuLimit)
            && sh'.status.gpuMax == sh.status.gpuMax && sh'.burner == sh.burner && sh'.timers == sh.timers
  {
    hide ScoreCpu, ThirdStrike;
    RepairWrites(sh, m);
  }

  /** The CPU half of a pass, seen from one part. */
  lemma {:induction false} RepairTends(p: Part, sh: Shell, m: Maintenance, world: World)
    requires world.hasCpu && InForce(Processor, sh)
    ensures var sh' := ScoreCpu(if m.repaired then Issue(sh, CapCpu) else sh, m.verdict, m.suppress);
            && Tends(p, world, sh, sh')
            && (sh.auto == None || sh.auto == Some(AutoState(V.FRESH, V.FRESH)) ==> Holds(p, sh, sh'))
  {
    hide LastOn, ScoreCpu, V.Score;
    var sh0 := if m.repaired then Issue(sh, CapCpu) else sh;
    IssueMoves(p, sh, CapCpu);
    CpuVerdictRestores(sh0, m.verdict, m.suppress);
    if sh.auto.Some? {
      ReleasedByThirdStrike(sh.auto.value.cpu, m.verdict, m.suppress);
    }
  }

  lemma {:induction false} RelockHolds(p: Part, sh: Shell, world: World)
    requires InForce(Card, sh)
    ensures Tends(p, world, sh, Issue(sh, CapGpu)) && Holds(p, sh, Issue(sh, CapGpu))
  {
    hide LastOn;
    IssueMoves(p, sh, CapGpu);
  }

  lemma {:induction false} ReassertTends(p: Part, sh: Shell, m: Maintenance, world: World)
    ensures Tends(p, world, sh, Reassert(sh, m, world))
    ensures sh.auto == None || sh.auto == Some(AutoState(V.FRESH, V.FRESH)) ==> Holds(p, sh, Reassert(sh, m, world))
  {
    hide LastOn, ScoreCpu, Tends, Holds;
    UntouchedTends(p, world, sh, sh);
    if !world.down {
      var cpu := sh.status.cpuLimit.Some? && world.hasCpu;
      var sh1 := if cpu then ScoreCpu(if m.repaired then Issue(sh, CapCpu) else sh, m.verdict, m.suppress) else sh;
      if cpu {
        RepairTends(p, sh, m, world);
      }
      if sh1.status.gpuMax.Some? {
        RelockHolds(p, sh1, world);
        TendsChain(p, world, sh, sh1, Issue(sh1, CapGpu));
        if sh.auto == None || sh.auto == Some(AutoState(V.FRESH, V.FRESH)) {
          HoldsChain(p, sh, sh1, Issue(sh1, CapGpu));
        }
      }
    }
  }

  lemma {:induction false} ResumeHolds(p: Part, sh: Shell, s: Sample, m: Maintenance, world: World)
    ensures Holds(p, sh, Resume(sh, s, m, world))
    ensures !InForce(p, sh) ==> Untouched(p, sh, Resume(sh, s, m, world))
  {
    hide LastOn, Reassert, AddFlag, RemoveFlag, Attempted, InForce;
    SyncTouchesNothing(p, sh, Resumed, true);
    var sh1 := AddFlag(sh, Resumed);
    var sh2 := sh1.(timers := sh1.timers.(strictUntil := Some(s.t + RESUMED_STRICT_S), resumedUntil := Some(s.t + RESUMED_FLAG_S)),
                    auto := if sh.auto.Some? then Some(AutoState(V.FRESH, V.FRESH)) else None);
    SameStatusUntouched(p, sh1, sh2);
    UntouchedChain(p, sh, sh1, sh2);
    UntouchedTends(p, world, sh, sh2);
    ReassertTends(p, sh2, m, world);
    var sh3 := Reassert(sh2, m, world);
    HoldsChain(p, sh, sh2, sh3);
    var sh4 := sh3.(timers := sh3.timers.(lastReassert := Some(s.t)));
    SameStatusUntouched(p, sh3, sh4);
    UntouchedTends(p, world, sh3, sh4);
    HoldsChain(p, sh, sh3, sh4);
    var sh5 := RemoveFlag(sh, Resumed).(timers := sh.timers.(resumedUntil := None));
    SameStatusUntouched(p, RemoveFlag(sh, Resumed), sh5);
    UntouchedChain(p, sh, RemoveFlag(sh, Resumed), sh5);
    UntouchedTends(p, world, sh, sh5);
    UntouchedTends(p, world, sh, sh);
  }

  lemma {:induction false} StickinessTends(p: Part, sh: Shell, s: Sample, m: Maintenance, world: World)
    ensures Tends(p, world, sh, Stickiness(sh, s, m, world))
  {
    hide LastOn, Reassert, AddFlag, RemoveFlag, Attempted, InForce, InTrouble, NeededStreak, Tends;
    UntouchedTends(p, world, sh, sh) by { SameStatusUntouched(p, sh, sh); }
    var sh0 := sh.(timers := sh.timers.(stick := sh.timers.stick + 1));
    UntouchedTends(p, world, sh, sh0) by { SameStatusUntouched(p, sh, sh0); }
    var sh1 := sh.(timers := sh.timers.(stick := 0));
    UntouchedTends(p, world, sh, sh1) by { SameStatusUntouched(p, sh, sh1); }
    var sh2 := Reassert(sh1, m, world);
    ReassertTends(p, sh1, m, world);
    TendsChain(p, world, sh, sh1, sh2);
    var sh3 := if Attempted(sh1, m, world) then sh2.(timers := sh2.timers.(lastReassert := Some(s.t))) else sh2;
    UntouchedTends(p, world, sh2, sh3) by { SameStatusUntouched(p, sh2, sh3); }
    TendsChain(p, world, sh, sh2, sh3);
    UntouchedTends(p, world, sh3, AddFlag(sh3, LimitNotSticking)) by { SyncTouchesNothing(p, sh3, LimitNotSticking, true); }
    TendsChain(p, world, sh, sh3, AddFlag(sh3, LimitNotSticking));
    UntouchedTends(p, world, sh1, RemoveFlag(sh1, LimitNotSticking)) by { SyncTouchesNothing(p, sh1, LimitNotSticking, false); }
    TendsChain(p, world, sh, sh1, RemoveFlag(sh1, LimitNotSticking));
  }

  lemma {:induction false} PeriodicTends(p: Part, sh: Shell, s: Sample, m: Maintenance, world: World)
    ensures Tends(p, world, sh, Periodic(sh, s, m, world))
  {
    hide LastOn, Reassert, InForce, Tends;
    UntouchedTends(p, world, sh, sh) by { SameStatusUntouched(p, sh, sh); }
    var sh1 := sh.(timers := sh.timers.(lastReassert := Some(s.t)));
    UntouchedTends(p, world, sh, sh1) by { SameStatusUntouched(p, sh, sh1); }
    ReassertTends(p, sh1, m, world);
    TendsChain(p, world, sh, sh1, Reassert(sh1, m, world));
  }

  lemma {:induction false} RegulatedFollows(p: Part, sh: Shell, s: Sample, tick: Tick, world: World)
    ensures Follows(p, world, sh, Regulated(sh, s, tick, world))
    ensures sh.status.mode == Auto && tick.auto.engagement == Disengaged(true) && p != Heater && NoDuplicates(sh.status.flags) ==>
              AtStock(p, Regulated(sh, s, tick, world), world)
  {
    hide LastOn, Resume, AutoSample, Stickiness, Periodic, InForce, Tends, Follows, Holds, NoDuplicates;
    var sh1 := Resume(sh, s, tick.onResume, world);
    var sh2 := if sh1.status.mode == Auto then AutoSample(sh1, tick.auto, world) else sh1;
    var sh3 := Stickiness(sh2, s, tick.onStick, world);
    var sh4 := Periodic(sh3, s, tick.periodic, world);
    ResumeHolds(p, sh, s, tick.onResume, world);
    LoopsFollow(p, sh1, tick.auto, world);
    StickinessTends(p, sh2, s, tick.onStick, world);
    PeriodicTends(p, sh3, s, tick.periodic, world);
    TendsChain(p, world, sh2, sh3, sh4);
    if sh1.status.mode == Auto {
      HoldsThenFollows(p, world, sh, sh1, sh2);
    } else {
      HoldsFollows(p, world, sh, sh1);
    }
    FollowsThenTends(p, world, sh, sh2, sh4);
    if sh.status.mode == Auto && tick.auto.engagement == Disengaged(true) && p != Heater && NoDuplicates(sh.status.flags) {
      ResumeKeepsMode({}, sh, s, tick.onResume, world);
      StockLasts(p, world, sh2, sh4);
    }
  }

  /** What tends leaves stocked parts alone. */
  lemma {:induction false} StockLasts(p: Part, world: World, sh: Shell, sh': Shell)
    requires AtStock(p, sh, world) && Tends(p, world, sh, sh')
    ensures AtStock(p, sh', world)
  {
    hide LastOn, Follows;
  }

  // ---- Calibrations ----

  /** A calibration step ends no limit, and a burner it leaves off was either
      just stopped or off all along. */
  predicate Works(p: Part, world: World, sh: Shell, sh': Shell) {
    && (p != Heater ==> Holds(p, sh, sh'))
    && (p == Heater ==> Follows(p, world, sh, sh') && (InForce(p, sh') || AtStock(p, sh', world) || Untouched(p, sh, sh')))
  }

  lemma {:induction false} WorksChain(p: Part, world: World, a: Shell, b: Shell, c: Shell)
    requires Works(p, world, a, b) && Works(p, world, b, c)
    ensures Works(p, world, a, c)
  {
    hide LastOn, Driven, Stocked, Present;
  }

  lemma {:induction false} WorksFollows(p: Part, world: World, sh: Shell, sh': Shell)
    requires Works(p, world, sh, sh')
    ensures Follows(p, world, sh, sh')
  {
    hide LastOn, Driven, Stocked, Backed;
  }

  lemma {:induction false} UntouchedWorks(p: Part, world: World, sh: Shell, sh': Shell)
    requires Untouched(p, sh, sh')
    ensures Works(p, world, sh, sh')
  {
    hide LastOn;
  }

  lemma {:induction false} BurnerWorks(p: Part, world: World, sh: Shell)
    ensures Works(p, world, sh, StopBurner(sh))
  {
    hide LastOn;
    IssueMoves(p, sh, Burner(false));
  }

  lemma {:induction false} CpuCapWorks(p: Part, world: World, sh: Shell, reply: Reply, sampled: bool)
    ensures Works(p, world, sh, CpuAnswered(Issue(sh, CapCpu), reply, sampled))
  {
    hide LastOn, CpuAnswered;
    IssueMoves(p, sh, CapCpu);
    var sh1 := Issue(sh, CapCpu);
    CpuAnswerKeeps(sh1, reply, sampled);
  }

  lemma {:induction false} CpuAnswerKeeps(sh: Shell, reply: Reply, sampled: bool)
    ensures var sh' := CpuAnswered(sh, reply, sampled);
            && sh'.hardware == sh.hardware && sh'.burner == sh.burner && sh'.status.gpuMax == sh.status.gpuMax
            && sh'.status.flags == sh.status.flags
            && sh'.status.cpuLimit == (if reply.cpu.Some? then reply.cpu else sh.status.cpuLimit)
  {
    hide Stamp;
  }

  lemma {:induction false} GpuCapWorks(p: Part, world: World, sh: Shell, reply: Reply, sampled: bool)
    ensures Works(p, world, sh, GpuAnswered(Issue(sh, CapGpu), reply, sampled))
  {
    hide LastOn, GpuAnswered;
    IssueMoves(p, sh, CapGpu);
    var sh1 := Issue(sh, CapGpu);
    GpuAnswerKeeps(sh1, reply, sampled);
  }

  lemma {:induction false} GpuAnswerKeeps(sh: Shell, reply: Reply, sampled: bool)
    ensures var sh' := GpuAnswered(sh, reply, sampled);
            && sh'.hardware == sh.hardware && sh'.burner == sh.burner && sh'.status.cpuLimit == sh.status.cpuLimit
            && sh'.status.flags == sh.status.flags
            && sh'.status.gpuMax == (if reply.gpu.Some? then reply.gpu else sh.status.gpuMax)
  {
    hide G.Kept;
  }

  lemma {:induction false} EffectWorks(p: Part, sh: Shell, e: RunnerEffect, reply: Reply, sampled: bool, world: World)
    ensures Works(p, world, sh, CalibEffect(sh, e, reply, sampled, world))
  {
    hide LastOn, SyncFlag, StopBurner, CpuAnswered, GpuAnswered, Works, Untouched;
    SameStatusUntouched(p, sh, sh);
    UntouchedWorks(p, world, sh, sh);
    match e {
      case SaveState(cpu, gpu) =>
        var sh1 := sh.(saved := Saved(cpu, gpu));
        SameStatusUntouched(p, sh, sh1);
        UntouchedWorks(p, world, sh, sh1);
        var on := !Calibrated(world.viewKey, cpu, gpu);
        SyncTouchesNothing(p, sh1, NotCalibrated, on);
        UntouchedWorks(p, world, sh1, SyncFlag(sh1, NotCalibrated, on));
        WorksChain(p, world, sh, sh1, SyncFlag(sh1, NotCalibrated, on));
      case Finished =>
      case Machine(m) =>
        match m {
          case SetCpu(_) =>
            var sh1 := sh.(evidence := sh.evidence.(cpuVerified := false));
            SameStatusUntouched(p, sh, sh1);
            UntouchedWorks(p, world, sh, sh1);
            CpuCapWorks(p, world, sh1, reply, sampled);
            WorksChain(p, world, sh, sh1, CpuAnswered(Issue(sh1, CapCpu), reply, sampled));
          case SetGpu(_) => GpuCapWorks(p, world, sh, reply, sampled);
          case StartBurner(_) => StartWorks(p, world, sh);
          case StopBurner => BurnerWorks(p, world, sh);
          case Fitted(_, _) =>
          case Noted =>
          case Retrying =>
        }
    }
  }

  lemma {:induction false} StartWorks(p: Part, world: World, sh: Shell)
    ensures Works(p, world, sh, Issue(StopBurner(sh), Burner(true)).(burner := true))
  {
    hide LastOn, StopBurner, Works;
    BurnerWorks(p, world, sh);
    IssueMoves(p, StopBurner(sh), Burner(true));
    var sh' := Issue(StopBurner(sh), Burner(true)).(burner := true);
    assert Works(p, world, StopBurner(sh), sh') by { UnfoldStart(p, world, StopBurner(sh)); }
    WorksChain(p, world, sh, StopBurner(sh), sh');
  }

  lemma {:induction false} UnfoldStart(p: Part, world: World, sh: Shell)
    ensures Works(p, world, sh, Issue(sh, Burner(true)).(burner := true))
  {
    hide LastOn;
    IssueMoves(p, sh, Burner(true));
  }

  lemma {:induction false} BatchWorks(p: Part, sh: Shell, effects: seq<RunnerEffect>, sampled: bool, world: World)
    ensures Works(p, world, sh, CalibEffects(sh, effects, sampled, world))
  {
    hide LastOn, CalibEffect, Works, ReplyAt, InForce;
    if effects == [] {
      UntouchedWorks(p, world, sh, sh);
    } else {
      var n := |effects| - 1;
      var sh1 := CalibEffects(sh, effects[..n], sampled, world);
      BatchWorks(p, sh, effects[..n], sampled, world);
      EffectWorks(p, sh1, effects[n], ReplyAt(world, n), sampled, world);
      WorksChain(p, world, sh, sh1, CalibEffects(sh, effects, sampled, world));
    }
  }

  lemma {:induction false} EndWorks(p: Part, sh: Shell, world: World)
    ensures Works(p, world, sh, EndCalibration(sh))
  {
    hide LastOn, StopBurner, Works, Untouched;
    BurnerWorks(p, world, sh);
    EndRespects({}, false, sh);
    StopBurnerRespects({}, false, sh);
    SameStatusUntouched(p, StopBurner(sh), EndCalibration(sh));
    UntouchedWorks(p, world, StopBurner(sh), EndCalibration(sh));
    WorksChain(p, world, sh, StopBurner(sh), EndCalibration(sh));
  }

  lemma {:induction false} ApplyWorks(p: Part, sh: Shell, effects: seq<RunnerEffect>, sampled: bool, world: World)
    ensures Works(p, world, sh, ApplyCalib(sh, effects, sampled, world))
  {
    hide CalibEffects, EndCalibration, Works;
    var sh1 := CalibEffects(sh, effects, sampled, world);
    BatchWorks(p, sh, effects, sampled, world);
    EndWorks(p, sh1, world);
    WorksChain(p, world, sh, sh1, EndCalibration(sh1));
  }

  /** Applying a batch from a state that differs only in its runner. */
  lemma {:induction false} RunnerWorks(p: Part, sh: Shell, r: Option<RunState>, effects: seq<RunnerEffect>, sampled: bool, world: World)
    ensures Works(p, world, sh, ApplyCalib(sh.(calib := r), effects, sampled, world))
  {
    hide ApplyCalib, Works, Untouched;
    var sh1 := sh.(calib := r);
    SameStatusUntouched(p, sh, sh1);
    UntouchedWorks(p, world, sh, sh1);
    ApplyWorks(p, sh1, effects, sampled, world);
    WorksChain(p, world, sh, sh1, ApplyCalib(sh1, effects, sampled, world));
  }

  lemma {:induction false} AbortWorks(p: Part, sh: Shell, world: World)
    ensures Works(p, world, sh, AbortCalib(sh, world)) && Works(p, world, sh, AbortRunner(sh, world))
  {
    hide ApplyCalib, EndCalibration, OnAbort, Works, Untouched;
    SameStatusUntouched(p, sh, sh);
    UntouchedWorks(p, world, sh, sh);
    if sh.calib.Some? {
      var (r, batch) := OnAbort(sh.calib.value);
      RunnerWorks(p, sh, Some(r), batch, true, world);
      RunnerWorks(p, sh, None, batch, false, world);
      var sh1 := ApplyCalib(sh.(calib := None), batch, false, world);
      EndWorks(p, sh1, world);
      WorksChain(p, world, sh, sh1, EndCalibration(sh1));
    }
  }

  lemma {:induction false} PreparedWorks(p: Part, sh: Shell, r: RunState, s: Sample, tick: Tick, world: World)
    ensures Works(p, world, sh, Prepared(sh, r, s, tick, world).0)
  {
    hide LastOn, GpuScore, TooHotToRepair, FinishingResponse, CalibInput;
    IssueMoves(p, sh, CapCpu);
  }

  lemma {:induction false} CalibSampleWorks(p: Part, fit: StepTest.Fitter, sh: Shell, s: Sample, tick: Tick, world: World)
    ensures Works(p, world, sh, CalibSample(fit, sh, s, tick, world).0)
  {
    hide Prepared, TakeSample, ApplyCalib, EndCalibration, Works, Untouched;
    match sh.calib
    case None =>
      EndWorks(p, sh, world);
      DrainWorks(p, world, sh, EndCalibration(sh), []);
    case Some(r) =>
      var (sh1, x) := Prepared(sh, r, s, tick, world);
      var (r', effects) := TakeSample(fit, r, x);
      PreparedWorks(p, sh, r, s, tick, world);
      RunnerWorks(p, sh1, Some(r'), effects, true, world);
      var sh2 := ApplyCalib(sh1.(calib := Some(r')), effects, true, world);
      WorksChain(p, world, sh, sh1, sh2);
      DrainWorks(p, world, sh, sh2, []);
  }

  lemma {:induction false} DrainWorks(p: Part, world: World, sh: Shell, sh': Shell, first: seq<Effect>)
    requires Works(p, world, sh, sh')
    ensures Works(p, world, sh, Drain(sh', first).0)
  {
    hide LastOn, Works;
    SameStatusUntouched(p, sh', Drain(sh', first).0);
    UntouchedWorks(p, world, sh', Drain(sh', first).0);
    WorksChain(p, world, sh, sh', Drain(sh', first).0);
  }

  // ---- Calls ----

  lemma {:induction false} ManualWorks(p: Part, sh: Shell, verified: Option<real>, applied: Option<nat>, world: World)
    ensures Works(p, world, sh, CommandedCpu(sh, verified, world)) && Works(p, world, sh, CommandedGpu(sh, applied, world))
  {
    hide LastOn;
    IssueMoves(p, sh, CapCpu);
    IssueMoves(p, sh, CapGpu);
  }

  lemma {:induction false} DrainFollows(p: Part, world: World, sh: Shell, sh': Shell, first: seq<Effect>)
    requires Follows(p, world, sh, sh')
    ensures Follows(p, world, sh, Drain(sh', first).0)
    ensures AtStock(p, sh', world) ==> AtStock(p, Drain(sh', first).0, world)
  {
    hide LastOn, Stocked, Driven;
  }

  lemma {:induction false} AcknowledgeFollows(p: Part, sh: Shell, world: World)
    ensures Follows(p, world, sh, Acknowledge(sh).0)
  {
    hide LastOn, RemoveFlag, InForce, Follows, Tends;
    var sh1 := RemoveFlag(sh, ThermalEmergency);
    var sh2 := RemoveFlag(sh1, SensorLost);
    SyncTouchesNothing(p, sh, ThermalEmergency, false);
    SyncTouchesNothing(p, sh1, SensorLost, false);
    var sh3 := sh2.(watchdog := ARMED);
    SameStatusUntouched(p, sh2, sh3);
    UntouchedTends(p, world, sh, sh3);
    UnfoldTends(p, world, sh, sh3);
    DrainFollows(p, world, sh, sh3, []);
  }

  /** Leaving puts both devices back and reports the release first. */
  lemma {:induction false} LeavingRestores(p: Part, sh: Shell, world: World)
    ensures var (sh', effects) := Drain(ReleaseToStock(ExitAuto(sh), world), [Released]);
            && Follows(p, world, sh, sh') && (p != Heater ==> AtStock(p, sh', world))
            && effects != [] && effects[0] == Released
  {
    hide LastOn, ReleaseToStock, Follows, AtStock, Untouched;
    var sh1 := ReleaseToStock(ExitAuto(sh), world);
    ReleaseRestores(ExitAuto(sh), world);
    if p == Heater {
      UntouchedFollows(p, world, sh, ExitAuto(sh), sh1);
    } else {
      RestoredFollows(p, world, sh, sh1);
    }
    DrainFollows(p, world, sh, sh1, [Released]);
  }

  lemma {:induction false} UntouchedFollows(p: Part, world: World, sh: Shell, sh1: Shell, sh': Shell)
    requires sh1.status == sh.status && sh1.hardware == sh.hardware && sh1.burner == sh.burner && Untouched(p, sh1, sh')
    ensures Follows(p, world, sh, sh')
  {
    hide LastOn;
  }

  lemma {:induction false} ExecuteFollows(p: Part, sh: Shell, c: Command, world: World)
    requires !c.Quit?
    ensures Follows(p, world, sh, Execute(sh, c, world).0)
  {
    hide LastOn, AbortCalib, ReleaseToStock, CommandedCpu, CommandedGpu, EnteredAuto, Follows, Works, Untouched;
    SameStatusUntouched(p, sh, sh);
    UntouchedFollows(p, world, sh, sh, sh);
    DrainFollows(p, world, sh, sh, []);
    match c {
      case SetCpuW(verified) =>
        ManualWorks(p, sh, verified, None, world);
        WorksFollows(p, world, sh, CommandedCpu(sh, verified, world));
        DrainFollows(p, world, sh, CommandedCpu(sh, verified, world), []);
      case SetGpuMaxClock(applied) =>
        ManualWorks(p, sh, None, applied, world);
        WorksFollows(p, world, sh, CommandedGpu(sh, applied, world));
        DrainFollows(p, world, sh, CommandedGpu(sh, applied, world), []);
      case ReleaseAll => LeavingRestores(p, sh, world);
      case SetFanTarget =>
      case SetFloors =>
      case SetAuto(_) =>
        LeavingRestores(p, sh, world);
        EntryFollows(p, sh, world);
      case StartCalibration =>
        SameStatusUntouched(p, sh, Begun(sh));
        UntouchedFollows(p, world, sh, sh, Begun(sh));
        DrainFollows(p, world, sh, Begun(sh), []);
      case DismissOutcome =>
      case AbortCalibration =>
        AbortWorks(p, sh, world);
        WorksFollows(p, world, sh, AbortCalib(sh, world));
        DrainFollows(p, world, sh, AbortCalib(sh, world), []);
    }
  }

  lemma {:induction false} EntryFollows(p: Part, sh: Shell, world: World)
    ensures Follows(p, world, sh, Drain(EnteredAuto(sh), []).0)
  {
    hide LastOn, AddFlag, Follows, Untouched;
    var sh1 := AddFlag(sh, NotCalibrated);
    SyncTouchesNothing(p, sh, NotCalibrated, true);
    UntouchedFollows(p, world, sh, sh, sh1);
    EnteredUntouched(p, sh, sh1);
    UntouchedFollows(p, world, sh, sh, EnteredAuto(sh));
    DrainFollows(p, world, sh, EnteredAuto(sh), []);
  }

  lemma {:induction false} EnteredUntouched(p: Part, sh: Shell, sh1: Shell)
    requires sh1 == AddFlag(sh, NotCalibrated) && Untouched(p, sh, sh1)
    ensures Untouched(p, sh, EnteredAuto(sh))
  {
    hide LastOn, AddFlag;
  }

  lemma {:induction false} CommandFollows(p: Part, sh: Shell, c: Command, world: World)
    requires !c.Quit?
    ensures Follows(p, world, sh, OnCommand(sh, c, world).0)
  {
    hide LastOn, Acknowledge, Execute, Follows, Untouched;
    AcknowledgeFollows(p, sh, world);
    ExecuteFollows(p, sh, c, world);
    SameStatusUntouched(p, sh, sh);
    UntouchedFollows(p, world, sh, sh, sh);
  }

  /** An emergency puts both devices back, whatever a calibration's own
      restores did before. */
  lemma {:induction false} EmergencyRestores(p: Part, start: Shell, sh: Shell, trip: Trip, world: World)
    requires Works(p, world, start, sh)
    ensures var (sh', effects) := EmergencyRelease(sh, trip, world);
            && Follows(p, world, start, sh') && (p != Heater ==> AtStock(p, sh', world))
            && effects != [] && effects[0] == Released
  {
    hide LastOn, ReleaseToStock, AbortCalib, AddFlag, Follows, AtStock, Untouched, Works;
    var sh1 := AbortCalib(sh, world);
    AbortWorks(p, sh, world);
    WorksChain(p, world, start, sh, sh1);
    var sh2 := ReleaseToStock(ExitAuto(sh1), world);
    ReleaseRestores(ExitAuto(sh1), world);
    var f := if trip == Thermal then ThermalEmergency else SensorLost;
    SyncTouchesNothing(p, sh2, f, true);
    if p == Heater {
      ReleasedWorks(p, world, start, sh1, ExitAuto(sh1), sh2, AddFlag(sh2, f));
      WorksFollows(p, world, start, AddFlag(sh2, f));
    } else {
      StillAtStock(p, world, sh2, AddFlag(sh2, f));
      RestoredFollows(p, world, start, AddFlag(sh2, f));
    }
    DrainFollows(p, world, start, AddFlag(sh2, f), [Released]);
  }

  lemma {:induction false} StillAtStock(p: Part, world: World, sh: Shell, sh': Shell)
    requires AtStock(p, sh, world) && Untouched(p, sh, sh')
    ensures AtStock(p, sh', world)
  {
    hide LastOn;
  }

  lemma {:induction false} ReleasedWorks(p: Part, world: World, start: Shell, sh: Shell, sh1: Shell, sh2: Shell, sh3: Shell)
    requires Works(p, world, start, sh) && sh1.status == sh.status && sh1.hardware == sh.hardware && sh1.burner == sh.burner
    requires Untouched(p, sh1, sh2) && Untouched(p, sh2, sh3)
    ensures Works(p, world, start, sh3)
  {
    hide LastOn, Works;
    UntouchedChain(p, sh1, sh2, sh3);
    assert Untouched(p, sh, sh3);
    UntouchedWorks(p, world, sh, sh3);
    WorksChain(p, world, start, sh, sh3);
  }

  lemma {:induction false} ProceedFollows(p: Part, fit: StepTest.Fitter, sh: Shell, s: Sample, tick: Tick, world: World)
    ensures Follows(p, world, sh, Proceed(fit, sh, s, tick, world).0)
  {
    hide LastOn, CalibSample, Resume, AutoSample, Stickiness, Periodic, Follows, Works, Untouched, NoDuplicates;
    if sh.status.mode == Calibrating {
      CalibSampleWorks(p, fit, sh, s, tick, world);
      WorksFollows(p, world, sh, CalibSample(fit, sh, s, tick, world).0);
    } else if sh.status.mode == Auto && sh.hold {
      SameStatusUntouched(p, sh, sh.(hold := false));
      UntouchedFollows(p, world, sh, sh, sh.(hold := false));
    } else {
      RegulatedFollows(p, sh, s, tick, world);
      DrainFollows(p, world, sh, Regulated(sh, s, tick, world), []);
      assert Regulate(sh, s, tick, world).0 == Drain(Regulated(sh, s, tick, world), []).0;
    }
  }

  lemma {:induction false} SampleFollows(p: Part, fit: StepTest.Fitter, sh: Shell, s: Sample, tick: Tick, world: World)
    ensures Follows(p, world, sh, OnSample(fit, sh, s, tick, world).0)
  {
    hide LastOn, Observe, Proceed, EmergencyRelease, AbortRunner, Follows, Works, Untouched;
    SameStatusUntouched(p, sh, sh);
    UntouchedFollows(p, world, sh, sh, sh);
    UntouchedWorks(p, world, sh, sh);
    if !world.down {
      var (watchdog, trip) := Observe(sh.watchdog, s);
      var sh1 := sh.(watchdog := watchdog);
      SameStatusUntouched(p, sh, sh1);
      UntouchedWorks(p, world, sh, sh1);
      if trip == NoTrip {
        var sh2 := sh1.(idleWarned := sh1.idleWarned && !watchdog.IsQuiet());
        ProceedFollows(p, fit, sh2, s, tick, world);
        FollowsFrom(p, world, sh, sh2, Proceed(fit, sh2, s, tick, world).0);
      } else if trip == Thermal && sh1.status.mode == Calibrating {
        AbortWorks(p, sh1, world);
        WorksChain(p, world, sh, sh1, AbortRunner(sh1, world));
        EmergencyRestores(p, sh, AbortRunner(sh1, world), Thermal, world);
      } else if AnythingCommanded(sh1) {
        EmergencyRestores(p, sh, sh1, trip, world);
      } else {
        var sh2 := sh1.(idleWarned := true, watchdog := ARMED);
        ProceedFollows(p, fit, sh2, s, tick, world);
        FollowsFrom(p, world, sh, sh2, Proceed(fit, sh2, s, tick, world).0);
      }
    }
  }

  lemma {:induction false} FollowsFrom(p: Part, world: World, sh: Shell, sh1: Shell, sh': Shell)
    requires Follows(p, world, sh1, sh')
    requires sh1.status == sh.status && sh1.hardware == sh.hardware && sh1.burner == sh.burner
    ensures Follows(p, world, sh, sh')
  {
    hide LastOn;
  }

  // ---- Exact writes of the loops ----

  lemma {:induction false} CpuWriteIssues(sh: Shell, try: CpuTry)
    ensures var sh1 := Issue(sh, CapCpu);
            var sh2 := if try.retried then Issue(sh1, CapCpu) else sh1;
            var sh3 := if try.verdict == V.Verified then WithCpu(sh2, Some(try.value)) else sh2;
            && sh3.hardware == sh.hardware + [CapCpu] + (if try.retried then [CapCpu] else [])
            && sh3.status.cpuLimit == (if try.verdict == V.Verified then Some(try.value) else sh.status.cpuLimit)
            && sh3.status.gpuMax == sh.status.gpuMax && sh3.auto == sh.auto
  {
    hide LastOn;
  }

  /** What one CPU decision writes, and the limit it leaves. */
  lemma {:induction false} CpuDecisionWrites(sh: Shell, try: CpuTry, world: World)
    ensures var sh' := AutoCpu(sh, Some(try), world);
            var due := !world.down && world.hasCpu;
            var strikes := due && sh.auto.Some? && ThirdStrike(sh.auto.value.cpu, try.verdict, try.suppress);
            && sh'.hardware == sh.hardware + (if due then [CapCpu] + (if try.retried then [CapCpu] else []) else [])
                               + (if strikes then [StockCpu] else [])
            && sh'.status.cpuLimit == (if strikes then None
                                       else if due && try.verdict == V.Verified then Some(try.value)
                                       else sh.status.cpuLimit)
            && sh'.status.gpuMax == sh.status.gpuMax
  {
    hide ScoreCpu, ThirdStrike, Issue, WithCpu;
    if !world.down && world.hasCpu {
      CpuWriteIssues(sh, try);
      var sh1 := Issue(sh, CapCpu);
      var sh2 := if try.retried then Issue(sh1, CapCpu) else sh1;
      CpuVerdictIssues(if try.verdict == V.Verified then WithCpu(sh2, Some(try.value)) else sh2, try.verdict, try.suppress);
    }
  }

  lemma {:induction false} GpuVerdictIssues(sh: Shell, seen: V.Seen, world: World)
    ensures var sh' := ScoreGpu(sh, seen, world);
            var strikes := sh.auto.Some? && ThirdStrike(sh.auto.value.gpu, seen.verdict, seen.suppress);
            && sh'.hardware == sh.hardware + (if strikes && world.hasGpu then [StockGpu] else [])
            && sh'.status.gpuMax == (if strikes then None else sh.status.gpuMax)
            && sh'.status.cpuLimit == sh.status.cpuLimit && sh'.burner == sh.burner
  {
    hide SyncVerdicts, V.Score, ThirdStrike;
    if sh.auto.Some? {
      var (counter, outcome) := V.Score(sh.auto.value.gpu, seen.verdict, seen.suppress);
      ReleasedByThirdStrike(sh.auto.value.gpu, seen.verdict, seen.suppress);
      var sh1 := sh.(auto := Some(sh.auto.value.(gpu := counter)));
      VerdictsKeepMachine(if outcome == V.Released then WithGpu(if world.hasGpu then Issue(sh1, StockGpu) else sh1, None) else sh1);
    }
  }

  /** What one GPU decision writes, and the lock it leaves: a release is never
      followed by a write of the same sample. */
  lemma {:induction false} GpuDecisionWrites(sh: Shell, a: AutoTick, world: World)
    requires sh.auto.Some?
    ensures var sh' := AutoGpu(sh, a, world);
            var strikes := a.gpuSeen.Some? && ThirdStrike(sh.auto.value.gpu, a.gpuSeen.value.verdict, a.gpuSeen.value.suppress);
            var writes := a.gpuDue && !strikes && !world.down && world.hasGpu;
            && sh'.hardware == sh.hardware + (if strikes && world.hasGpu then [StockGpu] else if writes then [CapGpu] else [])
            && sh'.status.gpuMax == (if strikes then None else if writes && a.gpuApplied.Some? then a.gpuApplied else sh.status.gpuMax)
            && sh'.status.cpuLimit == sh.status.cpuLimit
  {
    hide ScoreGpu, ThirdStrike, V.Score;
    if a.gpuSeen.Some? {
      GpuVerdictIssues(sh, a.gpuSeen.value, world);
      ReleasedByThirdStrike(sh.auto.value.gpu, a.gpuSeen.value.verdict, a.gpuSeen.value.suppress);
    }
  }

  /** In doubt about either limit, the user is told it does not stick; the
      blind flag follows the counters both ways. */
  lemma {:induction false} VerdictFlags(sh: Shell)
    requires NoDuplicates(sh.status.flags) && sh.auto.Some?
    ensures var (cpu, gpu) := (sh.auto.value.cpu, sh.auto.value.gpu);
            var flags := SyncVerdicts(sh).status.flags;
            && (ReadbackBlind in flags <==> cpu.blind || gpu.blind)
            && (LimitNotSticking in flags <==>
                  LimitNotSticking in sh.status.flags || cpu.strikes > 0 || cpu.released || gpu.strikes > 0 || gpu.released)
            && forall f :: f != ReadbackBlind && f != LimitNotSticking ==> (f in flags <==> f in sh.status.flags)
  {
    hide AddFlag, RemoveFlag, NoDuplicates;
    var sh1 := AddFlag(sh, LimitNotSticking);
    AddTraces({}, sh, LimitNotSticking);
    AddKeepsDistinct(sh, LimitNotSticking);
    AddTraces({}, sh, ReadbackBlind);
    AddTraces({}, sh1, ReadbackBlind);
    RemoveTraces({}, sh, ReadbackBlind);
    RemoveTraces({}, sh1, ReadbackBlind);
  }

  // ---- The power watch ----

  /** Readings over the limit since the last reading that was not; what reads
      no power is neither. */
  function OverCount(limit: real, h: seq<Sample>): nat {
    if h == [] then 0
    else
      var last := h[|h| - 1];
      if last.pkgW <= 0.0 then OverCount(limit, h[..|h| - 1])
      else if last.pkgW > limit + 5.0 then OverCount(limit, h[..|h| - 1]) + 1
      else 0
  }

  /** The power watch over a run of samples, with one answer to maintenance. */
  function WatchedRun(sh: Shell, h: seq<Sample>, m: Maintenance, world: World): Shell {
    if h == [] then sh else Stickiness(WatchedRun(sh, h[..|h| - 1], m, world), h[|h| - 1], m, world)
  }

  /** Two readings in a row are enough while a resume is recent. */
  predicate Strict(sh: Shell, s: Sample) {
    sh.timers.strictUntil.Some? && s.t < sh.timers.strictUntil.value
  }

  /** One sample of the watch: it acts exactly on the third reading over the
      limit, or the second after a resume, and otherwise writes nothing. */
  lemma {:induction false} StickinessDecides(sh: Shell, s: Sample, m: Maintenance, world: World)
    requires sh.auto.None? && sh.status.cpuLimit.Some?
    ensures var sh' := Stickiness(sh, s, m, world);
            var over := s.pkgW > 0.0 && s.pkgW > sh.status.cpuLimit.value + 5.0;
            var acts := over && sh.timers.stick + 1 >= (if Strict(sh, s) then 2 else 3);
            && sh'.auto.None? && sh'.status.cpuLimit == sh.status.cpuLimit && sh'.timers.strictUntil == sh.timers.strictUntil
            && sh'.timers.stick == (if s.pkgW <= 0.0 then sh.timers.stick else if over && !acts then sh.timers.stick + 1 else 0)
            && sh'.hardware == (if acts then Reassert(sh, m, world).hardware else sh.hardware)
            && (acts ==> LimitNotSticking in sh'.status.flags)
  {
    hide Reassert, Without, Attempted, ThirdStrike;
    var sh1 := sh.(timers := sh.timers.(stick := 0));
    ReassertWrites(sh1, m, world);
    ReassertWrites(sh, m, world);
    ReassertKeepsAuto(sh1, m, world);
    FlagKeepsMachine(sh1, LimitNotSticking);
  }

  lemma {:induction false} ReassertKeepsAuto(sh: Shell, m: Maintenance, world: World)
    requires sh.auto.None?
    ensures Reassert(sh, m, world).auto.None?
  {
  }

  /** Over any run outside Auto the watch holds the readings over the limit
      modulo three, and acts on the last exactly when it completes a three. */
  lemma {:induction false} StickinessMeaning(sh: Shell, h: seq<Sample>, m: Maintenance, world: World)
    requires sh.auto.None? && sh.status.cpuLimit.Some? && sh.timers.stick == 0 && sh.timers.strictUntil.None?
    ensures var sh' := WatchedRun(sh, h, m, world);
            var limit := sh.status.cpuLimit.value;
            && sh'.auto.None? && sh'.status.cpuLimit == sh.status.cpuLimit && sh'.timers.strictUntil.None?
            && sh'.timers.stick == OverCount(limit, h) % 3
            && (h != [] ==>
                  var before := WatchedRun(sh, h[..|h| - 1], m, world);
                  sh'.hardware == if h[|h| - 1].pkgW > 0.0 && h[|h| - 1].pkgW > limit + 5.0 && OverCount(limit, h) % 3 == 0
                                  then Reassert(before, m, world).hardware else before.hardware)
  {
    hide Stickiness, Reassert;
    if h != [] {
      var front := h[..|h| - 1];
      StickinessMeaning(sh, front, m, world);
      StickinessDecides(WatchedRun(sh, front, m, world), h[|h| - 1], m, world);
    }
  }
}
