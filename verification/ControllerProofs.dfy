/** What every session of the controller keeps: mode ownership, the emergency
    latch, the stop fence and the flag stream. */
module ControllerProofs {
  import opened Prelude
  import opened Controller
  import V = Verdicts

  // ---- The flag stream ----

  ghost function Raised(sh: Shell): set<Flag> {
    set f | f in sh.status.flags
  }

  predicate NoDuplicates(flags: seq<Flag>) {
    forall i, j :: 0 <= i < j < |flags| ==> flags[i] != flags[j]
  }

  /** The flags after a stream of effects; None if some transition repeats the
      flag's current value. */
  ghost function Replay(flags: set<Flag>, effects: seq<Effect>): Option<set<Flag>> {
    if effects == [] then Some(flags)
    else
      match Replay(flags, effects[..|effects| - 1])
      case None => None
      case Some(now) =>
        match effects[|effects| - 1]
        case Flagged(f, active) =>
          if active == (f in now) then None else Some(if active then now + {f} else now - {f})
        case _ => Some(now)
  }

  lemma {:induction false} ReplaySnoc(flags: set<Flag>, effects: seq<Effect>, e: Effect)
    ensures Replay(flags, effects + [e]) ==
              match Replay(flags, effects)
              case None => None
              case Some(now) =>
                match e
                case Flagged(f, active) => if active == (f in now) then None else Some(if active then now + {f} else now - {f})
                case _ => Some(now)
  {
    assert (effects + [e])[..|effects + [e]| - 1] == effects;
  }

  lemma {:induction false} ReplayAppend(flags: set<Flag>, a: seq<Effect>, b: seq<Effect>)
    ensures Replay(flags, a + b) == match Replay(flags, a) { case None => None case Some(now) => Replay(now, b) }
  {
    if b == [] {
      assert a + b == a;
    } else {
      var n := |b| - 1;
      ReplayAppend(flags, a, b[..n]);
      assert a + b == (a + b[..n]) + [b[n]] && b == b[..n] + [b[n]];
      ReplaySnoc(flags, a + b[..n], b[n]);
      if Replay(flags, a).Some? {
        ReplaySnoc(Replay(flags, a).value, b[..n], b[n]);
      }
    }
  }

  /** The pending effects tell exactly how the flags got here from `start`. */
  ghost predicate Traced(start: set<Flag>, sh: Shell) {
    NoDuplicates(sh.status.flags) && Replay(start, sh.pending) == Some(Raised(sh))
  }

  lemma {:induction false} WithoutMeaning(flags: seq<Flag>, f: Flag)
    requires NoDuplicates(flags)
    ensures NoDuplicates(Without(flags, f))
    ensures forall g :: g in Without(flags, f) <==> g in flags && g != f
    ensures |Without(flags, f)| == |flags| <==> f !in flags
    ensures |Without(flags, f)| <= |flags|
  {
    if flags != [] {
      var front, last := flags[..|flags| - 1], flags[|flags| - 1];
      assert flags == front + [last];
      DistinctSnoc(front, last);
      WithoutMeaning(front, f);
      DistinctSnoc(Without(front, f), last);
      hide NoDuplicates;
      assert forall g :: g in flags <==> g in front || g == last;
    }
  }

  lemma {:induction false} DistinctSnoc(s: seq<Flag>, f: Flag)
    ensures NoDuplicates(s + [f]) <==> NoDuplicates(s) && f !in s
  {
    var t := s + [f];
    assert forall i :: 0 <= i < |s| ==> t[i] == s[i];
    assert t[|s|] == f;
    if f in s {
      var i :| 0 <= i < |s| && s[i] == f;
      assert t[i] == t[|s|];
    }
  }

  /** A flag operation touches nothing but the flag list and the pending
      effects, and none but that flag. */
  ghost predicate OnlyFlag(sh: Shell, sh': Shell, f: Flag) {
    && sh' == sh.(status := sh.status.(flags := sh'.status.flags), pending := sh'.pending)
    && forall g :: g != f ==> (g in sh'.status.flags <==> g in sh.status.flags)
  }

  lemma {:induction false} AddTraces(start: set<Flag>, sh: Shell, f: Flag)
    ensures OnlyFlag(sh, AddFlag(sh, f), f) && f in AddFlag(sh, f).status.flags
    ensures Traced(start, sh) ==> Traced(start, AddFlag(sh, f))
  {
    if f !in sh.status.flags {
      ReplaySnoc(start, sh.pending, Flagged(f, true));
      hide Replay;
      assert Raised(AddFlag(sh, f)) == Raised(sh) + {f};
    }
  }

  lemma {:induction false} RemoveTraces(start: set<Flag>, sh: Shell, f: Flag)
    requires NoDuplicates(sh.status.flags)
    ensures OnlyFlag(sh, RemoveFlag(sh, f), f) && f !in RemoveFlag(sh, f).status.flags
    ensures NoDuplicates(RemoveFlag(sh, f).status.flags)
    ensures Traced(start, sh) ==> Traced(start, RemoveFlag(sh, f))
  {
    RemoveMeaning(sh, f);
    if f in sh.status.flags {
      ReplaySnoc(start, sh.pending, Flagged(f, false));
      hide Replay, NoDuplicates, RemoveFlag, Raised;
    } else {
      hide Replay, NoDuplicates, RemoveFlag, Raised;
    }
  }

  lemma {:induction false} RemoveMeaning(sh: Shell, f: Flag)
    requires NoDuplicates(sh.status.flags)
    ensures NoDuplicates(RemoveFlag(sh, f).status.flags)
    ensures OnlyFlag(sh, RemoveFlag(sh, f), f) && f !in RemoveFlag(sh, f).status.flags
    ensures f !in sh.status.flags ==> RemoveFlag(sh, f) == sh
    ensures f in sh.status.flags ==> RemoveFlag(sh, f).pending == sh.pending + [Flagged(f, false)]
    ensures Raised(RemoveFlag(sh, f)) == Raised(sh) - {f}
    ensures f in Raised(sh) <==> f in sh.status.flags
  {
    WithoutMeaning(sh.status.flags, f);
    hide Without, NoDuplicates;
  }

  // ---- Frames ----

  predicate Alarmed(sh: Shell) {
    ThermalEmergency in sh.status.flags || SensorLost in sh.status.flags
  }

  /** No cap write was started on the way. */
  ghost predicate Uncapped(sh: Shell, sh': Shell) {
    && |sh.hardware| <= |sh'.hardware|
    && sh.hardware == sh'.hardware[..|sh.hardware|]
    && forall i :: |sh.hardware| <= i < |sh'.hardware| ==> sh'.hardware[i] != CapCpu && sh'.hardware[i] != CapGpu
  }

  /** Bookkeeping every routine operation respects: the flag trace, the
      emergency flags, the watchdog, and the fence. */
  ghost predicate Respects(start: set<Flag>, down: bool, sh: Shell, sh': Shell) {
    && (Traced(start, sh) ==> Traced(start, sh'))
    && (NoDuplicates(sh.status.flags) ==> NoDuplicates(sh'.status.flags))
    && (Alarmed(sh') <==> Alarmed(sh))
    && sh'.watchdog == sh.watchdog
    && (down ==> Uncapped(sh, sh'))
  }

  lemma {:induction false} RespectsChain(start: set<Flag>, down: bool, a: Shell, b: Shell, c: Shell)
    requires Respects(start, down, a, b) && Respects(start, down, b, c)
    ensures Respects(start, down, a, c)
  {
    hide Traced, Alarmed, NoDuplicates;
    if down {
      UncappedChain(a, b, c);
    }
  }

  lemma {:induction false} UncappedChain(a: Shell, b: Shell, c: Shell)
    requires Uncapped(a, b) && Uncapped(b, c)
    ensures Uncapped(a, c)
  {
    assert forall i :: 0 <= i < |b.hardware| ==> b.hardware[i] == c.hardware[i];
  }

  lemma {:induction false} IssueUncapped(sh: Shell, op: Operation)
    requires op != CapCpu && op != CapGpu
    ensures Uncapped(sh, Issue(sh, op))
  {
  }

  lemma {:induction false} SameHardware(sh: Shell, sh': Shell)
    requires sh'.hardware == sh.hardware
    ensures Uncapped(sh, sh')
  {
  }

  lemma {:induction false} SyncRespects(start: set<Flag>, down: bool, sh: Shell, f: Flag, on: bool)
    requires !IsEmergency(f) && NoDuplicates(sh.status.flags)
    ensures Respects(start, down, sh, SyncFlag(sh, f, on)) && OnlyFlag(sh, SyncFlag(sh, f, on), f)
    ensures Respects(start, down, sh, AddFlag(sh, f)) && OnlyFlag(sh, AddFlag(sh, f), f)
    ensures Respects(start, down, sh, RemoveFlag(sh, f)) && OnlyFlag(sh, RemoveFlag(sh, f), f)
  {
    AddTraces(start, sh, f);
    RemoveTraces(start, sh, f);
    AddKeepsDistinct(sh, f);
    hide AddFlag, RemoveFlag, Traced, NoDuplicates;
    SameHardware(sh, AddFlag(sh, f));
    SameHardware(sh, RemoveFlag(sh, f));
  }

  lemma {:induction false} AddKeepsDistinct(sh: Shell, f: Flag)
    requires NoDuplicates(sh.status.flags)
    ensures NoDuplicates(AddFlag(sh, f).status.flags)
  {
  }

  /** Only the flags moved. */
  predicate OnlyFlags(sh: Shell, sh': Shell) {
    sh' == sh.(status := sh.status.(flags := sh'.status.flags), pending := sh'.pending)
  }

  lemma {:induction false} SyncAllRespects(start: set<Flag>, down: bool, sh: Shell, updates: seq<FlagUpdate>)
    requires NoDuplicates(sh.status.flags)
    ensures Respects(start, down, sh, SyncAll(sh, updates)) && OnlyFlags(sh, SyncAll(sh, updates))
  {
    hide SyncFlag, Traced, NoDuplicates;
    if updates == [] {
      SameHardware(sh, sh);
    } else {
      var last := updates[|updates| - 1];
      var sh1 := SyncAll(sh, updates[..|updates| - 1]);
      SyncAllRespects(start, down, sh, updates[..|updates| - 1]);
      SyncRespects(start, down, sh1, last.flag, last.on);
      RespectsChain(start, down, sh, sh1, SyncFlag(sh1, last.flag, last.on));
    }
  }

  lemma {:induction false} RemoveAllRespects(start: set<Flag>, down: bool, sh: Shell, flags: seq<Flag>)
    requires NoDuplicates(sh.status.flags) && forall f :: f in flags ==> !IsEmergency(f)
    ensures Respects(start, down, sh, RemoveAll(sh, flags)) && OnlyFlags(sh, RemoveAll(sh, flags))
    ensures forall f :: f in flags ==> f !in RemoveAll(sh, flags).status.flags
  {
    hide RemoveFlag, Traced, NoDuplicates;
    if flags == [] {
      SameHardware(sh, sh);
    } else {
      var last := flags[|flags| - 1];
      var front := flags[..|flags| - 1];
      assert last in flags && forall f :: f in front ==> f in flags;
      var sh1 := RemoveAll(sh, front);
      RemoveAllRespects(start, down, sh, front);
      RemoveTraces(start, sh1, last);
      SyncRespects(start, down, sh1, last, false);
      RespectsChain(start, down, sh, sh1, RemoveFlag(sh1, last));
      assert forall f :: f in flags ==> f in front || f == last;
    }
  }

  // ---- The closed-loop operations ----

  predicate SameSession(sh: Shell, sh': Shell) {
    && sh'.status.mode == sh.status.mode && sh'.calib == sh.calib && sh'.fromAuto == sh.fromAuto
    && sh'.hold == sh.hold && sh'.burner == sh.burner && sh'.auto.Some? == sh.auto.Some?
    && sh'.saved == sh.saved
  }

  predicate Bare(sh: Shell) {
    sh.status.cpuLimit.None? && sh.status.gpuMax.None?
  }

  /** An operation of a sample: respectful, inside the session, and unable to
      write a cap while nothing is commanded. */
  ghost predicate Routine(start: set<Flag>, down: bool, sh: Shell, sh': Shell) {
    && Respects(start, down, sh, sh') && SameSession(sh, sh')
    && (Bare(sh) ==> Bare(sh') && Uncapped(sh, sh'))
  }

  lemma {:induction false} RoutineChain(start: set<Flag>, down: bool, a: Shell, b: Shell, c: Shell)
    requires Routine(start, down, a, b) && Routine(start, down, b, c)
    ensures Routine(start, down, a, c)
  {
    hide Respects, Uncapped;
    RespectsChain(start, down, a, b, c);
    if Bare(a) {
      UncappedChain(a, b, c);
    }
  }

  /** Only flags, timers and read-back counters moved. */
  predicate OnlyBooks(sh: Shell, sh': Shell) {
    && sh' == sh.(status := sh.status.(flags := sh'.status.flags), pending := sh'.pending, timers := sh'.timers, auto := sh'.auto)
    && sh'.auto.Some? == sh.auto.Some?
  }

  lemma {:induction false} BooksAreRoutine(start: set<Flag>, down: bool, sh: Shell, sh': Shell)
    requires OnlyBooks(sh, sh') && sh'.status.flags == sh.status.flags && sh'.pending == sh.pending
    ensures Routine(start, down, sh, sh')
  {
    hide NoDuplicates, Replay;
    SameHardware(sh, sh');
    hide Uncapped;
    assert Raised(sh) == Raised(sh');
  }

  lemma {:induction false} FlagsAreRoutine(start: set<Flag>, down: bool, sh: Shell, sh': Shell)
    requires Respects(start, down, sh, sh') && OnlyFlags(sh, sh')
    ensures Routine(start, down, sh, sh')
  {
    hide Respects;
    SameHardware(sh, sh');
  }

  lemma {:induction false} IssueIsRoutine(start: set<Flag>, down: bool, sh: Shell, op: Operation)
    requires op != CapCpu && op != CapGpu
    ensures Routine(start, down, sh, Issue(sh, op))
  {
    hide NoDuplicates, Replay;
    IssueUncapped(sh, op);
    hide Uncapped;
    assert Raised(sh) == Raised(Issue(sh, op));
  }

  lemma {:induction false} LimitsAreRespected(start: set<Flag>, down: bool, sh: Shell, cpu: Option<real>, gpu: Option<nat>)
    ensures var sh' := WithGpu(WithCpu(sh, cpu), gpu);
            && Respects(start, down, sh, sh') && SameSession(sh, sh') && Uncapped(sh, sh')
            && (cpu.None? && gpu.None? ==> Routine(start, down, sh, sh'))
  {
    hide NoDuplicates, Replay;
    var sh' := WithGpu(WithCpu(sh, cpu), gpu);
    SameHardware(sh, sh');
    hide Uncapped;
    assert Raised(sh) == Raised(sh');
  }

  lemma {:induction false} SyncVerdictsRoutine(start: set<Flag>, down: bool, sh: Shell)
    requires NoDuplicates(sh.status.flags)
    ensures Routine(start, down, sh, SyncVerdicts(sh)) && OnlyFlags(sh, SyncVerdicts(sh))
  {
    hide AddFlag, RemoveFlag, Respects, NoDuplicates, V.Counter.InEpisode;
    SyncRespects(start, down, sh, LimitNotSticking, true);
    RespectsKeepsDistinct(start, down, sh, AddFlag(sh, LimitNotSticking));
    SyncRespects(start, down, sh, ReadbackBlind, true);
    SyncRespects(start, down, AddFlag(sh, LimitNotSticking), ReadbackBlind, true);
    SyncRespects(start, down, sh, ReadbackBlind, false);
    SyncRespects(start, down, AddFlag(sh, LimitNotSticking), ReadbackBlind, false);
    RespectsChain(start, down, sh, AddFlag(sh, LimitNotSticking), SyncFlag(AddFlag(sh, LimitNotSticking), ReadbackBlind, true));
    RespectsChain(start, down, sh, AddFlag(sh, LimitNotSticking), SyncFlag(AddFlag(sh, LimitNotSticking), ReadbackBlind, false));
    FlagsAreRoutine(start, down, sh, SyncVerdicts(sh));
  }

  lemma {:induction false} RespectsKeepsDistinct(start: set<Flag>, down: bool, sh: Shell, sh': Shell)
    requires Respects(start, down, sh, sh') && NoDuplicates(sh.status.flags)
    ensures NoDuplicates(sh'.status.flags)
  {
    hide Traced, NoDuplicates, Uncapped;
  }

  predicate CpuStays(sh: Shell, sh': Shell) {
    && SameSession(sh, sh') && sh'.status.gpuMax == sh.status.gpuMax
    && (sh.status.cpuLimit.None? ==> sh'.status.cpuLimit.None?)
  }

  lemma {:induction false} CpuReleaseRespects(start: set<Flag>, down: bool, sh: Shell)
    ensures var sh' := WithCpu(Issue(sh, StockCpu), None);
            Respects(start, down, sh, sh') && CpuStays(sh, sh') && Uncapped(sh, sh')
  {
    hide NoDuplicates, Respects, Uncapped;
    var sh1 := Issue(sh, StockCpu);
    IssueIsRoutine(start, down, sh, StockCpu);
    IssueUncapped(sh, StockCpu);
    LimitsAreRespected(start, down, sh1, None, sh.status.gpuMax);
    assert WithGpu(WithCpu(sh1, None), sh.status.gpuMax) == WithCpu(sh1, None);
    RespectsChain(start, down, sh, sh1, WithCpu(sh1, None));
    UncappedChain(sh, sh1, WithCpu(sh1, None));
  }

  /** Another read-back counter moves nothing else. */
  lemma {:induction false} CounterRespects(start: set<Flag>, down: bool, sh: Shell, a: AutoState)
    requires sh.auto.Some?
    ensures var sh' := sh.(auto := Some(a));
            && Respects(start, down, sh, sh') && CpuStays(sh, sh') && Uncapped(sh, sh')
            && sh'.status.flags == sh.status.flags
  {
    hide NoDuplicates, Respects, Uncapped;
    BooksAreRoutine(start, down, sh, sh.(auto := Some(a)));
    SameHardware(sh, sh.(auto := Some(a)));
  }

  lemma {:induction false} ScoreCpuRoutine(start: set<Flag>, down: bool, sh: Shell, verdict: V.Verdict, suppress: bool)
    requires NoDuplicates(sh.status.flags)
    ensures var sh' := ScoreCpu(sh, verdict, suppress); Respects(start, down, sh, sh') && CpuStays(sh, sh') && Uncapped(sh, sh')
  {
    hide V.Score, NoDuplicates, Respects, Uncapped, SyncVerdicts;
    if sh.auto.None? {
      BooksAreRoutine(start, down, sh, sh);
      SameHardware(sh, sh);
    } else {
      var (counter, outcome) := V.Score(sh.auto.value.cpu, verdict, suppress);
      ScoredCpu(start, down, sh, sh.auto.value.(cpu := counter), outcome == V.Released);
    }
  }

  lemma {:induction false} ScoredCpu(start: set<Flag>, down: bool, sh: Shell, a: AutoState, released: bool)
    requires NoDuplicates(sh.status.flags) && sh.auto.Some?
    ensures var sh1 := sh.(auto := Some(a));
            var sh' := SyncVerdicts(if released then WithCpu(Issue(sh1, StockCpu), None) else sh1);
            Respects(start, down, sh, sh') && CpuStays(sh, sh') && Uncapped(sh, sh')
  {
    hide NoDuplicates, Respects, Uncapped, SyncVerdicts, CpuStays;
    var sh1 := sh.(auto := Some(a));
    CounterRespects(start, down, sh, a);
    if released {
      CpuReleaseRespects(start, down, sh1);
      SyncedCpu(start, down, sh, sh1, WithCpu(Issue(sh1, StockCpu), None));
    } else {
      SyncedCpu(start, down, sh, sh1, sh1);
    }
  }

  lemma {:induction false} SyncedCpu(start: set<Flag>, down: bool, sh: Shell, sh1: Shell, sh2: Shell)
    requires NoDuplicates(sh2.status.flags)
    requires Respects(start, down, sh, sh1) && Uncapped(sh, sh1) && CpuStays(sh, sh1)
    requires sh2 == sh1 || (Respects(start, down, sh1, sh2) && Uncapped(sh1, sh2) && CpuStays(sh1, sh2))
    ensures var sh' := SyncVerdicts(sh2); Respects(start, down, sh, sh') && Uncapped(sh, sh') && CpuStays(sh, sh')
  {
    hide NoDuplicates, Respects, Uncapped, SyncVerdicts;
    if sh2 != sh1 {
      RespectsChain(start, down, sh, sh1, sh2);
      UncappedChain(sh, sh1, sh2);
    }
    SyncVerdictsRoutine(start, down, sh2);
    SameHardware(sh2, SyncVerdicts(sh2));
    UncappedChain(sh, sh2, SyncVerdicts(sh2));
    RespectsChain(start, down, sh, sh2, SyncVerdicts(sh2));
  }

  lemma {:induction false} CapRespects(start: set<Flag>, sh: Shell, op: Operation)
    ensures Respects(start, false, sh, Issue(sh, op)) && SameSession(sh, Issue(sh, op))
  {
    hide NoDuplicates, Replay;
    assert Raised(sh) == Raised(Issue(sh, op));
  }

  lemma {:induction false} ScoreGpuRoutine(start: set<Flag>, down: bool, sh: Shell, seen: V.Seen, world: World)
    requires NoDuplicates(sh.status.flags)
    ensures var sh' := ScoreGpu(sh, seen, world);
            Respects(start, down, sh, sh') && SameSession(sh, sh')
  {
    hide V.Score, NoDuplicates, Respects, SyncVerdicts;
    if sh.auto.None? {
      BooksAreRoutine(start, down, sh, sh);
    } else {
      var (counter, outcome) := V.Score(sh.auto.value.gpu, seen.verdict, seen.suppress);
      ScoredGpu(start, down, sh, sh.auto.value.(gpu := counter), outcome == V.Released, world);
    }
  }

  lemma {:induction false} ScoredGpu(start: set<Flag>, down: bool, sh: Shell, a: AutoState, released: bool, world: World)
    requires NoDuplicates(sh.status.flags) && sh.auto.Some?
    ensures var sh1 := sh.(auto := Some(a));
            var sh' := SyncVerdicts(if released then WithGpu(if world.hasGpu then Issue(sh1, StockGpu) else sh1, None) else sh1);
            Respects(start, down, sh, sh') && SameSession(sh, sh')
  {
    hide NoDuplicates, Respects, Uncapped, SyncVerdicts;
    var sh1 := sh.(auto := Some(a));
    CounterRespects(start, down, sh, a);
    var sh2 := if released then WithGpu(if world.hasGpu then Issue(sh1, StockGpu) else sh1, None) else sh1;
    GpuReleaseRespects(start, down, sh1, world);
    BooksAreRoutine(start, down, sh1, sh1);
    RespectsChain(start, down, sh, sh1, sh2);
    SyncVerdictsRoutine(start, down, sh2);
    RespectsChain(start, down, sh, sh2, SyncVerdicts(sh2));
  }

  lemma {:induction false} GpuReleaseRespects(start: set<Flag>, down: bool, sh: Shell, world: World)
    ensures var sh' := WithGpu(if world.hasGpu then Issue(sh, StockGpu) else sh, None);
            Respects(start, down, sh, sh') && SameSession(sh, sh') && sh'.status.flags == sh.status.flags
  {
    hide NoDuplicates, Respects;
    var sh1 := if world.hasGpu then Issue(sh, StockGpu) else sh;
    IssueIsRoutine(start, down, sh, StockGpu);
    BooksAreRoutine(start, down, sh, sh);
    LimitsAreRespected(start, down, sh1, sh.status.cpuLimit, None);
    assert WithGpu(WithCpu(sh1, sh.status.cpuLimit), None) == WithGpu(sh1, None);
    RespectsChain(start, down, sh, sh1, WithGpu(sh1, None));
  }

  lemma {:induction false} CpuTryRespects(start: set<Flag>, sh: Shell, try: CpuTry)
    ensures var sh1 := Issue(sh, CapCpu);
            var sh2 := if try.retried then Issue(sh1, CapCpu) else sh1;
            var sh3 := if try.verdict == V.Verified then WithCpu(sh2, Some(try.value)) else sh2;
            Respects(start, false, sh, sh3) && SameSession(sh, sh3) && sh3.status.flags == sh.status.flags
  {
    hide NoDuplicates, Respects;
    var sh1 := Issue(sh, CapCpu);
    var sh2 := if try.retried then Issue(sh1, CapCpu) else sh1;
    CapRespects(start, sh, CapCpu);
    CapRespects(start, sh1, CapCpu);
    BooksAreRoutine(start, false, sh1, sh1);
    RespectsChain(start, false, sh, sh1, sh2);
    LimitsAreRespected(start, false, sh2, Some(try.value), sh2.status.gpuMax);
    assert WithGpu(WithCpu(sh2, Some(try.value)), sh2.status.gpuMax) == WithCpu(sh2, Some(try.value));
    RespectsChain(start, false, sh, sh2, WithCpu(sh2, Some(try.value)));
  }

  lemma {:induction false} AutoCpuRespects(start: set<Flag>, sh: Shell, try: Option<CpuTry>, world: World)
    requires NoDuplicates(sh.status.flags)
    ensures var sh' := AutoCpu(sh, try, world);
            Respects(start, world.down, sh, sh') && SameSession(sh, sh')
  {
    hide NoDuplicates, Respects, ScoreCpu, Issue, WithCpu;
    BooksAreRoutine(start, world.down, sh, sh);
    if try.Some? && !world.down && world.hasCpu {
      var sh1 := Issue(sh, CapCpu);
      var sh2 := if try.value.retried then Issue(sh1, CapCpu) else sh1;
      var sh3 := if try.value.verdict == V.Verified then WithCpu(sh2, Some(try.value.value)) else sh2;
      CpuTryRespects(start, sh, try.value);
      ScoreCpuRoutine(start, false, sh3, try.value.verdict, try.value.suppress);
      RespectsChain(start, false, sh, sh3, ScoreCpu(sh3, try.value.verdict, try.value.suppress));
    }
  }

  lemma {:induction false} GpuTryRespects(start: set<Flag>, sh: Shell, applied: Option<nat>)
    ensures var sh' := WithGpu(Issue(sh, CapGpu), applied); Respects(start, false, sh, sh') && SameSession(sh, sh')
  {
    hide NoDuplicates, Respects;
    var sh1 := Issue(sh, CapGpu);
    CapRespects(start, sh, CapGpu);
    LimitsAreRespected(start, false, sh1, sh1.status.cpuLimit, applied);
    assert WithGpu(WithCpu(sh1, sh1.status.cpuLimit), applied) == WithGpu(sh1, applied);
    RespectsChain(start, false, sh, sh1, WithGpu(sh1, applied));
  }

  lemma {:induction false} AutoGpuRespects(start: set<Flag>, sh: Shell, a: AutoTick, world: World)
    requires NoDuplicates(sh.status.flags)
    ensures var sh' := AutoGpu(sh, a, world);
            Respects(start, world.down, sh, sh') && SameSession(sh, sh')
  {
    hide NoDuplicates, Respects, ScoreGpu, GpuReleased, Issue, WithGpu;
    BooksAreRoutine(start, world.down, sh, sh);
    var sh1 := if a.gpuSeen.Some? then ScoreGpu(sh, a.gpuSeen.value, world) else sh;
    if a.gpuSeen.Some? {
      ScoreGpuRoutine(start, world.down, sh, a.gpuSeen.value, world);
    }
    if !world.down {
      var applied := if a.gpuApplied.Some? then a.gpuApplied else sh1.status.gpuMax;
      GpuTryRespects(start, sh1, applied);
      RespectsChain(start, false, sh, sh1, WithGpu(Issue(sh1, CapGpu), applied));
    }
  }

  lemma {:induction false} StockRespects(start: set<Flag>, down: bool, sh: Shell, world: World)
    ensures var sh1 := if world.hasGpu then Issue(sh, StockGpu) else sh;
            var sh2 := if world.hasCpu then Issue(sh1, StockCpu) else sh1;
            Routine(start, down, sh, sh2) && Uncapped(sh, sh2)
  {
    hide NoDuplicates, Routine, Uncapped;
    var sh1 := if world.hasGpu then Issue(sh, StockGpu) else sh;
    var sh2 := if world.hasCpu then Issue(sh1, StockCpu) else sh1;
    BooksAreRoutine(start, down, sh, sh);
    SameHardware(sh, sh);
    IssueIsRoutine(start, down, sh, StockGpu);
    IssueUncapped(sh, StockGpu);
    BooksAreRoutine(start, down, sh1, sh1);
    SameHardware(sh1, sh1);
    IssueIsRoutine(start, down, sh1, StockCpu);
    IssueUncapped(sh1, StockCpu);
    RoutineChain(start, down, sh, sh1, sh2);
    UncappedChain(sh, sh1, sh2);
  }

  lemma {:induction false} DisengageRoutine(start: set<Flag>, sh: Shell, changed: bool, world: World)
    requires NoDuplicates(sh.status.flags)
    ensures Routine(start, world.down, sh, Disengage(sh, changed, world))
  {
    hide NoDuplicates, Routine, Respects, RemoveFlag, Uncapped;
    var down := world.down;
    var sh1 := sh.(auto := if sh.auto.Some? then Some(AutoState(V.FRESH, V.FRESH)) else None,
                   timers := sh.timers.(stick := 0, lastReassert := None));
    BooksAreRoutine(start, down, sh, sh1);
    var sh2 := RemoveFlag(sh1, ReadbackBlind);
    SyncRespects(start, down, sh1, ReadbackBlind, false);
    RespectsKeepsDistinct(start, down, sh1, sh2);
    FlagsAreRoutine(start, down, sh1, sh2);
    var sh3 := RemoveFlag(sh2, LimitNotSticking);
    SyncRespects(start, down, sh2, LimitNotSticking, false);
    FlagsAreRoutine(start, down, sh2, sh3);
    RoutineChain(start, down, sh1, sh2, sh3);
    RoutineChain(start, down, sh, sh1, sh3);
    if changed {
      var sh4 := if world.hasGpu then Issue(sh3, StockGpu) else sh3;
      var sh5 := if world.hasCpu then Issue(sh4, StockCpu) else sh4;
      StockRespects(start, down, sh3, world);
      LimitsAreRespected(start, down, sh5, None, None);
      RoutineChain(start, down, sh3, sh5, WithGpu(WithCpu(sh5, None), None));
      RoutineChain(start, down, sh, sh3, WithGpu(WithCpu(sh5, None), None));
    }
  }

  lemma {:induction false} RoutineRespects(start: set<Flag>, down: bool, sh: Shell, sh': Shell)
    requires Routine(start, down, sh, sh')
    ensures Respects(start, down, sh, sh') && SameSession(sh, sh')
  {
    hide Respects;
  }

  lemma {:induction false} AutoSampleRespects(start: set<Flag>, sh: Shell, a: AutoTick, world: World)
    requires NoDuplicates(sh.status.flags)
    ensures var sh' := AutoSample(sh, a, world);
            Respects(start, world.down, sh, sh') && SameSession(sh, sh')
  {
    hide NoDuplicates, Respects, Routine, AutoCpu, AutoGpu, SyncAll, Disengage;
    var down := world.down;
    var sh1 := SyncAll(sh, a.flags);
    SyncAllRespects(start, down, sh, a.flags);
    RespectsKeepsDistinct(start, down, sh, sh1);
    match a.engagement {
      case Disengaged(changed) =>
        DisengageRoutine(start, sh1, changed, world);
        RoutineRespects(start, down, sh1, Disengage(sh1, changed, world));
        RespectsChain(start, down, sh, sh1, Disengage(sh1, changed, world));
      case Engaged =>
        var sh2 := AutoCpu(sh1, a.cpu, world);
        AutoCpuRespects(start, sh1, a.cpu, world);
        RespectsKeepsDistinct(start, down, sh1, sh2);
        RespectsChain(start, down, sh, sh1, sh2);
        AutoGpuRespects(start, sh2, a, world);
        RespectsChain(start, down, sh, sh2, AutoGpu(sh2, a, world));
    }
  }

  lemma {:induction false} ReassertRoutine(start: set<Flag>, sh: Shell, m: Maintenance, world: World)
    requires NoDuplicates(sh.status.flags)
    ensures Routine(start, world.down, sh, Reassert(sh, m, world))
  {
    hide NoDuplicates, Respects, ScoreCpu;
    BooksAreRoutine(start, world.down, sh, sh);
    if !world.down {
      var sh0 := if m.repaired then Issue(sh, CapCpu) else sh;
      CapRespects(start, sh, CapCpu);
      ScoreCpuRoutine(start, false, sh0, m.verdict, m.suppress);
      var sh1 := if sh.status.cpuLimit.Some? && world.hasCpu then ScoreCpu(sh0, m.verdict, m.suppress) else sh;
      if sh.status.cpuLimit.Some? && world.hasCpu {
        RespectsChain(start, false, sh, sh0, sh1);
      }
      var sh2 := Issue(sh1, CapGpu);
      CapRespects(start, sh1, CapGpu);
      RespectsChain(start, false, sh, sh1, sh2);
    }
  }

  lemma {:induction false} ResumeRoutine(start: set<Flag>, sh: Shell, s: Sample, m: Maintenance, world: World)
    requires NoDuplicates(sh.status.flags)
    ensures Routine(start, world.down, sh, Resume(sh, s, m, world))
  {
    hide NoDuplicates, Routine, Respects, Reassert, AddFlag, RemoveFlag, Attempted;
    var down := world.down;
    BooksAreRoutine(start, down, sh, sh);
    SyncRespects(start, down, sh, Resumed, true);
    if s.resumed {
      var sh1 := AddFlag(sh, Resumed);
      FlagsAreRoutine(start, down, sh, sh1);
      RespectsKeepsDistinct(start, down, sh, sh1);
      var sh2 := sh1.(timers := sh1.timers.(strictUntil := Some(s.t + RESUMED_STRICT_S), resumedUntil := Some(s.t + RESUMED_FLAG_S)),
                      auto := if sh.auto.Some? then Some(AutoState(V.FRESH, V.FRESH)) else None);
      BooksAreRoutine(start, down, sh1, sh2);
      RoutineChain(start, down, sh, sh1, sh2);
      var sh3 := Reassert(sh2, m, world);
      ReassertRoutine(start, sh2, m, world);
      RoutineChain(start, down, sh, sh2, sh3);
      var sh4 := sh3.(timers := sh3.timers.(lastReassert := Some(s.t)));
      BooksAreRoutine(start, down, sh3, sh4);
      RoutineChain(start, down, sh, sh3, sh4);
    } else {
      var sh1 := RemoveFlag(sh, Resumed);
      FlagsAreRoutine(start, down, sh, sh1);
      var sh2 := sh1.(timers := sh.timers.(resumedUntil := None));
      BooksAreRoutine(start, down, sh1, sh2);
      RoutineChain(start, down, sh, sh1, sh2);
    }
  }

  lemma {:induction false} StickinessRoutine(start: set<Flag>, sh: Shell, s: Sample, m: Maintenance, world: World)
    requires NoDuplicates(sh.status.flags)
    ensures Routine(start, world.down, sh, Stickiness(sh, s, m, world))
  {
    hide NoDuplicates, Routine, Respects, Reassert, AddFlag, RemoveFlag, Attempted, InTrouble, NeededStreak;
    var down := world.down;
    BooksAreRoutine(start, down, sh, sh);
    var sh0 := sh.(timers := sh.timers.(stick := sh.timers.stick + 1));
    BooksAreRoutine(start, down, sh, sh0);
    var sh1 := sh.(timers := sh.timers.(stick := 0));
    BooksAreRoutine(start, down, sh, sh1);
    var sh2 := Reassert(sh1, m, world);
    ReassertRoutine(start, sh1, m, world);
    RoutineChain(start, down, sh, sh1, sh2);
    var sh3 := if Attempted(sh1, m, world) then sh2.(timers := sh2.timers.(lastReassert := Some(s.t))) else sh2;
    BooksAreRoutine(start, down, sh2, sh3);
    RoutineChain(start, down, sh, sh2, sh3);
    RoutineKeepsDistinct(start, down, sh, sh3);
    SyncRespects(start, down, sh3, LimitNotSticking, true);
    FlagsAreRoutine(start, down, sh3, AddFlag(sh3, LimitNotSticking));
    RoutineChain(start, down, sh, sh3, AddFlag(sh3, LimitNotSticking));
    SyncRespects(start, down, sh1, LimitNotSticking, false);
    FlagsAreRoutine(start, down, sh1, RemoveFlag(sh1, LimitNotSticking));
    RoutineChain(start, down, sh, sh1, RemoveFlag(sh1, LimitNotSticking));
  }

  lemma {:induction false} RoutineKeepsDistinct(start: set<Flag>, down: bool, sh: Shell, sh': Shell)
    requires Routine(start, down, sh, sh') && NoDuplicates(sh.status.flags)
    ensures NoDuplicates(sh'.status.flags)
  {
    hide Traced, NoDuplicates, Uncapped;
  }

  lemma {:induction false} PeriodicRoutine(start: set<Flag>, sh: Shell, s: Sample, m: Maintenance, world: World)
    requires NoDuplicates(sh.status.flags)
    ensures Routine(start, world.down, sh, Periodic(sh, s, m, world))
  {
    hide NoDuplicates, Routine, Respects, Reassert;
    var sh1 := sh.(timers := sh.timers.(lastReassert := Some(s.t)));
    BooksAreRoutine(start, world.down, sh, sh);
    BooksAreRoutine(start, world.down, sh, sh1);
    ReassertRoutine(start, sh1, m, world);
    RoutineChain(start, world.down, sh, sh1, Reassert(sh1, m, world));
  }

  /** A regulated sample before its effects are drained. */
  function Regulated(sh: Shell, s: Sample, tick: Tick, world: World): Shell {
    var sh1 := Resume(sh, s, tick.onResume, world);
    var sh2 := if sh1.status.mode == Auto then AutoSample(sh1, tick.auto, world) else sh1;
    Periodic(Stickiness(sh2, s, tick.onStick, world), s, tick.periodic, world)
  }

  lemma {:induction false} RegulatedRespects(start: set<Flag>, sh: Shell, s: Sample, tick: Tick, world: World)
    requires NoDuplicates(sh.status.flags)
    ensures var sh' := Regulated(sh, s, tick, world);
            && Respects(start, world.down, sh, sh') && SameSession(sh, sh')
            && (sh.status.mode != Auto ==> Routine(start, world.down, sh, sh'))
  {
    hide NoDuplicates, Respects, Resume, AutoSample, Stickiness, Periodic, Uncapped;
    var down := world.down;
    var sh1 := Resume(sh, s, tick.onResume, world);
    ResumeRoutine(start, sh, s, tick.onResume, world);
    RoutineKeepsDistinct(start, down, sh, sh1);
    var sh2 := if sh1.status.mode == Auto then AutoSample(sh1, tick.auto, world) else sh1;
    BooksAreRoutine(start, down, sh1, sh1);
    AutoSampleRespects(start, sh1, tick.auto, world);
    RespectsKeepsDistinct(start, down, sh1, sh2);
    RespectsChain(start, down, sh, sh1, sh2);
    var sh3 := Stickiness(sh2, s, tick.onStick, world);
    StickinessRoutine(start, sh2, s, tick.onStick, world);
    RoutineKeepsDistinct(start, down, sh2, sh3);
    RespectsChain(start, down, sh, sh2, sh3);
    var sh4 := Periodic(sh3, s, tick.periodic, world);
    PeriodicRoutine(start, sh3, s, tick.periodic, world);
    RespectsChain(start, down, sh, sh3, sh4);
    if sh.status.mode != Auto {
      hide Routine;
      RoutineChain(start, down, sh2, sh3, sh4);
      RoutineChain(start, down, sh, sh2, sh4);
    }
  }
}
