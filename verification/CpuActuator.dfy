/** The CPU cap: clamped writes scored against their read-back, read-first
    maintenance, and the restore that checks that the cap has gone. */
module CpuActuator {
  import opened Prelude
  import GpuVerify
  import Loop = StepLoop

  const MIN_SUSTAINED_MW: nat := 10000
  const MAX_SUSTAINED_MW: nat := 54000
  const TOLERANCE_W := 0.5

  /** The limits a read-back names; None for a missing row. */
  datatype Table = Table(slow: Option<real>, fast: Option<real>)

  datatype Verdict = Verified(watts: real) | Mismatch(commanded: real, read: real) | Unreadable

  datatype Settings = Settings(max: nat, fast: nat) {
    predicate Valid() {
      MIN_SUSTAINED_MW <= max <= MAX_SUSTAINED_MW
    }
  }

  function Watts(mw: nat): real {
    mw as real / 1000.0
  }

  function ClampMw(s: Settings, mw: nat): nat
    requires s.Valid()
  {
    ClampN(mw, MIN_SUSTAINED_MW, s.max)
  }

  /** Scores a read-back; None when the tool failed. */
  function Score(s: Settings, table: Option<Table>, mw: nat): Verdict {
    match table
    case None => Unreadable
    case Some(t) =>
      if t.slow.None? || t.fast.None? then Unreadable
      else if AbsR(t.slow.value - Watts(mw)) > TOLERANCE_W then Mismatch(Watts(mw), t.slow.value)
      else if AbsR(t.fast.value - Watts(s.fast)) > TOLERANCE_W then Mismatch(Watts(s.fast), t.fast.value)
      else Verified(Watts(mw))
  }

  /** What the tool answers to a write and to the read that follows it. */
  datatype Answer = Answer(wrote: bool, table: Option<Table>)

  datatype Maintenance = Maintenance(observed: Verdict, repair: Option<Verdict>)

  datatype Restored = Ok | StillCapped(read: real) | ProfileFailed

  predicate StillReads(table: Option<Table>, mw: nat) {
    table.Some? && table.value.slow.Some? && AbsR(table.value.slow.value - Watts(mw)) <= TOLERANCE_W
  }

  /** The outcome of a restore from the cap last written (0: none), the two
      profile round trips and the two reads. */
  function RestoreOutcome(last: nat, toggled: (bool, bool), tables: (Option<Table>, Option<Table>)): Restored {
    if !toggled.0 then ProfileFailed
    else if last == 0 || !StillReads(tables.0, last) then Ok
    else if !toggled.1 then ProfileFailed
    else if StillReads(tables.1, last) then StillCapped(tables.1.value.slow.value)
    else Ok
  }

  class CpuCap {
    const settings: Settings
    var lastCommanded: nat
    /** Every call so far. */
    ghost var uses: seq<Use>

    /** What is remembered is the history's. */
    ghost predicate Valid()
      reads this
    {
      settings.Valid() && lastCommanded == Remembered(settings, uses)
    }

    constructor (settings: Settings)
      requires settings.Valid()
      ensures Valid() && this.settings == settings && lastCommanded == 0 && uses == []
    {
      this.settings := settings;
      lastCommanded := 0;
      uses := [];
    }

    method VerifyWrite(table: Option<Table>, mw: nat) returns (verdict: Verdict)
      ensures verdict == Score(settings, table, mw)
    {
      if table.None? || table.value.slow.None? || table.value.fast.None? {
        return Unreadable;
      }
      var slow, fast := table.value.slow.value, table.value.fast.value;
      if AbsR(slow - Watts(mw)) > TOLERANCE_W {
        return Mismatch(Watts(mw), slow);
      }
      if AbsR(fast - Watts(settings.fast)) > TOLERANCE_W {
        return Mismatch(Watts(settings.fast), fast);
      }
      return Verified(Watts(mw));
    }

    /** Verified exactly when the clamped command was written and both limits
        read back within tolerance; a failed write is never remembered. */
    method SetSustained(mw: nat, answer: Answer) returns (verdict: Verdict)
      requires Valid()
      modifies this
      ensures Valid() && uses == old(uses) + [Set(mw, answer)]
      ensures lastCommanded == if answer.wrote then ClampMw(settings, mw) else old(lastCommanded)
      ensures verdict == if answer.wrote then Score(settings, answer.table, ClampMw(settings, mw)) else Unreadable
    {
      var clamped := ClampMw(settings, mw);
      RememberedSnoc(settings, uses, Set(mw, answer));
      uses := uses + [Set(mw, answer)];
      if !answer.wrote {
        return Unreadable;
      }
      lastCommanded := clamped;
      verdict := VerifyWrite(answer.table, clamped);
    }

    /** Reads first: writes only on a readable mismatch, and only if allowed. */
    method Maintain(mw: nat, table: Option<Table>, mayRepair: bool, answer: Answer) returns (check: Maintenance)
      requires Valid()
      modifies this
      ensures Valid() && uses == old(uses) + [Check(mw, table, mayRepair, answer)]
      ensures check.observed == Score(settings, table, mw)
      ensures check.repair.Some? <==> check.observed.Mismatch? && mayRepair
      ensures check.repair.Some? ==>
                check.repair.value == if answer.wrote then Score(settings, answer.table, ClampMw(settings, mw)) else Unreadable
      ensures lastCommanded == if check.repair.Some? && answer.wrote then ClampMw(settings, mw) else old(lastCommanded)
    {
      var observed := VerifyWrite(table, mw);
      ghost var more := uses + [Check(mw, table, mayRepair, answer)];
      RememberedSnoc(settings, uses, Check(mw, table, mayRepair, answer));
      if observed.Mismatch? && mayRepair {
        var repaired := SetSustained(mw, answer);
        uses := more;
        return Maintenance(observed, Some(repaired));
      }
      uses := more;
      return Maintenance(observed, None);
    }

    /** Toggles the profile, reads back, and toggles once more while the cap
        still reads; the cap is forgotten exactly on success. */
    method RestoreStock(toggled: (bool, bool), tables: (Option<Table>, Option<Table>)) returns (outcome: Restored, toggles: nat)
      requires Valid()
      modifies this
      ensures Valid() && uses == old(uses) + [Restore(toggled, tables)]
      ensures outcome == RestoreOutcome(old(lastCommanded), toggled, tables)
      ensures lastCommanded == if outcome == Ok then 0 else old(lastCommanded)
      ensures toggles == if toggled.0 && old(lastCommanded) != 0 && StillReads(tables.0, old(lastCommanded)) then 2 else 1
    {
      RememberedSnoc(settings, uses, Restore(toggled, tables));
      uses := uses + [Restore(toggled, tables)];
      toggles := 1;
      if !toggled.0 {
        return ProfileFailed, toggles;
      }
      if lastCommanded == 0 {
        return Ok, toggles;
      }
      if !StillReads(tables.0, lastCommanded) {
        lastCommanded := 0;
        return Ok, toggles;
      }
      toggles := 2;
      if !toggled.1 {
        return ProfileFailed, toggles;
      }
      if StillReads(tables.1, lastCommanded) {
        return StillCapped(tables.1.value.slow.value), toggles;
      }
      lastCommanded := 0;
      return Ok, toggles;
    }
  }

  /** One profile round trip: a different profile, then the original again. */
  method ToggleProfile(original: string) returns (written: seq<string>)
    ensures |written| == 2 && written[0] != original && written[1] == original
  {
    var intermediate := if original == "low-power" then "balanced" else "low-power";
    return [intermediate, original];
  }

  // ---- What the actuator remembers, and what a restore then proves ----

  /** One call of the actuator, with the answers it met. */
  datatype Use =
    | Set(mw: nat, answer: Answer)
    | Check(mw: nat, table: Option<Table>, mayRepair: bool, answer: Answer)
    | Restore(toggled: (bool, bool), tables: (Option<Table>, Option<Table>))

  /** The cap a call wrote, if its write happened and succeeded. */
  function Written(s: Settings, use: Use): Option<nat>
    requires s.Valid()
  {
    match use
    case Set(mw, answer) => if answer.wrote then Some(ClampMw(s, mw)) else None
    case Check(mw, table, mayRepair, answer) =>
      if Score(s, table, mw).Mismatch? && mayRepair && answer.wrote then Some(ClampMw(s, mw)) else None
    case Restore(_, _) => None
  }

  /** The cap the actuator remembers after a run of calls; 0 for none. */
  function Remembered(s: Settings, uses: seq<Use>): nat
    requires s.Valid()
  {
    if uses == [] then 0
    else
      var last, before := uses[|uses| - 1], Remembered(s, uses[..|uses| - 1]);
      if Written(s, last).Some? then Written(s, last).value
      else if last.Restore? && RestoreOutcome(before, last.toggled, last.tables) == Ok then 0
      else before
  }

  lemma {:induction false} RememberedSnoc(s: Settings, uses: seq<Use>, use: Use)
    requires s.Valid()
    ensures Remembered(s, uses + [use]) ==
              if Written(s, use).Some? then Written(s, use).value
              else if use.Restore? && RestoreOutcome(Remembered(s, uses), use.toggled, use.tables) == Ok then 0
              else Remembered(s, uses)
  {
    hide Written, RestoreOutcome;
    assert (uses + [use])[..|uses + [use]| - 1] == uses;
  }

  /** The i-th call is a restore that reported success. */
  predicate RestoredAt(s: Settings, uses: seq<Use>, i: nat)
    requires s.Valid() && i < |uses|
  {
    uses[i].Restore? && RestoreOutcome(Remembered(s, uses[..i]), uses[i].toggled, uses[i].tables) == Ok
  }

  /** The i-th call wrote the cap in force: nothing was written and no restore
      succeeded since. */
  ghost predicate LastWrite(s: Settings, uses: seq<Use>, i: nat)
    requires s.Valid() && i < |uses|
  {
    Written(s, uses[i]).Some? && forall j :: i < j < |uses| ==> Written(s, uses[j]).None? && !RestoredAt(s, uses, j)
  }

  lemma {:induction false} LastWriteSnoc(s: Settings, uses: seq<Use>, use: Use, i: nat)
    requires s.Valid() && i < |uses|
    ensures LastWrite(s, uses + [use], i) <==>
              && LastWrite(s, uses, i) && Written(s, use).None?
              && !(use.Restore? && RestoreOutcome(Remembered(s, uses), use.toggled, use.tables) == Ok)
  {
    hide Written, Remembered, RestoreOutcome;
    var more := uses + [use];
    assert forall j: nat :: j <= |uses| ==> more[..j] == uses[..j];
    assert uses[..|uses|] == uses && more[|uses|] == use;
    assert forall j: nat :: j < |uses| ==> more[j] == uses[j];
    assert forall j: nat :: j < |uses| ==> RestoredAt(s, more, j) == RestoredAt(s, uses, j);
    if LastWrite(s, more, i) {
      assert Written(s, more[|uses|]).None? && !RestoredAt(s, more, |uses|);
      forall j | i < j < |uses| ensures Written(s, uses[j]).None? && !RestoredAt(s, uses, j) {
        assert Written(s, more[j]).None? && !RestoredAt(s, more, j);
      }
    }
  }

  /** The remembered cap is the one in force, and 0 exactly when none is. */
  lemma {:induction false} RememberedIsInForce(s: Settings, uses: seq<Use>)
    requires s.Valid()
    ensures forall i: nat :: i < |uses| && LastWrite(s, uses, i) ==> Some(Remembered(s, uses)) == Written(s, uses[i])
    ensures Remembered(s, uses) == 0 <==> forall i: nat :: i < |uses| ==> !LastWrite(s, uses, i)
  {
    hide LastWrite, RestoreOutcome;
    if uses != [] {
      var front, last := uses[..|uses| - 1], uses[|uses| - 1];
      RememberedIsInForce(s, front);
      assert front + [last] == uses;
      forall i: nat | i < |front| ensures LastWrite(s, uses, i) <==>
          LastWrite(s, front, i) && Written(s, last).None?
          && !(last.Restore? && RestoreOutcome(Remembered(s, front), last.toggled, last.tables) == Ok) {
        LastWriteSnoc(s, front, last, i);
      }
      NewestWrite(s, uses);
      WrittenInEnvelope(s, last);
      hide Written;
      assert forall i: nat :: i < |front| ==> front[i] == uses[i];
      if i: nat :| i < |front| && LastWrite(s, front, i) {
        assert LastWrite(s, uses, i) || Remembered(s, uses) == 0 || LastWrite(s, uses, |front|);
      }
    }
  }

  lemma {:induction false} NewestWrite(s: Settings, uses: seq<Use>)
    requires s.Valid() && uses != []
    ensures LastWrite(s, uses, |uses| - 1) <==> Written(s, uses[|uses| - 1]).Some?
  {
  }

  lemma {:induction false} WrittenInEnvelope(s: Settings, use: Use)
    requires s.Valid()
    ensures Written(s, use).Some? ==> MIN_SUSTAINED_MW <= Written(s, use).value <= s.max
  {
    hide Score;
  }

  /** The slow limit cannot be read, or is more than half a watt off the cap. */
  predicate Gone(table: Option<Table>, mw: nat) {
    table.None? || table.value.slow.None?
    || table.value.slow.value - Watts(mw) > 0.5 || Watts(mw) - table.value.slow.value > 0.5
  }

  /** After any run of calls a restore succeeds exactly when a profile round
      trip went through and no written cap is in force, or its read shows the
      cap gone, or a second round trip does; it reports a surviving cap exactly
      when both did and the second read still shows it. */
  lemma {:induction false} RestoreProvesTheCapGone(s: Settings, uses: seq<Use>, toggled: (bool, bool), tables: (Option<Table>, Option<Table>))
    requires s.Valid()
    ensures var outcome := RestoreOutcome(Remembered(s, uses), toggled, tables);
            && ((forall i: nat :: i < |uses| ==> !LastWrite(s, uses, i)) ==> outcome == if toggled.0 then Ok else ProfileFailed)
            && forall i: nat :: i < |uses| && LastWrite(s, uses, i) ==>
                 var mw := Written(s, uses[i]).value;
                 && (outcome == Ok <==> toggled.0 && (Gone(tables.0, mw) || (toggled.1 && Gone(tables.1, mw))))
                 && (outcome.StillCapped? <==> toggled.0 && toggled.1 && !Gone(tables.0, mw) && !Gone(tables.1, mw))
                 && (outcome.StillCapped? ==> Some(outcome.read) == tables.1.value.slow)
  {
    RememberedIsInForce(s, uses);
    hide LastWrite, Remembered, Watts;
    forall i: nat | i < |uses| && LastWrite(s, uses, i) ensures Written(s, uses[i]).Some? && Remembered(s, uses) == Written(s, uses[i]).value {
      assert Some(Remembered(s, uses)) == Written(s, uses[i]);
    }
    hide Written;
  }

  // ---- What a verdict means for a truthful machine ----

  /** Half a watt either way. */
  predicate Near(read: real, mw: nat) {
    -0.5 <= read - Watts(mw) <= 0.5
  }

  /** Verified exactly when both limits read back near what was written; the
      first that does not is the one reported. */
  lemma {:induction false} VerdictMeaning(s: Settings, table: Table, mw: nat)
    ensures Score(s, Some(table), mw).Verified? <==>
              table.slow.Some? && table.fast.Some? && Near(table.slow.value, mw) && Near(table.fast.value, s.fast)
    ensures Score(s, Some(table), mw).Unreadable? <==> table.slow.None? || table.fast.None?
    ensures Score(s, Some(table), mw).Mismatch? ==>
              Score(s, Some(table), mw) == if !Near(table.slow.value, mw) then Mismatch(Watts(mw), table.slow.value)
                                           else Mismatch(Watts(s.fast), table.fast.value)
  {
    hide Watts;
  }

  /** A machine that takes a write and reads back the limits it holds. */
  function Held(s: Settings, mw: nat): Option<Table> {
    Some(Table(Some(Watts(mw)), Some(Watts(s.fast))))
  }

  lemma {:induction false} WattsOrder(a: nat, b: nat)
    ensures Watts(a) <= Watts(b) <==> a <= b
    ensures Watts(a) - Watts(b) == (a - b) as real / 1000.0
  {
  }

  /** On a machine that holds what is written, maintenance settles after one
      repair exactly when the request is at most half a watt outside the
      envelope: the check compares with the request, the write is clamped. */
  lemma {:induction false} RepairSettlesInsideEnvelope(s: Settings, mw: nat)
    requires s.Valid()
    ensures Score(s, Held(s, ClampMw(s, mw)), mw).Verified? <==> MIN_SUSTAINED_MW - 500 <= mw <= s.max + 500
    ensures !Score(s, Held(s, ClampMw(s, mw)), mw).Verified? ==> Score(s, Held(s, ClampMw(s, mw)), mw).Mismatch?
  {
    var cap := ClampMw(s, mw);
    WattsOrder(cap, mw);
    WattsOrder(s.fast, s.fast);
    hide Watts;
  }

  // ---- The actuators of the calibration loop ----

  /** A request in watts as the actuator receives it: rounded, never negative. */
  function RequestMw(w: real): nat {
    if w < 0.0 then 0 else (w * 1000.0 + 0.5).Floor
  }

  function AppliedWatts(s: Settings): real -> real
    requires s.Valid()
  {
    (w: real) => Watts(ClampMw(s, RequestMw(w)))
  }

  function AppliedClock(): nat -> nat {
    (mhz: nat) => GpuVerify.ClampGpuClock(mhz)
  }

  lemma {:induction false} WholeMilliwatts(n: nat)
    ensures RequestMw(Watts(n)) == n
  {
    assert Watts(n) * 1000.0 == n as real;
  }

  /** A cap that a write verified lies inside the envelope, so maintaining it
      settles: only a request that was never verified is repaired for ever. */
  lemma {:induction false} VerifiedCapSettles(s: Settings, table: Option<Table>, mw: nat)
    requires s.Valid() && Score(s, table, ClampMw(s, mw)).Verified?
    ensures var again := RequestMw(Score(s, table, ClampMw(s, mw)).watts);
            && again == ClampMw(s, mw) && MIN_SUSTAINED_MW <= again <= s.max
            && Score(s, Held(s, ClampMw(s, again)), again).Verified?
  {
    WholeMilliwatts(ClampMw(s, mw));
    RepairSettlesInsideEnvelope(s, ClampMw(s, mw));
    hide Watts, RequestMw;
  }

  /** The real actuators settle: requesting an applied cap applies it again,
      so the closed-loop results hold for them. */
  lemma {:induction false} RealActuatorsSettle(s: Settings)
    requires s.Valid()
    ensures Loop.Settled(Loop.Actuators(AppliedWatts(s), AppliedClock()))
  {
    var act := Loop.Actuators(AppliedWatts(s), AppliedClock());
    forall w ensures act.cpu(act.cpu(w)) == act.cpu(w) {
      WholeMilliwatts(ClampMw(s, RequestMw(w)));
    }
  }
}
