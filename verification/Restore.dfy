/** The two restore layers in place: the guard that owns the actuators, and
    main's final restore with its grace poll. */
module Restore {
  const GRACE_POLL_SLICES: nat := 20

  datatype Operation = ReleaseGpu | RestoreCpu | ReloadSmu

  /** The restores a guard still owes, in the order it performs them. */
  function Owed(gpu: bool, cpu: bool, smu: bool): seq<Operation> {
    (if gpu then [ReleaseGpu] else []) + (if cpu then [RestoreCpu] else []) + (if smu then [ReloadSmu] else [])
  }

  /** GPU before CPU before the module, each once and only what is owed. */
  lemma {:induction false} OwedInOrder(gpu: bool, cpu: bool, smu: bool)
    ensures var ops := Owed(gpu, cpu, smu);
            && (ReleaseGpu in ops <==> gpu) && (RestoreCpu in ops <==> cpu) && (ReloadSmu in ops <==> smu)
            && |ops| == (if gpu then 1 else 0) + (if cpu then 1 else 0) + (if smu then 1 else 0)
            && (gpu ==> ops[0] == ReleaseGpu) && (smu ==> ops[|ops| - 1] == ReloadSmu)
            && (gpu && cpu ==> ops[..2] == [ReleaseGpu, RestoreCpu]) && (cpu && smu ==> ops[|ops| - 2..] == [RestoreCpu, ReloadSmu])
  {
    match (gpu, cpu, smu) {
      case (true, true, true) => assert Owed(gpu, cpu, smu) == [ReleaseGpu, RestoreCpu, ReloadSmu];
      case (true, true, false) => assert Owed(gpu, cpu, smu) == [ReleaseGpu, RestoreCpu];
      case (true, false, true) => assert Owed(gpu, cpu, smu) == [ReleaseGpu, ReloadSmu];
      case (true, false, false) => assert Owed(gpu, cpu, smu) == [ReleaseGpu];
      case (false, true, true) => assert Owed(gpu, cpu, smu) == [RestoreCpu, ReloadSmu];
      case (false, true, false) => assert Owed(gpu, cpu, smu) == [RestoreCpu];
      case (false, false, true) => assert Owed(gpu, cpu, smu) == [ReloadSmu];
      case (false, false, false) =>
    }
  }

  class RestoreGuard {
    var gpu: bool
    var cpu: bool
    var smu: bool

    ghost function Owes(): seq<Operation>
      reads this
    {
      Owed(gpu, cpu, smu)
    }

    constructor (gpu: bool, cpu: bool, smu: bool)
      ensures Owes() == Owed(gpu, cpu, smu)
    {
      this.gpu, this.cpu, this.smu := gpu, cpu, smu;
    }

    /** Startup reset: releases both but keeps the actuators. */
    method StartupReset() returns (performed: seq<Operation>)
      ensures performed == Owed(gpu, cpu, false)
    {
      performed := [];
      if gpu {
        performed := performed + [ReleaseGpu];
      }
      if cpu {
        performed := performed + [RestoreCpu];
      }
    }

    /** Takes each actuator and restores it; nothing is owed afterwards. */
    method RestoreAll() returns (performed: seq<Operation>)
      modifies this
      ensures performed == old(Owes()) && Owes() == []
    {
      performed := [];
      if gpu {
        gpu := false;
        performed := performed + [ReleaseGpu];
      }
      if cpu {
        cpu := false;
        performed := performed + [RestoreCpu];
      }
      if smu {
        smu := false;
        performed := performed + [ReloadSmu];
      }
    }

    /** An explicit restore followed by the drop restores once. */
    method RestoreThenDrop() returns (performed: seq<Operation>)
      modifies this
      ensures performed == old(Owes())
    {
      var first := RestoreAll();
      var second := RestoreAll();
      performed := first + second;
    }
  }

  /** Main's final restore: one look at the flag, then twenty polls; only when
      every look found it down does it restore with fresh actuators. */
  method FinalRestoreDrop(looks: seq<bool>, smuWasUnloaded: bool, gpuAvailable: bool) returns (performed: seq<Operation>)
    requires |looks| == GRACE_POLL_SLICES + 1
    ensures performed == if true in looks then [] else Owed(gpuAvailable, true, smuWasUnloaded)
  {
    if looks[0] {
      return [];
    }
    for k := 0 to GRACE_POLL_SLICES
      invariant true !in looks[..k + 1]
    {
      if looks[k + 1] {
        return [];
      }
    }
    assert looks[..GRACE_POLL_SLICES + 1] == looks;
    var guard := new RestoreGuard(gpuAvailable, true, smuWasUnloaded);
    performed := guard.RestoreAll();
  }
}
