/** Power-save blockers on Windows: each blocker holds execution-state
    flags, the thread's execution state is the combination of all of them,
    and the idle time is computed from tick counts that wrap every 2^32
    milliseconds. The system calls are not modelled: the blockers' flags as
    the map yields them, and the two tick counts, are inputs.

    An EXECUTION_STATE is modelled as the set of its flags; `Bits` gives the
    32-bit value, turns union into bitwise OR and loses nothing. */
module WindowsPower {
  import opened Wrappers

  /** EXECUTION_STATE bits. */
  const ES_SYSTEM_REQUIRED: bv32 := 0x1
  const ES_DISPLAY_REQUIRED: bv32 := 0x2
  const ES_CONTINUOUS: bv32 := 0x8000_0000

  datatype EsFlag = Continuous | SystemRequired | DisplayRequired

  type ExecutionState = set<EsFlag>

  /** The 32-bit value of a set of flags. */
  function Bits(state: ExecutionState): bv32
  {
    (if Continuous in state then ES_CONTINUOUS else 0) |
    (if SystemRequired in state then ES_SYSTEM_REQUIRED else 0) |
    (if DisplayRequired in state then ES_DISPLAY_REQUIRED else 0)
  }

  /** The bit of each flag is set exactly when the flag is in the set. */
  lemma BitsHasFlag(state: ExecutionState)
    ensures Bits(state) & ES_CONTINUOUS != 0 <==> Continuous in state
    ensures Bits(state) & ES_SYSTEM_REQUIRED != 0 <==> SystemRequired in state
    ensures Bits(state) & ES_DISPLAY_REQUIRED != 0 <==> DisplayRequired in state
    ensures Bits(state) & !(ES_CONTINUOUS | ES_SYSTEM_REQUIRED | ES_DISPLAY_REQUIRED) == 0
  {
  }

  /** Union of flag sets is bitwise OR of their values. */
  lemma BitsOfUnion(a: ExecutionState, b: ExecutionState)
    ensures Bits(a + b) == Bits(a) | Bits(b)
  {
    assert (Continuous in a + b) == (Continuous in a || Continuous in b);
    assert (SystemRequired in a + b) == (SystemRequired in a || SystemRequired in b);
    assert (DisplayRequired in a + b) == (DisplayRequired in a || DisplayRequired in b);
  }

  /** Different flag sets have different values. */
  lemma BitsInjective(a: ExecutionState, b: ExecutionState)
    requires Bits(a) == Bits(b)
    ensures a == b
  {
    forall f ensures f in a <==> f in b {
      match f
      case Continuous => assert Bits(a) & ES_CONTINUOUS == Bits(b) & ES_CONTINUOUS;
      case SystemRequired => assert Bits(a) & ES_SYSTEM_REQUIRED == Bits(b) & ES_SYSTEM_REQUIRED;
      case DisplayRequired => assert Bits(a) & ES_DISPLAY_REQUIRED == Bits(b) & ES_DISPLAY_REQUIRED;
    }
  }

  datatype PowerSaveBlockerKind = PreventAppSuspension | PreventDisplaySleep

  /** `power_save_flags`: both kinds keep the system running, continuously;
      only PreventDisplaySleep keeps the display on. */
  function PowerSaveFlags(kind: PowerSaveBlockerKind): (state: ExecutionState)
    ensures Continuous in state && SystemRequired in state
    ensures DisplayRequired in state <==> kind == PreventDisplaySleep
    ensures kind == PreventAppSuspension ==> Bits(state) == ES_CONTINUOUS | ES_SYSTEM_REQUIRED
    ensures kind == PreventDisplaySleep ==>
      Bits(state) == ES_CONTINUOUS | ES_SYSTEM_REQUIRED | ES_DISPLAY_REQUIRED
  {
    match kind
    case PreventAppSuspension => {Continuous, SystemRequired}
    case PreventDisplaySleep => {Continuous, SystemRequired, DisplayRequired}
  }

  /** Keeping the display on asks for everything that preventing app
      suspension asks for, and more: as bits, a strict superset. */
  lemma DisplayFlagsIncludeAppFlags()
    ensures PowerSaveFlags(PreventAppSuspension) < PowerSaveFlags(PreventDisplaySleep)
    ensures Bits(PowerSaveFlags(PreventAppSuspension)) & Bits(PowerSaveFlags(PreventDisplaySleep))
         == Bits(PowerSaveFlags(PreventAppSuspension))
    ensures Bits(PowerSaveFlags(PreventAppSuspension)) != Bits(PowerSaveFlags(PreventDisplaySleep))
  {
  }

  // ---------------------------------------------------------------------
  // Combining the blockers

  /** The fold of `apply_combined_power_state`: `acc` OR'd with each value,
      left to right. */
  function FoldOr(acc: bv32, values: seq<bv32>): bv32
    decreases |values|
  {
    if values == [] then acc else FoldOr(acc | values[0], values[1..])
  }

  function BitsOf(states: seq<ExecutionState>): (values: seq<bv32>)
    ensures |values| == |states|
    ensures forall i :: 0 <= i < |states| ==> values[i] == Bits(states[i])
  {
    seq(|states|, i requires 0 <= i < |states| => Bits(states[i]))
  }

  /** The state handed to `SetThreadExecutionState`, for the blockers'
      flags in the order the map yields them. */
  function CombinedPowerState(states: seq<ExecutionState>): (state: bv32)
    ensures state & ES_CONTINUOUS != 0
    ensures state & !(ES_CONTINUOUS | ES_SYSTEM_REQUIRED | ES_DISPLAY_REQUIRED) == 0
  {
    FoldOrIsUnion({Continuous}, states);
    FoldUnionMembers({Continuous}, states, Continuous);
    BitsHasFlag(FoldUnion({Continuous}, states));
    FoldOr(ES_CONTINUOUS, BitsOf(states))
  }

  /** The same fold on flag sets. */
  function FoldUnion(acc: ExecutionState, states: seq<ExecutionState>): ExecutionState
    decreases |states|
  {
    if states == [] then acc else FoldUnion(acc + states[0], states[1..])
  }

  lemma {:induction false} FoldOrIsUnion(acc: ExecutionState, states: seq<ExecutionState>)
    ensures FoldOr(Bits(acc), BitsOf(states)) == Bits(FoldUnion(acc, states))
    decreases |states|
  {
    if states != [] {
      BitsOfUnion(acc, states[0]);
      assert BitsOf(states)[1..] == BitsOf(states[1..]);
      FoldOrIsUnion(acc + states[0], states[1..]);
    }
  }

  lemma {:induction false} FoldUnionMembers(acc: ExecutionState, states: seq<ExecutionState>, f: EsFlag)
    ensures f in FoldUnion(acc, states) <==> f in acc || exists s :: s in states && f in s
    decreases |states|
  {
    if states != [] {
      FoldUnionMembers(acc + states[0], states[1..], f);
      assert forall s :: s in states <==> s == states[0] || s in states[1..];
    }
  }

  /** The combined state has ES_CONTINUOUS and exactly the flags some
      blocker has. */
  lemma CombinedFlags(states: seq<ExecutionState>)
    ensures forall f :: f in FoldUnion({Continuous}, states) <==>
      f == Continuous || exists s :: s in states && f in s
    ensures CombinedPowerState(states) == Bits(FoldUnion({Continuous}, states))
  {
    forall f ensures f in FoldUnion({Continuous}, states) <==>
      f == Continuous || exists s :: s in states && f in s
    {
      FoldUnionMembers({Continuous}, states, f);
    }
    FoldOrIsUnion({Continuous}, states);
  }

  /** With no blockers the state is just ES_CONTINUOUS. */
  lemma NoBlockersIsContinuous()
    ensures CombinedPowerState([]) == ES_CONTINUOUS
  {
  }

  /** The combination does not depend on the order the map yields the
      blockers in, nor on how often it yields each one. */
  lemma CombinedOrderIndependent(a: seq<ExecutionState>, b: seq<ExecutionState>)
    requires forall s :: s in a <==> s in b
    ensures CombinedPowerState(a) == CombinedPowerState(b)
  {
    CombinedFlags(a);
    CombinedFlags(b);
    assert FoldUnion({Continuous}, a) == FoldUnion({Continuous}, b);
  }

  /** The flags of the blockers of the given kinds. */
  function FlagsOfKinds(kinds: seq<PowerSaveBlockerKind>): (states: seq<ExecutionState>)
    ensures |states| == |kinds|
    ensures forall i :: 0 <= i < |kinds| ==> states[i] == PowerSaveFlags(kinds[i])
  {
    seq(|kinds|, i requires 0 <= i < |kinds| => PowerSaveFlags(kinds[i]))
  }

  /** The display stays on exactly when some blocker prevents display
      sleep, and the system stays on exactly when there is a blocker. */
  lemma DisplayRequiredIffSomeBlocker(kinds: seq<PowerSaveBlockerKind>)
    ensures CombinedPowerState(FlagsOfKinds(kinds)) & ES_DISPLAY_REQUIRED != 0 <==>
      PreventDisplaySleep in kinds
    ensures CombinedPowerState(FlagsOfKinds(kinds)) & ES_SYSTEM_REQUIRED != 0 <==> kinds != []
  {
    var states := FlagsOfKinds(kinds);
    CombinedFlags(states);
    BitsHasFlag(FoldUnion({Continuous}, states));
    if PreventDisplaySleep in kinds {
      var i :| 0 <= i < |kinds| && kinds[i] == PreventDisplaySleep;
      assert states[i] in states && DisplayRequired in states[i];
    }
    if exists s :: s in states && DisplayRequired in s {
      var s :| s in states && DisplayRequired in s;
      var i :| 0 <= i < |states| && states[i] == s;
      assert kinds[i] == PreventDisplaySleep;
    }
    if kinds != [] {
      assert states[0] in states && SystemRequired in states[0];
    }
  }

  // ---------------------------------------------------------------------
  // Idle time

  /** `system_idle_time` in milliseconds: the tick count now minus the tick
      count of the last input, with 32-bit wrap-around; none when the last
      input time cannot be read. */
  function SystemIdleMillis(lastInputRead: bool, now: u32, lastInput: u32): (idle: Option<u32>)
    ensures idle.Some? <==> lastInputRead
    ensures idle.Some? ==> (lastInput + idle.value) % U32_LIMIT == now
    ensures idle.Some? && lastInput <= now ==> idle.value == now - lastInput
  {
    if lastInputRead then Some((now - lastInput) % U32_LIMIT) else None
  }

  /** Across one wrap of the tick counter the idle time is still the time
      elapsed. */
  lemma IdleAcrossWrap(lastInput: u32, elapsed: u32)
    requires lastInput + elapsed >= U32_LIMIT
    ensures SystemIdleMillis(true, lastInput + elapsed - U32_LIMIT, lastInput) == Some(elapsed)
  {
  }
}
