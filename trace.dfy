/** The log of calls the orchestrator makes on its collaborators, in the order
    it makes them, and what makes such a log safe. */
module Trace {
  import opened Interfaces

  /** One call on the planner or the controller. Monitor events also record
      what the monitor reported. */
  datatype Event =
    | CheckTrajectory(start: ArmJpos, end: ArmJpos, collisionFree: bool)   // planner
    | WriteArm(target: ArmJpos)                                            // controller
    | MonitorArm(target: ArmJpos, duration: real, success: bool, achieved: ArmJpos)
    | WriteGripper(state: real)
    | MonitorGripper(jposTarget: real, duration: real, success: bool, jposAchieved: real)
    | Timestep
    | PowerOn
    | PowerOff
    | Mirror(arm: ArmJpos, gripper: real)                                  // planner

  /** Calls that make the hardware (or the simulated arm) act. */
  predicate IsHardwareCommand(e: Event) {
    e.WriteArm? || e.WriteGripper? || e.Timestep? || e.PowerOn? || e.PowerOff?
  }

  /** The hardware commands of a log, in order. */
  function HardwareCommands(t: seq<Event>): (r: seq<Event>)
    ensures |r| <= |t|
    ensures forall i :: 0 <= i < |r| ==> IsHardwareCommand(r[i])
  {
    if t == [] then []
    else (if IsHardwareCommand(t[0]) then [t[0]] else []) + HardwareCommands(t[1..])
  }

  lemma HardwareCommandsSingle(e: Event)
    ensures HardwareCommands([e]) == if IsHardwareCommand(e) then [e] else []
  {
  }

  lemma {:induction false} HardwareCommandsAppend(a: seq<Event>, b: seq<Event>)
    ensures HardwareCommands(a + b) == HardwareCommands(a) + HardwareCommands(b)
  {
    if a == [] {
      assert a + b == b;
    } else {
      var head := if IsHardwareCommand(a[0]) then [a[0]] else [];
      assert (a + b)[0] == a[0];
      assert (a + b)[1..] == a[1..] + b;
      calc {
        HardwareCommands(a + b);
        head + HardwareCommands(a[1..] + b);
        { HardwareCommandsAppend(a[1..], b); }
        head + (HardwareCommands(a[1..]) + HardwareCommands(b));
        (head + HardwareCommands(a[1..])) + HardwareCommands(b);
        HardwareCommands(a) + HardwareCommands(b);
      }
    }
  }

  /** The commands of a planner query, a write and a monitor are the write. */
  lemma CommandsOfWrite(check: Event, write: Event, monitor: Event)
    requires !IsHardwareCommand(check) && IsHardwareCommand(write) && !IsHardwareCommand(monitor)
    ensures HardwareCommands([check, write, monitor]) == [write]
  {
    assert [check, write, monitor] == [check] + [write] + [monitor];
    HardwareCommandsAppend([check] + [write], [monitor]);
    HardwareCommandsAppend([check], [write]);
    HardwareCommandsSingle(check);
    HardwareCommandsSingle(write);
    HardwareCommandsSingle(monitor);
  }

  /** An arm write is justified by the call just before it: either a collision
      check that passed for a trajectory ending at the written target, or a
      failed arm monitor that observed the written position. */
  predicate ArmWriteJustified(prev: Event, target: ArmJpos) {
    || (prev.CheckTrajectory? && prev.collisionFree && prev.end == target)
    || (prev.MonitorArm? && !prev.success && prev.achieved == target)
  }

  /** The safety protocol, at one position of the log:
      - no arm write without a passed collision check for it, unless it
        re-commands the position a failed monitor observed;
      - a gated arm write is monitored against its own target right away;
      - an arm monitor watches the gated write just before it, and when it
        fails it is followed at once by a write of what it observed;
      - a gripper write either asks for a state in [0,1] and is monitored, or
        follows a failed gripper monitor and is followed by a timestep;
      - a gripper monitor watches a gripper write of a state in [0,1] just
        before it, and when it fails it is followed at once by a gripper write. */
  predicate SafeAt(t: seq<Event>, i: nat)
    requires i < |t|
  {
    match t[i]
    case WriteArm(target) =>
      && 0 < i && ArmWriteJustified(t[i - 1], target)
      && (t[i - 1].CheckTrajectory? ==> i + 1 < |t| && t[i + 1].MonitorArm? && t[i + 1].target == target)
    case MonitorArm(target, _, success, achieved) =>
      && 1 < i && t[i - 1] == WriteArm(target)
      && t[i - 2].CheckTrajectory? && t[i - 2].collisionFree && t[i - 2].end == target
      && (success || (i + 1 < |t| && t[i + 1] == WriteArm(achieved)))
    case WriteGripper(state) =>
      || (0.0 <= state <= 1.0 && i + 1 < |t| && t[i + 1].MonitorGripper?)
      || (0 < i && t[i - 1].MonitorGripper? && !t[i - 1].success && i + 1 < |t| && t[i + 1] == Timestep)
    case MonitorGripper(_, _, success, _) =>
      && 0 < i && t[i - 1].WriteGripper? && 0.0 <= t[i - 1].state <= 1.0
      && (success || (i + 1 < |t| && t[i + 1].WriteGripper?))
    case _ => true
  }

  predicate SafeTrace(t: seq<Event>) {
    forall i :: 0 <= i < |t| ==> SafeAt(t, i)
  }

  /** Safety is local: what justifies a call lies in the same block of calls,
      so safe logs concatenate into a safe log. */
  lemma SafeTraceAppend(a: seq<Event>, b: seq<Event>)
    requires SafeTrace(a) && SafeTrace(b)
    ensures SafeTrace(a + b)
  {
    var t := a + b;
    forall i | 0 <= i < |t|
      ensures SafeAt(t, i)
    {
      if i < |a| {
        assert SafeAt(a, i);
        assert t[i] == a[i];
        assert 0 < i ==> t[i - 1] == a[i - 1];
        assert 1 < i ==> t[i - 2] == a[i - 2];
        assert i + 1 < |a| ==> t[i + 1] == a[i + 1];
      } else {
        var j := i - |a|;
        assert SafeAt(b, j);
        assert t[i] == b[j];
        assert 0 < j ==> t[i - 1] == b[j - 1];
        assert 1 < j ==> t[i - 2] == b[j - 2];
        assert j + 1 < |b| ==> t[i + 1] == b[j + 1];
      }
    }
  }

  /** What safety means for the arm: every arm write in a safe log is either
      gated by the passed collision check just before it, for its own target,
      or re-commands what a failed monitor observed, and that monitor watched
      a write gated the same way. */
  lemma EveryArmWriteGated(t: seq<Event>, i: nat)
    requires SafeTrace(t) && i < |t| && t[i].WriteArm?
    ensures || (0 < i && t[i - 1].CheckTrajectory? && t[i - 1].collisionFree && t[i - 1].end == t[i].target)
            || (2 < i && t[i - 1].MonitorArm? && !t[i - 1].success && t[i - 1].achieved == t[i].target
                && t[i - 2] == WriteArm(t[i - 1].target)
                && t[i - 3].CheckTrajectory? && t[i - 3].collisionFree && t[i - 3].end == t[i - 1].target)
  {
    assert SafeAt(t, i);
    if t[i - 1].MonitorArm? {
      assert SafeAt(t, i - 1);
    }
  }

  /** No planner mirroring anywhere in the log. */
  predicate NoMirror(t: seq<Event>) {
    forall i :: 0 <= i < |t| ==> !t[i].Mirror?
  }

  lemma NoMirrorAppend(a: seq<Event>, b: seq<Event>)
    requires NoMirror(a) && NoMirror(b)
    ensures NoMirror(a + b)
  {
  }
}
