/** The RobotArm orchestrator's protocol as functions on a snapshot of the
    state it works on: the controller's joints, the planner's mirrored
    configuration and the log of calls made so far. Each function is one
    public operation of RobotArm; the class in module Robot runs the same
    steps in place and is specified by these functions. */
module Protocol {
  import opened Interfaces
  import opened Trace

  /** GRIPPER_OPENED and GRIPPER_CLOSED: a gripper state is 1 when open and 0
      when closed. */
  const GripperOpened: real := 1.0
  const GripperClosed: real := 0.0

  /** The default backoff of set_gripper_state, and the one close_gripper passes. */
  const DefaultBackoff: real := -0.05
  const CloseBackoff: real := -0.05

  /** The motion planner's robot. With the real xArm the planner has a
      simulator of its own, holding whatever was last mirrored into it. With
      the simulated controller, planner and controller are handed the same
      PybulletSimulator, so the planner sees the controller's configuration. */
  datatype Planner =
    | SharesSimulator
    | OwnSimulator(arm: ArmJpos, gripper: real)

  datatype Snapshot = Snapshot(
    ctrl: ControllerType,
    arm: ArmJpos,                  // controller: arm joint positions
    gripper: real,                 // controller: gripper joint position
    gripperCommand: Option<real>,  // controller: gripper state last written
    planner: Planner,
    log: seq<Event>)

  /** An operation's new state and its boolean result. */
  datatype Outcome = Outcome(state: Snapshot, ok: bool)

  /** set_gripper_state's new state and the gripper state it reads back. */
  datatype GripperOutcome = GripperOutcome(state: Snapshot, achieved: real)

  datatype PoseOutcome = PoseOutcome(state: Snapshot, pose: Pose)

  /** What the source does when move_arm_jpos returns, or raises. */
  datatype Call = Returned(state: Snapshot, ok: bool) | Raised(state: Snapshot, error: PyError)

  /** read_gripper_state: the controller's gripper position as a state. */
  function GripperState(env: Collaborators, s: Snapshot): real {
    env.gripperJposToState(s.gripper)
  }

  /** The arm jpos and gripper state the planner computes with. */
  function PlannerConfig(env: Collaborators, s: Snapshot): (ArmJpos, real) {
    match s.planner
    case SharesSimulator => (s.arm, GripperState(env, s))
    case OwnSimulator(arm, gripper) => (arm, gripper)
  }

  /** The planner's configuration equals the controller's. */
  predicate Synced(env: Collaborators, s: Snapshot) {
    PlannerConfig(env, s) == (s.arm, GripperState(env, s))
  }

  /** The new state keeps the old log as its prefix. */
  predicate Extends(s: Snapshot, r: Snapshot) {
    |s.log| <= |r.log| && r.log[..|s.log|] == s.log
  }

  /** The calls an operation made. */
  function Added(s: Snapshot, r: Snapshot): seq<Event>
    requires Extends(s, r)
  {
    r.log[|s.log|..]
  }

  predicate SameController(s: Snapshot, r: Snapshot) {
    r.ctrl == s.ctrl && r.arm == s.arm && r.gripper == s.gripper && r.gripperCommand == s.gripperCommand
  }

  /** What every operation keeps: the log is safe; the planner sees the
      controller's configuration, on the real robot because it was mirrored,
      on the simulator because the two share one simulator, which is never
      mirrored. */
  predicate Invariant(env: Collaborators, s: Snapshot) {
    && SafeTrace(s.log)
    && Synced(env, s)
    && (s.ctrl == Real <==> s.planner.OwnSimulator?)
    && (s.ctrl == Sim ==> NoMirror(s.log))
  }

  function Dist(x: real, y: real): real {
    if x <= y then y - x else x - y
  }

  /** np.clip(x, 0, 1): the point of [0,1] nearest to x. */
  function Clip(x: real): (r: real)
    ensures 0.0 <= r <= 1.0
    ensures forall y :: 0.0 <= y <= 1.0 ==> Dist(r, x) <= Dist(y, x)
  {
    if x < 0.0 then 0.0 else if x > 1.0 then 1.0 else x
  }

  /** The controller_type argument of the constructor. */
  function ParseControllerType(name: string): (r: Result<ControllerType>)
    ensures r.Success? <==> name == "real" || name == "sim"
    ensures r.Success? ==> (r.value == Real <==> name == "real")
    ensures r.Failure? ==> r.error == TypeError
  {
    if name == "real" then Success(Real)
    else if name == "sim" then Success(Sim)
    else Failure(TypeError)
  }

  /** _mirror_planner: on the real robot, copy the controller's arm position and
      gripper state into the planner; on the simulator, nothing. */
  function MirrorPlanner(env: Collaborators, s: Snapshot): (r: Snapshot)
    ensures SameController(s, r)
    ensures s.ctrl == Real ==> Synced(env, r) && r.log == s.log + [Event.Mirror(s.arm, GripperState(env, s))]
    ensures s.ctrl == Sim ==> r == s
  {
    if s.ctrl == Real then
      s.(planner := OwnSimulator(s.arm, GripperState(env, s)),
         log := s.log + [Event.Mirror(s.arm, GripperState(env, s))])
    else s
  }

  /** The state right after construction: the controller at the positions it
      reports when it connects; with the xArm, the planner's own simulator at
      its starting configuration (plannerArm0, plannerGripper0), then
      mirrored; with the simulated controller, one simulator shared by both. */
  function Initial(env: Collaborators, ctrl: ControllerType, arm0: ArmJpos, gripper0: real,
                   plannerArm0: ArmJpos, plannerGripper0: real): (r: Snapshot)
    ensures r.ctrl == ctrl && r.arm == arm0 && r.gripper == gripper0 && r.gripperCommand == None
    ensures ctrl == Real ==> r.log == [Event.Mirror(arm0, env.gripperJposToState(gripper0))]
    ensures ctrl == Sim ==> r.log == [] && r.planner == SharesSimulator
    ensures PlannerConfig(env, r) == (arm0, env.gripperJposToState(gripper0))
    ensures Invariant(env, r)
  {
    var planner := if ctrl == Real then OwnSimulator(plannerArm0, plannerGripper0) else SharesSimulator;
    MirrorPlanner(env, Snapshot(ctrl, arm0, gripper0, None, planner, []))
  }

  /** move_arm_jpos: read the arm, gate on the planner's collision check, write
      the target, monitor it, re-command the achieved position on failure and
      re-synchronise the planner. */
  function MoveArm(env: Collaborators, s: Snapshot, jpos: ArmJpos): (r: Outcome)
    ensures Extends(s, r.state) && |Added(s, r.state)| > 0
    ensures r.state.ctrl == s.ctrl && r.state.gripper == s.gripper && r.state.gripperCommand == s.gripperCommand
    // the gate is checked first, from the arm position read just now
    ensures Added(s, r.state)[0] == CheckTrajectory(s.arm, jpos, env.isCollisionFree(s.arm, jpos))
    // a failed gate: nothing but the check, no success
    ensures !env.isCollisionFree(s.arm, jpos) ==>
              !r.ok && r.state == s.(log := s.log + [CheckTrajectory(s.arm, jpos, false)])
    ensures env.isCollisionFree(s.arm, jpos) ==>
              var d := env.armWriteDuration(s.arm, jpos);
              var m := env.monitorArm(s.arm, jpos, d);
              && r.ok == m.success
              && |Added(s, r.state)| >= 3
              && Added(s, r.state)[1] == WriteArm(jpos)
              && Added(s, r.state)[2] == MonitorArm(jpos, d, m.success, m.achieved)
              && r.state.arm == m.achieved
              && (s.ctrl == Real ==> Synced(env, r.state) && Added(s, r.state)[|Added(s, r.state)| - 1].Mirror?)
    ensures s.ctrl == Sim ==> r.state.planner == s.planner
  {
    var free := env.isCollisionFree(s.arm, jpos);
    var checked := s.(log := s.log + [CheckTrajectory(s.arm, jpos, free)]);
    if !free then
      assert Added(s, checked) == [CheckTrajectory(s.arm, jpos, free)];
      Outcome(checked, false)
    else
      var d := env.armWriteDuration(s.arm, jpos);
      var m := env.monitorArm(s.arm, jpos, d);
      var block := [WriteArm(jpos), MonitorArm(jpos, d, m.success, m.achieved)]
                   + (if m.success then [] else [WriteArm(m.achieved)]);
      var moved := checked.(arm := m.achieved, log := checked.log + block);
      var r := MirrorPlanner(env, moved);
      var tail := if s.ctrl == Real then [Event.Mirror(m.achieved, GripperState(env, moved))] else [];
      assert r.log == s.log + ([CheckTrajectory(s.arm, jpos, free)] + block + tail);
      assert Added(s, r) == [CheckTrajectory(s.arm, jpos, free)] + block + tail;
      Outcome(r, m.success)
  }

  /** move_arm_jpos as written: with verbose set, the message for a failed gate
      names a variable `e` that does not exist, so the call raises NameError
      instead of returning False. The calls made are the same. */
  function MoveArmAsWritten(env: Collaborators, s: Snapshot, jpos: ArmJpos, verbose: bool): (r: Call)
    ensures r.state == MoveArm(env, s, jpos).state
    ensures r.Raised? <==> verbose && !env.isCollisionFree(s.arm, jpos)
    ensures r.Raised? ==> r.error == NameError
    ensures r.Returned? ==> r.ok == MoveArm(env, s, jpos).ok
  {
    var free := env.isCollisionFree(s.arm, jpos);
    var checked := s.(log := s.log + [CheckTrajectory(s.arm, jpos, free)]);
    if !free then
      if verbose then Raised(checked, NameError) else Returned(checked, false)
    else
      var o := MoveArm(env, s, jpos);
      Returned(o.state, o.ok)
  }

  /** The orientation handed to the IK: none without pitch_roll, otherwise the
      yaw towards pos composed with the given pitch and roll. */
  function TargetOrientation(env: Collaborators, pos: Position, pitchRoll: Option<(real, real)>): Option<Quaternion>
  {
    match pitchRoll
    case None => None
    case Some((pitch, roll)) => Some(env.handOrientation(pos, pitch, roll))
  }

  /** move_hand_to: solve the IK and move the arm to its joint output. */
  function MoveHandTo(env: Collaborators, s: Snapshot, pos: Position, pitchRoll: Option<(real, real)>): (r: Outcome)
    // the outcome is move_arm_jpos of the IK's joints, with or without pitch_roll
    ensures r == MoveArm(env, s, env.calculateIk(pos, TargetOrientation(env, pos, pitchRoll)).jpos)
    ensures pitchRoll.None? ==> r == MoveArm(env, s, env.calculateIk(pos, None).jpos)
    ensures Extends(s, r.state) && |Added(s, r.state)| > 0
    ensures var target := env.calculateIk(pos, TargetOrientation(env, pos, pitchRoll)).jpos;
            Added(s, r.state)[0] == CheckTrajectory(s.arm, target, env.isCollisionFree(s.arm, target))
  {
    var solution := env.calculateIk(pos, TargetOrientation(env, pos, pitchRoll));
    MoveArm(env, s, solution.jpos)
  }

  /** set_gripper_state: clip the state, write it, monitor the gripper joint;
      on failure write the achieved state plus the backoff and take a
      timestep; read the gripper state back and re-synchronise the planner. */
  function SetGripper(env: Collaborators, s: Snapshot, state: real, backoff: real): (r: GripperOutcome)
    ensures Extends(s, r.state) && |Added(s, r.state)| >= 2
    ensures r.state.ctrl == s.ctrl && r.state.arm == s.arm
    ensures var target := Clip(state);
            var d := env.gripperWriteDuration(s.gripper, target);
            var m := env.monitorGripper(s.gripper, env.gripperStateToJpos(target), d);
            && Added(s, r.state)[0] == WriteGripper(target)
            && Added(s, r.state)[1] == MonitorGripper(env.gripperStateToJpos(target), d, m.success, m.achieved)
            && (m.success ==> r.state.gripper == m.achieved)
    // the result is the state read back, which the planner then mirrors
    ensures r.achieved == GripperState(env, r.state)
    ensures s.ctrl == Real ==> Synced(env, r.state) && Added(s, r.state)[|Added(s, r.state)| - 1].Mirror?
    ensures s.ctrl == Sim ==> r.state.planner == s.planner
  {
    var target := Clip(state);
    var d := env.gripperWriteDuration(s.gripper, target);
    var jposTarget := env.gripperStateToJpos(target);
    var m := env.monitorGripper(s.gripper, jposTarget, d);
    var first := [WriteGripper(target), MonitorGripper(jposTarget, d, m.success, m.achieved)];
    var monitored := s.(gripper := m.achieved, gripperCommand := Some(target), log := s.log + first);
    var retreat := env.gripperJposToState(m.achieved) + backoff;
    var recovery := if m.success then [] else [WriteGripper(retreat), Timestep];
    var settled := if m.success then monitored
                   else monitored.(gripper := env.gripperAfterTimestep(m.achieved, retreat),
                                   gripperCommand := Some(retreat),
                                   log := monitored.log + recovery);
    var readBack := GripperState(env, settled);
    var r := MirrorPlanner(env, settled);
    var tail := if s.ctrl == Real then [Event.Mirror(s.arm, readBack)] else [];
    assert r.log == s.log + (first + recovery + tail);
    assert Added(s, r) == first + recovery + tail;
    GripperOutcome(r, readBack)
  }

  /** get_hand_pose: mirror, then the planner's forward kinematics. */
  function GetHandPose(env: Collaborators, s: Snapshot): (r: PoseOutcome)
    ensures r.state == MirrorPlanner(env, s)
    // the pose of the controller's current configuration, on the real robot
    // because of the mirror, on the simulator because of the shared simulator
    ensures s.ctrl == Real || s.planner == SharesSimulator ==>
              r.pose == env.forwardKinematics(s.arm, GripperState(env, s))
    ensures Invariant(env, s) ==> r.pose == env.forwardKinematics(s.arm, GripperState(env, s))
  {
    var m := MirrorPlanner(env, s);
    var (arm, gripper) := PlannerConfig(env, m);
    PoseOutcome(m, env.forwardKinematics(arm, gripper))
  }

  /** power_off_servos / power_on_servos. */
  function PowerServos(s: Snapshot, on: bool): (r: Snapshot)
    ensures Extends(s, r) && Added(s, r) == [if on then PowerOn else PowerOff]
    ensures SameController(s, r) && r.planner == s.planner
  {
    var r := s.(log := s.log + [if on then PowerOn else PowerOff]);
    assert Added(s, r) == [if on then PowerOn else PowerOff];
    r
  }

  /** The hardware commands move_arm_jpos issues: none when the gate fails;
      otherwise one write of the target, and, only when monitoring fails, one
      more write whose argument is the achieved position. */
  lemma MoveArmCommands(env: Collaborators, s: Snapshot, jpos: ArmJpos)
    ensures var r := MoveArm(env, s, jpos);
            var d := env.armWriteDuration(s.arm, jpos);
            var m := env.monitorArm(s.arm, jpos, d);
            HardwareCommands(Added(s, r.state)) ==
              if !env.isCollisionFree(s.arm, jpos) then []
              else [WriteArm(jpos)] + (if m.success then [] else [WriteArm(m.achieved)])
  {
    var r := MoveArm(env, s, jpos);
    var free := env.isCollisionFree(s.arm, jpos);
    var check := CheckTrajectory(s.arm, jpos, free);
    if !free {
      assert Added(s, r.state) == [check];
      HardwareCommandsSingle(check);
    } else {
      var d := env.armWriteDuration(s.arm, jpos);
      var m := env.monitorArm(s.arm, jpos, d);
      var recovery := if m.success then [] else [WriteArm(m.achieved)];
      var tail := if s.ctrl == Real then [Event.Mirror(m.achieved, GripperState(env, s))] else [];
      var monitor := MonitorArm(jpos, d, m.success, m.achieved);
      assert Added(s, r.state) == [check, WriteArm(jpos), monitor] + recovery + tail;
      CommandsOfArmMove(check, jpos, monitor, recovery, tail);
    }
  }

  lemma CommandsOfArmMove(check: Event, jpos: ArmJpos, monitor: Event, recovery: seq<Event>, tail: seq<Event>)
    requires check.CheckTrajectory? && monitor.MonitorArm?
    requires recovery == [] || (|recovery| == 1 && recovery[0].WriteArm?)
    requires tail == [] || (|tail| == 1 && tail[0].Mirror?)
    ensures HardwareCommands([check, WriteArm(jpos), monitor] + recovery + tail) == [WriteArm(jpos)] + recovery
  {
    var first := [check, WriteArm(jpos), monitor];
    HardwareCommandsAppend(first + recovery, tail);
    HardwareCommandsAppend(first, recovery);
    assert HardwareCommands(first) == [WriteArm(jpos)] by {
      CommandsOfWrite(check, WriteArm(jpos), monitor);
    }
    assert HardwareCommands(recovery) == recovery by {
      if recovery != [] {
        assert recovery == [recovery[0]];
        HardwareCommandsSingle(recovery[0]);
      }
    }
    assert HardwareCommands(tail) == [] by {
      if tail != [] {
        assert tail == [tail[0]];
        HardwareCommandsSingle(tail[0]);
      }
    }
  }

  /** The hardware commands set_gripper_state issues: one write of the clipped
      state, and, only when monitoring fails, one corrective write of the
      achieved state plus the backoff, then one timestep. */
  lemma SetGripperCommands(env: Collaborators, s: Snapshot, state: real, backoff: real)
    ensures var r := SetGripper(env, s, state, backoff);
            var target := Clip(state);
            var d := env.gripperWriteDuration(s.gripper, target);
            var m := env.monitorGripper(s.gripper, env.gripperStateToJpos(target), d);
            HardwareCommands(Added(s, r.state)) ==
              [WriteGripper(target)]
              + (if m.success then [] else [WriteGripper(env.gripperJposToState(m.achieved) + backoff), Timestep])
  {
    var r := SetGripper(env, s, state, backoff);
    var target := Clip(state);
    var d := env.gripperWriteDuration(s.gripper, target);
    var jposTarget := env.gripperStateToJpos(target);
    var m := env.monitorGripper(s.gripper, jposTarget, d);
    var retreat := env.gripperJposToState(m.achieved) + backoff;
    var recovery := if m.success then [] else [WriteGripper(retreat), Timestep];
    var settledGripper := if m.success then m.achieved else env.gripperAfterTimestep(m.achieved, retreat);
    var tail := if s.ctrl == Real then [Event.Mirror(s.arm, env.gripperJposToState(settledGripper))] else [];
    var monitor := MonitorGripper(jposTarget, d, m.success, m.achieved);
    assert Added(s, r.state) == [WriteGripper(target), monitor] + recovery + tail;
    CommandsOfGripperMove(target, monitor, recovery, tail);
  }

  lemma CommandsOfGripperMove(target: real, monitor: Event, recovery: seq<Event>, tail: seq<Event>)
    requires monitor.MonitorGripper?
    requires recovery == [] || (|recovery| == 2 && recovery[0].WriteGripper? && recovery[1] == Timestep)
    requires tail == [] || (|tail| == 1 && tail[0].Mirror?)
    ensures HardwareCommands([WriteGripper(target), monitor] + recovery + tail) == [WriteGripper(target)] + recovery
  {
    var first := [WriteGripper(target), monitor];
    HardwareCommandsAppend(first + recovery, tail);
    HardwareCommandsAppend(first, recovery);
    assert HardwareCommands(first) == [WriteGripper(target)] by {
      CommandsOfPair(WriteGripper(target), monitor, false);
    }
    assert HardwareCommands(recovery) == recovery by {
      if recovery != [] {
        assert recovery == [recovery[0], Timestep];
        CommandsOfPair(recovery[0], Timestep, true);
      }
    }
    assert HardwareCommands(tail) == [] by {
      if tail != [] {
        assert tail == [tail[0]];
        HardwareCommandsSingle(tail[0]);
      }
    }
  }

  /** The commands of a hardware command followed by one more call. */
  lemma CommandsOfPair(a: Event, b: Event, bIsCommand: bool)
    requires IsHardwareCommand(a) && IsHardwareCommand(b) == bIsCommand
    ensures HardwareCommands([a, b]) == if bIsCommand then [a, b] else [a]
  {
    assert [a, b] == [a] + [b];
    HardwareCommandsAppend([a], [b]);
    HardwareCommandsSingle(a);
    HardwareCommandsSingle(b);
  }

  /** The calls of a gated-through move_arm_jpos form a safe log. */
  lemma ArmMoveSafe(start: ArmJpos, jpos: ArmJpos, d: real, success: bool, achieved: ArmJpos, tail: seq<Event>)
    requires tail == [] || (|tail| == 1 && tail[0].Mirror?)
    ensures SafeTrace([CheckTrajectory(start, jpos, true), WriteArm(jpos), MonitorArm(jpos, d, success, achieved)]
                      + (if success then [] else [WriteArm(achieved)]) + tail)
  {
  }

  /** The calls of set_gripper_state form a safe log. */
  lemma GripperMoveSafe(target: real, monitor: Event, retreat: real, tail: seq<Event>)
    requires 0.0 <= target <= 1.0
    requires monitor.MonitorGripper?
    requires tail == [] || (|tail| == 1 && tail[0].Mirror?)
    ensures SafeTrace([WriteGripper(target), monitor]
                      + (if monitor.success then [] else [WriteGripper(retreat), Timestep]) + tail)
  {
  }

  /** move_arm_jpos keeps the invariant: its calls form a safe log, and on the
      real robot it ends synchronised, also when the gate fails and nothing moves. */
  lemma MoveArmKeepsInvariant(env: Collaborators, s: Snapshot, jpos: ArmJpos)
    requires Invariant(env, s)
    ensures Invariant(env, MoveArm(env, s, jpos).state)
  {
    var r := MoveArm(env, s, jpos).state;
    var free := env.isCollisionFree(s.arm, jpos);
    var check := CheckTrajectory(s.arm, jpos, free);
    if !free {
      assert r.log == s.log + [check];
      assert SafeAt([check], 0);
      SafeTraceAppend(s.log, [check]);
      if s.ctrl == Sim { NoMirrorAppend(s.log, [check]); }
    } else {
      var d := env.armWriteDuration(s.arm, jpos);
      var m := env.monitorArm(s.arm, jpos, d);
      var tail := if s.ctrl == Real then [Event.Mirror(m.achieved, GripperState(env, s))] else [];
      var added := [check, WriteArm(jpos), MonitorArm(jpos, d, m.success, m.achieved)]
                   + (if m.success then [] else [WriteArm(m.achieved)]) + tail;
      assert r.log == s.log + added;
      ArmMoveSafe(s.arm, jpos, d, m.success, m.achieved, tail);
      SafeTraceAppend(s.log, added);
      if s.ctrl == Sim {
        assert NoMirror(added) by {
          forall i | 0 <= i < |added| ensures !added[i].Mirror? {
            assert i <= 3;
          }
        }
        NoMirrorAppend(s.log, added);
      }
    }
  }

  lemma SetGripperKeepsInvariant(env: Collaborators, s: Snapshot, state: real, backoff: real)
    requires Invariant(env, s)
    ensures Invariant(env, SetGripper(env, s, state, backoff).state)
  {
    var r := SetGripper(env, s, state, backoff).state;
    var target := Clip(state);
    var d := env.gripperWriteDuration(s.gripper, target);
    var jposTarget := env.gripperStateToJpos(target);
    var m := env.monitorGripper(s.gripper, jposTarget, d);
    var retreat := env.gripperJposToState(m.achieved) + backoff;
    var settledGripper := if m.success then m.achieved else env.gripperAfterTimestep(m.achieved, retreat);
    var tail := if s.ctrl == Real then [Event.Mirror(s.arm, env.gripperJposToState(settledGripper))] else [];
    var monitor := MonitorGripper(jposTarget, d, m.success, m.achieved);
    var added := [WriteGripper(target), monitor]
                 + (if monitor.success then [] else [WriteGripper(retreat), Timestep]) + tail;
    assert r.log == s.log + added;
    GripperMoveSafe(target, monitor, retreat, tail);
    SafeTraceAppend(s.log, added);
    if s.ctrl == Sim {
      assert NoMirror(added) by {
        forall i | 0 <= i < |added| ensures !added[i].Mirror? {
          assert i <= 3;
        }
      }
      NoMirrorAppend(s.log, added);
    }
  }

  /** Mirroring keeps the invariant (it is what re-establishes it). */
  lemma MirrorKeepsInvariant(env: Collaborators, s: Snapshot)
    requires Invariant(env, s)
    ensures Invariant(env, MirrorPlanner(env, s))
  {
    if s.ctrl == Real {
      var e := Event.Mirror(s.arm, GripperState(env, s));
      assert SafeAt([e], 0);
      SafeTraceAppend(s.log, [e]);
    }
  }

  lemma PowerServosKeepsInvariant(env: Collaborators, s: Snapshot, on: bool)
    requires Invariant(env, s)
    ensures Invariant(env, PowerServos(s, on))
  {
    var e := if on then PowerOn else PowerOff;
    assert PowerServos(s, on).log == s.log + [e];
    assert SafeAt([e], 0);
    SafeTraceAppend(s.log, [e]);
    if s.ctrl == Sim { NoMirrorAppend(s.log, [e]); }
  }

  /** As written, a failed gate with verbose set (the default, which home and
      move_hand_to use) raises NameError where False was meant; no hardware
      command is issued either way, and the corrected MoveArm returns False. */
  lemma VerboseGateFailureRaises(env: Collaborators, s: Snapshot, jpos: ArmJpos)
    requires !env.isCollisionFree(s.arm, jpos)
    ensures MoveArmAsWritten(env, s, jpos, true) == Raised(MoveArm(env, s, jpos).state, NameError)
    ensures MoveArm(env, s, jpos) == Outcome(s.(log := s.log + [CheckTrajectory(s.arm, jpos, false)]), false)
    ensures HardwareCommands(Added(s, MoveArm(env, s, jpos).state)) == []
  {
  }

  /** move_hand_to never inspects the IK diagnostics: a solver that returns the
      same joint angles with any other diagnostics gives the same outcome. */
  lemma IkDiagnosticsIgnored(env: Collaborators, ik: (Position, Option<Quaternion>) -> IkSolution,
                             s: Snapshot, pos: Position, pitchRoll: Option<(real, real)>)
    requires forall p, o :: ik(p, o).jpos == env.calculateIk(p, o).jpos
    ensures MoveHandTo(env.(calculateIk := ik), s, pos, pitchRoll) == MoveHandTo(env, s, pos, pitchRoll)
  {
  }
}
