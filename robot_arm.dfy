/** RobotArm: the orchestrator object. It owns the controller's state (arm
    joints, gripper joint, the gripper state last commanded), the planner's
    mirrored configuration and the log of calls it has made on both. Each
    public method runs the source's steps in order and is specified by the
    matching function of module Protocol, whose properties are proved there. */
module Robot {
  import opened Interfaces
  import opened Trace
  import opened Protocol

  class RobotArm {
    const env: Collaborators
    const controllerType: ControllerType
    var armJpos: ArmJpos
    var gripperJpos: real
    var gripperCommand: Option<real>
    var planner: Planner
    var log: seq<Event>

    function State(): Snapshot
      reads this
    {
      Snapshot(controllerType, armJpos, gripperJpos, gripperCommand, planner, log)
    }

    ghost predicate Valid()
      reads this
    {
      Invariant(env, State())
    }

    /** __init__ for a controller type already recognised: the controller
        starts where the hardware reports it; with the xArm the planner gets a
        simulator of its own, starting at (plannerArm0, plannerGripper0), with
        the simulated controller it shares the controller's simulator; then
        the planner is mirrored. */
    constructor (env: Collaborators, ctrl: ControllerType, arm0: ArmJpos, gripper0: real,
                 plannerArm0: ArmJpos, plannerGripper0: real)
      ensures Valid() && this.env == env
      ensures State() == Initial(env, ctrl, arm0, gripper0, plannerArm0, plannerGripper0)
    {
      this.env := env;
      controllerType := ctrl;
      armJpos, gripperJpos, gripperCommand := arm0, gripper0, None;
      planner := if ctrl == Real then OwnSimulator(plannerArm0, plannerGripper0) else SharesSimulator;
      log := [];
      new;
      MirrorPlanner();
    }

    /** __init__ with the controller type as given: any name but "real" or
        "sim" raises TypeError and no RobotArm exists. */
    static method Create(env: Collaborators, controllerType: string, arm0: ArmJpos, gripper0: real,
                         plannerArm0: ArmJpos, plannerGripper0: real) returns (r: Result<RobotArm>)
      ensures r.Failure? <==> controllerType != "real" && controllerType != "sim"
      ensures r.Failure? ==> r.error == TypeError
      ensures r.Success? ==> fresh(r.value) && r.value.Valid() && r.value.env == env
      ensures controllerType == "real" ==>
                r.Success? && r.value.State() == Initial(env, Real, arm0, gripper0, plannerArm0, plannerGripper0)
      ensures controllerType == "sim" ==>
                r.Success? && r.value.State() == Initial(env, Sim, arm0, gripper0, plannerArm0, plannerGripper0)
    {
      var parsed := ParseControllerType(controllerType);
      if parsed.Failure? {
        return Failure(parsed.error);
      }
      var arm := new RobotArm(env, parsed.value, arm0, gripper0, plannerArm0, plannerGripper0);
      r := Success(arm);
    }

    // ---- calls on the collaborators ----

    /** mp.is_collision_free_trajectory */
    method CheckTrajectory(start: ArmJpos, end: ArmJpos) returns (free: bool)
      modifies this
      ensures free == env.isCollisionFree(start, end)
      ensures State() == old(State()).(log := old(log) + [Event.CheckTrajectory(start, end, free)])
    {
      free := env.isCollisionFree(start, end);
      log := log + [Event.CheckTrajectory(start, end, free)];
    }

    /** controller.write_arm_jpos */
    method WriteArmJpos(target: ArmJpos) returns (duration: real)
      modifies this
      ensures duration == env.armWriteDuration(armJpos, target)
      ensures State() == old(State()).(log := old(log) + [WriteArm(target)])
    {
      duration := env.armWriteDuration(armJpos, target);
      log := log + [WriteArm(target)];
    }

    /** controller.monitor over the arm joints: the arm ends where the monitor
        last observed it. */
    method MonitorArmJoints(target: ArmJpos, duration: real) returns (success: bool, achieved: ArmJpos)
      modifies this
      ensures Monitored(success, achieved) == env.monitorArm(old(armJpos), target, duration)
      ensures State() == old(State()).(arm := achieved,
                                       log := old(log) + [MonitorArm(target, duration, success, achieved)])
    {
      var m := env.monitorArm(armJpos, target, duration);
      success, achieved := m.success, m.achieved;
      armJpos := achieved;
      log := log + [MonitorArm(target, duration, success, achieved)];
    }

    /** controller.write_gripper_state */
    method WriteGripperState(state: real) returns (duration: real)
      modifies this
      ensures duration == env.gripperWriteDuration(gripperJpos, state)
      ensures State() == old(State()).(gripperCommand := Some(state), log := old(log) + [WriteGripper(state)])
    {
      duration := env.gripperWriteDuration(gripperJpos, state);
      gripperCommand := Some(state);
      log := log + [WriteGripper(state)];
    }

    /** controller.monitor over the gripper joint. */
    method MonitorGripperJoint(target: real, duration: real) returns (success: bool, achieved: real)
      modifies this
      ensures Monitored(success, achieved) == env.monitorGripper(old(gripperJpos), target, duration)
      ensures State() == old(State()).(gripper := achieved,
                                       log := old(log) + [MonitorGripper(target, duration, success, achieved)])
    {
      var m := env.monitorGripper(gripperJpos, target, duration);
      success, achieved := m.success, m.achieved;
      gripperJpos := achieved;
      log := log + [MonitorGripper(target, duration, success, achieved)];
    }

    /** controller.timestep: the gripper moves under the state last commanded. */
    method Timestep()
      modifies this
      ensures old(gripperCommand).Some? ==>
                gripperJpos == env.gripperAfterTimestep(old(gripperJpos), old(gripperCommand).value)
      ensures old(gripperCommand).None? ==> gripperJpos == old(gripperJpos)
      ensures State() == old(State()).(gripper := gripperJpos, log := old(log) + [Event.Timestep])
    {
      if gripperCommand.Some? {
        gripperJpos := env.gripperAfterTimestep(gripperJpos, gripperCommand.value);
      }
      log := log + [Event.Timestep];
    }

    /** _mirror_planner */
    method MirrorPlanner()
      modifies this
      ensures State() == Protocol.MirrorPlanner(env, old(State()))
    {
      if controllerType == Real {
        var arm := GetArmJpos();
        var gripper := GetGripperState();
        planner := OwnSimulator(arm, gripper);
        log := log + [Event.Mirror(arm, gripper)];
      }
    }

    // ---- public operations ----

    method GetArmJpos() returns (jpos: ArmJpos)
      ensures jpos == State().arm
    {
      jpos := armJpos;
    }

    method GetGripperState() returns (state: real)
      ensures state == GripperState(env, State())
    {
      state := env.gripperJposToState(gripperJpos);
    }

    method Home()
      requires Valid()
      modifies this
      ensures Valid()
      ensures State() == MoveArm(env, old(State()), env.armJposHome).state
    {
      var _ := MoveArmJpos(env.armJposHome, true);
    }

    method PassiveMode()
      requires Valid()
      modifies this
      ensures Valid() && State() == PowerServos(old(State()), false)
    {
      PowerServosKeepsInvariant(env, State(), false);
      log := log + [PowerOff];
    }

    method ActiveMode()
      requires Valid()
      modifies this
      ensures Valid() && State() == PowerServos(old(State()), true)
    {
      PowerServosKeepsInvariant(env, State(), true);
      log := log + [PowerOn];
    }

    /** move_arm_jpos. The message printed when verbose is set is not modelled;
        a failed gate returns false (see Protocol.MoveArmAsWritten). */
    method MoveArmJpos(jpos: ArmJpos, verbose: bool) returns (success: bool)
      requires Valid()
      modifies this
      ensures Valid()
      ensures State() == MoveArm(env, old(State()), jpos).state
      ensures success == MoveArm(env, old(State()), jpos).ok
    {
      ghost var before := State();
      MoveArmKeepsInvariant(env, before, jpos);
      var current := GetArmJpos();
      var free := CheckTrajectory(current, jpos);
      if !free {
        assert State() == MoveArm(env, before, jpos).state;
        return false;
      }
      var duration := WriteArmJpos(jpos);
      var achieved;
      success, achieved := MonitorArmJoints(jpos, duration);
      if !success {
        // to avoid leaving motors under load, move to the achieved position
        var _ := WriteArmJpos(achieved);
      }
      MirrorPlanner();
      assert State() == MoveArm(env, before, jpos).state;
    }

    method GetHandPose() returns (pose: Pose)
      requires Valid()
      modifies this
      ensures Valid()
      ensures State() == Protocol.MirrorPlanner(env, old(State()))
      ensures pose == Protocol.GetHandPose(env, old(State())).pose
    {
      MirrorKeepsInvariant(env, State());
      MirrorPlanner();
      var arm, gripper;
      match planner {
        case SharesSimulator =>
          arm := GetArmJpos();
          gripper := GetGripperState();
        case OwnSimulator(mirroredArm, mirroredGripper) =>
          arm, gripper := mirroredArm, mirroredGripper;
      }
      pose := env.forwardKinematics(arm, gripper);
    }

    /** move_hand_to. verbose is not passed on: the source calls move_arm_jpos
        with its default. */
    method MoveHandTo(pos: Position, pitchRoll: Option<(real, real)>, verbose: bool) returns (success: bool)
      requires Valid()
      modifies this
      ensures Valid()
      ensures State() == Protocol.MoveHandTo(env, old(State()), pos, pitchRoll).state
      ensures success == Protocol.MoveHandTo(env, old(State()), pos, pitchRoll).ok
    {
      var rot: Option<Quaternion>;
      if pitchRoll.None? {
        rot := None;
      } else {
        var (pitch, roll) := pitchRoll.value;
        rot := Some(env.handOrientation(pos, pitch, roll));
      }
      var solution := env.calculateIk(pos, rot);
      success := MoveArmJpos(solution.jpos, true);
    }

    method OpenGripper() returns (state: real)
      requires Valid()
      modifies this
      ensures Valid()
      ensures State() == SetGripper(env, old(State()), GripperOpened, DefaultBackoff).state
      ensures state == SetGripper(env, old(State()), GripperOpened, DefaultBackoff).achieved
    {
      state := SetGripperState(GripperOpened, DefaultBackoff);
    }

    method CloseGripper() returns (state: real)
      requires Valid()
      modifies this
      ensures Valid()
      ensures State() == SetGripper(env, old(State()), GripperClosed, CloseBackoff).state
      ensures state == SetGripper(env, old(State()), GripperClosed, CloseBackoff).achieved
    {
      state := SetGripperState(GripperClosed, CloseBackoff);
    }

    /** set_gripper_state */
    method SetGripperState(state: real, backoff: real) returns (achievedGripperState: real)
      requires Valid()
      modifies this
      ensures Valid()
      ensures State() == SetGripper(env, old(State()), state, backoff).state
      ensures achievedGripperState == SetGripper(env, old(State()), state, backoff).achieved
    {
      ghost var before := State();
      SetGripperKeepsInvariant(env, before, state, backoff);
      var target := Clip(state);
      var duration := WriteGripperState(target);
      var gripperTarget := env.gripperStateToJpos(target);
      var success, achievedJpos := MonitorGripperJoint(gripperTarget, duration);
      if !success {
        // to avoid leaving motors under load, move to the achieved position
        var achievedState := env.gripperJposToState(achievedJpos);
        achievedState := achievedState + backoff;
        var _ := WriteGripperState(achievedState);
        Timestep();
      }
      achievedGripperState := GetGripperState();
      MirrorPlanner();
      assert State() == SetGripper(env, before, state, backoff).state;
    }
  }
}
