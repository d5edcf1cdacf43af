/** A session: any sequence of RobotArm's public operations, run from the
    state right after construction. Whatever the collaborators answer, the log
    stays safe and, on the real robot, the planner ends every operation
    mirroring the controller. */
module Session {
  import opened Interfaces
  import opened Trace
  import Protocol

  datatype Op =
    | Home
    | PassiveMode
    | ActiveMode
    | MoveArmJpos(jpos: ArmJpos)
    | MoveHandTo(pos: Position, pitchRoll: Option<(real, real)>)
    | OpenGripper
    | CloseGripper
    | SetGripperState(state: real, backoff: real)
    | GetHandPose
    | GetArmJpos
    | GetGripperState

  /** One operation's effect on the state. */
  function Step(env: Collaborators, s: Protocol.Snapshot, op: Op): (r: Protocol.Snapshot)
    requires Protocol.Invariant(env, s)
    ensures Protocol.Invariant(env, r)
    ensures Protocol.Extends(s, r) && r.ctrl == s.ctrl
  {
    match op
    case Home =>
      Protocol.MoveArmKeepsInvariant(env, s, env.armJposHome);
      Protocol.MoveArm(env, s, env.armJposHome).state
    case PassiveMode =>
      Protocol.PowerServosKeepsInvariant(env, s, false);
      Protocol.PowerServos(s, false)
    case ActiveMode =>
      Protocol.PowerServosKeepsInvariant(env, s, true);
      Protocol.PowerServos(s, true)
    case MoveArmJpos(jpos) =>
      Protocol.MoveArmKeepsInvariant(env, s, jpos);
      Protocol.MoveArm(env, s, jpos).state
    case MoveHandTo(pos, pitchRoll) =>
      var target := env.calculateIk(pos, Protocol.TargetOrientation(env, pos, pitchRoll)).jpos;
      Protocol.MoveArmKeepsInvariant(env, s, target);
      Protocol.MoveHandTo(env, s, pos, pitchRoll).state
    case OpenGripper =>
      Protocol.SetGripperKeepsInvariant(env, s, Protocol.GripperOpened, Protocol.DefaultBackoff);
      Protocol.SetGripper(env, s, Protocol.GripperOpened, Protocol.DefaultBackoff).state
    case CloseGripper =>
      Protocol.SetGripperKeepsInvariant(env, s, Protocol.GripperClosed, Protocol.CloseBackoff);
      Protocol.SetGripper(env, s, Protocol.GripperClosed, Protocol.CloseBackoff).state
    case SetGripperState(state, backoff) =>
      Protocol.SetGripperKeepsInvariant(env, s, state, backoff);
      Protocol.SetGripper(env, s, state, backoff).state
    case GetHandPose =>
      Protocol.MirrorKeepsInvariant(env, s);
      Protocol.GetHandPose(env, s).state
    case GetArmJpos => s
    case GetGripperState => s
  }

  /** A sequence of operations, one after the other. */
  function Run(env: Collaborators, s: Protocol.Snapshot, ops: seq<Op>): (r: Protocol.Snapshot)
    requires Protocol.Invariant(env, s)
    ensures Protocol.Invariant(env, r)
    ensures Protocol.Extends(s, r) && r.ctrl == s.ctrl
    decreases |ops|
  {
    if ops == [] then s
    else
      var next := Step(env, s, ops[0]);
      var r := Run(env, next, ops[1..]);
      assert r.log[..|s.log|] == r.log[..|next.log|][..|s.log|];
      r
  }

  /** Every session, on either controller, leaves a safe log: no arm write
      that was not gated by a passed collision check or is not the corrective
      write of a failed monitor's observation, every failed monitor followed by
      its corrective write. The planner ends seeing the controller's
      configuration, so get_hand_pose reports the hand's current pose: on the
      real robot by mirroring, on the simulator, which is never mirrored,
      through the shared simulator. */
  lemma SessionIsSafe(env: Collaborators, ctrl: ControllerType, arm0: ArmJpos, gripper0: real,
                      plannerArm0: ArmJpos, plannerGripper0: real, ops: seq<Op>)
    ensures var r := Run(env, Protocol.Initial(env, ctrl, arm0, gripper0, plannerArm0, plannerGripper0), ops);
            && SafeTrace(r.log)
            && Protocol.Synced(env, r)
            && (ctrl == Sim ==> NoMirror(r.log))
            && Protocol.GetHandPose(env, r).pose == env.forwardKinematics(r.arm, Protocol.GripperState(env, r))
  {
  }
}
