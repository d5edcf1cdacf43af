/** Values exchanged between the RobotArm orchestrator and its two collaborators
    (the controller and the motion planner), and the collaborators themselves,
    whose code is not part of this model: each of their operations is an
    uninterpreted function, supplied as a field of `Collaborators`. */
module Interfaces {

  /** Angles of the five arm joints, in radians. */
  type ArmJpos = seq<real>

  /** A 3d position of the end effector. */
  type Position = seq<real>

  /** An orientation, as the quaternion the rotation library returns; never inspected. */
  type Quaternion = seq<real>

  datatype Pose = Pose(position: Position, orientation: Quaternion)

  /** Diagnostics the IK solver reports beside its joint angles. */
  datatype IkInfo = IkInfo(converged: bool, residual: real)

  datatype IkSolution = IkSolution(jpos: ArmJpos, info: IkInfo)

  /** What `monitor` reports: whether the target was reached in time, and the
      positions it last observed. */
  datatype Monitored<T> = Monitored(success: bool, achieved: T)

  datatype ControllerType = Real | Sim

  /** The Python exceptions the core raises. */
  datatype PyError = TypeError | NameError

  datatype Option<T> = None | Some(value: T)

  datatype Result<T> = Success(value: T) | Failure(error: PyError)

  /** The planner's and the controller's operations, as functions of their
      arguments. Monitoring and motion depend on the physical world; they are
      functions of where the motion starts, what was commanded and for how long. */
  datatype Collaborators = Collaborators(
    // MotionPlanner
    isCollisionFree: (ArmJpos, ArmJpos) -> bool,              // is_collision_free_trajectory(start, end)
    calculateIk: (Position, Option<Quaternion>) -> IkSolution, // calculate_ik(pos, rot)
    handOrientation: (Position, real, real) -> Quaternion,    // yaw from pos composed with (pitch, roll)
    forwardKinematics: (ArmJpos, real) -> Pose,               // get_hand_pose over the planner's configuration
    // Controller
    armJposHome: ArmJpos,                                     // controller.arm_jpos_home
    armWriteDuration: (ArmJpos, ArmJpos) -> real,             // write_arm_jpos: from current, to target
    gripperWriteDuration: (real, real) -> real,               // write_gripper_state: from current jpos, to state
    monitorArm: (ArmJpos, ArmJpos, real) -> Monitored<ArmJpos>, // monitor(arm_joint_ids, target, duration) from a start
    monitorGripper: (real, real, real) -> Monitored<real>,    // monitor(gripper_joint_ids, target, duration) from a start
    gripperStateToJpos: real -> real,                         // _gripper_state_to_jpos
    gripperJposToState: real -> real,                         // _gripper_jpos_to_state
    gripperAfterTimestep: (real, real) -> real                // timestep: gripper jpos reached from a jpos under a commanded state
  )
}
