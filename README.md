# RobotArm motion orchestrator — a Dafny model

This project models `RobotArm`, the orchestrator of the xArm robot interface
(`nuro_arm/robot/robot_arm.py`). `RobotArm` owns a controller, which is either
the real xArm or the PyBullet simulator, and a motion planner: a kinematic
"digital twin" of the arm. Every arm motion runs through a fixed safety
protocol:

1. read the current joints;
2. ask the planner whether the trajectory from there to the target is
   collision-free, and issue no hardware command if it is not;
3. write the target and monitor it;
4. if monitoring fails, re-command the *achieved* position, so that no motor
   stays loaded against a target it cannot reach;
5. mirror the controller's state into the planner, on the real robot only.

The gripper follows the same pattern over a normalised state in [0,1]. The
target is clipped into that range. On failure, a signed backoff is added to
the achieved state before the corrective write, and a timestep follows. The
call returns the gripper state read back from the controller.

The planner and the controller are collaborators whose code is not part of
this model. Each of their operations is an uninterpreted function: a field of
`Interfaces.Collaborators`. These are the collision check, IK, forward
kinematics, the hand orientation built from a position and (pitch, roll), the
durations returned by writes, `monitor`, the gripper state/jpos conversions,
the effect of a timestep and the home position.

Layout:

- `interfaces.dfy` (module `Interfaces`): the collaborators and the values
  exchanged with them.
- `trace.dfy` (module `Trace`): the log of calls made on the collaborators. It
  defines its hardware commands (`HardwareCommands`) and the per-position safety
  predicate `SafeTrace`: every arm write is justified by a passed collision
  check for its target, or is the corrective write of a failed monitor's
  observation; every monitor watches a gated write; every failed monitor is
  followed by its corrective write; and so on.
- `protocol.dfy` (module `Protocol`): each public operation as a function on a
  `Snapshot`, which holds the controller's joints, the planner's robot and the
  log. With the xArm the planner has a simulator of its own
  (`OwnSimulator`), holding what was last mirrored into it; with the
  simulated controller both are handed the same `PybulletSimulator` (lines
  40-45), so the planner sees the controller's configuration
  (`SharesSimulator`). The lemmas here state which commands get issued, in
  what order and with what arguments, and that every operation keeps
  `Invariant`. `Invariant` means: the log is safe; the planner's
  configuration equals the controller's (by mirroring on the real robot,
  through the shared simulator on the simulator); the simulator is never
  mirrored.
- `session.dfy` (module `Session`): any sequence of operations after
  construction keeps the invariant.
- `robot_arm.dfy` (module `Robot`): the class `RobotArm`. It has the
  controller's and the planner's state as fields, plus the log. Its methods run
  the source's steps in order through small methods that stand for the calls on
  the collaborators. Each public method is specified by the matching
  `Protocol` function and keeps `Valid()`.

## Model

| member | source | states |
|---|---|---|
| `Protocol.ParseControllerType` | nuro_arm/robot/robot_arm.py:42-48 | `'real'` selects the xArm controller and `'sim'` the simulator; any other name is a TypeError |
| `Robot.RobotArm.Create` | nuro_arm/robot/robot_arm.py:15-50 | construction fails with TypeError exactly when the type is neither `'real'` nor `'sim'`, and then no RobotArm exists; otherwise the new arm is in the initial state for that controller and satisfies the invariant |
| `Robot.RobotArm.constructor` | nuro_arm/robot/robot_arm.py:40-50 | the controller starts at the positions it reports; the planner is mirrored at the end of construction |
| `Protocol.Initial` | nuro_arm/robot/robot_arm.py:40-50 | construction issues no hardware command. On the real robot its only call is one mirror, after which the planner is synchronised with the controller. On the simulator it makes no call, and the planner shares the controller's simulator. Either way the planner's configuration is the controller's, and the invariant holds |
| `Protocol.MirrorPlanner` | nuro_arm/robot/robot_arm.py:226-229 | on `'real'` the planner takes the controller's arm jpos and gripper state and one mirror call is logged; on `'sim'` nothing changes; the controller is never touched |
| `Robot.RobotArm.MirrorPlanner` | nuro_arm/robot/robot_arm.py:226-229 | the in-place `_mirror_planner` reads the arm and the gripper and has exactly the effect of `Protocol.MirrorPlanner` |
| `Protocol.MoveArm` | nuro_arm/robot/robot_arm.py:93-108 | the collision check comes first, from the arm position just read, to the requested jpos. If it fails, the result is false and nothing but the check is logged. Otherwise the write of `jpos` comes next, then the monitor of `jpos` with the duration that write returned. The result is the monitor's success flag, and the arm ends at the achieved position. On the real robot the call ends with a mirror and the planner synchronised |
| `Protocol.MoveArmCommands` | nuro_arm/robot/robot_arm.py:94-105 | hardware commands of one move: none if the gate fails; otherwise exactly `write_arm_jpos(jpos)`, followed, only when monitoring fails, by exactly one `write_arm_jpos(achieved)` whose argument is the monitor's achieved position |
| `Protocol.MoveArmKeepsInvariant` | nuro_arm/robot/robot_arm.py:93-108 | a move keeps the log safe and leaves the planner seeing the controller's configuration, on both the gated and the gated-through path |
| `Protocol.MoveArmAsWritten` | nuro_arm/robot/robot_arm.py:94-98 | as written: with `verbose` set, a failed gate raises NameError instead of returning False; it makes the same calls as `MoveArm` |
| `Protocol.VerboseGateFailureRaises` | nuro_arm/robot/robot_arm.py:94-98 | when the gate fails, the as-written call with `verbose=True` raises; the corrected `MoveArm` returns false; neither issues a hardware command |
| `Robot.RobotArm.MoveArmJpos` | nuro_arm/robot/robot_arm.py:77-108 | the in-place `move_arm_jpos` has exactly the new state and result of `Protocol.MoveArm`, and keeps the invariant |
| `Robot.RobotArm.Home` | nuro_arm/robot/robot_arm.py:52-55 | `home` is `move_arm_jpos(controller.arm_jpos_home)`; it returns nothing |
| `Protocol.PowerServos` | nuro_arm/robot/robot_arm.py:57-64 | powering the servos off or on logs exactly one power command and changes neither the joints nor the planner |
| `Protocol.PowerServosKeepsInvariant` | nuro_arm/robot/robot_arm.py:57-64 | `passive_mode` and `active_mode` keep the invariant |
| `Robot.RobotArm.PassiveMode` | nuro_arm/robot/robot_arm.py:60-61 | `passive_mode` issues `power_off_servos` and nothing else |
| `Robot.RobotArm.ActiveMode` | nuro_arm/robot/robot_arm.py:63-64 | `active_mode` issues `power_on_servos` and nothing else |
| `Robot.RobotArm.GetArmJpos` | nuro_arm/robot/robot_arm.py:66-75 | returns the controller's arm joint positions and changes nothing |
| `Protocol.GetHandPose` | nuro_arm/robot/robot_arm.py:110-112 | mirrors first. The pose is the forward kinematics of the controller's current arm jpos and gripper state, never of a stale configuration: on the real robot because of the mirror, on the simulator because the planner shares the controller's simulator |
| `Robot.RobotArm.GetHandPose` | nuro_arm/robot/robot_arm.py:110-112 | the in-place `get_hand_pose` has the effect and the result of `Protocol.GetHandPose`, so it returns the pose of the controller's current configuration on either controller, and keeps the invariant |
| `Protocol.MirrorKeepsInvariant` | nuro_arm/robot/robot_arm.py:226-229 | mirroring keeps the invariant |
| `Protocol.MoveHandTo` | nuro_arm/robot/robot_arm.py:147-157 | the outcome, with or without `pitch_roll`, is exactly `move_arm_jpos` of the IK's joints for the orientation built from `pitch_roll` (None without it), so they go through the same collision gate |
| `Protocol.IkDiagnosticsIgnored` | nuro_arm/robot/robot_arm.py:155-157 | `ik_info` is never inspected: any solver that returns the same joint angles gives the same outcome |
| `Robot.RobotArm.MoveHandTo` | nuro_arm/robot/robot_arm.py:114-157 | the in-place `move_hand_to` has the effect and the result of `Protocol.MoveHandTo` and keeps the invariant |
| `Protocol.Clip` | nuro_arm/robot/robot_arm.py:197 | `np.clip(state, 0, 1)`: the point of [0,1] nearest to the requested state |
| `Protocol.SetGripper` | nuro_arm/robot/robot_arm.py:197-213 | the first call writes the clipped state; the second monitors the gripper joint against that state converted to a jpos, with the duration the write returned; the result is the state read back from the controller, not the monitor's flag; on the real robot the call ends with a mirror and the planner synchronised; the arm is untouched |
| `Protocol.SetGripperCommands` | nuro_arm/robot/robot_arm.py:197-209 | hardware commands of one gripper move: the write of the clipped state, followed, only when monitoring fails, by exactly one `write_gripper_state(to_state(achieved_jpos) + backoff)` and one `timestep()` |
| `Protocol.SetGripperKeepsInvariant` | nuro_arm/robot/robot_arm.py:179-213 | a gripper move keeps the log safe and the planner seeing the controller's configuration |
| `Robot.RobotArm.SetGripperState` | nuro_arm/robot/robot_arm.py:179-213 | the in-place `set_gripper_state` has exactly the new state and result of `Protocol.SetGripper`, and keeps the invariant |
| `Robot.RobotArm.OpenGripper` | nuro_arm/robot/robot_arm.py:159-167 | `open_gripper` is `set_gripper_state(GRIPPER_OPENED)` with the default backoff -0.05 |
| `Robot.RobotArm.CloseGripper` | nuro_arm/robot/robot_arm.py:169-177 | `close_gripper` is `set_gripper_state(GRIPPER_CLOSED, backoff=-0.05)` |
| `Robot.RobotArm.GetGripperState` | nuro_arm/robot/robot_arm.py:215-224 | returns the controller's gripper position converted to a state, and changes nothing |
| `Session.Step` | nuro_arm/robot/robot_arm.py:52-229 | every public operation keeps the invariant and only appends to the log |
| `Session.Run` | nuro_arm/robot/robot_arm.py:14-229 | any sequence of operations keeps the invariant and only appends to the log |
| `Session.SessionIsSafe` | nuro_arm/robot/robot_arm.py:14-229 | after construction and any sequence of operations, the log is safe: no arm write without a passed collision check, unless it re-commands what a failed monitor of a gated write observed. On both controllers the planner's configuration equals the controller's, so `get_hand_pose` gives the hand's current pose; the simulator is never mirrored |
| `Trace.EveryArmWriteGated` | nuro_arm/robot/robot_arm.py:93-105 | in a safe log every arm write is preceded either by a passed collision check for its target, or by a failed monitor that observed the written position, where that monitor watched a write gated by a passed check |

## Left out

- The controller and planner internals (`XArmController`, `SimulatorController`, `PybulletSimulator`, `MotionPlanner`): collision checking, IK, forward kinematics, monitor polling and timing. Each is an uninterpreted function of its arguments in `Interfaces.Collaborators`. Monitoring and the gripper's timestep depend on the physical world; they are functions of the starting position, the command and the duration.
- The orientation arithmetic of `move_hand_to` (lines 150-153, `arctan2` and scipy `Rotation`): it is an opaque function of the position, pitch and roll. `**ik_kwargs` is not modelled.
- Floating point: angles and gripper states are Dafny reals. NaN and rounding are not modelled.
- The printed messages of `verbose`, and the `matplotlib`/`tkinter` imports. `joint_names` (line 38) is an unused constant.
- I/O at construction: failure to connect to the hardware is not modelled. The positions the controller and the planner start at are constructor parameters.
- Motion that no call causes, such as moving the arm by hand while the servos are off, is not modelled. So on the real robot the planner mirrors the controller after every call; on hardware, `get_hand_pose` mirrors first for exactly that reason.
- `neu_ro_arm/constants.py` is not part of this model. `GRIPPER_OPENED = 1.0` and `GRIPPER_CLOSED = 0.0` follow `get_gripper_state`'s description (lines 219-222: 1 is open, 0 closed).
- On the simulator, the planner and the simulator controller are handed the same `PybulletSimulator` (lines 40-45). The model represents this sharing by the planner reading the controller's configuration (`SharesSimulator`). Any state of the shared simulator other than the robot's joints is not modelled, nor is any effect the planner's queries might have on it.
- A bad controller type: the code builds the simulator and the planner (lines 40-41) before it checks the type (42-47), then raises TypeError. `Create` returns TypeError and no RobotArm. The discarded simulator and planner objects are not modelled.
- `move_hand_to`'s docstring says it raises `UnsafeJointPosition` or `UnsafeTrajectoryError` (lines 131-138). The code raises neither: it returns False, or raises NameError with `verbose` set (see Findings). The model follows the code.
- `Create` has no `headless`, `realtime` or `workspace` argument, and `controller_type` has no default `'real'` (lines 15-20). These arguments only configure the simulator and the planner's workspace, which are collaborators here. The starting positions are arguments instead.
- The docstrings of `open_gripper`, `close_gripper` and `set_gripper_state` promise a bool; the code returns the gripper state read back. `move_hand_to`'s docstring promises the IK information too; the code returns only the boolean. The model follows the code.
- The corrective gripper state `achieved_state + backoff` is not clipped by `RobotArm` and may fall outside [0,1]. The model writes it as it is; what the controller does with it belongs to the controller.
- `passive_mode` is defined twice, identically (lines 57-61); the model has one.

## Findings

| source | as written | input that shows it | evidently intended | confidence | as-written member | corrected member |
|---|---|---|---|---|---|---|
| nuro_arm/robot/robot_arm.py:94-98 | the failed-gate message formats `e.robot_link` and `e.other_body`, but no `e` exists in `move_arm_jpos`, so NameError is raised | any target the planner reports as colliding, with `verbose=True`: the default, which `home` and `move_hand_to` always use | report the failure and return False, as the docstring says; no hardware command is issued in either case | high, from reading the code; not executed | `Protocol.MoveArmAsWritten` (`Protocol.VerboseGateFailureRaises`) | `Protocol.MoveArm` |
