/**
 * drivemotors(): the calls one cycle makes on the hardware for a packet.
 * The hardware is seen only through the calls it receives, in order: the
 * write of the shared driver-enable pin and, per stepper, setSpeed, run and
 * stop. What the stepper library does with those calls is not modelled.
 */
module Dispatch {
  import opened Wrappers
  import opened Wire

  datatype Axis = X | Y | Z

  /** What one axis is told to do in a cycle. */
  datatype AxisAction = Run(speed: Int16) | Stop

  /** One side-effecting call on the hardware. */
  datatype Call =
    | WriteEnable(high: bool)             // digitalWrite(pinEnable, high)
    | SetSpeed(axis: Axis, speed: Int16)  // motor.setSpeed(speed)
    | RunMotor(axis: Axis)                // motor.run()
    | StopMotor(axis: Axis)               // motor.stop()

  /** The move flag of axis a in packet p. */
  function MoveOf(p: Packet, a: Axis): bool {
    match a
    case X => p.moveX
    case Y => p.moveY
    case Z => p.moveZ
  }

  /** The speed field of axis a in packet p. */
  function SpeedOf(p: Packet, a: Axis): Int16 {
    match a
    case X => p.speedX
    case Y => p.speedY
    case Z => p.speedZ
  }

  /** The action one axis takes: run at the packet's speed when its move flag is set, else stop. */
  function AxisCommand(move: bool, speed: Int16): (act: AxisAction)
    ensures act.Run? <==> move
    ensures act.Run? ==> act.speed == speed
  {
    if move then Run(speed) else Stop
  }

  /** The library calls that carry out an action on axis a. */
  function AxisCalls(a: Axis, act: AxisAction): (calls: seq<Call>)
    ensures ActionOf(calls, a) == Some(act)
  {
    match act
    case Run(s) => [SetSpeed(a, s), RunMotor(a)]
    case Stop => [StopMotor(a)]
  }

  /** Reads back the action that a sequence of calls on one axis carries out, if it is one. */
  function ActionOf(calls: seq<Call>, a: Axis): Option<AxisAction> {
    if calls == [StopMotor(a)] then Some(Stop)
    else if |calls| == 2 && calls[0].SetSpeed? && calls[0].axis == a && calls[1] == RunMotor(a)
    then Some(Run(calls[0].speed))
    else None
  }

  /** All calls one drivemotors() makes, in order: the enable pin, then X, Y and Z. */
  function DriveCalls(p: Packet): (calls: seq<Call>)
    ensures 4 <= |calls| <= 7
  {
    [WriteEnable(!p.enable)]
      + AxisCalls(X, AxisCommand(p.moveX, p.speedX))
      + AxisCalls(Y, AxisCommand(p.moveY, p.speedY))
      + AxisCalls(Z, AxisCommand(p.moveZ, p.speedZ))
  }

  /** True when call c is addressed to the stepper of axis a. */
  predicate OnAxis(c: Call, a: Axis) {
    !c.WriteEnable? && c.axis == a
  }

  /** The calls of a log addressed to axis a, in their original order. */
  function CallsOn(calls: seq<Call>, a: Axis): (r: seq<Call>)
    ensures |r| <= |calls|
    ensures forall i :: 0 <= i < |r| ==> OnAxis(r[i], a)
  {
    if calls == [] then []
    else (if OnAxis(calls[0], a) then [calls[0]] else []) + CallsOn(calls[1..], a)
  }

  /** The filter is complete: a call is kept exactly when it is in the log and addressed to axis a. */
  lemma {:induction false} CallsOnKeepsAll(calls: seq<Call>, a: Axis)
    ensures forall c :: c in CallsOn(calls, a) <==> c in calls && OnAxis(c, a)
  {
    if calls != [] {
      CallsOnKeepsAll(calls[1..], a);
      assert calls == [calls[0]] + calls[1..];
    }
  }

  lemma {:induction false} CallsOnConcat(s: seq<Call>, t: seq<Call>, a: Axis)
    ensures CallsOn(s + t, a) == CallsOn(s, a) + CallsOn(t, a)
  {
    if s == [] {
      assert s + t == t;
    } else {
      assert (s + t)[1..] == s[1..] + t;
      CallsOnConcat(s[1..], t, a);
    }
  }

  lemma {:induction false} AxisCallsOn(b: Axis, act: AxisAction, a: Axis)
    ensures CallsOn(AxisCalls(b, act), a) == if a == b then AxisCalls(b, act) else []
  {
    var calls := AxisCalls(b, act);
    if act.Run? {
      assert calls[1..][1..] == [];
      assert CallsOn(calls[1..][1..], a) == [];
    } else {
      assert calls[1..] == [];
    }
  }

  /** A cycle's log seen from one stepper: the enable write drops out, the three axis blocks stay. */
  lemma {:induction false} CallsOnCycle(high: bool, cx: seq<Call>, cy: seq<Call>, cz: seq<Call>, a: Axis)
    ensures CallsOn([WriteEnable(high)] + cx + cy + cz, a) == CallsOn(cx, a) + CallsOn(cy, a) + CallsOn(cz, a)
  {
    var e := [WriteEnable(high)];
    assert CallsOn(e, a) == [] by {
      assert e[1..] == [];
    }
    CallsOnConcat(e, cx, a);
    CallsOnConcat(e + cx, cy, a);
    CallsOnConcat(e + cx + cy, cz, a);
  }

  /** The calls of one cycle addressed to axis a are the block of a's own action. */
  lemma {:induction false} CallsOnBlocks(high: bool, ax: AxisAction, ay: AxisAction, az: AxisAction, a: Axis)
    ensures CallsOn([WriteEnable(high)] + AxisCalls(X, ax) + AxisCalls(Y, ay) + AxisCalls(Z, az), a)
         == AxisCalls(a, match a case X => ax case Y => ay case Z => az)
  {
    CallsOnCycle(high, AxisCalls(X, ax), AxisCalls(Y, ay), AxisCalls(Z, az), a);
    AxisCallsOn(X, ax, a);
    AxisCallsOn(Y, ay, a);
    AxisCallsOn(Z, az, a);
    match a
    case X => assert AxisCalls(X, ax) + [] + [] == AxisCalls(X, ax);
    case Y => assert [] + AxisCalls(Y, ay) + [] == AxisCalls(Y, ay);
    case Z => assert [] + [] + AxisCalls(Z, az) == AxisCalls(Z, az);
  }

  /**
   * The calls that reach the stepper of axis a in one cycle are exactly those
   * of one action, selected by that axis's own move flag and speed:
   * setSpeed(speed) then run() when the flag is set, otherwise stop().
   */
  lemma {:induction false} DriveCallsOnAxis(p: Packet, a: Axis)
    ensures CallsOn(DriveCalls(p), a) == AxisCalls(a, AxisCommand(MoveOf(p, a), SpeedOf(p, a)))
    ensures ActionOf(CallsOn(DriveCalls(p), a), a) == Some(AxisCommand(MoveOf(p, a), SpeedOf(p, a)))
  {
    CallsOnBlocks(!p.enable, AxisCommand(p.moveX, p.speedX), AxisCommand(p.moveY, p.speedY),
      AxisCommand(p.moveZ, p.speedZ), a);
  }

  /**
   * Per-axis independence: two packets that agree on one axis's move flag and
   * speed make the same calls on that axis, whatever their other fields hold.
   */
  lemma {:induction false} AxisIndependence(p: Packet, q: Packet, a: Axis)
    requires MoveOf(p, a) == MoveOf(q, a) && SpeedOf(p, a) == SpeedOf(q, a)
    ensures CallsOn(DriveCalls(p), a) == CallsOn(DriveCalls(q), a)
  {
    DriveCallsOnAxis(p, a);
    DriveCallsOnAxis(q, a);
  }

  /**
   * The enable pin is written exactly once per cycle, first, at the inverse
   * of the packet's enable flag (the driver enable input is active-low).
   */
  lemma EnableWrittenFirst(p: Packet)
    ensures DriveCalls(p)[0] == WriteEnable(!p.enable)
    ensures forall i :: 0 < i < |DriveCalls(p)| ==> OnAxis(DriveCalls(p)[i], DriveCalls(p)[i].axis)
  {
  }

  /**
   * The speed handed to setSpeed is the packet's int16 for that axis, with no
   * clamping or sign change, and every setSpeed is followed at once by run()
   * on the same stepper.
   */
  lemma {:induction false} SpeedPassedUnchanged(p: Packet, i: nat)
    requires i < |DriveCalls(p)| && DriveCalls(p)[i].SetSpeed?
    ensures DriveCalls(p)[i].speed == SpeedOf(p, DriveCalls(p)[i].axis)
    ensures MoveOf(p, DriveCalls(p)[i].axis)
    ensures i + 1 < |DriveCalls(p)| && DriveCalls(p)[i + 1] == RunMotor(DriveCalls(p)[i].axis)
  {
  }
}
