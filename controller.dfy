/**
 * The receiver node: the global packet, setup() and one loop() cycle.
 * Each cycle either overwrites the packet with the datagram the radio holds
 * or resets it to the safe packet, then drives the motors from it. The radio
 * is a per-cycle input: Some(frame) when a datagram is available, else None.
 */
module Controller {
  import opened Wrappers
  import opened Wire
  import opened Dispatch

  /** The packet loop() acts on for one radio poll. */
  function Gate(input: Option<Frame>): (p: Packet)
    ensures input.None? ==> p == SafePacket
    ensures input.None? ==> !p.enable && !p.moveX && !p.moveY && !p.moveZ
    ensures input.Some? ==> p == Decode(input.value)
  {
    match input
    case Some(frame) => Decode(frame)
    case None => SafePacket
  }

  /** The hardware calls setup() makes that this model keeps: the initial
      setSpeed(minSpeed) on each stepper, then the enable pin write. */
  const MinSpeed: Int16 := 0
  const SetupCalls: seq<Call> :=
    [SetSpeed(X, MinSpeed), SetSpeed(Y, MinSpeed), SetSpeed(Z, MinSpeed), WriteEnable(!SafePacket.enable)]

  /** The calls of one cycle in which nothing was received. */
  const SafeCycle: seq<Call> := [WriteEnable(true), StopMotor(X), StopMotor(Y), StopMotor(Z)]

  /** The calls made by a run of cycles, one radio poll result per cycle. */
  function Trace(inputs: seq<Option<Frame>>): (calls: seq<Call>)
    ensures 4 * |inputs| <= |calls| <= 7 * |inputs|
  {
    if inputs == [] then []
    else Trace(inputs[..|inputs| - 1]) + DriveCalls(Gate(inputs[|inputs| - 1]))
  }

  /** n copies of one cycle's calls. */
  function Repeat(cycle: seq<Call>, n: nat): (calls: seq<Call>)
    ensures |calls| == n * |cycle|
  {
    if n == 0 then [] else Repeat(cycle, n - 1) + cycle
  }

  class Receiver {
    /** The global Packet pkt. */
    var pkt: Packet
    /** The level last written to the driver-enable pin (true = HIGH = drivers off). */
    var enableLine: bool
    /** The action each stepper received in the latest cycle (None before the first cycle). */
    var actionX: Option<AxisAction>
    var actionY: Option<AxisAction>
    var actionZ: Option<AxisAction>
    /** Every hardware call made so far, in order. */
    var log: seq<Call>
    /** The radio poll results of the cycles run so far. */
    ghost var inputs: seq<Option<Frame>>

    /**
     * The whole state is explained by setup() followed by the cycles run so
     * far, and the enable pin always holds the inverse of pkt.enable.
     */
    ghost predicate Valid()
      reads this
    {
      && log == SetupCalls + Trace(inputs)
      && pkt == (if inputs == [] then SafePacket else Gate(inputs[|inputs| - 1]))
      && enableLine == !pkt.enable
      && (inputs == [] ==> actionX == actionY == actionZ == None)
      && (inputs != [] ==>
            && actionX == Some(AxisCommand(pkt.moveX, pkt.speedX))
            && actionY == Some(AxisCommand(pkt.moveY, pkt.speedY))
            && actionZ == Some(AxisCommand(pkt.moveZ, pkt.speedZ)))
    }

    /** The static initialiser of pkt followed by setup(): drivers start disabled. */
    constructor Setup()
      ensures Valid() && inputs == []
      ensures pkt == SafePacket
      ensures enableLine
      ensures actionX == actionY == actionZ == None
      ensures log == SetupCalls
    {
      var initial := Packet(false, 0, false, 0, false, 0, false);
      pkt := initial;
      actionX, actionY, actionZ := None, None, None;
      inputs := [];
      var calls := [SetSpeed(X, MinSpeed), SetSpeed(Y, MinSpeed), SetSpeed(Z, MinSpeed)];
      enableLine := !initial.enable;
      log := calls + [WriteEnable(!initial.enable)];
    }

    /** Issues one axis's action: setSpeed then run when moving, else stop. */
    method DriveAxis(a: Axis, move: bool, speed: Int16) returns (act: AxisAction)
      modifies this`log
      ensures act == AxisCommand(move, speed)
      ensures log == old(log) + AxisCalls(a, act)
    {
      if move {
        log := log + [SetSpeed(a, speed)];
        log := log + [RunMotor(a)];
        act := Run(speed);
      } else {
        log := log + [StopMotor(a)];
        act := Stop;
      }
    }

    /** drivemotors(p): the enable pin first, then X, Y and Z. */
    method DriveMotors(p: Packet)
      modifies this`log, this`enableLine, this`actionX, this`actionY, this`actionZ
      ensures enableLine == !p.enable
      ensures actionX == Some(AxisCommand(p.moveX, p.speedX))
      ensures actionY == Some(AxisCommand(p.moveY, p.speedY))
      ensures actionZ == Some(AxisCommand(p.moveZ, p.speedZ))
      ensures log == old(log) + DriveCalls(p)
    {
      enableLine := !p.enable;
      log := log + [WriteEnable(enableLine)];
      var ax := DriveAxis(X, p.moveX, p.speedX);
      var ay := DriveAxis(Y, p.moveY, p.speedY);
      var az := DriveAxis(Z, p.moveZ, p.speedZ);
      actionX, actionY, actionZ := Some(ax), Some(ay), Some(az);
      assert log == old(log) + ([WriteEnable(!p.enable)] + AxisCalls(X, ax) + AxisCalls(Y, ay) + AxisCalls(Z, az));
    }

    /**
     * loop(): take the datagram if one is available, otherwise reset pkt to
     * the safe packet; then drive the motors from pkt. The new pkt depends on
     * this cycle's input only, never on its previous value.
     */
    method Step(input: Option<Frame>)
      requires Valid()
      modifies this
      ensures Valid() && inputs == old(inputs) + [input]
      ensures pkt == Gate(input)
      ensures input.None? ==> pkt == SafePacket
      ensures enableLine == !pkt.enable
      ensures actionX == Some(AxisCommand(pkt.moveX, pkt.speedX))
      ensures actionY == Some(AxisCommand(pkt.moveY, pkt.speedY))
      ensures actionZ == Some(AxisCommand(pkt.moveZ, pkt.speedZ))
      ensures log == old(log) + DriveCalls(pkt)
    {
      if input.Some? {
        pkt := Decode(input.value);
      } else {
        pkt := Packet(false, 0, false, 0, false, 0, false);
      }
      DriveMotors(pkt);
      Record(input);
    }

    /** Ghost bookkeeping: appends this cycle's input to the history. */
    ghost method Record(input: Option<Frame>)
      requires log == SetupCalls + Trace(inputs) + DriveCalls(Gate(input))
      requires pkt == Gate(input) && enableLine == !pkt.enable
      requires actionX == Some(AxisCommand(pkt.moveX, pkt.speedX))
      requires actionY == Some(AxisCommand(pkt.moveY, pkt.speedY))
      requires actionZ == Some(AxisCommand(pkt.moveZ, pkt.speedZ))
      modifies this`inputs
      ensures Valid() && inputs == old(inputs) + [input]
    {
      var next := inputs + [input];
      TraceExtends(inputs, input);
      assert SetupCalls + Trace(next) == SetupCalls + Trace(inputs) + DriveCalls(Gate(input));
      assert next[|next| - 1] == input;
      inputs := next;
    }
  }

  /** The calls of a new cycle are appended to those of the cycles before it. */
  lemma {:induction false} TraceExtends(history: seq<Option<Frame>>, input: Option<Frame>)
    ensures Trace(history + [input]) == Trace(history) + DriveCalls(Gate(input))
  {
    assert (history + [input])[..|history|] == history;
  }

  /**
   * Over any run of cycles with no datagram, every cycle writes the enable pin
   * HIGH (drivers off) and stops all three steppers, whatever history, live
   * cycles included, came before the run.
   */
  lemma {:induction false} MissesStaySafe(history: seq<Option<Frame>>, misses: seq<Option<Frame>>)
    requires forall i :: 0 <= i < |misses| ==> misses[i].None?
    ensures Trace(history + misses) == Trace(history) + Repeat(SafeCycle, |misses|)
  {
    if misses == [] {
      assert history + misses == history;
    } else {
      var m := misses[..|misses| - 1];
      assert misses == m + [None];
      assert history + misses == (history + m) + [None];
      calc {
        Trace(history + misses);
        { TraceExtends(history + m, None); }
        Trace(history + m) + DriveCalls(Gate(None));
        { MissesStaySafe(history, m); assert DriveCalls(Gate(None)) == SafeCycle; }
        Trace(history) + Repeat(SafeCycle, |m|) + SafeCycle;
        Trace(history) + (Repeat(SafeCycle, |m|) + SafeCycle);
      }
    }
  }

  /**
   * A miss right after a cycle that energised the drivers de-energises them
   * and stops every axis in that very cycle, whatever the earlier history.
   */
  lemma {:induction false} MissAfterEnable(history: seq<Option<Frame>>, frame: Frame)
    requires Decode(frame).enable
    ensures Trace(history + [Some(frame), None]) == Trace(history) + DriveCalls(Decode(frame)) + SafeCycle
    ensures DriveCalls(Decode(frame))[0] == WriteEnable(false)
  {
    var first := history + [Some(frame)];
    TraceExtends(history, Some(frame));
    TraceExtends(first, None);
    assert first + [None] == history + [Some(frame), None];
    assert DriveCalls(Gate(None)) == SafeCycle;
  }
}
