# RX-3-STEP-NANO-24L01 receiver: a Dafny model of the fail-safe control loop

The firmware runs on the receiving node of a two-node radio teleoperation
link. Every cycle, `loop()` polls an nRF24L01 radio. If a datagram is
available, the raw bytes overwrite the global `Packet pkt`. If not, `pkt` is
reset to the stopped, de-energised packet. `drivemotors(pkt)` then writes the
shared active-low driver-enable pin as `!pkt.enable`. After that it gives each
of the three AccelStepper motors (X, Y, Z) one action: `setSpeed(speed)`
followed by `run()` when that axis's move flag is set, otherwise `stop()`.

The model has four modules:

- `Wrappers` (wrappers.dfy): the `Option` type. A radio poll is an
  `Option<Frame>`.
- `Wire` (wire.dfy): the packed `Packet` layout. It has `Decode` (the byte
  reinterpretation that `radio.read(&pkt, sizeof(pkt))` performs), its inverse
  `Encode`, and the round trips between them. The model makes two
  assumptions about the target. First, an `int16_t` is little-endian two's
  complement, as on the AVR. Second, a bool byte reads false when it is 0 and
  true otherwise.
- `Dispatch` (dispatch.dfy): `drivemotors()` is modelled as the ordered
  sequence of hardware calls it makes: `WriteEnable`, `SetSpeed`, `RunMotor`
  and `StopMotor`. The lemmas state the enable-first ordering, exactly one
  action per axis, per-axis independence and the unchanged speed.
- `Controller` (controller.dfy): the class `Receiver` holds `pkt`, the enable
  pin level, the latest action of each axis and the log of all hardware calls.
  Its constructor `Setup` models the static initialiser of `pkt` and
  `setup()`. `Step` models one `loop()` cycle. `Receiver.Valid()` is the class
  invariant. It says that the log is always the setup calls followed by
  `Trace` of the cycles run so far, and that the enable pin always holds
  `!pkt.enable`. `Trace` gives the calls of a whole run of cycles. The lemmas
  about it state the fail-safe behaviour over runs of missed datagrams.

`sizeof(Packet)` is 10 bytes: 4 × 1 + 3 × 2, packed. `PacketSize` is 10, and
the field offsets are 0, 1-2, 3, 4-5, 6, 7-8 and 9.

`Wire.DecodeBool` (a bool byte reads true iff it is nonzero) is a helper of
`Wire.Decode`, whose contract states that rule for all four flags.

## Model

| member | source | states |
|---|---|---|
| `Wire.Decode` | src/main.cpp:55-63 | each field is read from its own byte offsets in the packed layout: a flag is true iff its byte is nonzero, and a speed's two's-complement bit pattern equals its two bytes read little-endian |
| `Wire.EncodeBool` | src/main.cpp:56 | a bool is written as the byte 0 or 1 and reads back as the same bool |
| `Wire.DecodeInt16` | src/main.cpp:57 | the decoded int16's bit pattern is the little-endian value of its two bytes |
| `Wire.EncodeInt16` | src/main.cpp:57 | an int16 is written as two bytes whose little-endian value is its two's-complement bit pattern |
| `Wire.Int16RoundTrip` | src/main.cpp:57 | decoding the bytes of an encoded int16 gives back the same int16 |
| `Wire.Int16BytesRoundTrip` | src/main.cpp:57 | encoding a decoded int16 gives back the same two bytes, for all byte pairs |
| `Wire.Encode` | src/main.cpp:55-63 | the byte image of a packet is 10 bytes, and its four bool bytes are each 0 or 1 |
| `Wire.DecodeEncode` | src/main.cpp:55-63 | decoding the encoded image of any packet gives back that packet |
| `Wire.EncodeDecode` | src/main.cpp:55-63 | encoding a decoded datagram reproduces the datagram exactly, when its bool bytes are 0 or 1 |
| `Wire.DecodeExample` | src/main.cpp:151 | a concrete 10-byte datagram, with a negative speed and a bool byte of 2, decodes to the expected packet |
| `Dispatch.AxisCommand` | src/main.cpp:123-128 | an axis runs iff its move flag is set, and then at exactly the packet's speed; otherwise it stops |
| `Dispatch.AxisCalls` | src/main.cpp:123-128 | the calls issued for one axis's action (setSpeed(speed) then run(), or stop()) read back as exactly that action |
| `Dispatch.DriveCalls` | src/main.cpp:117-144 | one drivemotors() makes between 4 and 7 hardware calls |
| `Dispatch.CallsOn` | src/main.cpp:117-144 | the calls picked out for one stepper are no more than the log holds, and each is addressed to that stepper |
| `Dispatch.CallsOnKeepsAll` | src/main.cpp:117-144 | the per-stepper view is complete: a call is in it exactly when it is in the log and addressed to that stepper |
| `Dispatch.CallsOnConcat` | src/main.cpp:117-144 | the per-stepper view of two logs run one after the other is the view of the first followed by the view of the second, so order is kept |
| `Dispatch.DriveCallsOnAxis` | src/main.cpp:123-142 | in every cycle, the calls reaching each stepper are exactly one action: setSpeed(speed) then run() if its move flag is set, else stop(); no axis is skipped |
| `Dispatch.AxisIndependence` | src/main.cpp:123-142 | two packets that agree on one axis's move flag and speed make identical calls on that axis, whatever the other axes and the enable flag hold |
| `Dispatch.EnableWrittenFirst` | src/main.cpp:117-142 | the enable pin is written first in the cycle, at the inverse of pkt.enable, and every later call in the cycle is addressed to a stepper |
| `Dispatch.SpeedPassedUnchanged` | src/main.cpp:123-142 | every setSpeed in a cycle carries the packet's own int16 for that axis, with no clamping or sign change; its move flag is set; and run() on the same stepper follows it at once |
| `Controller.Gate` | src/main.cpp:147-165 | when no datagram is available, the packet acted on is exactly the safe packet {false,0,false,0,false,0,false} (no axis moves, drivers off); when one is available, it is that datagram decoded |
| `Controller.Trace` | src/main.cpp:145-171 | n cycles make between 4n and 7n hardware calls |
| `Controller.Receiver.Setup` | src/main.cpp:79-100 | the initial pkt is the safe packet, and setup() leaves the enable pin HIGH (drivers disabled), with no axis action issued yet |
| `Controller.Receiver.DriveAxis` | src/main.cpp:123-128 | one axis's action is issued as setSpeed then run when moving, else stop, appended to the call log |
| `Controller.Receiver.DriveMotors` | src/main.cpp:117-144 | the enable pin becomes !p.enable, each axis gets the action its own fields select, and the log grows by exactly that cycle's calls in order |
| `Controller.Receiver.Step` | src/main.cpp:145-171 | the new pkt is the decoded datagram, or the safe packet on a miss, and never depends on its previous value (the postconditions do not mention the old pkt), so a cycle's calls depend only on that cycle's radio input; the enable pin, the three actions and the log follow from the new pkt; the class invariant is kept |
| `Controller.MissesStaySafe` | src/main.cpp:152-165 | after any history, live cycles included, each cycle of a following run of misses writes the enable pin HIGH and stops all three steppers |
| `Controller.MissAfterEnable` | src/main.cpp:120-163 | after any history, a miss right after a cycle with enable=true writes the enable pin HIGH (drivers off) and stops every axis in that same cycle, with the energising cycle having written it LOW |

## Left out

- Radio setup (`begin`, `setPALevel`, `openReadingPipe` on address "00001", `startListening`) is left out. These are foreign library calls. The radio appears only as one optional 10-byte datagram per cycle. How the radio consumes a datagram from its receive buffer is not modelled.
- AccelStepper internals are left out: step-pulse generation in `run()`, ramping in `stop()`, clamping to `setMaxSpeed(1000)`, and the `float` acceleration of 20.0. Only which call each stepper receives is modelled. For the same reason, `setup()`'s `setMaxSpeed` and `setAcceleration` calls are not in the call log. Its `setSpeed(minSpeed)` calls and its enable-pin write are.
- `delay(18)` and cycle timing are left out. They are real-time behaviour with no logical content.
- Pin-number constants and `pinMode` are left out. They are hardware wiring.
- Datagrams of the wrong size are left out. The code always reads `sizeof(pkt)` bytes and has no length check, so `Frame` is exactly 10 bytes.
- The repeated invocation of `loop()` by the Arduino runtime is not part of this repository. Runs of cycles are described by `Controller.Trace` and by the `Receiver.Valid()` invariant that `Step` keeps.
- Bool bytes other than 0 and 1 read as true in this model. In C++, a `bool` object holding a byte other than 0 or 1 is undefined behaviour, so this is the model's stated assumption, not a promise of the language.
