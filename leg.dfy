/** The client side of the motor protocol: a table of one-byte opcodes, the
    acknowledgement bytes derived from them, and the `Legs` session that
    writes a command to the serial port and reads back the expected reply.
 */
module Leg {
  import opened Common
  import opened Util

  /** `ArduinoMessages`: the messages of the protocol. */
  datatype ArduinoMessage =
    | Unsupported | NAck | Ack
    | Forward | Backward | Left | Right | Stop | SetSpeed | SetMoveTime

  /** The integer each member's value is built from with `int8_to_byte`. */
  function Ordinal(m: ArduinoMessage): int {
    match m
    case Unsupported => -2
    case NAck => 0
    case Ack => 1
    case Forward => 'F' as int
    case Backward => 'B' as int
    case Left => 'L' as int
    case Right => 'R' as int
    case Stop => 'Z' as int
    case SetSpeed => 'X' as int
    case SetMoveTime => 'T' as int
  }

  /** `ArduinoMessages.<m>.value`: a one-byte `bytes`. */
  function MessageValue(m: ArduinoMessage): (v: seq<byte>)
    ensures |v| == 1 && Int8Of(v[0]) == Ordinal(m)
  {
    Int8ToByte(Ordinal(m)).value
  }

  /** The byte table, as the protocol fixes it. */
  lemma MessageTable()
    ensures MessageValue(Unsupported) == [0xFE]
    ensures MessageValue(NAck) == [0x00] && MessageValue(Ack) == [0x01]
    ensures MessageValue(Forward) == [0x46] && MessageValue(Backward) == [0x42]
    ensures MessageValue(Left) == [0x4C] && MessageValue(Right) == [0x52]
    ensures MessageValue(Stop) == [0x5A]
    ensures MessageValue(SetSpeed) == [0x58] && MessageValue(SetMoveTime) == [0x54]
  {
  }

  /** `@unique`: no two members share a value. */
  lemma MessagesUnique(m: ArduinoMessage, n: ArduinoMessage)
    requires m != n
    ensures MessageValue(m) != MessageValue(n)
  {
    assert Ordinal(m) != Ordinal(n);
  }

  /** The members that are commands rather than reply markers. */
  predicate IsCommand(m: ArduinoMessage) {
    !(m.Unsupported? || m.NAck? || m.Ack?)
  }

  /** Every command is an upper-case ASCII letter with bit 0 clear. */
  lemma CommandLetters(m: ArduinoMessage)
    requires IsCommand(m)
    ensures 0x41 <= MessageValue(m)[0] <= 0x5A
    ensures MessageValue(m)[0] % 2 == 0
  {
    MessageTable();
  }

  /** `create_ack`: `int8_to_byte(msg[0] | Ack.value[0])`. An empty message
      has no first byte, and a first byte of 0x80 or more does not fit a
      signed byte once or-ed. */
  function CreateAck(msg: seq<byte>): (r: Result<seq<byte>>)
    ensures |msg| == 0 ==> r == Err(IndexError)
    ensures |msg| > 0 && msg[0] < 0x80 ==>
      r == Ok([if msg[0] % 2 == 0 then msg[0] + 1 else msg[0]])
    ensures |msg| > 0 && msg[0] >= 0x80 ==> r == Err(OverflowError)
  {
    if |msg| == 0 then Err(IndexError)
    else
      BitOrOne(msg[0] as nat);
      assert MessageValue(Ack)[0] == 1;
      Int8ToByte(BitOr(msg[0] as nat, MessageValue(Ack)[0] as nat))
  }

  /** `create_nack`: `int8_to_byte(msg[0] | NAck.value[0])`. */
  function CreateNack(msg: seq<byte>): (r: Result<seq<byte>>)
    ensures |msg| == 0 ==> r == Err(IndexError)
    ensures |msg| > 0 && msg[0] < 0x80 ==> r == Ok([msg[0]])
    ensures |msg| > 0 && msg[0] >= 0x80 ==> r == Err(OverflowError)
  {
    if |msg| == 0 then Err(IndexError)
    else
      BitOrZero(msg[0] as nat);
      assert MessageValue(NAck)[0] == 0;
      Int8ToByte(BitOr(msg[0] as nat, MessageValue(NAck)[0] as nat))
  }

  /** Both derived bytes look at the first byte of the message only. */
  lemma AckUsesFirstByteOnly(m1: seq<byte>, m2: seq<byte>)
    requires |m1| > 0 && |m2| > 0 && m1[0] == m2[0]
    ensures CreateAck(m1) == CreateAck(m2) && CreateNack(m1) == CreateNack(m2)
  {
  }

  /** For every command the ack is the opcode plus one and differs from the
      nack, which is the opcode itself. */
  lemma AckNackOfCommand(m: ArduinoMessage)
    requires IsCommand(m)
    ensures CreateAck(MessageValue(m)) == Ok([MessageValue(m)[0] + 1])
    ensures CreateNack(MessageValue(m)) == Ok(MessageValue(m))
    ensures CreateAck(MessageValue(m)) != CreateNack(MessageValue(m))
  {
    CommandLetters(m);
  }

  /** `bytes.lower()` on one byte: an ASCII capital moves up by 0x20. */
  function LowerByte(b: byte): byte {
    if 0x41 <= b <= 0x5A then b + 0x20 else b
  }

  /** `bytes.lower()`. */
  function LowerBytes(msg: seq<byte>): (r: seq<byte>)
    ensures |r| == |msg|
    ensures forall i :: 0 <= i < |msg| ==> r[i] == LowerByte(msg[i])
  {
    seq(|msg|, i requires 0 <= i < |msg| => LowerByte(msg[i]))
  }

  /** Lowering a command letter sets its bit 0x20, which was clear, and keeps bit 0 clear. */
  lemma LowerSetsBit20(m: ArduinoMessage)
    requires IsCommand(m)
    ensures (MessageValue(m)[0] / 0x20) % 2 == 0
    ensures LowerByte(MessageValue(m)[0]) == MessageValue(m)[0] + 0x20
    ensures (LowerByte(MessageValue(m)[0]) / 0x20) % 2 == 1
    ensures LowerByte(MessageValue(m)[0]) % 2 == 0
  {
    CommandLetters(m);
  }

  // ---------------------------------------------------------------------
  // What one exchange does, as a function of the bytes the device will send.

  /** The effect of a command on the serial line: how it ends, the bytes it
      writes and how many bytes of the input it consumes. */
  datatype Effect = Effect(outcome: Outcome, written: seq<byte>, consumed: nat)

  /** The outcome of `_read_expected` on the bytes `input` still to come. */
  function ReadOutcome(input: seq<byte>, expected: seq<byte>, action: string): (o: Outcome)
    ensures o.Pass? <==> |expected| <= |input| && input[..|expected|] == expected
    ensures o.Fail? ==> o.error == Stalled ||
                        (|expected| <= |input| && o.error == LegsException(action, input[..|expected|]))
    ensures o == Fail(Stalled) <==> |input| < |expected|
  {
    if |input| < |expected| then Fail(Stalled)
    else if input[..|expected|] == expected then Pass
    else Fail(LegsException(action, input[..|expected|]))
  }

  /** How many bytes `_read_expected` takes from `input`. */
  function Consumed(input: seq<byte>, expected: seq<byte>): (n: nat)
    ensures n <= |input| && n <= |expected|
    ensures n == |expected| || n == |input|
  {
    if |input| < |expected| then |input| else |expected|
  }

  /** The bytes `_send_n_read` writes: the message, lowered in async mode. */
  function Sent(msg: seq<byte>, async: bool): (s: seq<byte>)
    ensures |s| == |msg|
    ensures !async ==> s == msg
    ensures async ==> forall i :: 0 <= i < |msg| ==> s[i] == LowerByte(msg[i])
  {
    if async then LowerBytes(msg) else msg
  }

  /** `ack or create_ack(msg)`, on the message after lowering: an absent or
      empty `ack` falls back to the ack of the bytes actually sent. */
  function ExpectedReply(sent: seq<byte>, ack: Option<seq<byte>>): (r: Result<seq<byte>>)
    ensures ack.Some? && ack.value != [] ==> r == Ok(ack.value)
    ensures ack.None? || ack.value == [] ==> r == CreateAck(sent)
    ensures r.Ok? ==> |r.value| > 0
  {
    if ack.None? || ack.value == [] then CreateAck(sent) else Ok(ack.value)
  }

  /** `_send_n_read(msg, action, async, ack)`. */
  function Exchange(msg: seq<byte>, action: string, async: bool, ack: Option<seq<byte>>,
                    input: seq<byte>): (e: Effect)
    ensures e.written == Sent(msg, async) && e.consumed <= |input|
  {
    var sent := Sent(msg, async);
    match ExpectedReply(sent, ack)
    case Err(err) => Effect(Fail(err), sent, 0)
    case Ok(expected) => Effect(ReadOutcome(input, expected, action), sent, Consumed(input, expected))
  }

  /** The movement messages. */
  type Motion = m: ArduinoMessage | m.Forward? || m.Backward? || m.Left? || m.Right?
    witness Forward

  /** The operations of `Legs`. */
  datatype Command =
    | Move(motion: Motion, async: bool) // forward, backward, left, right
    | Halt                              // stop
    | Speed(speedValue: int)            // set_speed
    | MoveTime(time: int)               // set_movetime

  function MotionAction(m: Motion): string {
    match m
    case Forward => "move forward"
    case Backward => "move backward"
    case Left => "rotate left"
    case Right => "rotate right"
  }

  /** What each `Legs` operation does to the serial line. The two setters
      validate their argument before anything is written and expect the ack
      of the bare opcode. */
  function Perform(cmd: Command, input: seq<byte>): (e: Effect)
    ensures e.consumed <= |input|
  {
    match cmd
    case Move(m, async) => Exchange(MessageValue(m), MotionAction(m), async, None, input)
    case Halt => Exchange(MessageValue(Stop), "stop", true, None, input)
    case Speed(v) =>
      (match AssertUint8(v)
       case Fail(err) => Effect(Fail(err), [], 0)
       case Pass =>
         AckNackOfCommand(SetSpeed);
         Exchange(MessageValue(SetSpeed) + Uint8ToByte(v).value, "set speed", false,
                  Some(CreateAck(MessageValue(SetSpeed)).value), input))
    case MoveTime(t) =>
      (match AssertUint16(t)
       case Fail(err) => Effect(Fail(err), [], 0)
       case Pass =>
         AckNackOfCommand(SetMoveTime);
         Exchange(MessageValue(SetMoveTime) + Uint16ToBytes(t).value, "set move time", false,
                  Some(CreateAck(MessageValue(SetMoveTime)).value), input))
  }

  /** How a one-byte reply decides an exchange: success exactly on `ack`,
      and a `LegsException` carrying the byte otherwise. */
  predicate DecidedBy(e: Effect, input: seq<byte>, ack: byte, action: string) {
    && (|input| == 0 ==> e.outcome == Fail(Stalled) && e.consumed == 0)
    && (|input| > 0 ==> e.consumed == 1 &&
                        e.outcome == if input[0] == ack then Pass
                                     else Fail(LegsException(action, [input[0]])))
  }

  /** A synchronous movement writes the upper-case opcode and expects it with bit 0 set. */
  lemma MoveSync(m: Motion, input: seq<byte>)
    ensures Perform(Move(m, false), input).written == MessageValue(m)
    ensures DecidedBy(Perform(Move(m, false), input), input, MessageValue(m)[0] + 1, MotionAction(m))
  {
    AckNackOfCommand(m);
    if |input| > 0 {
      assert input[..1] == [input[0]];
    }
  }

  /** An asynchronous movement writes the lowered opcode, and since the ack is
      derived after lowering, it expects the lowered opcode with bit 0 set. */
  lemma MoveAsync(m: Motion, input: seq<byte>)
    ensures Perform(Move(m, true), input).written == [MessageValue(m)[0] + 0x20]
    ensures DecidedBy(Perform(Move(m, true), input), input, MessageValue(m)[0] + 0x21, MotionAction(m))
  {
    MessageTable();
    if |input| > 0 {
      assert input[..1] == [input[0]];
    }
  }

  /** The async ack is not the ack of the opcode itself: 'f' (0x66) is
      answered by 0x67, not by 'F' | 1 (0x47). */
  lemma AsyncAckIsOfLoweredByte()
    ensures Perform(Move(Forward, true), [0x67]) == Effect(Pass, [0x66], 1)
    ensures Perform(Move(Forward, true), [0x47]) == Effect(Fail(LegsException("move forward", [0x47])), [0x66], 1)
  {
    MoveAsync(Forward, [0x67]);
    MoveAsync(Forward, [0x47]);
  }

  /** `stop` always goes out lowered, as 'z', and expects 0x7B. */
  lemma HaltIsAsync(input: seq<byte>)
    ensures Perform(Halt, input).written == [0x7A]
    ensures DecidedBy(Perform(Halt, input), input, 0x7B, "stop")
  {
    MessageTable();
    if |input| > 0 {
      assert input[..1] == [input[0]];
    }
  }

  /** `set_speed`: out of range nothing is written; otherwise 'X' and the
      value go out and the ack of the bare 'X' is expected. */
  lemma SpeedFraming(v: int, input: seq<byte>)
    ensures !(0 <= v < 256) ==>
      Perform(Speed(v), input) == Effect(Fail(XMValueError(OutOfRange(v, 0, 255))), [], 0)
    ensures 0 <= v < 256 ==>
      Perform(Speed(v), input).written == [0x58, v as byte] &&
      DecidedBy(Perform(Speed(v), input), input, 0x59, "set speed")
  {
    MessageTable();
    if |input| > 0 {
      assert input[..1] == [input[0]];
    }
  }

  /** `set_movetime`: out of range nothing is written; otherwise 'T' and the
      time, most significant byte first, go out and 0x55 is expected. */
  lemma MoveTimeFraming(t: int, input: seq<byte>)
    ensures !(0 <= t < 65536) ==>
      Perform(MoveTime(t), input) == Effect(Fail(XMValueError(OutOfRange(t, 0, 65535))), [], 0)
    ensures 0 <= t < 65536 ==>
      Perform(MoveTime(t), input).written == [0x54, (t / 256) as byte, (t % 256) as byte] &&
      DecidedBy(Perform(MoveTime(t), input), input, 0x55, "set move time")
  {
    MessageTable();
    if |input| > 0 {
      assert input[..1] == [input[0]];
    }
  }

  // ---------------------------------------------------------------------
  // The session over an abstract serial port.

  /** The serial port: what has been written to it, and the bytes the
      device is going to send. `read()` blocks while no byte is there. */
  class Serial {
    var written: seq<byte>
    var input: seq<byte>

    constructor (input: seq<byte>)
      ensures written == [] && this.input == input
    {
      written := [];
      this.input := input;
    }

    method Write(data: seq<byte>)
      modifies this
      ensures written == old(written) + data && input == old(input)
    {
      written := written + data;
    }

    /** One byte, or `None` when the device sends nothing more, in which
        case the real read would wait forever. */
    method Read() returns (b: Option<byte>)
      modifies this
      ensures written == old(written)
      ensures old(input) == [] ==> b == None && input == old(input)
      ensures old(input) != [] ==> b == Some(old(input)[0]) && input == old(input)[1..]
    {
      if input == [] {
        b := None;
      } else {
        b := Some(input[0]);
        input := input[1..];
      }
    }
  }

  class Legs {
    const serial: Serial

    constructor (serial: Serial)
      ensures this.serial == serial
    {
      this.serial := serial;
    }

    /** The serial line moved as `e` says and the operation ended with `o`. */
    twostate predicate Did(e: Effect, o: Outcome)
      reads this, serial
    {
      && o == e.outcome
      && serial.written == old(serial.written) + e.written
      && e.consumed <= |old(serial.input)|
      && serial.input == old(serial.input)[e.consumed..]
    }

    /** `_read_expected`: reads `|expected|` bytes one at a time and raises
        `LegsException` with them if they are not `expected`. */
    method ReadExpected(expected: seq<byte>, action: string) returns (o: Outcome)
      modifies serial
      ensures Did(Effect(ReadOutcome(old(serial.input), expected, action), [],
                         Consumed(old(serial.input), expected)), o)
    {
      var r: seq<byte> := [];
      var i := 0;
      while i < |expected|
        invariant i <= |expected| && i <= |old(serial.input)|
        invariant r == old(serial.input)[..i]
        invariant serial.input == old(serial.input)[i..]
        invariant serial.written == old(serial.written)
      {
        var b := serial.Read();
        if b.None? {
          return Fail(Stalled);
        }
        r := r + [b.value];
        i := i + 1;
      }
      if r != expected {
        return Fail(LegsException(action, r));
      }
      return Pass;
    }

    /** `_send_n_read`: lowers the message in async mode, writes it, then
        reads the explicit `ack` or, failing one, the ack of what was written. */
    method SendNRead(msg: seq<byte>, action: string, async: bool, ack: Option<seq<byte>>)
      returns (o: Outcome)
      modifies serial
      ensures Did(Exchange(msg, action, async, ack, old(serial.input)), o)
    {
      var m := msg;
      if async {
        m := LowerBytes(m);
      }
      serial.Write(m);
      var expected := if ack.None? || ack.value == [] then CreateAck(m) else Ok(ack.value);
      if expected.Err? {
        return Fail(expected.error);
      }
      o := ReadExpected(expected.value, action);
    }

    method Forward(async: bool) returns (o: Outcome)
      modifies serial
      ensures Did(Perform(Move(ArduinoMessage.Forward, async), old(serial.input)), o)
    {
      o := SendNRead(MessageValue(ArduinoMessage.Forward), "move forward", async, None);
    }

    method Backward(async: bool) returns (o: Outcome)
      modifies serial
      ensures Did(Perform(Move(ArduinoMessage.Backward, async), old(serial.input)), o)
    {
      o := SendNRead(MessageValue(ArduinoMessage.Backward), "move backward", async, None);
    }

    method Left(async: bool) returns (o: Outcome)
      modifies serial
      ensures Did(Perform(Move(ArduinoMessage.Left, async), old(serial.input)), o)
    {
      o := SendNRead(MessageValue(ArduinoMessage.Left), "rotate left", async, None);
    }

    method Right(async: bool) returns (o: Outcome)
      modifies serial
      ensures Did(Perform(Move(ArduinoMessage.Right, async), old(serial.input)), o)
    {
      o := SendNRead(MessageValue(ArduinoMessage.Right), "rotate right", async, None);
    }

    method Stop() returns (o: Outcome)
      modifies serial
      ensures Did(Perform(Command.Halt, old(serial.input)), o)
    {
      o := SendNRead(MessageValue(ArduinoMessage.Stop), "stop", true, None);
    }

    method SetSpeed(speedValue: int) returns (o: Outcome)
      modifies serial
      ensures Did(Perform(Speed(speedValue), old(serial.input)), o)
    {
      var check := AssertUint8(speedValue);
      if check.Fail? {
        return check;
      }
      var value := Uint8ToByte(speedValue).value;
      AckNackOfCommand(ArduinoMessage.SetSpeed);
      var ack := CreateAck(MessageValue(ArduinoMessage.SetSpeed)).value;
      o := SendNRead(MessageValue(ArduinoMessage.SetSpeed) + value, "set speed", false, Some(ack));
    }

    method SetMoveTime(time: int) returns (o: Outcome)
      modifies serial
      ensures Did(Perform(MoveTime(time), old(serial.input)), o)
    {
      var check := AssertUint16(time);
      if check.Fail? {
        return check;
      }
      var value := Uint16ToBytes(time).value;
      AckNackOfCommand(ArduinoMessage.SetMoveTime);
      var ack := CreateAck(MessageValue(ArduinoMessage.SetMoveTime)).value;
      o := SendNRead(MessageValue(ArduinoMessage.SetMoveTime) + value, "set move time", false, Some(ack));
    }
  }
}
