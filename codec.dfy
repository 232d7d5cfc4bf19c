/** The cube's binary frames: the motor presets, the move-to command, the
    orientation-notification configuration, and the position and orientation
    notifications. */
module Codec {
  import opened Base
  import opened Records

  // ---------------------------------------------------------------------------
  // Motor commands (type 0x01: run until the next write)
  // ---------------------------------------------------------------------------

  /** The fields of a "run until the next write" motor command. */
  datatype MotorDrive = MotorDrive(leftDir: byte, leftSpeed: byte, rightDir: byte, rightSpeed: byte)

  const FORWARD_DIR: byte := 0x01
  const BACKWARD_DIR: byte := 0x02
  const LEFT_MOTOR: byte := 0x01
  const RIGHT_MOTOR: byte := 0x02
  const RUN_UNTIL_NEXT_WRITE: byte := 0x01
  const PRESET_SPEED: byte := 0x30

  /** The seven-byte layout: control type, left motor id, left direction, left
      speed, right motor id, right direction, right speed. */
  function MotorCommand(d: MotorDrive): (f: seq<byte>)
    ensures |f| == 7
  {
    [RUN_UNTIL_NEXT_WRITE, LEFT_MOTOR, d.leftDir, d.leftSpeed, RIGHT_MOTOR, d.rightDir, d.rightSpeed]
  }

  /** Reads a frame back as a motor command; None unless it has the fixed layout. */
  function ParseMotorCommand(f: seq<byte>): Option<MotorDrive>
  {
    if |f| == 7 && f[0] == RUN_UNTIL_NEXT_WRITE && f[1] == LEFT_MOTOR && f[4] == RIGHT_MOTOR
    then Some(MotorDrive(f[2], f[3], f[5], f[6]))
    else None
  }

  /** Encoding and parsing are inverse: every command parses back, and every frame
      that parses is the encoding of what it parses to. */
  lemma MotorCommandRoundTrip(d: MotorDrive, f: seq<byte>)
    ensures ParseMotorCommand(MotorCommand(d)) == Some(d)
    ensures ParseMotorCommand(f) == Some(d) ==> MotorCommand(d) == f
  {
  }

  // The presets, byte for byte as the cube controller declares them.
  const STOP_MOTOR: seq<byte> := [0x01, 0x01, 0x01, 0x00, 0x02, 0x01, 0x00]
  const FORWARD_MOTOR: seq<byte> := [0x01, 0x01, 0x01, 0x30, 0x02, 0x01, 0x30]
  const BACKWARD_MOTOR: seq<byte> := [0x01, 0x01, 0x02, 0x30, 0x02, 0x02, 0x30]
  const RIGHT_MOTOR_TURN: seq<byte> := [0x01, 0x01, 0x01, 0x30, 0x02, 0x02, 0x30]
  const LEFT_MOTOR_TURN: seq<byte> := [0x01, 0x01, 0x02, 0x30, 0x02, 0x01, 0x30]

  function Presets(): seq<seq<byte>>
  {
    [STOP_MOTOR, FORWARD_MOTOR, BACKWARD_MOTOR, RIGHT_MOTOR_TURN, LEFT_MOTOR_TURN]
  }

  /** Every preset is a well-formed seven-byte motor command whose directions are
      forward or backward. */
  lemma PresetsAreMotorCommands()
    ensures forall f :: f in Presets() ==>
      && |f| == 7 && f[0] == RUN_UNTIL_NEXT_WRITE && f[1] == LEFT_MOTOR && f[4] == RIGHT_MOTOR
      && ParseMotorCommand(f).Some? && MotorCommand(ParseMotorCommand(f).value) == f
      && f[2] in {FORWARD_DIR, BACKWARD_DIR} && f[5] in {FORWARD_DIR, BACKWARD_DIR}
  {
  }

  /** What each preset asks of the two motors. */
  lemma PresetMeanings()
    ensures ParseMotorCommand(STOP_MOTOR) == Some(MotorDrive(FORWARD_DIR, 0, FORWARD_DIR, 0))
    ensures ParseMotorCommand(FORWARD_MOTOR) == Some(MotorDrive(FORWARD_DIR, PRESET_SPEED, FORWARD_DIR, PRESET_SPEED))
    ensures ParseMotorCommand(BACKWARD_MOTOR) == Some(MotorDrive(BACKWARD_DIR, PRESET_SPEED, BACKWARD_DIR, PRESET_SPEED))
    ensures ParseMotorCommand(RIGHT_MOTOR_TURN) == Some(MotorDrive(FORWARD_DIR, PRESET_SPEED, BACKWARD_DIR, PRESET_SPEED))
    ensures ParseMotorCommand(LEFT_MOTOR_TURN) == Some(MotorDrive(BACKWARD_DIR, PRESET_SPEED, FORWARD_DIR, PRESET_SPEED))
  {
  }

  /** Backward, right and left differ from forward only in the direction bytes, and
      left is right with the two direction bytes swapped. */
  lemma PresetsDifferInDirectionsOnly()
    ensures forall f :: f in [BACKWARD_MOTOR, RIGHT_MOTOR_TURN, LEFT_MOTOR_TURN] ==>
      forall i :: 0 <= i < 7 && i != 2 && i != 5 ==> f[i] == FORWARD_MOTOR[i]
    ensures LEFT_MOTOR_TURN == RIGHT_MOTOR_TURN[2 := RIGHT_MOTOR_TURN[5]][5 := RIGHT_MOTOR_TURN[2]]
  {
  }

  // ---------------------------------------------------------------------------
  // Move-to command
  // ---------------------------------------------------------------------------

  /** Tag 0x03, a reserved zero, and the fixed motion header the paint demo sends. */
  const MOVE_TO_HEADER: seq<byte> := [0x03, 0x00, 0x05, 0x00, 0x50, 0x00, 0x00]

  /** The thirteen bytes `moveTo(x, y, angle)` writes into its buffer. */
  function MoveToFrame(x: int, y: int, angle: int): (f: seq<byte>)
    ensures |f| == 13
  {
    MOVE_TO_HEADER + Le16(x) + Le16(y) + Le16(angle)
  }

  /** Reads a command frame back as a move-to target. */
  function ParseMoveTo(f: seq<byte>): Option<(int, int, int)>
  {
    if |f| == 13 && f[..7] == MOVE_TO_HEADER
    then Some((GetUint16(f, 7).value, GetUint16(f, 9).value, GetUint16(f, 11).value))
    else None
  }

  /** The move-to frame decodes back to its arguments, each reduced to 16 bits as
      `setUint16` reduces it. */
  lemma MoveToRoundTrip(x: int, y: int, angle: int)
    ensures ParseMoveTo(MoveToFrame(x, y, angle)) == Some((x % U16_RANGE, y % U16_RANGE, angle % U16_RANGE))
  {
    var f := MoveToFrame(x, y, angle);
    assert f == MOVE_TO_HEADER + Le16(x) + (Le16(y) + Le16(angle));
    Le16RoundTrip(x, MOVE_TO_HEADER, Le16(y) + Le16(angle));
    assert f == (MOVE_TO_HEADER + Le16(x)) + Le16(y) + Le16(angle);
    Le16RoundTrip(y, MOVE_TO_HEADER + Le16(x), Le16(angle));
    assert f == (MOVE_TO_HEADER + Le16(x) + Le16(y)) + Le16(angle) + [];
    Le16RoundTrip(angle, MOVE_TO_HEADER + Le16(x) + Le16(y), []);
    assert f[..7] == MOVE_TO_HEADER;
  }

  /** Every parsed move-to frame is the frame that its target encodes to. */
  lemma ParseMoveToExact(f: seq<byte>)
    requires ParseMoveTo(f).Some?
    ensures MoveToFrame(ParseMoveTo(f).value.0, ParseMoveTo(f).value.1, ParseMoveTo(f).value.2) == f
  {
    GetUint16Le16(f, 7);
    GetUint16Le16(f, 9);
    GetUint16Le16(f, 11);
    assert f == f[..7] + f[7..9] + f[9..11] + f[11..13];
  }

  // ---------------------------------------------------------------------------
  // Orientation-notification configuration
  // ---------------------------------------------------------------------------

  /** The five configuration bytes written before orientation notifications start:
      command 0x1d, reserved, kind (0x01 Euler angles), interval (0x01, 10 ms),
      condition (0x01, only on change). The layout comment beside it names the
      command 0x0d; the bytes sent say 0x1d. */
  const EULER_CONFIG: seq<byte> := [0x1d, 0x00, 0x01, 0x01, 0x01]

  datatype NotifyKind = EulerAngles | Quaternion | PreciseEuler
  datatype NotifyCondition = Always | OnChange

  function KindByte(k: NotifyKind): byte
  {
    match k
    case EulerAngles => 0x01
    case Quaternion => 0x02
    case PreciseEuler => 0x03
  }

  /** An orientation configuration frame for a kind, interval (in 10 ms steps) and
      condition. */
  function EulerConfigFrame(k: NotifyKind, interval: byte, c: NotifyCondition): (f: seq<byte>)
    ensures |f| == 5
  {
    [0x1d, 0x00, KindByte(k), interval, if c == Always then 0x00 else 0x01]
  }

  /** Reads a configuration frame back; None unless the command byte and the
      reserved byte are right and the kind and condition bytes are known. */
  function ParseEulerConfig(f: seq<byte>): Option<(NotifyKind, byte, NotifyCondition)>
  {
    if |f| == 5 && f[0] == 0x1d && f[1] == 0x00 && 1 <= f[2] <= 3 && f[4] <= 1
    then Some((if f[2] == 1 then EulerAngles else if f[2] == 2 then Quaternion else PreciseEuler,
               f[3], if f[4] == 0 then Always else OnChange))
    else None
  }

  /** Configuration frames round-trip through the parser, in both directions. */
  lemma EulerConfigRoundTrip(k: NotifyKind, interval: byte, c: NotifyCondition, f: seq<byte>)
    ensures ParseEulerConfig(EulerConfigFrame(k, interval, c)) == Some((k, interval, c))
    ensures ParseEulerConfig(f).Some? ==>
      EulerConfigFrame(ParseEulerConfig(f).value.0, ParseEulerConfig(f).value.1, ParseEulerConfig(f).value.2) == f
  {
  }

  /** The frame the demos send asks for Euler angles every 10 ms, on change only. */
  lemma EulerConfigMeaning()
    ensures ParseEulerConfig(EULER_CONFIG) == Some((EulerAngles, 0x01, OnChange))
    ensures EULER_CONFIG == EulerConfigFrame(EulerAngles, 0x01, OnChange)
  {
  }

  // ---------------------------------------------------------------------------
  // Position notifications
  // ---------------------------------------------------------------------------

  const POSITION_FRAME_LENGTH := 13
  const POSITION_MISSED_TAG: byte := 0x03

  /** The decoders' reading of a position notification: six uint16 values at
      offsets 1, 3, 5, 7, 9 and 11, only when the frame has at least 13 bytes.
      Byte 0 (the tag) is not looked at. */
  function DecodePose(b: seq<byte>): (r: Option<Pose>)
    ensures r.Some? <==> |b| >= POSITION_FRAME_LENGTH
    ensures r.Some? ==> r.value.Valid()
  {
    if |b| >= POSITION_FRAME_LENGTH then
      Some(Pose(GetUint16(b, 1).value, GetUint16(b, 3).value, GetUint16(b, 5).value,
                GetUint16(b, 7).value, GetUint16(b, 9).value, GetUint16(b, 11).value))
    else None
  }

  /** A position notification carrying a tag and a pose. */
  function PositionFrame(tag: byte, p: Pose): (f: seq<byte>)
    ensures |f| == POSITION_FRAME_LENGTH
  {
    [tag] + Le16(p.x) + Le16(p.y) + Le16(p.angle) + Le16(p.sensorX) + Le16(p.sensorY) + Le16(p.sensorAngle)
  }

  /** Bytes 2k+1 and 2k+2 of a position frame are the k-th field. */
  lemma PositionFrameFields(tag: byte, p: Pose)
    ensures var f := PositionFrame(tag, p);
      && f[0] == tag
      && f[1..3] == Le16(p.x) && f[3..5] == Le16(p.y) && f[5..7] == Le16(p.angle)
      && f[7..9] == Le16(p.sensorX) && f[9..11] == Le16(p.sensorY) && f[11..13] == Le16(p.sensorAngle)
  {
  }

  /** Decoding a frame built from a valid pose gives the pose back, whatever the
      tag and whatever follows the thirteenth byte. */
  lemma DecodePositionFrame(tag: byte, p: Pose, rest: seq<byte>)
    requires p.Valid()
    ensures DecodePose(PositionFrame(tag, p) + rest) == Some(p)
  {
    var f := PositionFrame(tag, p);
    var b := f + rest;
    PositionFrameFields(tag, p);
    forall off | off in {1, 3, 5, 7, 9, 11}
      ensures GetUint16(b, off) == GetUint16(f[off..off + 2], 0)
    {
      assert b[off..off + 2] == f[off..off + 2];
    }
    Le16RoundTrip(p.x, [], []);
    Le16RoundTrip(p.y, [], []);
    Le16RoundTrip(p.angle, [], []);
    Le16RoundTrip(p.sensorX, [], []);
    Le16RoundTrip(p.sensorY, [], []);
    Le16RoundTrip(p.sensorAngle, [], []);
  }

  /** Conversely, the first thirteen bytes of any frame long enough to decode are
      exactly its tag and its decoded pose. */
  lemma EncodeDecodedPose(b: seq<byte>)
    requires |b| >= POSITION_FRAME_LENGTH
    ensures PositionFrame(b[0], DecodePose(b).value) == b[..POSITION_FRAME_LENGTH]
  {
    var p := DecodePose(b).value;
    GetUint16Le16(b, 1);
    GetUint16Le16(b, 3);
    GetUint16Le16(b, 5);
    GetUint16Le16(b, 7);
    GetUint16Le16(b, 9);
    GetUint16Le16(b, 11);
    assert b[..13] == [b[0]] + b[1..3] + b[3..5] + b[5..7] + b[7..9] + b[9..11] + b[11..13];
  }

  /** The decoder never inspects the tag byte: a position-missed tag in a long
      frame is decoded like any other. */
  lemma DecodeIgnoresTag(b: seq<byte>, t: byte)
    requires |b| > 0
    ensures DecodePose(b[0 := t]) == DecodePose(b)
  {
  }

  /** `dataView.getUint8(0) === 0x03`; None is the RangeError on an empty frame. */
  function IsPositionMissed(b: seq<byte>): (r: Option<bool>)
    ensures r.Some? <==> |b| > 0
    ensures r == Some(true) <==> |b| > 0 && b[0] == POSITION_MISSED_TAG
  {
    match GetUint8(b, 0)
    case None => None
    case Some(t) => Some(t == POSITION_MISSED_TAG)
  }

  // ---------------------------------------------------------------------------
  // Orientation notifications
  // ---------------------------------------------------------------------------

  /** What an orientation notification carries: the notification kind (byte 1) and
      three signed 16-bit angles at offsets 2, 4 and 6. */
  datatype EulerReading = EulerReading(notify: byte, angles: Angles)

  const EULER_FRAME_LENGTH := 8

  /** The orientation decode with the guard its reads need: eight bytes. */
  function DecodeEuler(b: seq<byte>): (r: Option<EulerReading>)
    ensures r.Some? <==> |b| >= EULER_FRAME_LENGTH
    ensures r.Some? ==> r.value.angles.Valid()
  {
    if |b| >= EULER_FRAME_LENGTH then
      Some(EulerReading(b[1], Angles(GetInt16(b, 2).value, GetInt16(b, 4).value, GetInt16(b, 6).value)))
    else None
  }

  /** An orientation notification for a kind and three angles. */
  function EulerFrame(tag: byte, notify: byte, a: Angles): (f: seq<byte>)
    ensures |f| == EULER_FRAME_LENGTH
  {
    [tag, notify] + Le16(a.x) + Le16(a.y) + Le16(a.z)
  }

  /** Decoding an orientation frame gives back its kind and angles. */
  lemma DecodeEulerFrame(tag: byte, notify: byte, a: Angles, rest: seq<byte>)
    requires a.Valid()
    ensures DecodeEuler(EulerFrame(tag, notify, a) + rest) == Some(EulerReading(notify, a))
  {
    var b := EulerFrame(tag, notify, a) + rest;
    assert b == [tag, notify] + Le16(a.x) + (Le16(a.y) + Le16(a.z) + rest);
    Le16SignedRoundTrip(a.x, [tag, notify], Le16(a.y) + Le16(a.z) + rest);
    assert b == ([tag, notify] + Le16(a.x)) + Le16(a.y) + (Le16(a.z) + rest);
    Le16SignedRoundTrip(a.y, [tag, notify] + Le16(a.x), Le16(a.z) + rest);
    assert b == ([tag, notify] + Le16(a.x) + Le16(a.y)) + Le16(a.z) + rest;
    Le16SignedRoundTrip(a.z, [tag, notify] + Le16(a.x) + Le16(a.y), rest);
  }

  /** The guard the full application uses (`byteLength >= 6`). */
  predicate GuardAtLeast6(b: seq<byte>) { |b| >= 6 }

  /** The guard the two orientation demos use (`byteLength >= 7`). */
  predicate GuardAtLeast7(b: seq<byte>) { |b| >= 7 }

  /** Both written guards admit frames on which the yaw read at offset 6 throws:
      the read needs eight bytes. */
  lemma EulerGuardsAdmitShortFrames(b: seq<byte>)
    requires 6 <= |b| < EULER_FRAME_LENGTH
    ensures GuardAtLeast6(b) && GetInt16(b, 6).None?
    ensures |b| == 7 ==> GuardAtLeast7(b)
  {
  }

  /** A concrete seven-byte frame that both written guards let through and on which
      `getInt16(6, true)` throws. */
  lemma SevenByteEulerFrame()
    ensures var b: seq<byte> := [0x03, 0x01, 0xB4, 0x00, 0x00, 0x00, 0x00];
      GuardAtLeast6(b) && GuardAtLeast7(b) && GetInt16(b, 6).None?
  {
  }
}
