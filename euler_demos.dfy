/** The orientation demo (`5-1_EulerianAnglesController/main.js`): the cube's
    Euler angles are read from posture notifications and displayed. */
module EulerAnglesDemo {
  import opened Base
  import opened Records
  import opened Codec

  /** `configuration_Buf`. */
  const CONFIGURATION_BUF: seq<byte> := EULER_CONFIG

  class EulerianAnglesController {
    var toioEulerianAngles: Angles
    /** `this.toioNorify`: undefined until the first frame. */
    var toioNotify: Option<byte>

    constructor ()
      ensures toioEulerianAngles == Angles(0, 0, 0) && toioNotify.None?
    {
      toioEulerianAngles := Angles(0, 0, 0);
      toioNotify := None;
    }

    /** `decodeEulerianAnglesContinuous`: guarded by `byteLength >= 7`, it writes
        the kind (byte 1), roll and pitch and then reads the yaw at offset 6,
        which throws on a seven-byte frame, leaving those three written. */
    method DecodeEulerianAnglesContinuous(value: seq<byte>) returns (c: Completion)
      modifies this
      ensures c == Thrown <==> |value| == 7
      ensures |value| < 7 ==> toioNotify == old(toioNotify) && toioEulerianAngles == old(toioEulerianAngles)
      ensures |value| == 7 ==> (
        && toioNotify == Some(value[1])
        && toioEulerianAngles == old(toioEulerianAngles).(x := GetInt16(value, 2).value, y := GetInt16(value, 4).value))
      ensures |value| >= EULER_FRAME_LENGTH ==> (
        && toioNotify.Some?
        && DecodeEuler(value) == Some(EulerReading(toioNotify.value, toioEulerianAngles)))
    {
      c := Normal;
      if GuardAtLeast7(value) {
        toioNotify := Some(value[1]);
        toioEulerianAngles := toioEulerianAngles.(x := GetInt16(value, 2).value);
        toioEulerianAngles := toioEulerianAngles.(y := GetInt16(value, 4).value);
        var z := GetInt16(value, 6);
        if z.None? {
          return Thrown;
        }
        toioEulerianAngles := toioEulerianAngles.(z := z.value);
      }
    }
  }
}

/** The orientation demo with a 3-D cube (`5-2_EulerianAnglesController-toioCube/main.js`):
    the same decoder, which first logs the three angles and then raises
    `EulerianAnglesUpdated` for the renderer. */
module EulerCubeDemo {
  import opened Base
  import opened Records
  import opened Codec

  /** `configuration_Buf`. */
  const CONFIGURATION_BUF: seq<byte> := EULER_CONFIG

  class EulerianAnglesController {
    var toioEulerianAngles: Angles
    var toioNotify: Option<byte>

    constructor ()
      ensures toioEulerianAngles == Angles(0, 0, 0) && toioNotify.None?
    {
      toioEulerianAngles := Angles(0, 0, 0);
      toioNotify := None;
    }

    /** `decodeEulerianAnglesContinuous`: guarded by `byteLength >= 7`, the
        logging of the three angles comes first, so a seven-byte frame throws
        before any state is written. A frame of 8 bytes or more overwrites kind
        and angles and raises `EulerianAnglesUpdated` (the result). */
    method DecodeEulerianAnglesContinuous(value: seq<byte>) returns (updated: Option<Angles>, c: Completion)
      modifies this
      ensures c == Thrown <==> |value| == 7
      ensures |value| < EULER_FRAME_LENGTH ==> (
        && updated.None?
        && toioNotify == old(toioNotify) && toioEulerianAngles == old(toioEulerianAngles))
      ensures |value| >= EULER_FRAME_LENGTH ==> (
        && toioNotify.Some?
        && DecodeEuler(value) == Some(EulerReading(toioNotify.value, toioEulerianAngles))
        && updated == Some(toioEulerianAngles))
    {
      updated, c := None, Normal;
      if GuardAtLeast7(value) {
        var logged := GetInt16(value, 6);
        if logged.None? {
          return None, Thrown;
        }
        toioNotify := Some(value[1]);
        toioEulerianAngles := Angles(GetInt16(value, 2).value, GetInt16(value, 4).value, GetInt16(value, 6).value);
        updated := Some(toioEulerianAngles);
      }
    }
  }
}
