/** The values the demos decode and persist: the cube's pose, its orientation,
    the pen style of the paint demo, and the records kept per device. */
module Records {
  import opened Base

  /** The six little-endian uint16 fields of a position notification. */
  datatype Pose = Pose(x: int, y: int, angle: int, sensorX: int, sensorY: int, sensorAngle: int)
  {
    predicate Valid() {
      IsU16(x) && IsU16(y) && IsU16(angle) && IsU16(sensorX) && IsU16(sensorY) && IsU16(sensorAngle)
    }
  }

  /** The pose every controller starts from (`{ x: 0, y: 0, ... }`). */
  const ORIGIN := Pose(0, 0, 0, 0, 0, 0)

  /** Roll, pitch and yaw as the demos read them: signed 16-bit integers. */
  datatype Angles = Angles(x: int, y: int, z: int)
  {
    predicate Valid() { IsI16(x) && IsI16(y) && IsI16(z) }
  }

  /** A pen setting arrives either as a number (the initial 1 and 3) or as the
      string value of a range input. */
  datatype Scalar = Num(n: int) | Text(s: string)

  /** `currentDrawingState` of the paint demo. */
  datatype DrawingState = DrawingState(color: string, alpha: Scalar, lineWidth: Scalar)

  const INITIAL_DRAWING_STATE := DrawingState("#000000", Num(1), Num(3))

  /** The one-shot position reads store their record under the misspelled keys
      'daviceName' and 'deviceID'; continuous reads use 'deviceName'/'deviceId'. */
  datatype KeySpelling = Standard | Misspelled

  /** One stored object. A position record may lack `isEndOfLine` (None) or have
      it false/true; an orientation record (stored by the Euler controller under
      the same key) has no `x`/`y` at all. Both constructors share the
      `isEndOfLine` field, because marking a record adds the property to whatever
      object is last. */
  datatype Record =
    | PositionRecord(spelling: KeySpelling, deviceName: string, deviceId: string, pose: Pose,
                     isEndOfLine: Option<bool>, style: Option<DrawingState>)
    | AngleRecord(deviceName: string, deviceId: string, notify: int, angles: Angles,
                  isEndOfLine: Option<bool>)

  /** A `characteristicvaluechanged` notification: the characteristic's bytes and
      the name and id of the device that sent it. */
  datatype Notification = Notification(value: seq<byte>, deviceName: string, deviceId: string)

  /** JavaScript truthiness of `record.isEndOfLine`. */
  predicate IsEnd(r: Record) { r.isEndOfLine == Some(true) }

  /** `record.x !== undefined && record.y !== undefined`. */
  predicate HasXY(r: Record) { r.PositionRecord? }

  /** `lastPosition.isEndOfLine = true`. */
  function MarkEnd(r: Record): (m: Record)
    ensures IsEnd(m)
    ensures m.(isEndOfLine := r.isEndOfLine) == r
  {
    r.(isEndOfLine := Some(true))
  }

  /** The queue with its last record end-marked; an empty queue is left alone. */
  function MarkLast(s: seq<Record>): (r: seq<Record>)
    ensures |r| == |s|
    ensures forall i :: 0 <= i < |s| - 1 ==> r[i] == s[i]
    ensures |s| > 0 ==> r[|s| - 1] == MarkEnd(s[|s| - 1])
  {
    if |s| == 0 then s else s[|s| - 1 := MarkEnd(s[|s| - 1])]
  }

  /** Reading an absent key gives the empty queue (`getItem(k) || "[]"`). */
  function Get(m: map<string, seq<Record>>, k: string): seq<Record>
  {
    if k in m then m[k] else []
  }
}
