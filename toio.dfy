/** The full application (`toio/main.js`). Its position controller is the
    position demo's (`PositionBasic`); it adds an orientation controller with
    its own queue and save interval writing to the same store, and a drawing
    controller whose replay draws only between neighbouring position records. */
module ToioApp {
  import opened Base
  import opened Records
  import opened Codec
  import opened Store
  import opened Timers
  import opened Replay
  import opened Pen
  import PositionBasic

  /** The record an orientation notification queues (no `x`/`y`). */
  function AngleRecordOf(n: Notification, r: EulerReading): (rec: Record)
    ensures !HasXY(rec) && !IsEnd(rec) && rec.deviceId == n.deviceId && rec.angles == r.angles
  {
    AngleRecord(n.deviceName, n.deviceId, r.notify, r.angles, None)
  }

  class EulerianAnglesController {
    var toioEulerianAngles: Angles
    /** `this.toioNorify`: undefined until the first frame. */
    var toioNotify: Option<byte>
    /** This controller's own `dataCache` and `saveInterval`. */
    const cache: SampleCache
    /** `this.storage = this.positionController.storage`. */
    const storage: LocalStorage

    ghost predicate Valid()
      reads this, cache
    {
      cache.Valid() && cache.storage == storage
    }

    constructor (positionController: PositionBasic.PositionController)
      ensures Valid() && fresh(cache)
      ensures storage == positionController.storage
      ensures toioEulerianAngles == Angles(0, 0, 0) && toioNotify.None?
      ensures cache.dataCache == map[] && !cache.saveInterval
    {
      toioEulerianAngles := Angles(0, 0, 0);
      toioNotify := None;
      storage := positionController.storage;
      cache := new SampleCache(positionController.storage);
    }

    /** `decodeEulerianAnglesContinuous`: guarded by `byteLength >= 6`, it reads
        the kind (byte 1) and the roll and pitch, then the yaw at offset 6. A
        frame of 6 or 7 bytes passes the guard and the yaw read throws, leaving
        kind, roll and pitch written and nothing queued. A frame of 8 bytes or
        more raises `EulerianAnglesUpdated` (the result) and queues one
        orientation record under the device id. */
    method DecodeEulerianAnglesContinuous(n: Notification) returns (updated: Option<Angles>, c: Completion)
      requires Valid()
      modifies this, cache
      ensures Valid()
      ensures c == Thrown <==> 6 <= |n.value| < EULER_FRAME_LENGTH
      ensures |n.value| < 6 ==> (
        && updated.None? && toioNotify == old(toioNotify) && toioEulerianAngles == old(toioEulerianAngles)
        && unchanged(cache))
      ensures c == Thrown ==> (
        && updated.None? && toioNotify == Some(n.value[1])
        && toioEulerianAngles == old(toioEulerianAngles).(x := GetInt16(n.value, 2).value, y := GetInt16(n.value, 4).value)
        && unchanged(cache))
      ensures |n.value| >= EULER_FRAME_LENGTH ==> (
        && toioNotify.Some?
        && DecodeEuler(n.value) == Some(EulerReading(toioNotify.value, toioEulerianAngles))
        && updated == Some(toioEulerianAngles)
        && cache.dataCache == old(cache.dataCache)[n.deviceId :=
             Get(old(cache.dataCache), n.deviceId) + [AngleRecordOf(n, DecodeEuler(n.value).value)]]
        && cache.saveInterval)
    {
      if |n.value| >= 6 {
        toioNotify := Some(n.value[1]);
        toioEulerianAngles := toioEulerianAngles.(x := GetInt16(n.value, 2).value);
        toioEulerianAngles := toioEulerianAngles.(y := GetInt16(n.value, 4).value);
        var z := GetInt16(n.value, 6);
        if z.None? {
          return None, Thrown;
        }
        toioEulerianAngles := toioEulerianAngles.(z := z.value);
        updated, c := Some(toioEulerianAngles), Normal;
        cache.Push(n.deviceId, AngleRecordOf(n, EulerReading(toioNotify.value, toioEulerianAngles)));
      } else {
        updated, c := None, Normal;
      }
    }

    /** One run of this controller's save interval: it appends the orientation
        queues to the shared store, after whatever the position queue's flushes
        wrote there. */
    method SaveTick()
      requires Valid() && cache.saveInterval
      modifies cache, storage
      ensures Valid()
      ensures storage.items == Flushed(old(storage.items), old(cache.dataCache))
      ensures cache.dataCache == Emptied(old(cache.dataCache))
    {
      cache.Flush();
    }
  }

  // ---------------------------------------------------------------------------
  // Drawing and replay
  // ---------------------------------------------------------------------------

  /** The guard of `drawPoints(index)`: a point with a predecessor, both with
      `x` and `y`. */
  predicate CanDrawSegment(d: seq<Record>, index: nat)
  {
    0 < index < |d| && HasXY(d[index]) && HasXY(d[index - 1])
  }

  /** On a history of unmarked position records the guard draws exactly what
      the drawing demo's step-by-step rendering draws. */
  lemma GuardAgreesOnPositions(d: seq<Record>, index: nat)
    requires index < |d|
    requires forall i :: 0 <= i < |d| ==> HasXY(d[i]) && !IsEnd(d[i])
    ensures (if CanDrawSegment(d, index) then [Segment(index - 1, index)] else []) == StepOps(d, index)
  {
  }

  /** Orientation records stored under the same key break the replay: no segment
      reaches or leaves one. */
  lemma GuardSkipsAngleRecords(d: seq<Record>, index: nat)
    requires index < |d| && !HasXY(d[index])
    ensures !CanDrawSegment(d, index) && !CanDrawSegment(d, index + 1)
  {
  }

  /** The stroke `drawStoragePoints` makes for stored point `i` when the pen
      started at `(x, y)`: from the previous point (the pen's start for the
      first one) to this point, through the `||` fallback. */
  function StoredStroke(x: Coord, y: Coord, d: seq<Record>, regX: int, regY: int, i: nat): Stroke
    requires i < |d|
  {
    var fromX := if i == 0 then x else CanvasX(d[i - 1], regX);
    var fromY := if i == 0 then y else CanvasY(d[i - 1], regY);
    StrokeTo(fromX, fromY, CanvasX(d[i], regX), CanvasY(d[i], regY))
  }

  class DrawingController {
    const pen: PenState
    const storage: LocalStorage
    const regX: int
    const regY: int
    var isDrawingActive: bool
    var storageData: Loaded
    var isReplaying: bool
    var replayInterval: nat
    var timers: Intervals
    var sliderMax: int
    var sliderWired: bool
    var runIndex: nat
    var runData: Loaded
    var runCaptured: nat

    ghost predicate Valid()
      reads this
    {
      && OnlyCurrent(timers, replayInterval)
      && runCaptured !in timers.live
      && (isReplaying <==> replayInterval in timers.live)
    }

    constructor (positionController: PositionBasic.PositionController, regX: int, regY: int)
      ensures Valid() && fresh(pen)
      ensures pen.x == Null && pen.y == Null
      ensures storage == positionController.storage && this.regX == regX && this.regY == regY
      ensures !isDrawingActive && !isReplaying && storageData == EmptyObject && !sliderWired
    {
      pen := new PenState();
      storage := positionController.storage;
      this.regX, this.regY := regX, regY;
      isDrawingActive := false;
      storageData := EmptyObject;
      isReplaying := false;
      replayInterval := 0;
      timers := NONE;
      sliderMax := 0;
      sliderWired := false;
      runIndex, runData, runCaptured := 0, EmptyObject, 0;
    }

    method StartDrawing()
      modifies this
      ensures isDrawingActive
      ensures old(Valid()) ==> Valid()
      ensures storageData == old(storageData) && timers == old(timers) && isReplaying == old(isReplaying)
    {
      isDrawingActive := true;
    }

    method StopDrawing()
      modifies this
      ensures !isDrawingActive
      ensures old(Valid()) ==> Valid()
      ensures storageData == old(storageData) && timers == old(timers) && isReplaying == old(isReplaying)
    {
      isDrawingActive := false;
    }

    /** `draw(info)` for a live pose. */
    method Draw(info: Pose) returns (s: Stroke)
      modifies pen
      ensures s == StrokeTo(old(pen.x), old(pen.y), At(info.x + regX), At(info.y + regY))
      ensures pen.x == At(info.x + regX) && pen.y == At(info.y + regY)
    {
      s := pen.DrawTo(At(info.x + regX), At(info.y + regY));
    }

    /** The `positionUpdated` listener. */
    method OnPositionUpdated(info: Pose) returns (s: Option<Stroke>)
      modifies pen
      ensures isDrawingActive ==> s == Some(StrokeTo(old(pen.x), old(pen.y), At(info.x + regX), At(info.y + regY)))
      ensures isDrawingActive ==> pen.x == At(info.x + regX) && pen.y == At(info.y + regY)
      ensures !isDrawingActive ==> s.None? && pen.x == old(pen.x) && pen.y == old(pen.y)
    {
      if isDrawingActive {
        var stroke := Draw(info);
        s := Some(stroke);
      } else {
        s := None;
      }
    }

    /** The `positionMissed` listener: `drawFinish` while drawing is active. */
    method OnPositionMissed()
      modifies pen
      ensures isDrawingActive ==> pen.x == Null && pen.y == Null
      ensures !isDrawingActive ==> pen.x == old(pen.x) && pen.y == old(pen.y)
    {
      if isDrawingActive {
        pen.Finish();
      }
    }

    method StopReplay()
      requires Valid()
      modifies this
      ensures Valid()
      ensures !isReplaying && timers.live == {}
      ensures timers == old(timers).Stop(old(replayInterval))
      ensures replayInterval == old(replayInterval) && storageData == old(storageData)
      ensures sliderMax == old(sliderMax) && sliderWired == old(sliderWired) && isDrawingActive == old(isDrawingActive)
    {
      timers := timers.Stop(replayInterval);
      isReplaying := false;
    }

    method UpdateSlider(length: int)
      requires Valid()
      modifies this
      ensures Valid()
      ensures !isReplaying && timers.live == {}
      ensures sliderMax == length - 1 && sliderWired
      ensures storageData == old(storageData) && isDrawingActive == old(isDrawingActive)
    {
      StopReplay();
      sliderMax := length - 1;
      sliderWired := true;
    }

    /** `drawStoragePoints()`: loads the key's array and runs `draw` on every
        record in order, so each record is joined to the one before it (a record
        without coordinates gives `NaN` and the next stroke is a dot); then
        updates the slider. An absent key parses to `null` and `forEach` throws. */
    method DrawStoragePoints(key: string) returns (strokes: seq<Stroke>, c: Completion)
      requires Valid()
      modifies this, pen
      ensures Valid()
      ensures isDrawingActive == old(isDrawingActive)
      ensures key !in storage.items ==> storageData == ParsedNull && c == Thrown && strokes == []
      ensures key !in storage.items ==> timers == old(timers) && pen.x == old(pen.x) && pen.y == old(pen.y)
      ensures key in storage.items ==> (
        var d := storage.items[key];
        && storageData == Array(d) && c == Normal
        && |strokes| == |d|
        && (forall i :: 0 <= i < |d| ==> strokes[i] == StoredStroke(old(pen.x), old(pen.y), d, regX, regY, i))
        && sliderMax == |d| - 1 && sliderWired && !isReplaying && timers.live == {}
        && (|d| == 0 ==> pen.x == old(pen.x) && pen.y == old(pen.y))
        && (|d| > 0 ==> pen.x == CanvasX(d[|d| - 1], regX) && pen.y == CanvasY(d[|d| - 1], regY)))
    {
      if key !in storage.items {
        storageData := ParsedNull;
        return [], Thrown;
      }
      var d := storage.items[key];
      storageData := Array(d);
      strokes := [];
      var i := 0;
      while i < |d|
        invariant 0 <= i <= |d|
        invariant Valid() && storageData == Array(d)
        invariant isDrawingActive == old(isDrawingActive) && storage.items == old(storage.items)
        invariant |strokes| == i
        invariant forall j :: 0 <= j < i ==> strokes[j] == StoredStroke(old(pen.x), old(pen.y), d, regX, regY, j)
        invariant i == 0 ==> pen.x == old(pen.x) && pen.y == old(pen.y)
        invariant i > 0 ==> pen.x == CanvasX(d[i - 1], regX) && pen.y == CanvasY(d[i - 1], regY)
      {
        var s := pen.DrawTo(CanvasX(d[i], regX), CanvasY(d[i], regY));
        strokes := strokes + [s];
        i := i + 1;
      }
      c := Normal;
      UpdateSlider(|d|);
    }

    /** `drawPoints(index)`: the single segment into `index` when the guard
        holds, moving the pen to the point drawn to; otherwise only an error is
        logged. `null` data throws on reading its length. */
    method DrawPoints(index: nat) returns (ops: seq<DrawOp>, c: Completion)
      modifies pen
      ensures c == Thrown <==> storageData.ParsedNull?
      ensures storageData.Array? && CanDrawSegment(storageData.records, index) ==> (
        && ops == [Segment(index - 1, index)]
        && pen.x == CanvasX(storageData.records[index], regX) && pen.y == CanvasY(storageData.records[index], regY))
      ensures !(storageData.Array? && CanDrawSegment(storageData.records, index)) ==> (
        ops == [] && pen.x == old(pen.x) && pen.y == old(pen.y))
    {
      match storageData
      case ParsedNull =>
        return [], Thrown;
      case EmptyObject =>
        return [], Normal;
      case Array(d) =>
        c := Normal;
        if CanDrawSegment(d, index) {
          ops := [Segment(index - 1, index)];
          pen.x, pen.y := CanvasX(d[index], regX), CanvasY(d[index], regY);
        } else {
          ops := [];
        }
    }

    method SliderInput(value: nat) returns (ops: seq<DrawOp>, c: Completion)
      modifies pen
      ensures sliderWired ==> (c == Thrown <==> storageData.ParsedNull?)
      ensures sliderWired && storageData.Array? && CanDrawSegment(storageData.records, value) ==> (
        && ops == [Segment(value - 1, value)]
        && pen.x == CanvasX(storageData.records[value], regX) && pen.y == CanvasY(storageData.records[value], regY))
      ensures !(sliderWired && storageData.Array? && CanDrawSegment(storageData.records, value)) ==> (
        ops == [] && pen.x == old(pen.x) && pen.y == old(pen.y))
      ensures !sliderWired ==> ops == [] && c == Normal && pen.x == old(pen.x) && pen.y == old(pen.y)
    {
      if sliderWired {
        ops, c := DrawPoints(value);
      } else {
        ops, c := [], Normal;
      }
    }

    /** `startReplay()`: as in the drawing demo, the closure captures the handle
        the field held before the new interval replaces it. */
    method StartReplay()
      requires Valid()
      modifies this
      ensures Valid()
      ensures isReplaying && timers.live == {replayInterval}
      ensures runIndex == 0 && runData == old(storageData) && runCaptured == old(replayInterval)
      ensures storageData == old(storageData) && isDrawingActive == old(isDrawingActive)
    {
      runIndex := 0;
      isReplaying := true;
      runData := storageData;
      runCaptured := replayInterval;
      timers := timers.Stop(runCaptured);
      var (t, h) := timers.Start();
      timers, replayInterval := t, h;
    }

    /** One run of the replay interval; past the end it clears the stale handle,
        so the interval keeps running and `isReplaying` stays true. */
    method ReplayTick() returns (ops: seq<DrawOp>, c: Completion)
      requires Valid() && replayInterval in timers.live
      modifies this, pen
      ensures Valid()
      ensures timers == old(timers) && isReplaying && replayInterval in timers.live
      ensures storageData == old(storageData) && runData == old(runData)
      ensures runData.ParsedNull? ==> c == Thrown && ops == [] && runIndex == old(runIndex)
      ensures runData.EmptyObject? ==> c == Normal && ops == [] && runIndex == old(runIndex)
      ensures runData.Array? && old(runIndex) >= |runData.records| ==> c == Normal && ops == [] && runIndex == old(runIndex)
      ensures runData.Array? && old(runIndex) < |runData.records| ==> (
        && (c == Thrown <==> storageData.ParsedNull?)
        && (c == Normal ==> runIndex == old(runIndex) + 1)
        && (c == Normal && storageData.Array? && CanDrawSegment(storageData.records, old(runIndex)) ==>
              ops == [Segment(old(runIndex) - 1, old(runIndex))]))
      ensures runData.Array? && old(runIndex) < |runData.records| && storageData.Array?
              && CanDrawSegment(storageData.records, old(runIndex)) ==>
        pen.x == CanvasX(storageData.records[old(runIndex)], regX) && pen.y == CanvasY(storageData.records[old(runIndex)], regY)
      ensures !(runData.Array? && old(runIndex) < |runData.records| && storageData.Array?
                && CanDrawSegment(storageData.records, old(runIndex))) ==>
        ops == [] && pen.x == old(pen.x) && pen.y == old(pen.y)
    {
      match runData
      case ParsedNull =>
        return [], Thrown;
      case EmptyObject =>
        timers := timers.Stop(runCaptured);
        return [], Normal;
      case Array(d) =>
        if runIndex < |d| {
          ops, c := DrawPoints(runIndex);
          if c == Normal {
            runIndex := runIndex + 1;
          }
        } else {
          timers := timers.Stop(runCaptured);
          ops, c := [], Normal;
        }
    }
  }
}
