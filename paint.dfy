/** The paint application (`toioPaint/main.js`): a storage controller owning the
    queue and the pen style stamped on every sample, a position controller
    keyed by device name, a replay controller that redraws the history up to the
    slider's point from scratch, and the command path that sends a stored
    history back to the cube as move-to frames. */
module Paint {
  import opened Base
  import opened Records
  import opened Codec
  import opened Store
  import opened Timers
  import opened Replay

  // ---------------------------------------------------------------------------
  // Storage controller
  // ---------------------------------------------------------------------------

  /** `{...data, ...currentDrawingState}`: the drawing-state keys win, every other
      property of the sample is kept. */
  function Styled(data: Record, st: DrawingState): (r: Record)
    requires data.PositionRecord?
    ensures r.PositionRecord? && r.style == Some(st)
    ensures r.(style := data.style) == data
  {
    data.(style := Some(st))
  }

  class StorageController {
    /** `this.storage = localStorage`. */
    const storage: LocalStorage
    /** `this.dataCache` and `this.saveInterval`. */
    const cache: SampleCache
    var currentDrawingState: DrawingState

    ghost predicate Valid()
      reads this, cache
    {
      cache.Valid() && cache.storage == storage
    }

    constructor (storage: LocalStorage)
      ensures Valid() && fresh(cache)
      ensures this.storage == storage && currentDrawingState == INITIAL_DRAWING_STATE
      ensures cache.dataCache == map[] && !cache.saveInterval
    {
      this.storage := storage;
      cache := new SampleCache(storage);
      currentDrawingState := INITIAL_DRAWING_STATE;
    }

    /** `updateDrawingState(color, alpha, lineWidth)`. */
    method UpdateDrawingState(color: string, alpha: Scalar, lineWidth: Scalar)
      modifies this
      ensures currentDrawingState == DrawingState(color, alpha, lineWidth)
    {
      currentDrawingState := DrawingState(color, alpha, lineWidth);
    }

    /** `storePositionData(deviceName, data)`: queues the sample stamped with the
        current pen style, creating the queue on first use, and starts the save
        interval unless it exists. */
    method StorePositionData(deviceName: string, data: Record)
      requires Valid() && data.PositionRecord?
      modifies cache
      ensures Valid()
      ensures cache.dataCache == old(cache.dataCache)[deviceName :=
        Get(old(cache.dataCache), deviceName) + [Styled(data, currentDrawingState)]]
      ensures cache.saveInterval && cache.timersCreated == 1
      ensures
        forall k :: cache.HistoryOf(k) ==
          if k == deviceName then old(cache.HistoryOf(k)) + [Styled(data, currentDrawingState)] else old(cache.HistoryOf(k))
    {
      cache.Push(deviceName, Styled(data, currentDrawingState));
    }

    /** `getData(deviceName)`: the parsed array, `[]` for an absent key. */
    function GetData(deviceName: string): (r: seq<Record>)
      reads storage
      ensures deviceName !in storage.items ==> r == []
      ensures deviceName in storage.items ==> r == storage.items[deviceName]
    {
      storage.GetItem(deviceName)
    }

    /** `saveData(deviceName, data)`. */
    method SaveData(deviceName: string, data: seq<Record>)
      modifies storage
      ensures storage.items == old(storage.items)[deviceName := data]
    {
      storage.SetItem(deviceName, data);
    }

    /** One run of the save interval (`getData(name) || []`, concatenation,
        `saveData`, reset), the same flush as the other demos'. */
    method SaveTick()
      requires Valid() && cache.saveInterval
      modifies cache, storage
      ensures Valid()
      ensures storage.items == Flushed(old(storage.items), old(cache.dataCache))
      ensures cache.dataCache == Emptied(old(cache.dataCache))
      ensures forall k :: cache.HistoryOf(k) == old(cache.HistoryOf(k))
    {
      cache.Flush();
    }
  }

  // ---------------------------------------------------------------------------
  // Position controller
  // ---------------------------------------------------------------------------

  /** The sample a continuous read hands to the storage controller. */
  function ContinuousRecord(n: Notification, p: Pose): (r: Record)
    ensures r.PositionRecord? && !IsEnd(r) && r.pose == p && r.deviceName == n.deviceName
  {
    PositionRecord(Standard, n.deviceName, n.deviceId, p, Some(false), None)
  }

  class PositionController {
    var toioPosition: Pose
    const storageController: StorageController

    ghost predicate Valid()
      reads this, storageController, storageController.cache
    {
      toioPosition.Valid() && storageController.Valid()
    }

    constructor (storageController: StorageController)
      requires storageController.Valid()
      ensures Valid()
      ensures this.storageController == storageController && toioPosition == ORIGIN
    {
      toioPosition := ORIGIN;
      this.storageController := storageController;
    }

    /** `decodePositionDataContinuous`: a frame of at least 13 bytes overwrites
        the pose, raises `positionUpdated` (the result) and queues the styled
        sample under the device name; a shorter frame changes nothing. */
    method DecodePositionDataContinuous(n: Notification) returns (updated: Option<Pose>)
      requires Valid()
      modifies this, storageController.cache
      ensures Valid()
      ensures updated == DecodePose(n.value)
      ensures updated.Some? ==> toioPosition == updated.value
      ensures updated.Some? ==> (storageController.cache.dataCache ==
        old(storageController.cache.dataCache)[n.deviceName := Get(old(storageController.cache.dataCache), n.deviceName)
          + [Styled(ContinuousRecord(n, updated.value), storageController.currentDrawingState)]])
      ensures updated.None? ==> toioPosition == old(toioPosition) && unchanged(storageController.cache)
    {
      if |n.value| >= POSITION_FRAME_LENGTH {
        toioPosition := DecodePose(n.value).value;
        updated := Some(toioPosition);
        storageController.StorePositionData(n.deviceName, ContinuousRecord(n, toioPosition));
      } else {
        updated := None;
      }
    }

    /** `PositionMissed`: on a `0x03` frame raises `positionMissed` (the result)
        and end-marks the last queued and the last persisted sample of the
        device name, writing the persisted array back only when non-empty. */
    method PositionMissed(n: Notification) returns (missed: bool, c: Completion)
      requires Valid()
      modifies storageController.cache, storageController.storage
      ensures Valid()
      ensures c == Thrown <==> |n.value| == 0
      ensures missed <==> IsPositionMissed(n.value) == Some(true)
      ensures missed ==> (
        && storageController.cache.dataCache == MarkLastCached(old(storageController.cache.dataCache), n.deviceName)
        && storageController.storage.items == MarkLastStored(old(storageController.storage.items), n.deviceName))
      ensures !missed ==> (
        && storageController.cache.dataCache == old(storageController.cache.dataCache)
        && storageController.storage.items == old(storageController.storage.items))
    {
      var tag := GetUint8(n.value, 0);
      if tag.None? {
        return false, Thrown;
      }
      missed, c := tag.value == POSITION_MISSED_TAG, Normal;
      if missed {
        storageController.cache.MarkLastQueued(n.deviceName);
        var storagedData := storageController.GetData(n.deviceName);
        if |storagedData| > 0 {
          storageController.SaveData(n.deviceName, MarkLast(storagedData));
        }
      }
    }

    /** `decodePositionDataOnce` as written: this controller has no `storage`
        property, so after the pose is overwritten `this.storage.getItem` throws
        and the reading is never stored. */
    method DecodePositionDataOnce(deviceId: string, deviceName: string, value: seq<byte>) returns (c: Completion)
      requires Valid()
      modifies this
      ensures Valid()
      ensures c == Thrown <==> DecodePose(value).Some?
      ensures DecodePose(value).Some? ==> toioPosition == DecodePose(value).value
      ensures DecodePose(value).None? ==> toioPosition == old(toioPosition)
    {
      if |value| >= POSITION_FRAME_LENGTH {
        toioPosition := DecodePose(value).value;
        return Thrown;
      }
      return Normal;
    }

    /** The one-shot read as evidently intended: the record is appended at once
        to the device name's array of the storage controller's store. */
    method DecodePositionDataOnceIntended(deviceId: string, deviceName: string, value: seq<byte>)
      requires Valid()
      modifies this, storageController.storage
      ensures Valid()
      ensures DecodePose(value).Some? ==> toioPosition == DecodePose(value).value
      ensures DecodePose(value).Some? ==> (storageController.storage.items ==
        AppendNow(old(storageController.storage.items), deviceName,
                  PositionRecord(Misspelled, deviceName, deviceId, toioPosition, None, None)))
      ensures DecodePose(value).None? ==> (
        toioPosition == old(toioPosition) && storageController.storage.items == old(storageController.storage.items))
    {
      if |value| >= POSITION_FRAME_LENGTH {
        toioPosition := DecodePose(value).value;
        var deviceData := storageController.GetData(deviceName);
        deviceData := deviceData + [PositionRecord(Misspelled, deviceName, deviceId, toioPosition, None, None)];
        storageController.SaveData(deviceName, deviceData);
      }
    }
  }

  // ---------------------------------------------------------------------------
  // Pen style
  // ---------------------------------------------------------------------------

  /** JavaScript truthiness of a style value. */
  predicate TruthyScalar(s: Scalar)
  {
    match s
    case Num(n) => n != 0
    case Text(t) => t != ""
  }

  /** The pen settings of the drawing controller; every change is passed on to
      the storage controller. */
  class DrawingController {
    var color: string
    var alpha: Scalar
    var lineWidth: Scalar
    const storageController: StorageController

    constructor (storageController: StorageController)
      ensures this.storageController == storageController
      ensures DrawingState(color, alpha, lineWidth) == INITIAL_DRAWING_STATE
    {
      this.storageController := storageController;
      color, alpha, lineWidth := "#000000", Num(1), Num(3);
    }

    method SetColor(value: string)
      modifies this, storageController
      ensures color == value && alpha == old(alpha) && lineWidth == old(lineWidth)
      ensures storageController.currentDrawingState == DrawingState(color, alpha, lineWidth)
    {
      color := value;
      storageController.UpdateDrawingState(color, alpha, lineWidth);
    }

    method SetAlpha(value: Scalar)
      modifies this, storageController
      ensures alpha == value && color == old(color) && lineWidth == old(lineWidth)
      ensures storageController.currentDrawingState == DrawingState(color, alpha, lineWidth)
    {
      alpha := value;
      storageController.UpdateDrawingState(color, alpha, lineWidth);
    }

    method SetLineWidth(value: Scalar)
      modifies this, storageController
      ensures lineWidth == value && color == old(color) && alpha == old(alpha)
      ensures storageController.currentDrawingState == DrawingState(color, alpha, lineWidth)
    {
      lineWidth := value;
      storageController.UpdateDrawingState(color, alpha, lineWidth);
    }
  }

  /** The style `ReplayDraw` strokes a segment with: each of the end point's
      recorded colour, alpha and width if truthy, the pen's otherwise. */
  function SegmentStyle(to: Record, pen: DrawingState): (r: DrawingState)
    ensures !(to.PositionRecord? && to.style.Some?) ==> r == pen
    ensures to.PositionRecord? && to.style.Some? ==> (
      && (r.color == to.style.value.color <==> to.style.value.color != "" || pen.color == to.style.value.color)
      && (r.color != to.style.value.color ==> r.color == pen.color)
      && (r.alpha == pen.alpha || (r.alpha == to.style.value.alpha && TruthyScalar(r.alpha)))
      && (r.lineWidth == pen.lineWidth || (r.lineWidth == to.style.value.lineWidth && TruthyScalar(r.lineWidth))))
  {
    var own := if to.PositionRecord? then to.style else None;
    DrawingState(
      if own.Some? && own.value.color != "" then own.value.color else pen.color,
      if own.Some? && TruthyScalar(own.value.alpha) then own.value.alpha else pen.alpha,
      if own.Some? && TruthyScalar(own.value.lineWidth) then own.value.lineWidth else pen.lineWidth)
  }

  /** A sample stored under a style with truthy fields replays in that style,
      whatever the pen is set to at replay time. */
  lemma ReplayKeepsRecordedStyle(data: Record, st: DrawingState, pen: DrawingState)
    requires data.PositionRecord?
    requires st.color != "" && TruthyScalar(st.alpha) && TruthyScalar(st.lineWidth)
    ensures SegmentStyle(Styled(data, st), pen) == st
  {
  }

  /** A recorded alpha of 0 is falsy: the segment takes the pen's alpha instead. */
  lemma ZeroAlphaTakesPenAlpha(data: Record, st: DrawingState, pen: DrawingState)
    requires data.PositionRecord? && st.alpha == Num(0)
    ensures SegmentStyle(Styled(data, st), pen).alpha == pen.alpha
  {
  }

  // ---------------------------------------------------------------------------
  // Replay controller
  // ---------------------------------------------------------------------------

  class ReplayController {
    const storageController: StorageController
    var storageData: seq<Record>
    var replayInterval: nat
    var isReplaying: bool
    var timers: Intervals
    /** The slider's `max` and `value`. The page's initial range is not part of
        this model; both start at 0. */
    var sliderMax: int
    var sliderValue: nat
    /** The interval closure's `index`. */
    var runIndex: nat
    /** What the draw canvas shows: the operations since its last clear. */
    var canvas: seq<DrawOp>

    /** At most one interval runs, it is the current handle, and it runs exactly
        while `isReplaying`. */
    ghost predicate Valid()
      reads this
    {
      OnlyCurrent(timers, replayInterval) && (isReplaying <==> replayInterval in timers.live)
    }

    /** Ticks until the running replay stops itself: one per remaining point and
        one to stop. */
    function TicksLeft(): nat
      reads this
    {
      if !isReplaying then 0
      else if runIndex < |storageData| then |storageData| - runIndex + 1
      else 1
    }

    constructor (storageController: StorageController)
      ensures Valid()
      ensures this.storageController == storageController
      ensures storageData == [] && !isReplaying && timers.live == {} && canvas == []
    {
      this.storageController := storageController;
      storageData := [];
      replayInterval := 0;
      isReplaying := false;
      timers := NONE;
      sliderMax, sliderValue := 0, 0;
      runIndex := 0;
      canvas := [];
    }

    /** `drawPoints(index)`: clears the canvas and renders points `0 .. index`
        afresh. Asking past the end renders the whole history and then throws on
        the missing point. */
    method DrawPoints(index: nat) returns (ops: seq<DrawOp>, c: Completion)
      ensures index < |storageData| ==> c == Normal && ops == Render(storageData, index + 1)
      ensures index >= |storageData| ==> c == Thrown && ops == Render(storageData, |storageData|)
    {
      var data := storageData;
      ops := [];
      var i := 0;
      while i <= index
        invariant 0 <= i <= index + 1 && i <= |data|
        invariant ops == Render(data, i)
      {
        if i == |data| {
          return ops, Thrown;
        }
        if i > 0 && !IsEnd(data[i - 1]) {
          ops := ops + [Segment(i - 1, i)];
        }
        if IsEnd(data[i]) {
          ops := ops + [PenLift(i)];
        }
        i := i + 1;
      }
      c := Normal;
    }

    /** `stopReplay()`: clears the current interval; never replaying afterwards. */
    method StopReplay()
      requires Valid()
      modifies this
      ensures Valid()
      ensures !isReplaying && timers.live == {}
      ensures timers == old(timers).Stop(old(replayInterval)) && replayInterval == old(replayInterval)
      ensures storageData == old(storageData) && canvas == old(canvas)
      ensures sliderMax == old(sliderMax) && sliderValue == old(sliderValue) && runIndex == old(runIndex)
    {
      timers := timers.Stop(replayInterval);
      isReplaying := false;
    }

    /** `updateSlider(length)`: stops the replay, sets `max` to `length - 1` and
        the value back to 0. */
    method UpdateSlider(length: int)
      requires Valid()
      modifies this
      ensures Valid()
      ensures !isReplaying && timers.live == {}
      ensures sliderMax == length - 1 && sliderValue == 0
      ensures storageData == old(storageData) && canvas == old(canvas)
    {
      StopReplay();
      sliderMax := length - 1;
      sliderValue := 0;
    }

    /** `drawStoragePoints(deviceName)`: loads the name's array, resets the
        slider and draws point 0. An empty history throws on the missing point. */
    method DrawStoragePoints(deviceName: string) returns (c: Completion)
      requires Valid()
      modifies this
      ensures Valid()
      ensures storageData == storageController.GetData(deviceName)
      ensures sliderMax == |storageData| - 1 && sliderValue == 0
      ensures !isReplaying && timers.live == {}
      ensures c == Thrown <==> |storageData| == 0
      ensures canvas == Render(storageData, if |storageData| == 0 then 0 else 1)
    {
      storageData := storageController.GetData(deviceName);
      UpdateSlider(|storageData|);
      var ops;
      ops, c := DrawPoints(sliderValue);
      canvas := ops;
    }

    /** The slider's `oninput`: redraws up to the chosen point unless a replay
        is running. */
    method SliderInput(value: nat) returns (c: Completion)
      requires Valid()
      modifies this
      ensures Valid()
      ensures sliderValue == value && isReplaying == old(isReplaying) && timers == old(timers)
      ensures storageData == old(storageData)
      ensures old(isReplaying) ==> canvas == old(canvas) && c == Normal
      ensures !old(isReplaying) ==> canvas == Render(storageData, if value < |storageData| then value + 1 else |storageData|)
      ensures !old(isReplaying) ==> (c == Thrown <==> value >= |storageData|)
    {
      sliderValue := value;
      c := Normal;
      if !isReplaying {
        var ops;
        ops, c := DrawPoints(value);
        canvas := ops;
      }
    }

    /** The slider's `onchange`: stops any replay, then redraws up to the chosen
        point. */
    method SliderChange(value: nat) returns (c: Completion)
      requires Valid()
      modifies this
      ensures Valid()
      ensures sliderValue == value && !isReplaying && timers.live == {}
      ensures storageData == old(storageData)
      ensures canvas == Render(storageData, if value < |storageData| then value + 1 else |storageData|)
      ensures c == Thrown <==> value >= |storageData|
    {
      sliderValue := value;
      StopReplay();
      var ops;
      ops, c := DrawPoints(value);
      canvas := ops;
    }

    /** `startReplay()`: clears the canvas, replaces any running interval by a
        new one, and replays from the slider's point. */
    method StartReplay()
      requires Valid()
      modifies this
      ensures Valid()
      ensures isReplaying && timers.live == {replayInterval}
      ensures runIndex == old(sliderValue) && canvas == []
      ensures storageData == old(storageData) && sliderValue == old(sliderValue)
    {
      runIndex := sliderValue;
      isReplaying := true;
      canvas := [];
      timers := timers.Stop(replayInterval);
      var (t, h) := timers.Start();
      timers, replayInterval := t, h;
    }

    /** One run of the replay interval: while points remain it moves the slider
        to the next point and redraws up to it; then it clears its own interval
        and ends the replay. Every tick brings the end closer. */
    method ReplayTick()
      requires Valid() && isReplaying
      modifies this
      ensures Valid()
      ensures TicksLeft() < old(TicksLeft())
      ensures storageData == old(storageData)
      ensures old(runIndex) < |storageData| ==> (
        && isReplaying && timers == old(timers)
        && sliderValue == old(runIndex) && runIndex == old(runIndex) + 1
        && canvas == Render(storageData, runIndex))
      ensures old(runIndex) >= |storageData| ==> !isReplaying && timers.live == {} && canvas == old(canvas)
    {
      if runIndex < |storageData| {
        sliderValue := runIndex;
        var ops, c := DrawPoints(runIndex);
        canvas := ops;
        runIndex := runIndex + 1;
      } else {
        timers := timers.Stop(replayInterval);
        isReplaying := false;
      }
    }
  }

  // ---------------------------------------------------------------------------
  // Sending a history back to the cube
  // ---------------------------------------------------------------------------

  /** The target `toioPoints` reads from a record: its reading-sensor position
      and angle. A record without them gives `undefined`, which `setUint16`
      writes as 0. */
  function SensorTarget(r: Record): (int, int, int)
  {
    if r.PositionRecord? then (r.pose.sensorX, r.pose.sensorY, r.pose.sensorAngle) else (0, 0, 0)
  }

  /** The move-to frames for the first `n` records, in order. */
  function MoveFrames(d: seq<Record>, n: nat): (fs: seq<seq<byte>>)
    requires n <= |d|
    ensures |fs| == n
    ensures forall i :: 0 <= i < n ==> fs[i] == MoveToFrame(SensorTarget(d[i]).0, SensorTarget(d[i]).1, SensorTarget(d[i]).2)
  {
    if n == 0 then [] else MoveFrames(d, n - 1) + [MoveToFrame(SensorTarget(d[n - 1]).0, SensorTarget(d[n - 1]).1, SensorTarget(d[n - 1]).2)]
  }

  /** `DataView.setUint16(off, v, true)`. */
  method SetUint16(buf: array<byte>, off: nat, v: int)
    requires off + 2 <= buf.Length
    modifies buf
    ensures buf[off..off + 2] == Le16(v)
    ensures forall j :: 0 <= j < buf.Length && j != off && j != off + 1 ==> buf[j] == old(buf[j])
  {
    var b := Le16(v);
    buf[off] := b[0];
    buf[off + 1] := b[1];
  }

  class CanvasToToio {
    const storageController: StorageController
    /** `{}` until a history is loaded. */
    var storageData: Loaded

    constructor (storageController: StorageController)
      ensures this.storageController == storageController && storageData == EmptyObject
    {
      this.storageController := storageController;
      storageData := EmptyObject;
    }

    /** `getStorageData(deviceName)`. */
    method GetStorageData(deviceName: string)
      modifies this
      ensures storageData == Array(storageController.GetData(deviceName))
    {
      storageData := Array(storageController.GetData(deviceName));
    }

    /** `moveTo(x, y, angle)`: the thirteen-byte buffer it fills and sends; the
        frame reads back as the target reduced to 16 bits. */
    method MoveTo(x: int, y: int, angle: int) returns (frame: seq<byte>)
      ensures frame == MoveToFrame(x, y, angle)
      ensures ParseMoveTo(frame) == Some((x % U16_RANGE, y % U16_RANGE, angle % U16_RANGE))
    {
      var buf := new byte[13];
      buf[0], buf[1], buf[2], buf[3], buf[4], buf[5], buf[6] := 0x03, 0x00, 0x05, 0x00, 0x50, 0x00, 0x00;
      SetUint16(buf, 7, x);
      SetUint16(buf, 9, y);
      SetUint16(buf, 11, angle);
      assert buf[..] == buf[..7] + buf[7..9] + buf[9..11] + buf[11..13];
      frame := buf[..];
      MoveToRoundTrip(x, y, angle);
    }

    /** `toioPoints()` as written: the loop runs to `i <= length`, so after one
        frame per record it reads past the end and throws. Before any history is
        loaded `i <= undefined` is false and nothing is sent. `Loaded` is shared
        with the other demos; here `GetStorageData` always loads an array, so the
        `ParsedNull` case never arises in this application. */
    method ToioPoints() returns (frames: seq<seq<byte>>, c: Completion)
      ensures storageData.EmptyObject? ==> frames == [] && c == Normal
      ensures storageData.ParsedNull? ==> frames == [] && c == Thrown
      ensures storageData.Array? ==> (
        && c == Thrown
        && frames == MoveFrames(storageData.records, |storageData.records|))
    {
      match storageData
      case EmptyObject =>
        return [], Normal;
      case ParsedNull =>
        return [], Thrown;
      case Array(d) =>
        frames := [];
        var i := 0;
        while i <= |d|
          invariant 0 <= i <= |d|
          invariant frames == MoveFrames(d, i)
        {
          if i == |d| {
            return frames, Thrown;
          }
          var (sx, sy, sa) := SensorTarget(d[i]);
          var frame := MoveTo(sx, sy, sa);
          frames := frames + [frame];
          i := i + 1;
        }
        assert false;
    }

    /** The loop with the bound evidently intended (`i < length`): one frame per
        record, in order, and no error. */
    method ToioPointsIntended() returns (frames: seq<seq<byte>>, c: Completion)
      ensures storageData.Array? ==> c == Normal && frames == MoveFrames(storageData.records, |storageData.records|)
      ensures !storageData.Array? ==> frames == [] && (c == Thrown <==> storageData.ParsedNull?)
    {
      match storageData
      case EmptyObject =>
        return [], Normal;
      case ParsedNull =>
        return [], Thrown;
      case Array(d) =>
        frames := [];
        var i := 0;
        while i < |d|
          invariant 0 <= i <= |d|
          invariant frames == MoveFrames(d, i)
        {
          var (sx, sy, sa) := SensorTarget(d[i]);
          var frame := MoveTo(sx, sy, sa);
          frames := frames + [frame];
          i := i + 1;
        }
        c := Normal;
    }
  }
}
