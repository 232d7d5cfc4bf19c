/** The drawing demo (`4_DrawingController/main.js`): the position controller
    now end-marks the last sample on a signal loss, and the drawing controller
    draws live with the pen, redraws a stored history and replays it point by
    point on a 50 ms interval. */
module DrawingDemo {
  import opened Base
  import opened Records
  import opened Codec
  import opened Store
  import opened Timers
  import opened Replay
  import opened Pen
  import PositionBasic

  /** The record a continuous read queues here: `isEndOfLine: false`. */
  function ContinuousRecord(n: Notification, p: Pose): (r: Record)
    ensures HasXY(r) && !IsEnd(r) && r.pose == p && r.deviceId == n.deviceId
  {
    PositionRecord(Standard, n.deviceName, n.deviceId, p, Some(false), None)
  }

  class PositionController {
    var toioPosition: Pose
    const cache: SampleCache
    const storage: LocalStorage

    ghost predicate Valid()
      reads this, cache
    {
      toioPosition.Valid() && cache.Valid() && cache.storage == storage
    }

    constructor (storage: LocalStorage)
      ensures Valid() && fresh(cache)
      ensures this.storage == storage && toioPosition == ORIGIN
      ensures cache.dataCache == map[] && !cache.saveInterval
    {
      toioPosition := ORIGIN;
      this.storage := storage;
      cache := new SampleCache(storage);
    }

    /** `PositionMissed`: on a `0x03` frame raises `positionMissed` (the result),
        end-marks the last queued record of the device id and the last persisted
        one (writing the array back only when it is non-empty). Any other frame
        changes nothing; an empty frame makes `getUint8(0)` throw. */
    method PositionMissed(n: Notification) returns (missed: bool, c: Completion)
      requires Valid()
      modifies cache, storage
      ensures Valid()
      ensures c == Thrown <==> |n.value| == 0
      ensures missed <==> IsPositionMissed(n.value) == Some(true)
      ensures cache.saveInterval == old(cache.saveInterval)
      ensures missed ==> cache.dataCache == MarkLastCached(old(cache.dataCache), n.deviceId)
      ensures missed ==> storage.items == MarkLastStored(old(storage.items), n.deviceId)
      ensures !missed ==> cache.dataCache == old(cache.dataCache) && storage.items == old(storage.items)
    {
      var tag := GetUint8(n.value, 0);
      if tag.None? {
        return false, Thrown;
      }
      missed, c := tag.value == POSITION_MISSED_TAG, Normal;
      if missed {
        cache.MarkLastQueued(n.deviceId);
        var storagedData := storage.GetItem(n.deviceId);
        if |storagedData| > 0 {
          storagedData := MarkLast(storagedData);
          storage.SetItem(n.deviceId, storagedData);
        }
      }
    }

    /** `decodePositionDataContinuous`: as in the position demo, but the queued
        record carries `isEndOfLine: false`. */
    method DecodePositionDataContinuous(n: Notification) returns (updated: Option<Pose>)
      requires Valid()
      modifies this, cache
      ensures Valid()
      ensures updated == DecodePose(n.value)
      ensures updated.Some? ==> toioPosition == updated.value
      ensures updated.Some? ==> (cache.dataCache ==
        old(cache.dataCache)[n.deviceId := Get(old(cache.dataCache), n.deviceId) + [ContinuousRecord(n, updated.value)]])
      ensures updated.Some? ==> cache.saveInterval
      ensures updated.None? ==> toioPosition == old(toioPosition) && unchanged(cache)
    {
      if |n.value| >= POSITION_FRAME_LENGTH {
        toioPosition := DecodePose(n.value).value;
        updated := Some(toioPosition);
        cache.Push(n.deviceId, ContinuousRecord(n, toioPosition));
      } else {
        updated := None;
      }
    }

    /** One run of the save interval. */
    method SaveTick()
      requires Valid() && cache.saveInterval
      modifies cache, storage
      ensures Valid()
      ensures storage.items == Flushed(old(storage.items), old(cache.dataCache))
      ensures cache.dataCache == Emptied(old(cache.dataCache))
    {
      cache.Flush();
    }

    /** `decodePositionDataOnce`: unchanged from the position demo. */
    method DecodePositionDataOnce(deviceId: string, deviceName: string, value: seq<byte>)
      requires Valid()
      modifies this, storage
      ensures Valid() && unchanged(cache)
      ensures DecodePose(value).Some? ==> toioPosition == DecodePose(value).value
      ensures DecodePose(value).Some? ==> (storage.items ==
        AppendNow(old(storage.items), deviceId, PositionBasic.OnceRecord(deviceId, deviceName, toioPosition)))
      ensures DecodePose(value).None? ==> toioPosition == old(toioPosition) && storage.items == old(storage.items)
    {
      if |value| >= POSITION_FRAME_LENGTH {
        toioPosition := DecodePose(value).value;
        var deviceData := storage.GetItem(deviceId);
        deviceData := deviceData + [PositionBasic.OnceRecord(deviceId, deviceName, toioPosition)];
        storage.SetItem(deviceId, deviceData);
      }
    }
  }

  /** A loss while both the store and the queue hold records of the device: `A`
      persisted, `B` still queued, the pen having gone straight from `A` to `B`.
      Both get marked, so a replay no longer joins `A` to `B`; marking only the
      most recent record would have kept the segment. */
  lemma LossMarkingSplitsPath()
    ensures var a := PositionRecord(Standard, "cube", "id", ORIGIN, Some(false), None);
      var stored, cache := map["id" := [a]], map["id" := [a]];
      && History(MarkLastStored(stored, "id"), MarkLastCached(cache, "id"), "id") == [MarkEnd(a), MarkEnd(a)]
      && Segment(0, 1) !in Render([MarkEnd(a), MarkEnd(a)], 2)
      && History(MarkLatest(stored, cache, "id").0, MarkLatest(stored, cache, "id").1, "id") == [a, MarkEnd(a)]
      && Segment(0, 1) in Render([a, MarkEnd(a)], 2)
  {
    var a := PositionRecord(Standard, "cube", "id", ORIGIN, Some(false), None);
    var stored, cache := map["id" := [a]], map["id" := [a]];
    LossMarksBothParts(stored, cache, "id", "id");
    MarkLatestMarksHistory(stored, cache, "id", "id");
    assert MarkLast([a, a]) == [a, MarkEnd(a)];
    RenderSegments([MarkEnd(a), MarkEnd(a)], 2, 0, 1);
    RenderSegments([a, MarkEnd(a)], 2, 0, 1);
  }

  // ---------------------------------------------------------------------------
  // Drawing and replay
  // ---------------------------------------------------------------------------

  /** Whether some point among the first `n` is end-marked. */
  predicate AnyEnd(d: seq<Record>, n: nat)
    requires n <= |d|
  {
    exists j :: 0 <= j < n && IsEnd(d[j])
  }

  /** What `drawPoints(index)` draws on the loaded data: `None` when it throws
      (the data is `null`). An index past the end, or data still `{}`, only logs
      an error. */
  function PointOps(data: Loaded, index: nat): (r: Option<seq<DrawOp>>)
    ensures r.None? <==> data.ParsedNull?
    ensures data.Array? && index < |data.records| ==> r == Some(StepOps(data.records, index))
    ensures data.EmptyObject? || (data.Array? && index >= |data.records|) ==> r == Some([])
  {
    match data
    case ParsedNull => None
    case EmptyObject => Some([])
    case Array(d) => if index < |d| then Some(StepOps(d, index)) else Some([])
  }

  class DrawingController {
    const pen: PenState
    const storage: LocalStorage
    const regX: int
    const regY: int
    var isDrawingActive: bool
    var storageData: Loaded
    var isReplaying: bool
    var replayInterval: nat
    var timers: Intervals
    var sliderMax: int
    /** Whether `slider.oninput` has been installed (by `updateSlider`). */
    var sliderWired: bool
    /** The replay interval's closure: its index, the data and the handle it
        captured when it was created. */
    var runIndex: nat
    var runData: Loaded
    var runCaptured: nat
    /** The operations the replay ticks have drawn since the replay started. */
    ghost var replayed: seq<DrawOp>

    /** At most one interval runs, it is the current handle, and it runs exactly
        while `isReplaying`; the handle a running replay captured is not live. */
    ghost predicate Valid()
      reads this
    {
      && OnlyCurrent(timers, replayInterval)
      && runCaptured !in timers.live
      && (isReplaying <==> replayInterval in timers.live)
    }

    /** A replay whose closure still sees the loaded array has drawn exactly the
        step-by-step rendering of the points it has passed. */
    ghost predicate ReplayFaithful()
      reads this
    {
      && runData.Array?
      && storageData == runData
      && runIndex <= |runData.records|
      && replayed == Render(runData.records, runIndex)
    }

    constructor (storage: LocalStorage, regX: int, regY: int)
      ensures Valid() && fresh(pen)
      ensures pen.x == Null && pen.y == Null
      ensures this.storage == storage && this.regX == regX && this.regY == regY
      ensures !isDrawingActive && !isReplaying && storageData == EmptyObject && !sliderWired
    {
      pen := new PenState();
      this.storage := storage;
      this.regX, this.regY := regX, regY;
      isDrawingActive := false;
      storageData := EmptyObject;
      isReplaying := false;
      replayInterval := 0;
      timers := NONE;
      sliderMax := 0;
      sliderWired := false;
      runIndex, runData, runCaptured := 0, EmptyObject, 0;
      replayed := [];
    }

    method StartDrawing()
      modifies this
      ensures isDrawingActive
      ensures old(Valid()) ==> Valid()
      ensures storageData == old(storageData) && timers == old(timers) && isReplaying == old(isReplaying)
    {
      isDrawingActive := true;
    }

    method StopDrawing()
      modifies this
      ensures !isDrawingActive
      ensures old(Valid()) ==> Valid()
      ensures storageData == old(storageData) && timers == old(timers) && isReplaying == old(isReplaying)
    {
      isDrawingActive := false;
    }

    /** `draw(info)`: a stroke from the pen to the pose moved by the mat offset,
        which becomes the pen's point. */
    method Draw(info: Pose) returns (s: Stroke)
      modifies pen
      ensures s == StrokeTo(old(pen.x), old(pen.y), At(info.x + regX), At(info.y + regY))
      ensures pen.x == At(info.x + regX) && pen.y == At(info.y + regY)
    {
      s := pen.DrawTo(At(info.x + regX), At(info.y + regY));
    }

    /** The `positionUpdated` listener: draws only while drawing is active. */
    method OnPositionUpdated(info: Pose) returns (s: Option<Stroke>)
      modifies pen
      ensures isDrawingActive ==> s == Some(StrokeTo(old(pen.x), old(pen.y), At(info.x + regX), At(info.y + regY)))
      ensures isDrawingActive ==> pen.x == At(info.x + regX) && pen.y == At(info.y + regY)
      ensures !isDrawingActive ==> s.None? && pen.x == old(pen.x) && pen.y == old(pen.y)
    {
      if isDrawingActive {
        var stroke := Draw(info);
        s := Some(stroke);
      } else {
        s := None;
      }
    }

    /** The `positionMissed` listener: `drawFinish` while drawing is active, so
        the next stroke starts afresh. */
    method OnPositionMissed()
      modifies pen
      ensures isDrawingActive ==> pen.x == Null && pen.y == Null
      ensures !isDrawingActive ==> pen.x == old(pen.x) && pen.y == old(pen.y)
    {
      if isDrawingActive {
        pen.Finish();
      }
    }

    /** `stopReplay`: clears the current interval and ends the replay. */
    method StopReplay()
      requires Valid()
      modifies this
      ensures Valid()
      ensures !isReplaying && timers.live == {}
      ensures timers == old(timers).Stop(old(replayInterval))
      ensures replayInterval == old(replayInterval) && storageData == old(storageData)
      ensures sliderMax == old(sliderMax) && sliderWired == old(sliderWired) && isDrawingActive == old(isDrawingActive)
    {
      timers := timers.Stop(replayInterval);
      isReplaying := false;
    }

    /** `updateSlider(length)`: stops any replay, sets the slider's maximum to
        `length - 1` and installs the `oninput` handler. */
    method UpdateSlider(length: int)
      requires Valid()
      modifies this
      ensures Valid()
      ensures !isReplaying && timers.live == {}
      ensures sliderMax == length - 1 && sliderWired
      ensures storageData == old(storageData) && isDrawingActive == old(isDrawingActive)
    {
      StopReplay();
      sliderMax := length - 1;
      sliderWired := true;
    }

    /** `drawStoragePoints()`: loads the key's array and draws it whole: an
        end-marked point lifts the pen, any other point is joined to an unmarked
        predecessor; then updates the slider. An absent key parses to `null`,
        and reading its length throws before anything is drawn. */
    method DrawStoragePoints(key: string) returns (ops: seq<DrawOp>, c: Completion)
      requires Valid()
      modifies this, pen
      ensures Valid()
      ensures isDrawingActive == old(isDrawingActive)
      ensures key !in storage.items ==> storageData == ParsedNull && c == Thrown && ops == []
      ensures key !in storage.items ==> timers == old(timers) && isReplaying == old(isReplaying)
      ensures key !in storage.items ==> pen.x == old(pen.x) && pen.y == old(pen.y)
      ensures key in storage.items ==> (
        var d := storage.items[key];
        && storageData == Array(d) && c == Normal
        && ops == StorageRender(d, |d|)
        && sliderMax == |d| - 1 && sliderWired && !isReplaying && timers.live == {}
        && (if AnyEnd(d, |d|) then pen.x == Null && pen.y == Null
            else pen.x == old(pen.x) && pen.y == old(pen.y)))
    {
      if key !in storage.items {
        storageData := ParsedNull;
        return [], Thrown;
      }
      var d := storage.items[key];
      storageData := Array(d);
      ops := [];
      var i := 0;
      while i < |d|
        invariant 0 <= i <= |d|
        invariant Valid() && storageData == Array(d)
        invariant isDrawingActive == old(isDrawingActive) && storage.items == old(storage.items)
        invariant ops == StorageRender(d, i)
        invariant AnyEnd(d, i) ==> pen.x == Null && pen.y == Null
        invariant !AnyEnd(d, i) ==> pen.x == old(pen.x) && pen.y == old(pen.y)
      {
        if IsEnd(d[i]) {
          pen.Finish();
          ops := ops + [PenLift(i)];
        } else if i > 0 && !IsEnd(d[i - 1]) {
          ops := ops + [Segment(i - 1, i)];
        }
        i := i + 1;
      }
      c := Normal;
      UpdateSlider(|d|);
    }

    /** `drawPoints(index)`: the work of one point, a segment from its
        predecessor unless that one is end-marked, then a pen-lift (resetting the
        pen) if the point itself is end-marked. */
    method DrawPoints(index: nat) returns (ops: seq<DrawOp>, c: Completion)
      modifies pen
      ensures c == Thrown <==> PointOps(storageData, index).None?
      ensures c == Normal ==> ops == PointOps(storageData, index).value
      ensures c == Thrown ==> ops == []
      ensures if PenLift(index) in ops then pen.x == Null && pen.y == Null
              else pen.x == old(pen.x) && pen.y == old(pen.y)
    {
      match storageData
      case ParsedNull =>
        return [], Thrown;
      case EmptyObject =>
        return [], Normal;
      case Array(d) =>
        ops, c := [], Normal;
        if index < |d| {
          if index > 0 && !IsEnd(d[index - 1]) {
            ops := ops + [Segment(index - 1, index)];
          }
          if IsEnd(d[index]) {
            pen.Finish();
            ops := ops + [PenLift(index)];
          }
        }
    }

    /** The slider's `oninput`, once installed: draws the chosen point. */
    method SliderInput(value: nat) returns (ops: seq<DrawOp>, c: Completion)
      modifies pen
      ensures sliderWired ==> (c == Thrown <==> PointOps(storageData, value).None?)
      ensures sliderWired && c == Normal ==> ops == PointOps(storageData, value).value
      ensures if PenLift(value) in ops then pen.x == Null && pen.y == Null
              else pen.x == old(pen.x) && pen.y == old(pen.y)
      ensures !sliderWired ==> ops == [] && c == Normal && pen.x == old(pen.x) && pen.y == old(pen.y)
    {
      if sliderWired {
        ops, c := DrawPoints(value);
      } else {
        ops, c := [], Normal;
      }
    }

    /** `startReplay()`: the new interval's closure starts at index 0 with the
        loaded data and the handle the field held before; that old interval is
        cleared and a new one started. */
    method StartReplay()
      requires Valid()
      modifies this
      ensures Valid()
      ensures isReplaying && timers.live == {replayInterval}
      ensures runIndex == 0 && runData == old(storageData) && runCaptured == old(replayInterval)
      ensures storageData == old(storageData) && isDrawingActive == old(isDrawingActive)
      ensures storageData.Array? ==> ReplayFaithful()
    {
      runIndex := 0;
      isReplaying := true;
      runData := storageData;
      runCaptured := replayInterval;
      timers := timers.Stop(runCaptured);
      var (t, h) := timers.Start();
      timers, replayInterval := t, h;
      replayed := [];
    }

    /** One run of the replay interval. While the captured data has points left
        it moves the slider, draws the point and advances. Past the end it clears
        the handle it captured, which is no longer live: the interval is never
        stopped by its own ticks and `isReplaying` stays true. Data that is
        `null` throws on every tick. */
    method ReplayTick() returns (ops: seq<DrawOp>, c: Completion)
      requires Valid() && replayInterval in timers.live
      modifies this, pen
      ensures Valid()
      ensures timers == old(timers) && isReplaying && replayInterval in timers.live
      ensures storageData == old(storageData) && runData == old(runData) && runCaptured == old(runCaptured)
      ensures runData.ParsedNull? ==> c == Thrown && ops == [] && runIndex == old(runIndex)
      ensures runData.EmptyObject? ==> c == Normal && ops == [] && runIndex == old(runIndex)
      ensures runData.Array? && old(runIndex) >= |runData.records| ==> c == Normal && ops == [] && runIndex == old(runIndex)
      ensures runData.Array? && old(runIndex) < |runData.records| ==> (
        && (c == Thrown <==> PointOps(storageData, old(runIndex)).None?)
        && (c == Normal ==> ops == PointOps(storageData, old(runIndex)).value && runIndex == old(runIndex) + 1)
        && (c == Thrown ==> ops == [] && runIndex == old(runIndex)))
      ensures if PenLift(old(runIndex)) in ops then pen.x == Null && pen.y == Null
              else pen.x == old(pen.x) && pen.y == old(pen.y)
      ensures old(ReplayFaithful()) ==> ReplayFaithful()
    {
      match runData
      case ParsedNull =>
        return [], Thrown;
      case EmptyObject =>
        timers := timers.Stop(runCaptured);
        return [], Normal;
      case Array(d) =>
        if runIndex < |d| {
          ops, c := DrawPoints(runIndex);
          if c == Normal {
            replayed := replayed + ops;
            runIndex := runIndex + 1;
          }
        } else {
          timers := timers.Stop(runCaptured);
          ops, c := [], Normal;
        }
    }
  }
}
