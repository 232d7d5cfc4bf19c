/** The position controller of the position demo, which the full application
    (`toio/main.js`) carries over unchanged: position notifications overwrite
    the cube's pose and are queued per device id for the five-second flush; a
    one-shot read is appended to the store at once; a loss frame only raises an
    event. */
module PositionBasic {
  import opened Base
  import opened Records
  import opened Codec
  import opened Store

  /** The record a continuous read queues: no `isEndOfLine` property at all. */
  function ContinuousRecord(n: Notification, p: Pose): (r: Record)
    ensures HasXY(r) && !IsEnd(r) && r.isEndOfLine.None?
    ensures r.pose == p && r.deviceId == n.deviceId && r.deviceName == n.deviceName && r.spelling == Standard
  {
    PositionRecord(Standard, n.deviceName, n.deviceId, p, None, None)
  }

  /** The record a one-shot read persists, under the misspelled name and id keys. */
  function OnceRecord(deviceId: string, deviceName: string, p: Pose): (r: Record)
    ensures HasXY(r) && !IsEnd(r) && r.isEndOfLine.None?
    ensures r.pose == p && r.deviceId == deviceId && r.deviceName == deviceName && r.spelling == Misspelled
  {
    PositionRecord(Misspelled, deviceName, deviceId, p, None, None)
  }

  class PositionController {
    var toioPosition: Pose
    /** `this.dataCache` and `this.saveInterval`. */
    const cache: SampleCache
    /** `this.storage = localStorage`. */
    const storage: LocalStorage

    ghost predicate Valid()
      reads this, cache
    {
      toioPosition.Valid() && cache.Valid() && cache.storage == storage
    }

    constructor (storage: LocalStorage)
      ensures Valid() && fresh(cache)
      ensures this.storage == storage && toioPosition == ORIGIN
      ensures cache.dataCache == map[] && !cache.saveInterval
    {
      toioPosition := ORIGIN;
      this.storage := storage;
      cache := new SampleCache(storage);
    }

    /** `decodePositionDataContinuous`: a frame of at least 13 bytes overwrites
        the whole pose, raises `positionUpdated` with it (the result) and queues
        one record under the device id; a shorter frame changes nothing. */
    method DecodePositionDataContinuous(n: Notification) returns (updated: Option<Pose>)
      requires Valid()
      modifies this, cache
      ensures Valid()
      ensures updated == DecodePose(n.value)
      ensures updated.Some? ==> toioPosition == updated.value
      ensures updated.Some? ==> (cache.dataCache ==
        old(cache.dataCache)[n.deviceId := Get(old(cache.dataCache), n.deviceId) + [ContinuousRecord(n, updated.value)]])
      ensures updated.Some? ==>
        forall k :: cache.HistoryOf(k) ==
          if k == n.deviceId then old(cache.HistoryOf(k)) + [ContinuousRecord(n, updated.value)] else old(cache.HistoryOf(k))
      ensures updated.Some? ==> cache.saveInterval
      ensures updated.None? ==> toioPosition == old(toioPosition) && unchanged(cache)
    {
      if |n.value| >= POSITION_FRAME_LENGTH {
        toioPosition := DecodePose(n.value).value;
        updated := Some(toioPosition);
        cache.Push(n.deviceId, ContinuousRecord(n, toioPosition));
      } else {
        updated := None;
      }
    }

    /** One run of the save interval started by the first queued record. */
    method SaveTick()
      requires Valid() && cache.saveInterval
      modifies cache, storage
      ensures Valid()
      ensures storage.items == Flushed(old(storage.items), old(cache.dataCache))
      ensures cache.dataCache == Emptied(old(cache.dataCache))
      ensures forall k :: cache.HistoryOf(k) == old(cache.HistoryOf(k))
    {
      cache.Flush();
    }

    /** `decodePositionDataOnce`: a frame of at least 13 bytes overwrites the pose
        and its record is appended to the device id's stored array by
        read-modify-write, bypassing the queue; a shorter frame changes nothing. */
    method DecodePositionDataOnce(deviceId: string, deviceName: string, value: seq<byte>)
      requires Valid()
      modifies this, storage
      ensures Valid() && unchanged(cache)
      ensures DecodePose(value).Some? ==> toioPosition == DecodePose(value).value
      ensures DecodePose(value).Some? ==> (storage.items ==
        AppendNow(old(storage.items), deviceId, OnceRecord(deviceId, deviceName, toioPosition)))
      ensures DecodePose(value).None? ==> toioPosition == old(toioPosition) && storage.items == old(storage.items)
    {
      if |value| >= POSITION_FRAME_LENGTH {
        toioPosition := DecodePose(value).value;
        var deviceData := storage.GetItem(deviceId);
        deviceData := deviceData + [OnceRecord(deviceId, deviceName, toioPosition)];
        storage.SetItem(deviceId, deviceData);
      }
    }

    /** `PositionMissed`: raises `positionMissed` (the result) exactly when byte 0
        is `0x03`, and changes no state; an empty frame makes `getUint8(0)` throw. */
    method PositionMissed(n: Notification) returns (missed: bool, c: Completion)
      ensures c == Thrown <==> |n.value| == 0
      ensures missed <==> |n.value| > 0 && n.value[0] == POSITION_MISSED_TAG
    {
      var tag := GetUint8(n.value, 0);
      if tag.None? {
        return false, Thrown;
      }
      missed, c := tag.value == POSITION_MISSED_TAG, Normal;
    }
  }
}
