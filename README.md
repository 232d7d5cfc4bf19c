# toio cube demos: a verified model

A set of browser demos drives a toio cube over Web Bluetooth. The demos send motor, move-to and orientation-configuration frames, and they decode position and orientation notifications. Position samples go into a per-device log in `localStorage` through a write-behind queue that is flushed every five seconds. A lost signal marks the last sample as the end of a line. The drawing applications replay the log onto a canvas, step by step or whole.

The paint application stamps each sample with the current pen style. It scores a drawing against a model picture pixel by pixel, and it can send a stored path back to the cube as move-to commands.

This project models these pieces in Dafny and proves their properties:

- **Frame codec** (`codec.dfy`, on the byte reads and writes of `base.dfy`): the motor presets, the move-to frame, the orientation configuration frame, the position and orientation decoders, and the position-lost tag.
- **Write-behind store** (`store.dfy`): `localStorage` is a class holding a map from key to record array, with JSON taken as the identity. The queue and its single save interval are a class with `Push` and `Flush`. Value-level functions give the flushed store, the loss marking and the one-shot append.
- **Timers** (`timers.dfy`): `setInterval` and `clearInterval` as a value of live handles.
- **Replay** (`replay.dfy`): replays emit drawing operations, a segment between two stored points or a pen-lift, indexed into the history. Two renderings exist: step by step (`drawPoints`) and the whole history (`drawStoragePoints`).
- **Pen** (`pen.dfy`): the live pen's last point, with `null`, `NaN` and the `||` fallback.
- **One module per demo**, each holding the demo's own controllers with their fields and handlers:
  - `position_basic.dfy`: the position demo, whose controller the full application carries over unchanged;
  - `drawing_demo.dfy`: the drawing demo;
  - `toio.dfy`: the full application's orientation controller and drawing controller;
  - `paint.dfy`: the paint application;
  - `scoring.dfy`: the paint application's scorer;
  - `euler_demos.dfy`: the two orientation demos.

Conventions of the model:

- **Exceptions.** An exception thrown inside an event handler is a `Completion` result (`Normal` or `Thrown`). State written before the throw stays written.
- **Out-of-range reads.** A `DataView` read past the end is `None`.
- **Host effects.** Raised document events are method results, and each run of an interval is a method call (`SaveTick`, `ReplayTick`).
- **Image data.** Canvas image data is an array of RGBA pixels: the source's byte offset `i` is pixel `i / 4`.
- **Colour distance.** It is compared as a square against the tolerance squared.

## Model

| member | source | states |
|---|---|---|
| Base.GetUint16 | 3_PositionController/main.js:163-169 | a little-endian uint16 read succeeds exactly when two bytes are available at the offset, and yields a value in 0..65535 |
| Base.GetUint8 | 3_PositionController/main.js:125 | a byte read succeeds exactly when the offset lies inside the view, and yields that byte |
| Base.GetInt16 | 5-1_EulerianAnglesController/main.js:157-160 | a signed read succeeds exactly when two bytes are available, and yields the two's-complement value of the unsigned read, in -32768..32767 |
| Base.Le16RoundTrip | toioPaint/main.js:1010-1012 | the two bytes `setUint16(off, v, true)` writes read back as `v` modulo 2^16, wherever they sit in a buffer |
| Records.MarkLast | toioPaint/main.js:215-218 | setting `isEndOfLine` on the last record changes only that record and nothing when the array is empty |
| Codec.MotorCommandRoundTrip | 2_CubeController/main.js:53-70 | the seven-byte "run until next write" layout and its parser are inverse in both directions |
| Codec.PresetsAreMotorCommands | 2_CubeController/main.js:53-57 | every preset is seven bytes with control type 0x01, left id 0x01, right id 0x02 and directions in {0x01, 0x02} |
| Codec.PresetMeanings | 2_CubeController/main.js:53-57 | stop is both motors at speed 0; forward and backward drive both motors forward or backward at 0x30; right and left turn the motors in opposite directions |
| Codec.PresetsDifferInDirectionsOnly | toio/main.js:63-67 | backward, right and left agree with forward outside the direction bytes 2 and 5, and left is right with those bytes swapped |
| Codec.MoveToRoundTrip | toioPaint/main.js:998-1012 | the 13-byte move-to frame decodes back to x, y and angle, each reduced to 16 bits |
| Codec.ParseMoveToExact | toioPaint/main.js:998-1012 | every frame the move-to parser accepts is exactly the frame its target encodes to |
| Codec.EulerConfigRoundTrip | toio/main.js:694 | configuration frames and their parser are inverse in both directions |
| Codec.EulerConfigMeaning | 5-1_EulerianAnglesController/main.js:55-67 | the bytes sent, `1d 00 01 01 01`, request Euler angles every 10 ms, on change only (command byte 0x1d; the layout comment's 0x0d is not what is sent) |
| Codec.DecodePose | 3_PositionController/main.js:163-169 | a position frame decodes exactly when it has at least 13 bytes, into six uint16 fields |
| Codec.PositionFrameFields | toioPaint/main.js:261-267 | field k of a position frame sits little-endian at bytes 2k+1 and 2k+2 |
| Codec.DecodePositionFrame | toioPaint/main.js:261-267 | decoding a frame built from a pose gives the pose back, whatever the tag and trailing bytes |
| Codec.EncodeDecodedPose | toio/main.js:279-285 | the first 13 bytes of any decodable frame are the frame of its tag and decoded pose |
| Codec.DecodeIgnoresTag | 3_PositionController/main.js:163-169 | the position decoder never looks at byte 0, so a loss tag in a long frame still decodes |
| Codec.IsPositionMissed | 3_PositionController/main.js:122-130 | the loss test throws on an empty frame and holds exactly when byte 0 is 0x03 |
| Codec.DecodeEuler | toio/main.js:786-794 | with the guard its reads need, an orientation frame decodes exactly when it has at least 8 bytes, into the kind byte and three int16 angles |
| Codec.DecodeEulerFrame | 5-2_EulerianAnglesController-toioCube/main.js:159-167 | decoding an orientation frame gives back its kind and three signed angles |
| Codec.EulerGuardsAdmitShortFrames | toio/main.js:786-794 | every frame of 6 or 7 bytes passes the `>= 6` guard, and the yaw read at offset 6 fails on it; 7-byte frames also pass `>= 7` |
| Codec.SevenByteEulerFrame | 5-1_EulerianAnglesController/main.js:156-160 | a concrete seven-byte frame passes both written guards and its yaw read fails |
| Timers.Intervals.Start | toioPaint/main.js:678 | `setInterval` hands out a fresh positive handle and makes it live |
| Timers.Intervals.Stop | toioPaint/main.js:690-693 | `clearInterval(h)` removes `h` from the live handles, and is a no-op on a handle that is not live |
| Store.LocalStorage.SetItem | toioPaint/main.js:778-780 | writing a key replaces that key's array and nothing else |
| Store.FlushKeepsHistory | 3_PositionController/main.js:219-226 | a flush neither loses, duplicates nor reorders a record: persisted-then-queued history is the same before and after |
| Store.FlushAppendsQueue | toioPaint/main.js:763-768 | after a flush a key holds its old array (an absent key reads as `[]`) followed by its queue, and keys without a queue are untouched |
| Store.FlushOfEmptyQueues | 4_DrawingController/main.js:228-236 | flushing queues that are all empty leaves every key's contents unchanged |
| Store.TwoCachesFlush | toio/main.js:820-836 | the position queue and the orientation queue flushing into one store concatenate both, and neither removes what the other wrote |
| Store.SampleCache.Push | 3_PositionController/main.js:212-218 | appends exactly one record to the key's queue, which is created on first use; starts the save interval only if none exists, so at most one is ever created |
| Store.SampleCache.Flush | 3_PositionController/main.js:219-226 | writes old array ++ queue for every queued key, empties every queue and keeps each key's history |
| Store.SampleCache.MarkLastQueued | 4_DrawingController/main.js:141-146 | end-marks the last queued record of the key in place and nothing else |
| Store.MarkLastStored | 4_DrawingController/main.js:149-155 | end-marks the last persisted record of the key, changes no other key, and leaves the store alone when the key's array is empty |
| Store.MarkLastCached | toioPaint/main.js:215-218 | end-marks the last queued record of the key and changes no other queue |
| Store.LossMarksBothParts | 4_DrawingController/main.js:141-155 | marking both parts end-marks the last persisted record and the last queued record of the history, not only its last record |
| Store.MarkLatestMarksHistory | 4_DrawingController/main.js:141-155 | marking only the most recent record (queued if any, persisted otherwise) end-marks exactly the last record of the key's history |
| Store.AppendNow | 3_PositionController/main.js:255-261 | a one-shot read appends exactly one record to the key's array at once and changes no other key |
| Store.OnceLandsBeforeQueue | 3_PositionController/main.js:255-261 | a one-shot record lands before the continuous records still queued for the key, so stored order follows flush time, not arrival time |
| Replay.RenderSegments | toioPaint/main.js:701-714 | step-by-step rendering draws a segment into point t exactly when t is rendered, is not the first, and its predecessor is not end-marked |
| Replay.RenderPenLifts | toioPaint/main.js:701-714 | it lifts the pen at exactly the rendered end-marked points |
| Replay.RenderExtends | toioPaint/main.js:701-714 | rendering further only adds operations after those already drawn |
| Replay.RenderOrdered | toioPaint/main.js:701-714 | operations come out in point order and each belongs to a rendered point |
| Replay.StorageRenderSegments | 4_DrawingController/main.js:478-488 | whole-history rendering draws a segment exactly between consecutive points that are both unmarked |
| Replay.StorageRenderPenLifts | 4_DrawingController/main.js:478-488 | it lifts the pen at exactly the end-marked points |
| Replay.RenderingsDisagreeIntoEndMarks | 4_DrawingController/main.js:530-544 | the two renderings differ exactly on the segments into an end-marked point, which only the step-by-step rendering draws |
| Replay.ThreePointReplay | 4_DrawingController/main.js:530-544 | on `[A, B(end), C]` the slider draws A to B and lifts at B, and the whole-history replay only lifts at B |
| Pen.StrokeTo | 4_DrawingController/main.js:436-463 | a stroke ends at its target; each start coordinate is the pen's where that is truthy and the target's where it is `null`, `NaN` or 0 |
| Pen.StrokeAfterReset | 4_DrawingController/main.js:403-406 | the first stroke after a reset is a dot at its target |
| Pen.StrokeAfterAngleRecord | 4_DrawingController/main.js:442-443 | after a record without coordinates (`NaN` for both) the next stroke is a dot at its target |
| Pen.StrokeContinues | 4_DrawingController/main.js:442-443 | a stroke continues from the last point exactly in the coordinates that are non-zero; a 0 coordinate is taken as no point |
| Pen.PenState.DrawTo | 4_DrawingController/main.js:436-463 | draws the stroke from the pen's old point and moves the pen to the target |
| Pen.PenState.Finish | 4_DrawingController/main.js:403-413 | `drawFinish` and `replayDrawFinish` reset the pen to null |
| PositionBasic.PositionController.DecodePositionDataContinuous | 3_PositionController/main.js:156-209 | a frame of at least 13 bytes overwrites the pose, raises the update and queues one record without `isEndOfLine` under the device id; shorter frames change nothing |
| PositionBasic.PositionController.SaveTick | 3_PositionController/main.js:219-226 | one run of the save interval is the flush |
| PositionBasic.PositionController.DecodePositionDataOnce | 3_PositionController/main.js:231-271 | a decodable one-shot frame overwrites the pose and appends its record to the device id's array immediately, bypassing the queue |
| PositionBasic.PositionController.PositionMissed | toio/main.js:238-246 | raises the loss event exactly when byte 0 is 0x03, throws on an empty frame, and changes no state |
| PositionBasic.ContinuousRecord | 3_PositionController/main.js:179-188 | the queued record has the pose, the device name and id under the standard keys, and no `isEndOfLine` at all |
| PositionBasic.OnceRecord | 3_PositionController/main.js:243-252 | the one-shot record has the pose and the device name and id under the misspelled keys `daviceName` and `deviceID`, and no `isEndOfLine` |
| DrawingDemo.ContinuousRecord | 4_DrawingController/main.js:200-215 | the queued record carries the pose, the device id and `isEndOfLine` false |
| DrawingDemo.PositionController.PositionMissed | 4_DrawingController/main.js:126-157 | on a 0x03 frame end-marks the last queued and last persisted records of the device id, writing back only a non-empty array; otherwise no change |
| DrawingDemo.PositionController.DecodePositionDataContinuous | 4_DrawingController/main.js:180-219 | as in the position demo, with the record's `isEndOfLine` false |
| DrawingDemo.PositionController.SaveTick | 4_DrawingController/main.js:222-238 | one run of the save interval is the flush |
| DrawingDemo.PositionController.DecodePositionDataOnce | 4_DrawingController/main.js:241-281 | the one-shot read appends its record to the device id's array at once |
| DrawingDemo.LossMarkingSplitsPath | 4_DrawingController/main.js:141-155 | with one persisted and one queued sample, a loss end-marks both, so the replay lifts the pen between them |
| DrawingDemo.PointOps | 4_DrawingController/main.js:530-544 | `drawPoints` throws only on `null` data, draws point `index`'s step when it exists, and otherwise only logs |
| DrawingDemo.DrawingController.constructor | 4_DrawingController/main.js:286-318 | starts with no pen point, drawing off, data `{}`, no replay and no timer |
| DrawingDemo.DrawingController.StartDrawing | 4_DrawingController/main.js:425-427 | turns drawing on and changes nothing else |
| DrawingDemo.DrawingController.StopDrawing | 4_DrawingController/main.js:429-431 | turns drawing off and changes nothing else |
| DrawingDemo.DrawingController.Draw | 4_DrawingController/main.js:436-463 | draws from the pen to the pose shifted by the mat offset, which becomes the pen's point |
| DrawingDemo.DrawingController.OnPositionUpdated | 4_DrawingController/main.js:416-423 | draws only while drawing is active |
| DrawingDemo.DrawingController.OnPositionMissed | 4_DrawingController/main.js:403-406 | resets the pen while drawing is active |
| DrawingDemo.DrawingController.StopReplay | 4_DrawingController/main.js:525-528 | clears the current interval and ends the replay |
| DrawingDemo.DrawingController.UpdateSlider | 4_DrawingController/main.js:493-500 | stops the replay, sets the slider maximum to length - 1 and installs the input handler |
| DrawingDemo.DrawingController.DrawStoragePoints | 4_DrawingController/main.js:471-491 | draws the whole-history rendering of the key's array and resets the pen if any point is end-marked; an absent key throws before drawing |
| DrawingDemo.DrawingController.DrawPoints | 4_DrawingController/main.js:530-544 | draws the one step of point `index` and resets the pen exactly when it lifts |
| DrawingDemo.DrawingController.SliderInput | 4_DrawingController/main.js:496-498 | once installed, slider input draws the chosen point's step and resets the pen exactly when it lifts |
| DrawingDemo.DrawingController.StartReplay | 4_DrawingController/main.js:502-523 | the new interval is the only live one; its closure captures index 0, the loaded data and the previous handle |
| DrawingDemo.DrawingController.ReplayTick | 4_DrawingController/main.js:514-522 | each tick draws the next point's step and resets the pen exactly when the step lifts, and the ticks so far draw exactly the step-by-step rendering; past the end it clears the stale handle, so the interval keeps running and the replay never ends by itself |
| ToioApp.AngleRecordOf | toio/main.js:800-813 | the queued orientation record has no coordinates and no end mark, and carries the device id and the angles |
| ToioApp.EulerianAnglesController.constructor | toio/main.js:696-702 | starts with angles 0, 0, 0, no kind read yet, an empty queue of its own, and the position controller's storage |
| ToioApp.EulerianAnglesController.DecodeEulerianAnglesContinuous | toio/main.js:769-817 | frames under 6 bytes change nothing; 6- and 7-byte frames write kind, roll and pitch, then throw; longer frames decode, raise the update and queue one record under the device id |
| ToioApp.EulerianAnglesController.SaveTick | toio/main.js:820-836 | the orientation queue's own flush into the shared store |
| ToioApp.GuardAgreesOnPositions | toio/main.js:641-650 | on unmarked position records the `drawPoints` guard draws exactly the step the drawing demo draws |
| ToioApp.GuardSkipsAngleRecords | toio/main.js:641-650 | no segment reaches or leaves an orientation record stored under the same key |
| ToioApp.DrawingController.constructor | toio/main.js:395-423 | starts with no pen point, drawing off, data `{}`, no replay and no slider handler |
| ToioApp.DrawingController.StartDrawing | toio/main.js:545-547 | turns drawing on and keeps the data, timers and replay |
| ToioApp.DrawingController.StopDrawing | toio/main.js:549-551 | turns drawing off and keeps the data, timers and replay |
| ToioApp.DrawingController.Draw | toio/main.js:556-583 | draws from the pen to the pose shifted by the mat offset, which becomes the pen's point |
| ToioApp.DrawingController.OnPositionUpdated | toio/main.js:536-543 | draws only while drawing is active and otherwise leaves the pen alone |
| ToioApp.DrawingController.OnPositionMissed | toio/main.js:455-458 | resets the pen exactly while drawing is active |
| ToioApp.DrawingController.SliderInput | toio/main.js:607-609 | once installed, slider input draws the segment into the chosen point and moves the pen there when the guard holds, and otherwise draws nothing and leaves the pen |
| ToioApp.DrawingController.DrawStoragePoints | toio/main.js:591-602 | every stored point is drawn as a stroke from the previous point through the pen's `||` fallback, the pen ends at the last stored point (unchanged for an empty array), and the slider is updated |
| ToioApp.DrawingController.DrawPoints | toio/main.js:641-650 | draws the segment into `index` when both points have coordinates and moves the pen there; otherwise draws nothing; `null` data throws |
| ToioApp.DrawingController.StartReplay | toio/main.js:613-634 | the new interval is the only live one and its closure captures the previous handle |
| ToioApp.DrawingController.ReplayTick | toio/main.js:625-633 | each tick draws the segment into the next point and moves the pen there when the guard holds, and otherwise draws nothing and leaves the pen; past the end it clears the stale handle, so the replay never ends by itself |
| ToioApp.DrawingController.StopReplay | toio/main.js:636-639 | clears the current interval and ends the replay |
| ToioApp.DrawingController.UpdateSlider | toio/main.js:604-610 | stops the replay and sets the slider maximum to length - 1 |
| Paint.Styled | toioPaint/main.js:755-758 | the stored sample is the data with the current drawing state's keys winning and every other field kept |
| Paint.StorageController.constructor | toioPaint/main.js:736-745 | an empty queue, no interval, and the initial pen `#000000`, 1, 3 |
| Paint.StorageController.UpdateDrawingState | toioPaint/main.js:747-749 | replaces the drawing state |
| Paint.StorageController.StorePositionData | toioPaint/main.js:751-771 | queues exactly one styled record under the device name, creating the queue on first use, and starts at most one interval |
| Paint.StorageController.GetData | toioPaint/main.js:773-776 | the key's parsed array, `[]` for an absent key |
| Paint.StorageController.SaveData | toioPaint/main.js:778-780 | writes the key's array and nothing else |
| Paint.StorageController.SaveTick | toioPaint/main.js:762-769 | one run of the save interval is the flush |
| Paint.ContinuousRecord | toioPaint/main.js:276-286 | the sample carries the pose, the device name and `isEndOfLine` false |
| Paint.PositionController.DecodePositionDataContinuous | toioPaint/main.js:254-304 | a frame of at least 13 bytes overwrites the pose, raises the update and queues one styled record under the device name; shorter frames change nothing |
| Paint.PositionController.PositionMissed | toioPaint/main.js:201-228 | on a 0x03 frame end-marks the last queued and last persisted records of the device name, writing back only a non-empty array; throws on an empty frame; otherwise no change |
| Paint.PositionController.DecodePositionDataOnce | toioPaint/main.js:307-344 | a decodable one-shot frame overwrites the pose and then throws, because the controller has no `storage`; nothing is stored |
| Paint.PositionController.DecodePositionDataOnceIntended | toioPaint/main.js:327-337 | the one-shot read with the store it evidently meant: appends its record to the device name's array at once |
| Paint.DrawingController.constructor | toioPaint/main.js:349-367 | the pen starts as `#000000`, 1, 3 |
| Paint.DrawingController.SetColor | toioPaint/main.js:517-521 | sets the colour and passes the whole pen setting on to the storage controller |
| Paint.DrawingController.SetAlpha | toioPaint/main.js:523-528 | sets the alpha and passes the whole pen setting on |
| Paint.DrawingController.SetLineWidth | toioPaint/main.js:530-534 | sets the width and passes the whole pen setting on |
| Paint.ReplayKeepsRecordedStyle | toioPaint/main.js:716-723 | a sample stored under a pen style with truthy fields replays in that style, whatever the pen is set to later |
| Paint.ZeroAlphaTakesPenAlpha | toioPaint/main.js:721-722 | a recorded alpha of 0 is falsy and replays with the pen's alpha instead |
| Paint.SegmentStyle | toioPaint/main.js:716-723 | a segment takes the pen's style when its end point has no recorded style; otherwise each field is the recorded one when that is truthy and the pen's otherwise |
| Paint.ReplayController.constructor | toioPaint/main.js:638-644 | no data, no replay and no live interval |
| Paint.ReplayController.DrawPoints | toioPaint/main.js:701-714 | redraws points `0..index` from scratch as the step-by-step rendering; past the end it draws the whole history and then throws |
| Paint.ReplayController.StopReplay | toioPaint/main.js:690-693 | clears the current interval; never replaying afterwards |
| Paint.ReplayController.UpdateSlider | toioPaint/main.js:665-669 | stops the replay, sets the slider maximum to length - 1 and the value to 0 |
| Paint.ReplayController.DrawStoragePoints | toioPaint/main.js:658-663 | loads the name's array, resets the slider and draws point 0; an empty history throws |
| Paint.ReplayController.SliderInput | toioPaint/main.js:646-650 | slider input redraws up to the chosen point only when not replaying |
| Paint.ReplayController.SliderChange | toioPaint/main.js:652-655 | a slider change stops the replay, then redraws up to the chosen point |
| Paint.ReplayController.StartReplay | toioPaint/main.js:671-688 | clears the canvas, replaces any interval so exactly one is live, and replays from the slider's point |
| Paint.ReplayController.ReplayTick | toioPaint/main.js:678-687 | each tick moves the slider to the next point and redraws up to it; past the end it clears its own interval and ends the replay; every tick brings the end closer |
| Paint.MoveFrames | toioPaint/main.js:989-996 | one move-to frame per record, in order, aimed at the record's sensor position and angle |
| Paint.SetUint16 | toioPaint/main.js:1010-1012 | writes the two little-endian bytes at the offset and nothing else |
| Paint.CanvasToToio.constructor | toioPaint/main.js:974-980 | no history loaded (`{}`) |
| Paint.CanvasToToio.GetStorageData | toioPaint/main.js:981-983 | loads the name's array |
| Paint.CanvasToToio.MoveTo | toioPaint/main.js:998-1016 | the buffer sent is the move-to frame, which decodes back to the target reduced to 16 bits |
| Paint.CanvasToToio.ToioPoints | toioPaint/main.js:989-996 | sends one frame per record, in order, and then always throws on the point past the end; before loading it sends nothing |
| Paint.CanvasToToio.ToioPointsIntended | toioPaint/main.js:989-996 | with the bound `i < length` it sends one frame per record, in order, and ends normally |
| Scoring.Count | toioPaint/main.js:908-953 | the number of pixels with a given verdict among the first p is at most p |
| Scoring.Classify | toioPaint/main.js:908-953 | a pixel is drawn exactly when its alpha is non-zero, on the model exactly when drawn and the model pixel there has the target colour, and a match exactly when also close in colour to the model |
| Scoring.Marked | toioPaint/main.js:936-950 | a match is painted blue, a drawn pixel where the model is off the target colour red, and only drawn pixels inside the model's data ever change |
| Scoring.DrawnCountIsDrawnVerdicts | toioPaint/main.js:900-914 | the first loop's count of non-transparent pixels is the number of pixels the second loop treats as drawn |
| Scoring.CountMonotone | toioPaint/main.js:908-953 | counting a larger set of verdicts never counts fewer pixels |
| Scoring.CountEqualIff | toioPaint/main.js:908-953 | two nested verdict sets count the same exactly when no pixel has a verdict in the larger set only |
| Scoring.CountsOrdered | toioPaint/main.js:908-953 | matches <= pixels on the model colour <= drawn pixels |
| Scoring.ScoreIsPercentage | toioPaint/main.js:957 | the score is undefined exactly when nothing is drawn, otherwise lies in 0..100, and is 100 exactly when every drawn pixel is a match |
| Scoring.CountDrawnPixels | toioPaint/main.js:900-905 | the first loop counts the pixels with non-zero alpha |
| Scoring.CalculateSimilarity | toioPaint/main.js:888-962 | the counts are over the pixels before marking; a match is painted blue, a drawn pixel off the model colour red, every other pixel is untouched; the score is 100 * matches / drawn |
| EulerAnglesDemo.EulerianAnglesController.DecodeEulerianAnglesContinuous | 5-1_EulerianAnglesController/main.js:139-170 | frames under 7 bytes change nothing; a 7-byte frame writes kind, roll and pitch and then throws; longer frames decode all three signed angles |
| EulerCubeDemo.EulerianAnglesController.DecodeEulerianAnglesContinuous | 5-2_EulerianAnglesController-toioCube/main.js:142-176 | frames under 7 bytes change nothing; a 7-byte frame throws in the logging before any write; longer frames overwrite kind and angles and raise the update |

## Left out

- Web Bluetooth: connecting, notifications, `readValue` and `sendToioCommand` are I/O. Frames are parameters and results; the awaits between move-to commands are not modelled.
- DOM and UI: device lists, key displays, pen pickers, image upload and fitting, and the position and angle displays. The paint drawing controller's constructor reads its storage controller from a global; here it is a parameter.
- Canvas rendering: stroke colour, alpha, line cap and width are not drawn. Replays emit segments and pen-lifts; the paint replay's style choice is `Paint.SegmentStyle`, a separate function.
- Floating point: the paint application's `toioToCanvasCoords` scaling, and with it the paint demo's live `draw`, are left out. The drawing demo and the full application use integer offsets, which are modelled.
- The 3-D cube renderers (three.js) and their degree-to-radian rotation are left out.
- Output formatting: `toFixed(2)`, `alert` and console logging are left out. The score is an exact real, and `NaN` is `None`.
- Scoring.Within: decides `sqrt(d) <= tolerance` exactly on integers as `tolerance >= 0 && d <= tolerance²`. Float rounding of the square root at the boundary is not modelled.
- Timer scheduling: real time, interleaving of intervals with other events, and JSON (de)serialisation are left out. JSON is the identity, so a stored `"null"` string, which `JSON.parse` turns into `null`, is not representable in the store.
- Paint.ReplayController: the slider's clamping of values to `min..max` is not modelled; the handlers take the value the slider reports. The page's initial slider range is also not modelled. The unused `x`/`y` that `replayDrawFinish` sets on the replay controller are left out.
- Paint.StorageController.StorePositionData: requires a position record. The paint application only ever stores position samples, so the orientation case is not exercised.
- The full application's `Drawing3DController`, `CubeController` motor methods and `sendMotorCommand` are I/O around the presets, which are modelled as constants.

## Findings

| source | as written | input that shows it | evidently intended | confidence | as-written member | corrected member |
|---|---|---|---|---|---|---|
| toio/main.js:786-794 | the orientation decoder is guarded by `byteLength >= 6` (`>= 7` in 5-1_EulerianAnglesController/main.js:156 and 5-2_EulerianAnglesController-toioCube/main.js:159) but reads `getInt16(6)`, which needs 8 bytes | the 7-byte frame `03 01 b4 00 00 00 00`; for the full application any 6- or 7-byte frame | guard `byteLength >= 8`, so that every read is in bounds | not executed | Codec.SevenByteEulerFrame | Codec.DecodeEuler |
| toioPaint/main.js:990 | `toioPoints` loops `i <= this.storageData.length`, so after the last record it reads `storageData[length].sensorX` and throws | any loaded history, e.g. one record | `i < length`: one move-to per record, ending normally | not executed | Paint.CanvasToToio.ToioPoints | Paint.CanvasToToio.ToioPointsIntended |
| 4_DrawingController/main.js:141-155 | a signal loss end-marks both the last queued record and the last persisted record | one sample flushed to storage and one still queued when the loss frame arrives | only the most recent sample ends the line | not executed | DrawingDemo.LossMarkingSplitsPath | Store.MarkLatestMarksHistory |
| 4_DrawingController/main.js:508-521 | the replay closure clears `replayInterval` captured before the new interval is assigned, so the end-of-data branch never stops its own interval and `isReplaying` stays true (same at toio/main.js:619-632) | any replay run to the end of its data | clear the interval just created and end the replay, as the paint application does | not executed | DrawingDemo.DrawingController.ReplayTick | Paint.ReplayController.ReplayTick |
| toioPaint/main.js:331 | `decodePositionDataOnce` reads `this.storage`, which the paint position controller never sets, so the one-shot read throws after updating the pose and is never stored | any frame of 13 bytes or more | store through the storage controller under the device name | not executed | Paint.PositionController.DecodePositionDataOnce | Paint.PositionController.DecodePositionDataOnceIntended |
