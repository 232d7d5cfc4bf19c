/** What a replay draws from a loaded position history. Drawing is modelled by
    the operations it emits, named by index into the history: `Segment(i - 1, i)`
    is `ReplayDraw(data[i - 1], data[i])`, a line between two stored points, and
    `PenLift(i)` is `replayDrawFinish()` at point `i`, the end of the current path. */
module Replay {
  import opened Records

  datatype DrawOp = Segment(from: nat, to: nat) | PenLift(at: nat)

  /** The point an operation belongs to: the end point of a segment, the point
      of a pen-lift. */
  function PointOf(op: DrawOp): nat
  {
    match op
    case Segment(_, t) => t
    case PenLift(i) => i
  }

  // ---------------------------------------------------------------------------
  // Step-by-step rendering (paint demo `drawPoints`, drawing demo `drawPoints`)
  // ---------------------------------------------------------------------------

  /** The work done for point `i`: a segment from the previous point unless that
      point is end-marked, then a pen-lift if point `i` itself is end-marked. */
  function StepOps(data: seq<Record>, i: nat): seq<DrawOp>
    requires i < |data|
  {
    (if i > 0 && !IsEnd(data[i - 1]) then [Segment(i - 1, i)] else [])
    + (if IsEnd(data[i]) then [PenLift(i)] else [])
  }

  /** The operations for points `0 .. n - 1`, in order. */
  function Render(data: seq<Record>, n: nat): seq<DrawOp>
    requires n <= |data|
    decreases n
  {
    if n == 0 then [] else Render(data, n - 1) + StepOps(data, n - 1)
  }

  /** A segment is drawn into point `t` exactly when `t` is among the rendered
      points, is not the first, and the point before it is not end-marked: no
      segment ever starts at an end-marked point. */
  lemma {:induction false} RenderSegments(data: seq<Record>, n: nat, f: nat, t: nat)
    requires n <= |data|
    ensures Segment(f, t) in Render(data, n) <==> f + 1 == t < n && !IsEnd(data[f])
  {
    if n > 0 {
      RenderSegments(data, n - 1, f, t);
    }
  }

  /** A pen-lift is emitted at point `i` exactly when `i` is rendered and
      end-marked. */
  lemma {:induction false} RenderPenLifts(data: seq<Record>, n: nat, i: nat)
    requires n <= |data|
    ensures PenLift(i) in Render(data, n) <==> i < n && IsEnd(data[i])
  {
    if n > 0 {
      RenderPenLifts(data, n - 1, i);
    }
  }

  /** Rendering further extends the rendering so far: a replay that advances the
      index only adds operations after the ones already drawn. */
  lemma {:induction false} RenderExtends(data: seq<Record>, m: nat, n: nat)
    requires m <= n <= |data|
    ensures Render(data, m) <= Render(data, n)
    decreases n - m
  {
    if m < n {
      RenderExtends(data, m, n - 1);
    }
  }

  /** Operations come out in point order, and every operation belongs to a
      rendered point. */
  lemma {:induction false} RenderOrdered(data: seq<Record>, n: nat)
    requires n <= |data|
    ensures forall j :: 0 <= j < |Render(data, n)| ==> PointOf(Render(data, n)[j]) < n
    ensures forall j, k :: 0 <= j < k < |Render(data, n)| ==> PointOf(Render(data, n)[j]) <= PointOf(Render(data, n)[k])
  {
    if n > 0 {
      RenderOrdered(data, n - 1);
      var prev, step := Render(data, n - 1), StepOps(data, n - 1);
      assert Render(data, n) == prev + step;
      assert forall j :: 0 <= j < |step| ==> PointOf(step[j]) == n - 1;
    }
  }

  // ---------------------------------------------------------------------------
  // Whole-history rendering of the drawing demo (`drawStoragePoints`)
  // ---------------------------------------------------------------------------

  /** An end-marked point only lifts the pen; any other point gets a segment
      from the previous point unless that one is end-marked. */
  function StorageStepOps(data: seq<Record>, i: nat): seq<DrawOp>
    requires i < |data|
  {
    if IsEnd(data[i]) then [PenLift(i)]
    else if i > 0 && !IsEnd(data[i - 1]) then [Segment(i - 1, i)]
    else []
  }

  function StorageRender(data: seq<Record>, n: nat): seq<DrawOp>
    requires n <= |data|
    decreases n
  {
    if n == 0 then [] else StorageRender(data, n - 1) + StorageStepOps(data, n - 1)
  }

  /** Here a segment needs both of its points unmarked: an end-marked point gets
      no incoming segment. */
  lemma {:induction false} StorageRenderSegments(data: seq<Record>, n: nat, f: nat, t: nat)
    requires n <= |data|
    ensures Segment(f, t) in StorageRender(data, n) <==> f + 1 == t < n && !IsEnd(data[f]) && !IsEnd(data[t])
  {
    if n > 0 {
      StorageRenderSegments(data, n - 1, f, t);
    }
  }

  lemma {:induction false} StorageRenderPenLifts(data: seq<Record>, n: nat, i: nat)
    requires n <= |data|
    ensures PenLift(i) in StorageRender(data, n) <==> i < n && IsEnd(data[i])
  {
    if n > 0 {
      StorageRenderPenLifts(data, n - 1, i);
    }
  }

  /** The two renderings of the drawing demo disagree on exactly one thing: the
      slider's step-by-step rendering draws the segment into an end-marked point,
      the whole-history rendering does not. */
  lemma RenderingsDisagreeIntoEndMarks(data: seq<Record>, f: nat, t: nat)
    ensures (Segment(f, t) in Render(data, |data|) && Segment(f, t) !in StorageRender(data, |data|))
            <==> f + 1 == t < |data| && !IsEnd(data[f]) && IsEnd(data[t])
    ensures Segment(f, t) in StorageRender(data, |data|) ==> Segment(f, t) in Render(data, |data|)
  {
    RenderSegments(data, |data|, f, t);
    StorageRenderSegments(data, |data|, f, t);
  }

  /** A point `A`, a point `B` after which the signal was lost, and a point `C`. */
  function ThreePoints(): (data: seq<Record>)
    ensures |data| == 3 && !IsEnd(data[0]) && IsEnd(data[1]) && !IsEnd(data[2])
  {
    var p := PositionRecord(Standard, "cube", "id", Pose(0, 0, 0, 0, 0, 0), Base.Some(false), Base.None);
    [p, MarkEnd(p), p]
  }

  /** On `[A, B(end), C]` the step-by-step rendering up to `C` draws `A -> B`
      and lifts the pen at `B`, and never draws into `C`; the whole-history
      rendering only lifts the pen. */
  lemma ThreePointReplay()
    ensures Render(ThreePoints(), 3) == [Segment(0, 1), PenLift(1)]
    ensures StorageRender(ThreePoints(), 3) == [PenLift(1)]
  {
  }

  // ---------------------------------------------------------------------------
  // What a replay controller has loaded
  // ---------------------------------------------------------------------------

  /** `this.storageData` of the drawing controllers: the `{}` it starts as, the
      `null` that `JSON.parse(getItem(k))` gives for an absent key, or an array. */
  datatype Loaded = EmptyObject | ParsedNull | Array(records: seq<Record>)
}
