/** The scoring system of the paint application (`calculateSimilarity`): the
    user's canvas and the model picture are compared pixel by pixel; every
    drawn pixel counts, those lying on the model's target colour and close to
    the model in colour score, and the canvas is marked blue where the user hit
    and red where the user drew off the model. */
module Scoring {
  import opened Base

  datatype Rgb = Rgb(r: int, g: int, b: int)

  /** The model colour and the colour distance the scoring button uses. */
  const TARGET_COLOR := Rgb(74, 74, 74)
  const TOLERANCE := 100

  /** Four consecutive bytes R, G, B, A of an image's data; pixel `q` starts at
      byte offset `4 * q`. */
  datatype Pixel = Pixel(r: byte, g: byte, b: byte, a: byte)

  const MATCH_MARK := Pixel(0, 0, 255, 255)
  const MISMATCH_MARK := Pixel(255, 0, 0, 255)

  function Distance2(a: Rgb, b: Rgb): nat
  {
    (a.r - b.r) * (a.r - b.r) + (a.g - b.g) * (a.g - b.g) + (a.b - b.b) * (a.b - b.b)
  }

  /** `Math.sqrt(distance²) <= tolerance`, decided on the squares. */
  predicate Within(a: Rgb, b: Rgb, tol: int)
  {
    tol >= 0 && Distance2(a, b) <= tol * tol
  }

  function ColorOf(px: Pixel): Rgb
  {
    Rgb(px.r, px.g, px.b)
  }

  /** How the scoring loop treats one pixel of the user's canvas. */
  datatype Verdict =
    | Blank         // alpha 0: not drawn, ignored
    | OutsideModel  // drawn, but beyond the model's data
    | OffModel      // drawn where the model is not the target colour: marked red
    | Missed        // drawn on the target colour, but too far from the model's colour
    | Hit           // drawn on the target colour and close to it: marked blue

  const DRAWN: set<Verdict> := {OutsideModel, OffModel, Missed, Hit}
  const ON_MODEL: set<Verdict> := {Missed, Hit}
  const HITS: set<Verdict> := {Hit}

  /** A pixel is drawn when its alpha is non-zero; it lies on the model when the
      model has a pixel of the target colour there; it hits when, moreover, its
      colour is close to the model's. */
  function Classify(u: seq<Pixel>, m: seq<Pixel>, q: nat, target: Rgb, tol: int): (v: Verdict)
    requires q < |u|
    ensures v in DRAWN <==> u[q].a != 0
    ensures v in ON_MODEL <==> u[q].a != 0 && q < |m| && Within(ColorOf(m[q]), target, tol)
    ensures v == Hit <==> (u[q].a != 0 && q < |m| && Within(ColorOf(m[q]), target, tol)
                           && Within(ColorOf(u[q]), ColorOf(m[q]), tol))
  {
    if u[q].a == 0 then Blank
    else if q >= |m| then OutsideModel
    else if !Within(ColorOf(m[q]), target, tol) then OffModel
    else if !Within(ColorOf(u[q]), ColorOf(m[q]), tol) then Missed
    else Hit
  }

  /** The number of the first `p` pixels whose verdict is in `vs`. */
  function Count(u: seq<Pixel>, m: seq<Pixel>, target: Rgb, tol: int, p: nat, vs: set<Verdict>): (n: nat)
    requires p <= |u|
    ensures n <= p
  {
    if p == 0 then 0
    else Count(u, m, target, tol, p - 1, vs) + (if Classify(u, m, p - 1, target, tol) in vs then 1 else 0)
  }

  /** The first loop's count: pixels of the first `p` with non-zero alpha. */
  function DrawnCount(u: seq<Pixel>, p: nat): nat
    requires p <= |u|
  {
    if p == 0 then 0 else DrawnCount(u, p - 1) + (if u[p - 1].a != 0 then 1 else 0)
  }

  /** The score: the share of drawn pixels that hit, in percent; `NaN` (none)
      when nothing is drawn. */
  function Score(matchCount: nat, drawnCount: nat): Option<real>
  {
    if drawnCount == 0 then None else Some(matchCount as real / drawnCount as real * 100.0)
  }

  /** The pixel as the scoring loop leaves it. */
  function Marked(u: seq<Pixel>, m: seq<Pixel>, q: nat, target: Rgb, tol: int): (r: Pixel)
    requires q < |u|
    ensures u[q].a != 0 && q < |m| && Within(ColorOf(m[q]), target, tol) && Within(ColorOf(u[q]), ColorOf(m[q]), tol)
      ==> r == MATCH_MARK
    ensures u[q].a != 0 && q < |m| && !Within(ColorOf(m[q]), target, tol) ==> r == MISMATCH_MARK
    ensures r != u[q] ==> u[q].a != 0 && q < |m|
  {
    match Classify(u, m, q, target, tol)
    case Hit => MATCH_MARK
    case OffModel => MISMATCH_MARK
    case _ => u[q]
  }

  // ---------------------------------------------------------------------------
  // Properties of the counts and the score
  // ---------------------------------------------------------------------------

  /** The first loop's count is the number of pixels the second loop treats as
      drawn. */
  lemma {:induction false} DrawnCountIsDrawnVerdicts(u: seq<Pixel>, m: seq<Pixel>, target: Rgb, tol: int, p: nat)
    requires p <= |u|
    ensures DrawnCount(u, p) == Count(u, m, target, tol, p, DRAWN)
  {
    if p > 0 {
      DrawnCountIsDrawnVerdicts(u, m, target, tol, p - 1);
    }
  }

  /** Counting more verdicts never counts fewer pixels: hits <= pixels on the
      model <= drawn pixels. */
  lemma {:induction false} CountMonotone(u: seq<Pixel>, m: seq<Pixel>, target: Rgb, tol: int, p: nat, vs: set<Verdict>, ws: set<Verdict>)
    requires p <= |u| && vs <= ws
    ensures Count(u, m, target, tol, p, vs) <= Count(u, m, target, tol, p, ws)
  {
    if p > 0 {
      CountMonotone(u, m, target, tol, p - 1, vs, ws);
    }
  }

  /** Two nested verdict sets count the same exactly when no pixel has a verdict
      in the larger set only. */
  lemma {:induction false} CountEqualIff(u: seq<Pixel>, m: seq<Pixel>, target: Rgb, tol: int, p: nat, vs: set<Verdict>, ws: set<Verdict>)
    requires p <= |u| && vs <= ws
    ensures Count(u, m, target, tol, p, vs) == Count(u, m, target, tol, p, ws)
        <==> forall q :: 0 <= q < p && Classify(u, m, q, target, tol) in ws ==> Classify(u, m, q, target, tol) in vs
  {
    if p > 0 {
      CountEqualIff(u, m, target, tol, p - 1, vs, ws);
      CountMonotone(u, m, target, tol, p - 1, vs, ws);
    }
  }

  lemma CountsOrdered(u: seq<Pixel>, m: seq<Pixel>, target: Rgb, tol: int, p: nat)
    requires p <= |u|
    ensures Count(u, m, target, tol, p, HITS) <= Count(u, m, target, tol, p, ON_MODEL) <= DrawnCount(u, p)
  {
    CountMonotone(u, m, target, tol, p, HITS, ON_MODEL);
    CountMonotone(u, m, target, tol, p, ON_MODEL, DRAWN);
    DrawnCountIsDrawnVerdicts(u, m, target, tol, p);
  }

  /** The score is a percentage, and it is 100 exactly when every drawn pixel is
      a hit. */
  lemma ScoreIsPercentage(u: seq<Pixel>, m: seq<Pixel>, target: Rgb, tol: int)
    ensures var p := |u|;
      var s := Score(Count(u, m, target, tol, p, HITS), DrawnCount(u, p));
      && (s.None? <==> forall q :: 0 <= q < p ==> Classify(u, m, q, target, tol) == Blank)
      && (s.Some? ==> 0.0 <= s.value <= 100.0)
      && (s == Some(100.0) <==> (DrawnCount(u, p) > 0 && forall q :: 0 <= q < p && Classify(u, m, q, target, tol) != Blank ==> Classify(u, m, q, target, tol) == Hit))
  {
    var p := |u|;
    var hits, drawn := Count(u, m, target, tol, p, HITS), DrawnCount(u, p);
    CountsOrdered(u, m, target, tol, p);
    DrawnCountIsDrawnVerdicts(u, m, target, tol, p);
    CountEqualIff(u, m, target, tol, p, {}, DRAWN);
    CountEqualIff(u, m, target, tol, p, HITS, DRAWN);
    EmptyCount(u, m, target, tol, p);
    if drawn > 0 {
      RatioIsPercentage(hits, drawn);
    }
  }

  lemma {:induction false} EmptyCount(u: seq<Pixel>, m: seq<Pixel>, target: Rgb, tol: int, p: nat)
    requires p <= |u|
    ensures Count(u, m, target, tol, p, {}) == 0
  {
    if p > 0 {
      EmptyCount(u, m, target, tol, p - 1);
    }
  }

  lemma RatioIsPercentage(k: nat, n: nat)
    requires 0 < n && k <= n
    ensures 0.0 <= k as real / n as real * 100.0 <= 100.0
    ensures k as real / n as real * 100.0 == 100.0 <==> k == n
  {
    var r := k as real / n as real;
    assert r * n as real == k as real;
    if r * 100.0 == 100.0 {
      assert r == 1.0;
    }
  }

  // ---------------------------------------------------------------------------
  // The scoring loops
  // ---------------------------------------------------------------------------

  /** The first loop: counts the pixels with non-zero alpha. */
  method CountDrawnPixels(user: array<Pixel>) returns (userDrawnPixelCount: nat)
    ensures userDrawnPixelCount == DrawnCount(user[..], user.Length)
  {
    userDrawnPixelCount := 0;
    var q := 0;
    while q < user.Length
      invariant 0 <= q <= user.Length
      invariant userDrawnPixelCount == DrawnCount(user[..], q)
    {
      if user[q].a != 0 {
        userDrawnPixelCount := userDrawnPixelCount + 1;
      }
      q := q + 1;
    }
  }

  /** `calculateSimilarity(userData, modelImageData, targetColor, tolerance)`:
      marks the user's pixels and returns the score, from the counts the two
      loops make over the pixels as they were before marking. */
  method CalculateSimilarity(user: array<Pixel>, model: array<Pixel>, target: Rgb, tol: int)
      returns (score: Option<real>, matchCount: nat, modelColorCount: nat)
    requires user != model
    modifies user
    ensures matchCount == Count(old(user[..]), model[..], target, tol, user.Length, HITS)
    ensures modelColorCount == Count(old(user[..]), model[..], target, tol, user.Length, ON_MODEL)
    ensures score == Score(matchCount, DrawnCount(old(user[..]), user.Length))
    ensures forall q :: 0 <= q < user.Length ==> user[q] == Marked(old(user[..]), model[..], q, target, tol)
  {
    var userDrawnPixelCount := CountDrawnPixels(user);
    ghost var u := user[..];
    matchCount, modelColorCount := 0, 0;
    var q := 0;
    while q < user.Length
      invariant 0 <= q <= user.Length
      invariant matchCount == Count(u, model[..], target, tol, q, HITS)
      invariant modelColorCount == Count(u, model[..], target, tol, q, ON_MODEL)
      invariant forall j :: q <= j < user.Length ==> user[j] == u[j]
      invariant forall j :: 0 <= j < q ==> user[j] == Marked(u, model[..], j, target, tol)
    {
      var px := user[q];
      if px.a != 0 {
        if q < model.Length {
          var modelColor := ColorOf(model[q]);
          if Within(modelColor, target, tol) {
            modelColorCount := modelColorCount + 1;
            if Within(ColorOf(px), modelColor, tol) {
              matchCount := matchCount + 1;
              user[q] := MATCH_MARK;
            }
          } else {
            user[q] := MISMATCH_MARK;
          }
        }
      }
      q := q + 1;
    }
    score := Score(matchCount, userDrawnPixelCount);
  }
}
