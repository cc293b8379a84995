/**
 * Classifying one hand's 21 landmarks into a gesture, and the two geometric
 * descriptors derived from the same landmarks (services/gestureLogic.ts).
 *
 * A landmark list is `Option<seq<Vec3>>`: `None` is the source's null or
 * undefined list. Landmark coordinates are normalised image coordinates
 * (x to the right, y downwards, z relative depth).
 */
module GestureLogic {
  import opened Platform
  import opened Vectors
  import opened Types

  // Landmark indices read by the classifier and the descriptors.
  const WRIST: nat := 0
  const THUMB_TIP: nat := 4
  const INDEX_MCP: nat := 5
  const INDEX_TIP: nat := 8
  const MIDDLE_TIP: nat := 12
  const RING_TIP: nat := 16
  const PINKY_MCP: nat := 17
  const PINKY_TIP: nat := 20

  /** Average wrist-to-tip distance below which a hand is a fist. */
  const FIST_CLOSE: real := 0.12
  /** Average wrist-to-tip distance above which a hand is an open palm. */
  const OPEN_PALM_SPREAD: real := 0.25
  /** The pointing test's two literals: the index tip must be farther than
      POINTING_REACH, the other three closer than POINTING_CURL on average. */
  const POINTING_REACH: real := 0.25
  const POINTING_CURL: real := 0.15

  /** True for a missing or empty landmark list. */
  predicate Absent(landmarks: Option<seq<Vec3>>)
  {
    landmarks.None? || |landmarks.value| == 0
  }

  /** A present list holds every index up to `highest`, which the source reads
      without checking; a shorter non-empty list makes it throw. */
  predicate Readable(landmarks: Option<seq<Vec3>>, highest: nat)
  {
    Absent(landmarks) || highest < |landmarks.value|
  }

  /** `Math.pow(r, 2)`. */
  function Square(r: real): real
  {
    r * r
  }

  /** `getDistance`: Euclidean distance in the image plane; depth is ignored.
      It is symmetric, and with a true square root it is the non-negative
      root of the summed squared x and y differences. */
  function Distance2D(sqrt: real -> real, p: Vec3, q: Vec3): (d: real)
    ensures d == sqrt(Square(q.x - p.x) + Square(q.y - p.y))
    ensures IsSqrt(sqrt) ==> 0.0 <= d && Square(d) == Square(p.x - q.x) + Square(p.y - q.y)
  {
    SquareFacts(p.x - q.x);
    SquareFacts(p.y - q.y);
    sqrt(Square(p.x - q.x) + Square(p.y - q.y))
  }

  lemma SquareFacts(r: real)
    ensures 0.0 <= Square(r) && Square(-r) == Square(r)
  {
    assert r * r >= 0.0;
  }

  /** The four wrist-to-fingertip distances the classifier works from. */
  datatype TipDistances = TipDistances(index: real, middle: real, ring: real, pinky: real)

  function TipDistancesOf(sqrt: real -> real, landmarks: seq<Vec3>): TipDistances
    requires PINKY_TIP < |landmarks|
  {
    var wrist := landmarks[WRIST];
    TipDistances(
      Distance2D(sqrt, wrist, landmarks[INDEX_TIP]),
      Distance2D(sqrt, wrist, landmarks[MIDDLE_TIP]),
      Distance2D(sqrt, wrist, landmarks[RING_TIP]),
      Distance2D(sqrt, wrist, landmarks[PINKY_TIP]))
  }

  /** Mean of all four distances (the source sums them with `reduce` from 0). */
  function AverageDistance(d: TipDistances): real
  {
    (((0.0 + d.index) + d.middle) + d.ring + d.pinky) / 4.0
  }

  /** Mean of the middle, ring and pinky distances. */
  function OtherAverage(d: TipDistances): real
  {
    (d.middle + d.ring + d.pinky) / 3.0
  }

  /** The index finger is extended and the other three are curled. */
  predicate IndexIsolated(d: TipDistances)
  {
    d.index > POINTING_REACH && OtherAverage(d) < POINTING_CURL
  }

  /** The decision list: pointing, then fist, then open palm, else idle. */
  function Classify(d: TipDistances): (g: GestureType)
    // pointing wins over the four-tip average
    ensures IndexIsolated(d) ==> g == Pointing
    // a fist is exactly a small average with the index not extended past the
    // pointing reach: with the index extended and a small average, the other
    // three are necessarily curled and pointing wins
    ensures g == Fist <==> AverageDistance(d) < FIST_CLOSE && d.index <= POINTING_REACH
    ensures g == OpenPalm <==> !IndexIsolated(d) && AverageDistance(d) > OPEN_PALM_SPREAD
    // both thresholds are exclusive: an average of exactly 0.12 or 0.25 is idle
    ensures g == Idle <==> !IndexIsolated(d) && FIST_CLOSE <= AverageDistance(d) <= OPEN_PALM_SPREAD
    ensures g == Idle || g == Pointing || g == Fist || g == OpenPalm
  {
    if IndexIsolated(d) then Pointing
    else if AverageDistance(d) < FIST_CLOSE then Fist
    else if AverageDistance(d) > OPEN_PALM_SPREAD then OpenPalm
    else Idle
  }

  /** `analyzeGesture`. */
  function AnalyzeGesture(sqrt: real -> real, landmarks: Option<seq<Vec3>>): (g: GestureType)
    requires Readable(landmarks, PINKY_TIP)
    ensures Absent(landmarks) ==> g == Idle
    ensures g != Vortex && g != Merge
    ensures g == Fist ==> Distance2D(sqrt, landmarks.value[WRIST], landmarks.value[INDEX_TIP]) <= POINTING_REACH
  {
    if Absent(landmarks) then Idle
    else Classify(TipDistancesOf(sqrt, landmarks.value))
  }

  /** Two points agree in the image plane. */
  predicate SamePlanar(p: Vec3, q: Vec3)
  {
    p.x == q.x && p.y == q.y
  }

  /** Two landmark lists agree on the image-plane position of the wrist and
      the four fingertips. */
  predicate SamePlanarTips(a: seq<Vec3>, b: seq<Vec3>)
    requires PINKY_TIP < |a| && PINKY_TIP < |b|
  {
    && SamePlanar(a[WRIST], b[WRIST])
    && SamePlanar(a[INDEX_TIP], b[INDEX_TIP])
    && SamePlanar(a[MIDDLE_TIP], b[MIDDLE_TIP])
    && SamePlanar(a[RING_TIP], b[RING_TIP])
    && SamePlanar(a[PINKY_TIP], b[PINKY_TIP])
  }

  lemma DistanceIgnoresDepth(sqrt: real -> real, p: Vec3, q: Vec3, p': Vec3, q': Vec3)
    requires SamePlanar(p, p') && SamePlanar(q, q')
    ensures Distance2D(sqrt, p, q) == Distance2D(sqrt, p', q')
  {
    var dx, dy := p.x - q.x, p.y - q.y;
    assert p'.x - q'.x == dx && p'.y - q'.y == dy;
  }

  /** The classification reads only the x and y of landmarks 0, 8, 12, 16 and
      20: depth, the thumb tip and every other landmark are irrelevant. */
  lemma ClassificationSeesOnlyPlanarTips(sqrt: real -> real, a: seq<Vec3>, b: seq<Vec3>)
    requires PINKY_TIP < |a| && PINKY_TIP < |b|
    requires SamePlanarTips(a, b)
    ensures AnalyzeGesture(sqrt, Some(a)) == AnalyzeGesture(sqrt, Some(b))
  {
    DistanceIgnoresDepth(sqrt, a[WRIST], a[INDEX_TIP], b[WRIST], b[INDEX_TIP]);
    DistanceIgnoresDepth(sqrt, a[WRIST], a[MIDDLE_TIP], b[WRIST], b[MIDDLE_TIP]);
    DistanceIgnoresDepth(sqrt, a[WRIST], a[RING_TIP], b[WRIST], b[RING_TIP]);
    DistanceIgnoresDepth(sqrt, a[WRIST], a[PINKY_TIP], b[WRIST], b[PINKY_TIP]);
    assert TipDistancesOf(sqrt, a) == TipDistancesOf(sqrt, b);
  }

  /** The thumb tip never affects the gesture: moving it anywhere leaves the
      classification unchanged. */
  lemma ThumbTipIsIgnored(sqrt: real -> real, landmarks: seq<Vec3>, tip: Vec3)
    requires PINKY_TIP < |landmarks|
    ensures AnalyzeGesture(sqrt, Some(landmarks[THUMB_TIP := tip])) == AnalyzeGesture(sqrt, Some(landmarks))
  {
    ClassificationSeesOnlyPlanarTips(sqrt, landmarks[THUMB_TIP := tip], landmarks);
  }

  /** `getPalmCenter`: the centroid of the wrist and the index and pinky
      knuckles, or the origin for a missing or empty list. */
  function PalmCenter(landmarks: Option<seq<Vec3>>): (c: Vec3)
    requires Readable(landmarks, PINKY_MCP)
    ensures Absent(landmarks) ==> c == Zero
    // the centroid: the three offsets from c cancel out
    ensures !Absent(landmarks) ==>
      var s := landmarks.value;
      Add(Add(Sub(s[WRIST], c), Sub(s[INDEX_MCP], c)), Sub(s[PINKY_MCP], c)) == Zero
  {
    if Absent(landmarks) then Zero
    else
      var s := landmarks.value;
      var wrist, indexMcp, pinkyMcp := s[WRIST], s[INDEX_MCP], s[PINKY_MCP];
      Vec3((wrist.x + indexMcp.x + pinkyMcp.x) / 3.0,
           (wrist.y + indexMcp.y + pinkyMcp.y) / 3.0,
           (wrist.z + indexMcp.z + pinkyMcp.z) / 3.0)
  }

  /** Three coincident reference points give that point back. */
  lemma PalmCenterOfCoincidentPoints(landmarks: seq<Vec3>)
    requires PINKY_MCP < |landmarks|
    requires landmarks[WRIST] == landmarks[INDEX_MCP] == landmarks[PINKY_MCP]
    ensures PalmCenter(Some(landmarks)) == landmarks[WRIST]
  {
  }

  /** Image y grows downwards, world y upwards: the one axis flip. */
  function FlipY(v: Vec3): Vec3
  {
    Vec3(v.x, -v.y, v.z)
  }

  /** `getPointingDirection`: the wrist-to-index-tip vector in world axes.
      The source has no guard for a missing or empty list. */
  function PointingDirection(landmarks: seq<Vec3>): (d: Vec3)
    requires INDEX_TIP < |landmarks|
    // stepping from the wrist by d, with y flipped back to image axes,
    // reaches the index tip
    ensures Add(landmarks[WRIST], FlipY(d)) == landmarks[INDEX_TIP]
    ensures d == Zero <==> landmarks[INDEX_TIP] == landmarks[WRIST]
  {
    var wrist, indexTip := landmarks[WRIST], landmarks[INDEX_TIP];
    Vec3(indexTip.x - wrist.x, -(indexTip.y - wrist.y), indexTip.z - wrist.z)
  }

  /** The index tip 0.1 right of and 0.2 below the wrist, at equal depth,
      points right and up. */
  lemma PointingDirectionFlipsOnlyY(landmarks: seq<Vec3>)
    requires INDEX_TIP < |landmarks|
    requires landmarks[INDEX_TIP] == Add(landmarks[WRIST], Vec3(0.1, 0.2, 0.0))
    ensures PointingDirection(landmarks) == Vec3(0.1, -0.2, 0.0)
  {
  }
}
