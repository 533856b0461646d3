/** The static configuration of the mask stage: the seven facial parts, the sub-range of the
    68 dlib landmarks that outlines each, its identifying colour, and the two orders in which
    the parts are visited. */
module FaceParts {
  import opened Geometry

  datatype Part = Jaw | LeftEyebrow | RightEyebrow | Nose | LeftEye | RightEye | Mouth

  /** Number of points the 68-point landmark predictor returns. */
  const LANDMARK_COUNT: nat := 68

  /** The parts in the insertion order of the landmark table; `generate_masks` fills
      polygons in this order, so a later part overwrites an earlier one. */
  const FILL_ORDER: seq<Part> := [Jaw, LeftEyebrow, RightEyebrow, Nose, LeftEye, RightEye, Mouth]

  /** The position of a part in the fill order. */
  function FillIndex(p: Part): (k: nat)
    ensures k < |FILL_ORDER| && FILL_ORDER[k] == p
    ensures forall m :: 0 <= m < |FILL_ORDER| && FILL_ORDER[m] == p ==> m == k
  {
    match p
    case Jaw => 0
    case LeftEyebrow => 1
    case RightEyebrow => 2
    case Nose => 3
    case LeftEye => 4
    case RightEye => 5
    case Mouth => 6
  }

  /** The order of the `parts` list; `save_part_masks` writes one mask per entry, in this order. */
  const SAVE_ORDER: seq<Part> := [LeftEye, RightEye, Nose, Mouth, LeftEyebrow, RightEyebrow, Jaw]

  /** The directory and file-name component for a part. */
  function Name(p: Part): string {
    match p
    case Jaw => "jaw"
    case LeftEyebrow => "left_eyebrow"
    case RightEyebrow => "right_eyebrow"
    case Nose => "nose"
    case LeftEye => "left_eye"
    case RightEye => "right_eye"
    case Mouth => "mouth"
  }

  /** First landmark index of a part (`range(First, End)`). */
  function First(p: Part): nat {
    match p
    case Jaw => 0
    case LeftEyebrow => 17
    case RightEyebrow => 22
    case Nose => 27
    case LeftEye => 36
    case RightEye => 42
    case Mouth => 48
  }

  /** One past the last landmark index of a part. */
  function End(p: Part): nat {
    match p
    case Jaw => 17
    case LeftEyebrow => 22
    case RightEyebrow => 27
    case Nose => 36
    case LeftEye => 42
    case RightEye => 48
    case Mouth => 68
  }

  /** `list(range(First(p), End(p)))`. */
  function Indices(p: Part): (r: seq<nat>)
    ensures |r| == End(p) - First(p) > 0
    ensures forall k :: 0 <= k < |r| ==> r[k] == First(p) + k < LANDMARK_COUNT
  {
    seq(End(p) - First(p), k => First(p) + k)
  }

  /** The part's fill colour (BGR). */
  function PartColor(p: Part): Color {
    match p
    case LeftEye => Color(255, 0, 0)
    case RightEye => Color(0, 255, 0)
    case Nose => Color(0, 0, 255)
    case Mouth => Color(255, 255, 0)
    case LeftEyebrow => Color(255, 0, 255)
    case RightEyebrow => Color(0, 255, 255)
    case Jaw => Color(128, 128, 128)
  }

  predicate Covers(p: Part, i: int) {
    First(p) <= i < End(p)
  }

  /** Walking the table in its own order, each range starts where the previous one ended,
      from 0 up to 68: the ranges are contiguous and together cover exactly 0..67. */
  lemma RangesTile()
    ensures First(FILL_ORDER[0]) == 0 && End(FILL_ORDER[6]) == LANDMARK_COUNT
    ensures forall k :: 0 <= k < 6 ==> End(FILL_ORDER[k]) == First(FILL_ORDER[k + 1])
  {
  }

  /** Every landmark index lies in the range of exactly one part, and no other index lies in
      any range. */
  lemma RangesPartition(i: int)
    ensures 0 <= i < LANDMARK_COUNT <==> exists p :: Covers(p, i)
    ensures forall p, q :: Covers(p, i) && Covers(q, i) ==> p == q
  {
    if 0 <= i < LANDMARK_COUNT {
      var k := if i < 17 then 0 else if i < 22 then 1 else if i < 27 then 2
        else if i < 36 then 3 else if i < 42 then 4 else if i < 48 then 5 else 6;
      assert Covers(FILL_ORDER[k], i);
    }
  }

  /** The seven colours are pairwise distinct and none is the black background. */
  lemma ColorsDistinct()
    ensures forall p, q :: p != q ==> PartColor(p) != PartColor(q)
    ensures forall p :: PartColor(p) != BLACK
  {
  }

  /** Both orders list every part exactly once. */
  lemma OrdersArePermutations(p: Part)
    ensures p in FILL_ORDER && p in SAVE_ORDER
    ensures |FILL_ORDER| == |SAVE_ORDER| == 7
    ensures forall i, j :: 0 <= i < j < 7 ==> FILL_ORDER[i] != FILL_ORDER[j] && SAVE_ORDER[i] != SAVE_ORDER[j]
  {
  }
}
