/** The batch loop of the second stage (eyes-output.py): for every face image with both of its
    eye masks, draw the eyelid curves of the left eye and then of the right eye onto the image,
    keep their coordinates in two parallel lists, and write the drawn image; finally the lists
    become a JSON record with keys "left_eye" and "right_eye". */
module EyelidBatch {
  import opened Geometry
  import opened Paths
  import opened Optional
  import opened Eyelid
  import PartMasks
  import FaceParts

  const FACE_IMAGE_DIR: string := "./data/LFW/archive/generated_yellow-stylegan2"
  const LEFT_EYE_MASK_DIR: string := "./data/Dlib_Segmentation_Masks/left_eye"
  const RIGHT_EYE_MASK_DIR: string := "./data/Dlib_Segmentation_Masks/right_eye"
  const OUTPUT_DIR: string := "./data/processed_images_double"
  /** Unlike the first stage, this loop does not pick up ".bmp" files. */
  const FACE_EXTENSIONS: seq<string> := [".png", ".jpg", ".jpeg"]

  /** What the loop asks of the outside world: the colour and grayscale image loaders (None when
      `cv2.imread` fails) and the contour finder. */
  datatype Io = Io(readFace: string -> Option<seq<seq<Color>>>,
                   readMask: string -> Option<seq<seq<int>>>,
                   findContours: seq<seq<int>> -> seq<Contour>)

  /** One `cv2.imwrite` of a drawn face image. */
  datatype OutputImage = OutputImage(path: string, picture: seq<seq<Color>>, strokes: seq<Stroke>)

  /** What one processed file contributes. */
  datatype Processed = Processed(left: seq<Curve>, right: seq<Curve>, output: OutputImage)

  function LeftMaskPath(filename: string): string {
    Join(LEFT_EYE_MASK_DIR, Stem(filename) + "_left_eye.png")
  }

  function RightMaskPath(filename: string): string {
    Join(RIGHT_EYE_MASK_DIR, Stem(filename) + "_right_eye.png")
  }

  /** One iteration of the file loop: nothing for a file with another extension or when the
      face image or either mask fails to load; otherwise the left curves, the right curves, and
      the image with both eyes' segments drawn, left first. */
  function ProcessFile(filename: string, io: Io): Option<Processed> {
    if !EndsWithAny(Lower(filename), FACE_EXTENSIONS) then None
    else
      var face := io.readFace(Join(FACE_IMAGE_DIR, filename));
      var leftMask := io.readMask(LeftMaskPath(filename));
      var rightMask := io.readMask(RightMaskPath(filename));
      if face.None? || leftMask.None? || rightMask.None? then None
      else
        var left := EyelidCurves(io.findContours(Threshold(leftMask.value)), DEFAULTS);
        var right := EyelidCurves(io.findContours(Threshold(rightMask.value)), DEFAULTS);
        var strokes := AllSegments(left, DEFAULTS) + AllSegments(right, DEFAULTS);
        Some(Processed(left, right, OutputImage(Join(OUTPUT_DIR, filename), face.value, strokes)))
  }

  /** When all three files load, the iteration contributes the curves of both eyes and the
      image carrying both eyes' segments. */
  lemma ProcessFileLoaded(filename: string, io: Io, left: seq<Curve>, right: seq<Curve>, strokes: seq<Stroke>)
    requires EndsWithAny(Lower(filename), FACE_EXTENSIONS)
    requires io.readFace(Join(FACE_IMAGE_DIR, filename)).Some?
    requires io.readMask(LeftMaskPath(filename)).Some? && io.readMask(RightMaskPath(filename)).Some?
    requires left == EyelidCurves(io.findContours(Threshold(io.readMask(LeftMaskPath(filename)).value)), DEFAULTS)
    requires right == EyelidCurves(io.findContours(Threshold(io.readMask(RightMaskPath(filename)).value)), DEFAULTS)
    requires strokes == AllSegments(left, DEFAULTS) + AllSegments(right, DEFAULTS)
    ensures ProcessFile(filename, io) ==
      Some(Processed(left, right, OutputImage(Join(OUTPUT_DIR, filename), io.readFace(Join(FACE_IMAGE_DIR, filename)).value, strokes)))
  {
  }

  function Contribution(result: Option<Processed>): seq<Processed> {
    match result
    case None => []
    case Some(p) => [p]
  }

  /** The contributions of a whole listing, in listing order. */
  function ProcessAll(listing: seq<string>, io: Io): seq<Processed> {
    if listing == [] then []
    else ProcessAll(listing[..|listing| - 1], io) + Contribution(ProcessFile(listing[|listing| - 1], io))
  }

  lemma ProcessAllStep(listing: seq<string>, k: nat, io: Io)
    requires k < |listing|
    ensures ProcessAll(listing[..k + 1], io) == ProcessAll(listing[..k], io) + Contribution(ProcessFile(listing[k], io))
  {
    assert listing[..k + 1][..k] == listing[..k];
  }

  /** Does this file pass the extension filter and have its face image and both masks load? */
  predicate Loads(filename: string, io: Io) {
    && EndsWithAny(Lower(filename), FACE_EXTENSIONS)
    && io.readFace(Join(FACE_IMAGE_DIR, filename)).Some?
    && io.readMask(LeftMaskPath(filename)).Some?
    && io.readMask(RightMaskPath(filename)).Some?
  }

  function CountLoaded(listing: seq<string>, io: Io): nat {
    if listing == [] then 0
    else CountLoaded(listing[..|listing| - 1], io) + (if Loads(listing[|listing| - 1], io) then 1 else 0)
  }

  /** Exactly one entry per listed file that passes the filter and whose three images load,
      none for the others. */
  lemma {:induction false} ProcessAllCount(listing: seq<string>, io: Io)
    ensures |ProcessAll(listing, io)| == CountLoaded(listing, io)
  {
    if listing != [] {
      ProcessAllCount(listing[..|listing| - 1], io);
    }
  }

  /** Every entry comes from a file of the listing that passed the extension filter and whose
      three images loaded, and there is at most one entry per file. */
  lemma {:induction false} ProcessAllSound(listing: seq<string>, io: Io)
    ensures |ProcessAll(listing, io)| <= |listing|
    ensures forall p :: p in ProcessAll(listing, io) ==>
      exists f :: f in listing && EndsWithAny(Lower(f), FACE_EXTENSIONS) && ProcessFile(f, io) == Some(p)
  {
    if listing != [] {
      var prefix, f := listing[..|listing| - 1], listing[|listing| - 1];
      ProcessAllSound(prefix, io);
      forall p | p in ProcessAll(listing, io)
        ensures exists g :: g in listing && EndsWithAny(Lower(g), FACE_EXTENSIONS) && ProcessFile(g, io) == Some(p)
      {
        if p in ProcessAll(prefix, io) {
          var g :| g in prefix && EndsWithAny(Lower(g), FACE_EXTENSIONS) && ProcessFile(g, io) == Some(p);
          assert g in listing;
        } else {
          assert ProcessFile(f, io) == Some(p);
        }
      }
    }
  }

  function Lefts(ps: seq<Processed>): seq<seq<Curve>> {
    seq(|ps|, n requires 0 <= n < |ps| => ps[n].left)
  }

  function Rights(ps: seq<Processed>): seq<seq<Curve>> {
    seq(|ps|, n requires 0 <= n < |ps| => ps[n].right)
  }

  function Outputs(ps: seq<Processed>): seq<OutputImage> {
    seq(|ps|, n requires 0 <= n < |ps| => ps[n].output)
  }

  lemma ProjectionsAppend(ps: seq<Processed>, p: Processed)
    ensures Lefts(ps + [p]) == Lefts(ps) + [p.left]
    ensures Rights(ps + [p]) == Rights(ps) + [p.right]
    ensures Outputs(ps + [p]) == Outputs(ps) + [p.output]
  {
    assert forall n :: 0 <= n < |ps| ==> (ps + [p])[n] == ps[n];
  }

  /** The file loop: the two coordinate lists grow together, one entry per processed file. */
  method ProcessBatch(listing: seq<string>, io: Io)
    returns (leftEye: seq<seq<Curve>>, rightEye: seq<seq<Curve>>, outputs: seq<OutputImage>)
    ensures |leftEye| == |rightEye| == |outputs| == |ProcessAll(listing, io)|
    ensures forall n :: 0 <= n < |leftEye| ==>
      var p := ProcessAll(listing, io)[n];
      leftEye[n] == p.left && rightEye[n] == p.right && outputs[n] == p.output
  {
    leftEye, rightEye, outputs := [], [], [];
    ghost var done: seq<Processed> := [];
    var k := 0;
    while k < |listing|
      invariant 0 <= k <= |listing|
      invariant done == ProcessAll(listing[..k], io)
      invariant leftEye == Lefts(done) && rightEye == Rights(done) && outputs == Outputs(done)
    {
      var filename := listing[k];
      ProcessAllStep(listing, k, io);
      k := k + 1;
      if !EndsWithAny(Lower(filename), FACE_EXTENSIONS) {
        continue;
      }
      var facePath := Join(FACE_IMAGE_DIR, filename);
      var leftEyePath := LeftMaskPath(filename);
      var rightEyePath := RightMaskPath(filename);
      var faceImg := io.readFace(facePath);
      var leftEyeMask := io.readMask(leftEyePath);
      var rightEyeMask := io.readMask(rightEyePath);
      if faceImg.None? {
        continue;
      }
      if leftEyeMask.None? {
        continue;
      }
      if rightEyeMask.None? {
        continue;
      }
      var image := new Overlay(faceImg.value);
      var left := AddDoubleEyelidLines(image, leftEyeMask.value, io.findContours, DEFAULTS);
      assert image.strokes == AllSegments(left, DEFAULTS);
      leftEye := leftEye + [left];
      var right := AddDoubleEyelidLines(image, rightEyeMask.value, io.findContours, DEFAULTS);
      rightEye := rightEye + [right];
      var written := OutputImage(Join(OUTPUT_DIR, filename), image.picture, image.strokes);
      outputs := outputs + [written];
      ProcessFileLoaded(filename, io, left, right, image.strokes);
      ProjectionsAppend(done, Processed(left, right, written));
      done := done + [Processed(left, right, written)];
    }
    assert listing[..k] == listing;
  }

  /** The second stage reads each eye mask from exactly the path the first stage writes it to,
      and reads face images from the first stage's input directory. */
  lemma MaskPathsAgree(filename: string)
    ensures LeftMaskPath(filename) == PartMasks.MaskPath(PartMasks.OUTPUT_DIR, FaceParts.LeftEye, filename)
    ensures RightMaskPath(filename) == PartMasks.MaskPath(PartMasks.OUTPUT_DIR, FaceParts.RightEye, filename)
    ensures FACE_IMAGE_DIR == PartMasks.INPUT_DIR
  {
    EyeDirectoryLiterals();
    MaskDirectory("left_eye", LEFT_EYE_MASK_DIR);
    MaskDirectory("right_eye", RIGHT_EYE_MASK_DIR);
    MaskPathFor(filename, FaceParts.LeftEye, LEFT_EYE_MASK_DIR, "_left_eye.png");
    MaskPathFor(filename, FaceParts.RightEye, RIGHT_EYE_MASK_DIR, "_right_eye.png");
  }

  /** The two mask directories are the first stage's output directory with the part names. */
  lemma EyeDirectoryLiterals()
    ensures LEFT_EYE_MASK_DIR == PartMasks.OUTPUT_DIR + "/" + FaceParts.Name(FaceParts.LeftEye)
    ensures RIGHT_EYE_MASK_DIR == PartMasks.OUTPUT_DIR + "/" + FaceParts.Name(FaceParts.RightEye)
    ensures "_left_eye.png" == "_" + FaceParts.Name(FaceParts.LeftEye) + ".png"
    ensures "_right_eye.png" == "_" + FaceParts.Name(FaceParts.RightEye) + ".png"
  {
  }

  lemma MaskPathFor(filename: string, p: FaceParts.Part, dir: string, suffix: string)
    requires dir == Join(PartMasks.OUTPUT_DIR, FaceParts.Name(p))
    requires suffix == "_" + FaceParts.Name(p) + ".png"
    ensures Join(dir, Stem(filename) + suffix) == PartMasks.MaskPath(PartMasks.OUTPUT_DIR, p, filename)
  {
    MaskNameAgrees(Stem(filename), FaceParts.Name(p), suffix);
  }

  lemma MaskDirectory(part: string, dir: string)
    requires |part| > 0 && part[0] != '/'
    requires dir == PartMasks.OUTPUT_DIR + "/" + part
    ensures Join(PartMasks.OUTPUT_DIR, part) == dir
  {
    var out := PartMasks.OUTPUT_DIR;
    assert out[|out| - 1] == 's';
    assert !EndsWith(out, "/");
    assert !StartsWith(part, "/");
  }

  lemma MaskNameAgrees(stem: string, part: string, suffix: string)
    requires suffix == "_" + part + ".png"
    ensures stem + "_" + part + ".png" == stem + suffix
  {
    assert (stem + "_") + part == stem + ("_" + part);
    assert (stem + "_" + part) + ".png" == stem + ("_" + part + ".png");
  }

  /** The JSON values `json.dump` writes here (tuples become arrays). */
  datatype Json = JInt(n: int) | JArray(items: seq<Json>) | JObject(fields: map<string, Json>)

  function PointJson(p: Point): Json {
    JArray([JInt(p.x), JInt(p.y)])
  }

  function CurveJson(c: Curve): Json {
    JArray(seq(|c|, i requires 0 <= i < |c| => PointJson(c[i])))
  }

  function CurvesJson(cs: seq<Curve>): Json {
    JArray(seq(|cs|, i requires 0 <= i < |cs| => CurveJson(cs[i])))
  }

  function EyeJson(images: seq<seq<Curve>>): Json {
    JArray(seq(|images|, i requires 0 <= i < |images| => CurvesJson(images[i])))
  }

  /** `save_eyelid_coordinates`: the record with the two lists under their keys. */
  function SaveEyelidCoordinates(leftEye: seq<seq<Curve>>, rightEye: seq<seq<Curve>>): Json {
    JObject(map["left_eye" := EyeJson(leftEye), "right_eye" := EyeJson(rightEye)])
  }

  function ReadPoint(j: Json): Option<Point> {
    if j.JArray? && |j.items| == 2 && j.items[0].JInt? && j.items[1].JInt?
    then Some(Point(j.items[0].n, j.items[1].n)) else None
  }

  function ReadCurve(j: Json): Option<Curve> {
    if j.JArray? && forall i :: 0 <= i < |j.items| ==> ReadPoint(j.items[i]).Some?
    then Some(seq(|j.items|, i requires 0 <= i < |j.items| && ReadPoint(j.items[i]).Some? => ReadPoint(j.items[i]).value))
    else None
  }

  function ReadCurves(j: Json): Option<seq<Curve>> {
    if j.JArray? && forall i :: 0 <= i < |j.items| ==> ReadCurve(j.items[i]).Some?
    then Some(seq(|j.items|, i requires 0 <= i < |j.items| && ReadCurve(j.items[i]).Some? => ReadCurve(j.items[i]).value))
    else None
  }

  function ReadEye(j: Json): Option<seq<seq<Curve>>> {
    if j.JArray? && forall i :: 0 <= i < |j.items| ==> ReadCurves(j.items[i]).Some?
    then Some(seq(|j.items|, i requires 0 <= i < |j.items| && ReadCurves(j.items[i]).Some? => ReadCurves(j.items[i]).value))
    else None
  }

  /** Reading the two lists back out of a record. */
  function ReadEyelidCoordinates(j: Json): Option<(seq<seq<Curve>>, seq<seq<Curve>>)> {
    if j.JObject? && j.fields.Keys == {"left_eye", "right_eye"} then
      var left, right := ReadEye(j.fields["left_eye"]), ReadEye(j.fields["right_eye"]);
      if left.Some? && right.Some? then Some((left.value, right.value)) else None
    else None
  }

  lemma CurveRoundTrip(c: Curve)
    ensures ReadCurve(CurveJson(c)) == Some(c)
  {
    var items := CurveJson(c).items;
    assert forall i :: 0 <= i < |items| ==> items[i] == PointJson(c[i]) && ReadPoint(items[i]) == Some(c[i]);
    var r := ReadCurve(CurveJson(c));
    assert r.Some? && |r.value| == |c|;
    assert forall i :: 0 <= i < |c| ==> r.value[i] == c[i];
    assert r.value == c;
  }

  lemma CurvesRoundTrip(cs: seq<Curve>)
    ensures ReadCurves(CurvesJson(cs)) == Some(cs)
  {
    var items := CurvesJson(cs).items;
    forall i | 0 <= i < |items| ensures ReadCurve(items[i]) == Some(cs[i]) {
      assert items[i] == CurveJson(cs[i]);
      CurveRoundTrip(cs[i]);
    }
    var r := ReadCurves(CurvesJson(cs));
    assert r.Some? && |r.value| == |cs|;
    assert forall i :: 0 <= i < |cs| ==> r.value[i] == cs[i];
    assert r.value == cs;
  }

  lemma EyeRoundTrip(images: seq<seq<Curve>>)
    ensures ReadEye(EyeJson(images)) == Some(images)
  {
    var items := EyeJson(images).items;
    forall i | 0 <= i < |items| ensures ReadCurves(items[i]) == Some(images[i]) {
      assert items[i] == CurvesJson(images[i]);
      CurvesRoundTrip(images[i]);
    }
    var r := ReadEye(EyeJson(images));
    assert r.Some? && |r.value| == |images|;
    assert forall i :: 0 <= i < |images| ==> r.value[i] == images[i];
    assert r.value == images;
  }

  /** The record has exactly the keys "left_eye" and "right_eye", and holds both lists in full:
      reading it back gives every curve point of every image. */
  lemma RecordRoundTrip(leftEye: seq<seq<Curve>>, rightEye: seq<seq<Curve>>)
    ensures SaveEyelidCoordinates(leftEye, rightEye).fields.Keys == {"left_eye", "right_eye"}
    ensures ReadEyelidCoordinates(SaveEyelidCoordinates(leftEye, rightEye)) == Some((leftEye, rightEye))
  {
    EyeRoundTrip(leftEye);
    EyeRoundTrip(rightEye);
  }
}
