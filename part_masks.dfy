/** First stage of the pipeline (dlib-script.py): paint every part's landmark polygon into one
    colour-keyed composite mask, then split it into one binary mask per part.

    The face detector, the landmark predictor and OpenCV's polygon rasteriser are not part of
    this model: a loaded image carries the landmark sets the detector and predictor would
    report for it, and the rasteriser is the `covers` parameter, which decides whether a
    filled polygon paints a pixel. */
module PartMasks {
  import opened Geometry
  import opened Paths
  import opened Optional
  import opened FaceParts

  /** The 68 points the landmark predictor returns for one face. */
  type Landmarks = s: seq<Point> | |s| == LANDMARK_COUNT witness seq(68, _ => Point(0, 0))

  /** The rasteriser's decision: does filling `polygon` paint `pixel`? */
  type Coverage = (seq<Point>, Point) -> bool

  /** A decoded image as far as this stage uses it: its size and the faces found in it. */
  datatype LoadedImage = LoadedImage(height: nat, width: nat, faces: seq<Landmarks>)

  /** One file written by `cv2.imwrite`: where, and the pixel rows it held. */
  datatype MaskFile = MaskFile(path: string, pixels: seq<seq<int>>)

  const INPUT_DIR: string := "./data/LFW/archive/generated_yellow-stylegan2"
  const OUTPUT_DIR: string := "./data/Dlib_Segmentation_Masks"
  const VALID_EXTENSIONS: seq<string> := [".png", ".jpg", ".jpeg", ".bmp"]

  /** The vertices of a part's polygon: its landmarks, in index order. */
  function Polygon(landmarks: Landmarks, p: Part): (poly: seq<Point>)
    ensures |poly| == End(p) - First(p)
    ensures forall k :: 0 <= k < |poly| ==> poly[k] == landmarks[First(p) + k]
  {
    var indices := Indices(p);
    seq(|indices|, k requires 0 <= k < |indices| => landmarks[indices[k]])
  }

  /** The colour a pixel holds after filling the polygons of `parts` one after the other onto
      a black canvas: the painter's fold the fill loop performs. */
  function Painted(parts: seq<Part>, landmarks: Landmarks, covers: Coverage, px: Point): Color
  {
    if parts == [] then BLACK
    else
      var last := parts[|parts| - 1];
      if covers(Polygon(landmarks, last), px) then PartColor(last)
      else Painted(parts[..|parts| - 1], landmarks, covers, px)
  }

  /** Independent reference: the index of the last part in `parts` whose polygon covers the
      pixel, or -1 when none does. */
  function LastCovering(parts: seq<Part>, landmarks: Landmarks, covers: Coverage, px: Point): (k: int)
    ensures -1 <= k < |parts|
    ensures 0 <= k ==> covers(Polygon(landmarks, parts[k]), px)
    ensures forall m :: k < m < |parts| ==> !covers(Polygon(landmarks, parts[m]), px)
  {
    if parts == [] then -1
    else if covers(Polygon(landmarks, parts[|parts| - 1]), px) then |parts| - 1
    else LastCovering(parts[..|parts| - 1], landmarks, covers, px)
  }

  /** Last drawn wins: a pixel ends with the colour of the last part covering it, and a pixel no
      part covers stays black. */
  lemma {:induction false} PaintedIsLastCover(parts: seq<Part>, landmarks: Landmarks, covers: Coverage, px: Point)
    ensures var k := LastCovering(parts, landmarks, covers, px);
      Painted(parts, landmarks, covers, px) == if k < 0 then BLACK else PartColor(parts[k])
  {
    if parts != [] && !covers(Polygon(landmarks, parts[|parts| - 1]), px) {
      var prefix := parts[..|parts| - 1];
      PaintedIsLastCover(prefix, landmarks, covers, px);
      var k := LastCovering(prefix, landmarks, covers, px);
      assert 0 <= k ==> prefix[k] == parts[k];
    }
  }

  /** The composite mask of an image of the given size, row by row. */
  function Composite(height: nat, width: nat, landmarks: Landmarks, covers: Coverage): (c: seq<seq<Color>>)
    ensures |c| == height
    ensures forall i :: 0 <= i < height ==> |c[i]| == width
  {
    seq(height, i => seq(width, j => Painted(FILL_ORDER, landmarks, covers, Point(j, i))))
  }

  /** The value a part mask takes at one composite pixel (an exact match on all three channels). */
  function MaskValue(c: Color, p: Part): int {
    if c == PartColor(p) then 255 else 0
  }

  /** The part mask of a composite, row by row. */
  function PartMaskImage(composite: seq<seq<Color>>, p: Part): (m: seq<seq<int>>)
    ensures |m| == |composite|
    ensures forall i :: 0 <= i < |m| ==> |m[i]| == |composite[i]|
  {
    seq(|composite|, i requires 0 <= i < |composite| =>
      seq(|composite[i]|, j requires 0 <= j < |composite[i]| => MaskValue(composite[i][j], p)))
  }

  /** A part mask is 255 at a pixel exactly when that part's polygon covers it and no part
      filled after it does; otherwise it is 0. */
  lemma PartMaskSelectsLastCover(landmarks: Landmarks, covers: Coverage, px: Point, p: Part)
    ensures var v := MaskValue(Painted(FILL_ORDER, landmarks, covers, px), p);
      (v == 0 || v == 255) &&
      (v == 255 <==>
        covers(Polygon(landmarks, p), px) &&
        forall n :: FillIndex(p) < n < |FILL_ORDER| ==> !covers(Polygon(landmarks, FILL_ORDER[n]), px))
  {
    PaintedIsLastCover(FILL_ORDER, landmarks, covers, px);
    ColorsDistinct();
    var k, f := LastCovering(FILL_ORDER, landmarks, covers, px), FillIndex(p);
    var v := MaskValue(Painted(FILL_ORDER, landmarks, covers, px), p);
    assert v == 255 <==> k == f;
  }

  /** No pixel is on in two part masks, and the pixels that are on in some part mask are
      exactly the non-black pixels of the composite. */
  lemma PartMasksPartition(landmarks: Landmarks, covers: Coverage, px: Point)
    ensures var c := Painted(FILL_ORDER, landmarks, covers, px);
      (forall p, q :: p != q ==> MaskValue(c, p) != 255 || MaskValue(c, q) != 255) &&
      (c != BLACK <==> exists p :: MaskValue(c, p) == 255)
  {
    PaintedIsLastCover(FILL_ORDER, landmarks, covers, px);
    ColorsDistinct();
    var k := LastCovering(FILL_ORDER, landmarks, covers, px);
    if 0 <= k {
      assert MaskValue(PartColor(FILL_ORDER[k]), FILL_ORDER[k]) == 255;
    }
  }

  /** The pixel rows an array holds: what `cv2.imwrite` puts in the file. */
  function Rows<T>(a: array2<T>): (r: seq<seq<T>>)
    reads a
    ensures |r| == a.Length0
    ensures forall i :: 0 <= i < |r| ==> |r[i]| == a.Length1
    ensures forall i, j :: 0 <= i < a.Length0 && 0 <= j < a.Length1 ==> r[i][j] == a[i, j]
  {
    seq(a.Length0, i requires 0 <= i < a.Length0 reads a =>
      seq(a.Length1, j requires 0 <= j < a.Length1 reads a => a[i, j]))
  }

  /** `cv2.fillPoly(canvas, [polygon], color)`: paints every covered pixel, leaves the rest. */
  method FillPoly(canvas: array2<Color>, polygon: seq<Point>, color: Color, covers: Coverage)
    modifies canvas
    ensures forall i, j :: 0 <= i < canvas.Length0 && 0 <= j < canvas.Length1 ==>
      canvas[i, j] == if covers(polygon, Point(j, i)) then color else old(canvas[i, j])
  {
    forall i, j | 0 <= i < canvas.Length0 && 0 <= j < canvas.Length1 && covers(polygon, Point(j, i)) {
      canvas[i, j] := color;
    }
  }

  /** `generate_masks`: a black canvas of the image's size with the part polygons filled in
      table order. */
  method GenerateMasks(height: nat, width: nat, landmarks: Landmarks, covers: Coverage)
    returns (mask: array2<Color>)
    ensures fresh(mask)
    ensures mask.Length0 == height && mask.Length1 == width
    ensures forall i, j :: 0 <= i < height && 0 <= j < width ==>
      mask[i, j] == Painted(FILL_ORDER, landmarks, covers, Point(j, i))
    ensures Rows(mask) == Composite(height, width, landmarks, covers)
  {
    mask := new Color[height, width]((i, j) => BLACK);
    var k := 0;
    while k < |FILL_ORDER|
      invariant 0 <= k <= |FILL_ORDER|
      invariant mask.Length0 == height && mask.Length1 == width
      invariant forall i, j :: 0 <= i < height && 0 <= j < width ==>
        mask[i, j] == Painted(FILL_ORDER[..k], landmarks, covers, Point(j, i))
    {
      var part := FILL_ORDER[k];
      var points := Polygon(landmarks, part);
      FillPoly(mask, points, PartColor(part), covers);
      assert FILL_ORDER[..k + 1][..k] == FILL_ORDER[..k];
      k := k + 1;
    }
    assert FILL_ORDER[..k] == FILL_ORDER;
    var rows, expected := Rows(mask), Composite(height, width, landmarks, covers);
    assert forall i :: 0 <= i < height ==> rows[i] == expected[i];
  }

  /** The single-channel mask of one part: 255 where the composite holds the part's colour,
      0 elsewhere. The composite is only read. */
  method ExtractPartMask(mask: array2<Color>, p: Part) returns (partMask: array2<int>)
    ensures fresh(partMask)
    ensures Rows(partMask) == PartMaskImage(Rows(mask), p)
  {
    partMask := new int[mask.Length0, mask.Length1]((i, j) => 0);
    var color := PartColor(p);
    forall i, j | 0 <= i < mask.Length0 && 0 <= j < mask.Length1 && mask[i, j] == color {
      partMask[i, j] := 255;
    }
    var rows, expected := Rows(partMask), PartMaskImage(Rows(mask), p);
    assert forall i :: 0 <= i < mask.Length0 ==> rows[i] == expected[i];
  }

  /** Where a part's mask for an image file goes: `<outputDir>/<part>/<stem>_<part>.png`. */
  function MaskPath(outputDir: string, p: Part, imageFilename: string): string {
    Join(Join(outputDir, Name(p)), Stem(imageFilename) + "_" + Name(p) + ".png")
  }

  /** The seven files `save_part_masks` writes for one composite, in `parts` order. */
  function PartMaskFiles(composite: seq<seq<Color>>, imageFilename: string): (files: seq<MaskFile>)
    ensures |files| == |SAVE_ORDER|
  {
    seq(|SAVE_ORDER|, k requires 0 <= k < |SAVE_ORDER| => PartMaskFile(composite, imageFilename, SAVE_ORDER[k]))
  }

  /** The file written for one part: the part's mask at the part's path. */
  function PartMaskFile(composite: seq<seq<Color>>, imageFilename: string, p: Part): MaskFile {
    MaskFile(MaskPath(OUTPUT_DIR, p, imageFilename), PartMaskImage(composite, p))
  }

  /** One iteration of `save_part_masks`: extract the part's mask and write it to its path. */
  method SavePartMask(mask: array2<Color>, part: Part, imageFilename: string) returns (file: MaskFile)
    ensures file == PartMaskFile(Rows(mask), imageFilename, part)
  {
    var partMask := ExtractPartMask(mask, part);
    var path := MaskPath(OUTPUT_DIR, part, imageFilename);
    file := MaskFile(path, Rows(partMask));
  }

  /** `save_part_masks`: one extracted mask per entry of `parts`, each written to its path. */
  method SavePartMasks(mask: array2<Color>, imageFilename: string) returns (written: seq<MaskFile>)
    ensures written == PartMaskFiles(Rows(mask), imageFilename)
  {
    written := [];
    ghost var expected := PartMaskFiles(Rows(mask), imageFilename);
    var k := 0;
    while k < |SAVE_ORDER|
      invariant k <= |SAVE_ORDER| == |expected|
      invariant written == expected[..k]
    {
      var file := SavePartMask(mask, SAVE_ORDER[k], imageFilename);
      assert file == expected[k];
      PrefixSnoc(expected, k);
      written := written + [file];
      k := k + 1;
    }
    assert expected[..k] == expected;
  }

  lemma PrefixSnoc<T>(s: seq<T>, k: nat)
    requires k < |s|
    ensures s[..k + 1] == s[..k] + [s[k]]
  { }

  /** What one image's saved masks hold: file `k` goes to its part's path, and is 255 at a pixel
      exactly when that part's polygon covers it and no part filled after it does, else 0. */
  lemma SavedMaskContents(height: nat, width: nat, landmarks: Landmarks, covers: Coverage,
                          imageFilename: string, k: nat, i: nat, j: nat)
    requires k < |SAVE_ORDER| && i < height && j < width
    ensures var file := PartMaskFiles(Composite(height, width, landmarks, covers), imageFilename)[k];
      var p := SAVE_ORDER[k];
      && file.path == MaskPath(OUTPUT_DIR, p, imageFilename)
      && |file.pixels| == height && |file.pixels[i]| == width
      && (file.pixels[i][j] == 0 || file.pixels[i][j] == 255)
      && (file.pixels[i][j] == 255 <==>
            covers(Polygon(landmarks, p), Point(j, i)) &&
            forall n :: FillIndex(p) < n < |FILL_ORDER| ==> !covers(Polygon(landmarks, FILL_ORDER[n]), Point(j, i)))
  {
    var composite := Composite(height, width, landmarks, covers);
    var p := SAVE_ORDER[k];
    var file := PartMaskFiles(composite, imageFilename)[k];
    assert file.pixels == PartMaskImage(composite, p);
    assert file.pixels[i][j] == MaskValue(Painted(FILL_ORDER, landmarks, covers, Point(j, i)), p);
    PartMaskSelectsLastCover(landmarks, covers, Point(j, i), p);
  }

  /** The entries of a directory listing kept by the extension filter, in listing order. */
  function ImageFiles(listing: seq<string>): (files: seq<string>)
    ensures forall f :: f in files <==> f in listing && EndsWithAny(Lower(f), VALID_EXTENSIONS)
    ensures |files| <= |listing|
  {
    if listing == [] then []
    else
      var rest := ImageFiles(listing[..|listing| - 1]);
      var f := listing[|listing| - 1];
      assert listing == listing[..|listing| - 1] + [f];
      if EndsWithAny(Lower(f), VALID_EXTENSIONS) then rest + [f] else rest
  }

  /** The filter keeps a one-entry listing exactly when its name has an accepted extension. */
  lemma ImageFilesSingle(f: string)
    ensures ImageFiles([f]) == if EndsWithAny(Lower(f), VALID_EXTENSIONS) then [f] else []
  {
    assert [f][..0] == [];
  }

  /** Filtering a concatenated listing filters each part and keeps them in order, so the kept
      names keep their listing order. */
  lemma {:induction false} ImageFilesAppend(a: seq<string>, b: seq<string>)
    ensures ImageFiles(a + b) == ImageFiles(a) + ImageFiles(b)
  {
    if b == [] {
      assert a + b == a;
    } else {
      var b', last := b[..|b| - 1], b[|b| - 1];
      var kept: seq<string> := if EndsWithAny(Lower(last), VALID_EXTENSIONS) then [last] else [];
      var fa, fb' := ImageFiles(a), ImageFiles(b');
      assert (fa + fb') + kept == fa + (fb' + kept);
      assert (a + b)[..|a + b| - 1] == a + b' && (a + b)[|a + b| - 1] == last;
      assert ImageFiles(a + b) == ImageFiles(a + b') + kept;
      assert ImageFiles(b) == fb' + kept;
      ImageFilesAppend(a, b');
    }
  }

  /** What processing one image file writes: nothing when it does not load or no face is
      found, otherwise the part masks built from the first face's landmarks. */
  function MasksForImage(f: string, read: string -> Option<LoadedImage>, covers: Coverage): seq<MaskFile> {
    match read(Join(INPUT_DIR, f))
    case None => []
    case Some(image) =>
      if |image.faces| == 0 then []
      else PartMaskFiles(Composite(image.height, image.width, image.faces[0], covers), f)
  }

  /** Everything written for a sequence of image files, in order. */
  function MasksForImages(files: seq<string>, read: string -> Option<LoadedImage>, covers: Coverage): seq<MaskFile> {
    if files == [] then []
    else MasksForImages(files[..|files| - 1], read, covers) + MasksForImage(files[|files| - 1], read, covers)
  }

  /** Does processing this file write masks (it loads and has a face)? */
  predicate Produces(f: string, read: string -> Option<LoadedImage>) {
    read(Join(INPUT_DIR, f)).Some? && |read(Join(INPUT_DIR, f)).value.faces| > 0
  }

  function CountProducing(files: seq<string>, read: string -> Option<LoadedImage>): nat {
    if files == [] then 0
    else CountProducing(files[..|files| - 1], read) + (if Produces(files[|files| - 1], read) then 1 else 0)
  }

  /** One image writes seven masks if it loads and has a face, and none otherwise. */
  lemma MasksForImageLength(f: string, read: string -> Option<LoadedImage>, covers: Coverage)
    ensures |MasksForImage(f, read, covers)| == if Produces(f, read) then |SAVE_ORDER| else 0
  {
  }

  /** A batch writes exactly seven masks per image that loads and shows a face, none for the
      others. */
  lemma {:induction false} MasksForImagesCount(files: seq<string>, read: string -> Option<LoadedImage>, covers: Coverage)
    ensures |MasksForImages(files, read, covers)| == |SAVE_ORDER| * CountProducing(files, read)
  {
    if files != [] {
      var prefix, f := files[..|files| - 1], files[|files| - 1];
      var c, one := CountProducing(prefix, read), if Produces(f, read) then 1 else 0;
      assert 7 * (c + one) == 7 * c + 7 * one;
      assert CountProducing(files, read) == c + one;
      assert MasksForImages(files, read, covers) == MasksForImages(prefix, read, covers) + MasksForImage(f, read, covers);
      MasksForImagesCount(prefix, read, covers);
      MasksForImageLength(f, read, covers);
    }
  }

  lemma MasksForImagesStep(files: seq<string>, n: nat, read: string -> Option<LoadedImage>, covers: Coverage)
    requires n < |files|
    ensures MasksForImages(files[..n + 1], read, covers)
         == MasksForImages(files[..n], read, covers) + MasksForImage(files[n], read, covers)
  {
    assert files[..n + 1][..n] == files[..n];
  }

  /** One iteration of `process_images`: load the image, skip it when it does not load or has no
      face, otherwise build the composite from the first face and save its part masks. */
  method ProcessImage(imageFile: string, read: string -> Option<LoadedImage>, covers: Coverage)
    returns (files: seq<MaskFile>)
    ensures files == MasksForImage(imageFile, read, covers)
  {
    var imagePath := Join(INPUT_DIR, imageFile);
    var loaded := read(imagePath);
    if loaded.None? {
      return [];
    }
    var image := loaded.value;
    var faces := image.faces;
    if |faces| == 0 {
      return [];
    }
    var landmarks := faces[0];
    var mask := GenerateMasks(image.height, image.width, landmarks, covers);
    files := SavePartMasks(mask, imageFile);
  }

  /** `process_images`: filter the listing by extension, and for each image that loads and has
      at least one face, build the composite from the first face and save its part masks. */
  method ProcessImages(listing: seq<string>, read: string -> Option<LoadedImage>, covers: Coverage)
    returns (written: seq<MaskFile>)
    ensures written == MasksForImages(ImageFiles(listing), read, covers)
  {
    var imageFiles := ImageFiles(listing);
    written := [];
    var n := 0;
    while n < |imageFiles|
      invariant 0 <= n <= |imageFiles|
      invariant written == MasksForImages(imageFiles[..n], read, covers)
    {
      MasksForImagesStep(imageFiles, n, read, covers);
      var files := ProcessImage(imageFiles[n], read, covers);
      written := written + files;
      n := n + 1;
    }
    assert imageFiles[..n] == imageFiles;
  }
}
