# Face-part masks and double-eyelid curves

A two-stage offline pipeline for face images.

- **Stage 1 (`dlib-script.py`)** takes the 68 landmark points of the first detected face.
  - It fills seven colour-keyed polygons into one composite mask: jaw, left and right eyebrow, nose, left and right eye, mouth.
  - It then splits the composite into seven binary part masks.
  - Each part mask is written to `<output_dir>/<part>/<stem>_<part>.png`.
- **Stage 2 (`eyes-output.py`)** reads each face image together with its left-eye and right-eye masks.
  - It binarises each mask and takes its contours.
  - Above every non-empty contour it synthesises shallow parabolic "double eyelid" curves.
  - It draws each curve as a polyline onto the face image.
  - The curves' points are collected into two parallel per-image lists, which are saved as a record with the keys `left_eye` and `right_eye`.

## Modules

| module | contents |
|---|---|
| `Geometry` | points, BGR colours, and Python's `int(n / 100)` as exact integer truncation toward zero |
| `Paths` | `os.path.join` and `os.path.splitext` as posixpath defines them, plus `str.lower` and `str.endswith` |
| `Optional` | a load that can fail |
| `FaceParts` | the landmark-range and colour tables, and the two visiting orders |
| `PartMasks` | stage 1 |
| `Eyelid` | `add_double_eyelid_lines` |
| `EyelidBatch` | the stage 2 file loop and the coordinate record |

How the state is modelled:

- **Composite and part masks.** Both are `array2` canvases.
  - `cv2.fillPoly` is a `forall` statement over the canvas. It is guarded by a coverage predicate, passed in as a parameter.
  - The boolean-index assignment `part_mask[cond] = 255` is also a `forall` statement.
- **Face image in stage 2.** It is an `Overlay` object whose stroke log grows with every `cv2.line`.
- **Outputs.** Every written file is returned as a value: a path together with the pixel rows or strokes.

Behaviour of the code worth noting:

- **Fill order.** Polygons are filled in the order of the landmark table: jaw, left_eyebrow, right_eyebrow, nose, left_eye, right_eye, mouth. This is not the order of the `parts` list. So on overlaps the mouth wins.
- **Curve centring.** A curve is centred on the contour's top point, not on the middle of its horizontal extent. The docstring of `add_double_eyelid_lines` (eyes-output.py:15-18) promises a line from one end of the eye to the other, but that holds only when `top.x == left.x + ceil(w/2)` (`Eyelid.CurveSpansContourIff`).
- **Curve height.** The curve's y is `int(anchor.y + 0.01*k*k)`, truncated toward zero. It is not the exact parabola. For anchors above the image (negative y) this differs from flooring.
- **Stage 2 extensions.** Stage 2 accepts only `.png`, `.jpg` and `.jpeg`. `.bmp` is not accepted there, although stage 1 accepts it.

## Model

| member | source | states |
|---|---|---|
| FaceParts.Indices | dlib-script.py:28-36 | a part's landmark list has End-First entries, the k-th being First+k, all below 68 |
| FaceParts.FillIndex | dlib-script.py:28-36 | each part occurs exactly once in the table's iteration order, at this position |
| FaceParts.RangesTile | dlib-script.py:28-36 | in table order the ranges start at 0, each starts where the previous ends, and the last ends at 68 |
| FaceParts.RangesPartition | dlib-script.py:28-36 | an index lies in some part's range iff it is in 0..67, and then in exactly one |
| FaceParts.PartColor | dlib-script.py:39-47 | the BGR colour each part is filled with |
| FaceParts.ColorsDistinct | dlib-script.py:39-47 | the seven part colours are pairwise distinct and none is black |
| FaceParts.OrdersArePermutations | dlib-script.py:12-36 | the `parts` list and the table order each list all seven parts exactly once |
| Geometry.TruncHundredths | eyes-output.py:56 | the quotient by 100 truncated toward zero: bounds for non-negative and for negative numerators |
| Geometry.TruncHundredthsMonotonic | eyes-output.py:56 | truncation toward zero is monotone in the numerator |
| Paths.Lower | dlib-script.py:78 | lower-casing keeps the length and maps each character on its own |
| Paths.Join | dlib-script.py:72 | an absolute second part replaces the first; otherwise the result ends with the second part |
| Paths.Stem | dlib-script.py:70 | the root is a prefix of the path; if it is shorter, a '.' follows it and no '.' or '/' comes after that |
| Paths.StemOfExtended | dlib-script.py:70-71 | stripping the extension from `base.ext` gives `base` back |
| PartMasks.Polygon | dlib-script.py:55 | a part's polygon holds its landmarks in index order |
| PartMasks.Painted | dlib-script.py:54-57 | the colour a pixel holds after filling the parts' polygons one after the other onto black |
| PartMasks.LastCovering | dlib-script.py:54-57 | reference definition: the last part in an order whose polygon covers the pixel, or -1 |
| PartMasks.PaintedIsLastCover | dlib-script.py:50-59 | after the fill loop a pixel has the colour of the last covering part, or stays black if none covers it |
| PartMasks.Composite | dlib-script.py:50-52 | the composite has the image's height and width |
| PartMasks.FillPoly | dlib-script.py:57 | covered pixels take the colour and every other pixel is unchanged |
| PartMasks.GenerateMasks | dlib-script.py:50-59 | a fresh H×W canvas whose pixels equal the painter's fold over the table order |
| PartMasks.PartMaskImage | dlib-script.py:64-68 | a part mask has the composite's dimensions |
| PartMasks.ExtractPartMask | dlib-script.py:64-68 | a fresh mask: 255 exactly where the composite equals the part's colour, else 0; the composite is only read |
| PartMasks.PartMaskSelectsLastCover | dlib-script.py:54-68 | a part mask is 0 or 255, and 255 iff the part covers the pixel and no part filled after it does |
| PartMasks.PartMasksPartition | dlib-script.py:62-68 | no pixel is on in two part masks, and the union of on-pixels is exactly the non-black composite pixels |
| PartMasks.MaskPath | dlib-script.py:70-72 | where a part's mask goes: `<output_dir>/<part>/<stem>_<part>.png` |
| PartMasks.PartMaskFiles | dlib-script.py:62-73 | one file per entry of `parts` |
| PartMasks.SavePartMask | dlib-script.py:64-73 | one pass of the loop writes the given part's extracted mask to that part's path |
| PartMasks.SavePartMasks | dlib-script.py:62-73 | the written files are the seven part masks, in `parts` order, each at its part's path |
| PartMasks.SavedMaskContents | dlib-script.py:62-73 | saved file k goes to `output_dir/<part>/<stem>_<part>.png` and is 255 exactly at the pixels where its part is the last to cover |
| PartMasks.ImageFiles | dlib-script.py:77-78 | a name is kept iff it is in the listing and its lower-cased form ends with an accepted extension |
| PartMasks.ImageFilesSingle | dlib-script.py:78 | a one-name listing is kept exactly when the name has an accepted extension |
| PartMasks.ImageFilesAppend | dlib-script.py:78 | filtering a concatenated listing is the concatenation of the filtered parts, so kept names stay in listing order |
| PartMasks.MasksForImage | dlib-script.py:82-103 | what one image writes: nothing if it fails to load or has no face, else the seven masks of its first face |
| PartMasks.MasksForImages | dlib-script.py:82-103 | what a list of images writes, image by image in order |
| PartMasks.MasksForImageLength | dlib-script.py:82-103 | one image writes seven masks if it loads and has a face, none otherwise |
| PartMasks.MasksForImagesCount | dlib-script.py:82-103 | exactly seven masks per image that loads and has a face, none for the others |
| PartMasks.ProcessImage | dlib-script.py:83-103 | one image writes nothing if it does not load or has no face, otherwise the seven masks of its first face |
| PartMasks.ProcessImages | dlib-script.py:76-103 | the loop skips unreadable and faceless images and saves the masks of the first face of each of the others, in listing order |
| Eyelid.Threshold | eyes-output.py:28 | the binary mask is 255 where the input exceeds 127 and 0 elsewhere, with the same shape |
| Eyelid.ArgMin | eyes-output.py:38 | the first index of a least element |
| Eyelid.ArgMax | eyes-output.py:43 | the first index of a greatest element |
| Eyelid.Top | eyes-output.py:38 | the first contour point with the least y |
| Eyelid.Leftmost | eyes-output.py:42 | the first contour point with the least x |
| Eyelid.Rightmost | eyes-output.py:43 | the first contour point with the greatest x |
| Eyelid.CurveWidth | eyes-output.py:42-44 | the width is non-negative, all points lie between left.x and left.x+w, right.x = left.x+w, and top.x is within that span |
| Eyelid.LineAnchor | eyes-output.py:50 | the anchor of line n: `(top.x, top.y + eyelid_offset - line_spacing*n)` |
| Eyelid.CurveY | eyes-output.py:56 | `int(anchor.y + 0.01*k*k)`, computed exactly in hundredths and truncated toward zero |
| Eyelid.CurveAt | eyes-output.py:53-57 | the curve at an anchor: one point per offset from `(-w)//2` to `w//2` |
| Eyelid.ContourCurves | eyes-output.py:33-57 | the curves of one contour: none if it is empty, else one per line |
| Eyelid.EyelidCurves | eyes-output.py:33-64 | the curves of all contours, contour by contour and line by line |
| Eyelid.OffsetRange | eyes-output.py:54 | the offset range runs from `(-w)//2` to `w//2`, has w+1 values and contains 0 |
| Eyelid.CurveShape | eyes-output.py:53-57 | a curve has w+1 points; x starts at anchor.x+(-w)//2 and rises by exactly 1 per point, ends at anchor.x+w//2, and the anchor is on it |
| Eyelid.CurveYShape | eyes-output.py:56 | a point's y is never above the anchor, equals it at offset 0, is the same at k and -k, and grows with abs(k) |
| Eyelid.CurveYNonNegativeAnchor | eyes-output.py:56 | for an anchor with y ≥ 0, y is anchor.y + k*k//100 |
| Eyelid.AnchorSpacing | eyes-output.py:48-50 | successive anchors are exactly line_spacing higher at the same x; with the defaults the first is 20 above the top point |
| Eyelid.ContourCurvesShape | eyes-output.py:33-57 | no curves for an empty contour; otherwise one per line, each with w+1 points and its anchor at offset 0 |
| Eyelid.DegenerateContour | eyes-output.py:44-61 | a zero-width contour gives one-point curves and draws no segment |
| Eyelid.CurveSpansContourIff | eyes-output.py:38-57 | the curve runs exactly from the leftmost to the rightmost column iff top.x = left.x + ceil(w/2) |
| Eyelid.EyelidCurvesAppend | eyes-output.py:33-64 | the curves of two contour lists are concatenated, in contour-then-line order |
| Eyelid.ContourCurvesLength | eyes-output.py:33-48 | one contour yields num_lines curves, or none if it is empty |
| Eyelid.EyelidCurvesCount | eyes-output.py:33-66 | the result has num_lines curves per non-empty contour, so none for no contours |
| Eyelid.Segments | eyes-output.py:60-61 | a curve draws one segment between each pair of neighbours, one fewer than its points |
| Eyelid.AllSegmentsCount | eyes-output.py:60-61 | the segments drawn for a list of curves number their points minus the number of curves |
| Eyelid.AllSegmentsAppend | eyes-output.py:33-61 | drawing two curve lists in turn draws their segments in that order |
| Eyelid.DefaultExample | eyes-output.py:16-57 | a 40-wide eye with top (100, 90) gets, with the defaults, one 41-point curve from (80, 74) through (100, 70) to (120, 74) |
| Eyelid.CurvePoints | eyes-output.py:53-57 | the offset loop builds exactly the w+1 points of the curve at that anchor |
| Eyelid.DrawPolyline | eyes-output.py:60-61 | the image's stroke log grows by exactly the curve's segments |
| Eyelid.DrawContourCurves | eyes-output.py:37-64 | for a non-empty contour it returns that contour's curves and draws their segments |
| Eyelid.AddDoubleEyelidLines | eyes-output.py:16-66 | returns the curves of all the mask's contours in order, and appends exactly their segments to the image |
| EyelidBatch.LeftMaskPath | eyes-output.py:86-92 | the left-eye mask path: `<left_eye_mask_dir>/<stem>_left_eye.png` |
| EyelidBatch.RightMaskPath | eyes-output.py:86-93 | the right-eye mask path: `<right_eye_mask_dir>/<stem>_right_eye.png` |
| EyelidBatch.ProcessFile | eyes-output.py:82-123 | one iteration: nothing for another extension or a failed load, else both eyes' curves and the image with both eyes drawn, left first |
| EyelidBatch.ProcessAll | eyes-output.py:81-127 | the contributions of a whole listing, in listing order |
| EyelidBatch.ProcessAllCount | eyes-output.py:81-119 | exactly one entry per file that passes the filter and whose face image and both masks load, none for the others |
| EyelidBatch.ProcessAllSound | eyes-output.py:81-119 | at most one entry per listed file, and every entry comes from a listed file with a face extension whose three images loaded |
| EyelidBatch.ProcessBatch | eyes-output.py:78-127 | the left, right and output lists have equal length, and entry n is the n-th file that loaded fully: its left curves, right curves and drawn image |
| EyelidBatch.MaskPathsAgree | eyes-output.py:86-93 | stage 2 reads each eye mask from the exact path stage 1 writes it to, and face images from stage 1's input directory |
| EyelidBatch.SaveEyelidCoordinates | eyes-output.py:69-75 | the record with the left list under "left_eye" and the right list under "right_eye", points as `[x, y]` arrays |
| EyelidBatch.RecordRoundTrip | eyes-output.py:69-75 | the record has exactly the keys left_eye and right_eye, and reading it back gives both lists unchanged |

## Left out

- Face detection and the 68-point landmark predictor are external models. A loaded image carries the landmark sets they would report.
- The model-file existence check with `exit()` is process control and is not modelled.
- `cv2.fillPoly` rasterisation is not modelled. Which pixels a filled polygon paints is the `covers` parameter.
- `cv2.findContours` is a parameter. It is assumed to be a function of the binary mask.
- `cv2.line` anti-aliased rasterisation is not modelled. Each call is recorded as a stroke in the image's log, and the pixels it would change are not computed.
- File I/O (`cv2.imread`, `cv2.imwrite`, `os.listdir`, `os.makedirs`, `json.dump`) is not modelled:
  - reads are function parameters that may fail;
  - the listing is a parameter;
  - each write is a returned value;
  - whether `imwrite` succeeds only selects a log message, so it is not modelled.
- `tqdm` progress output and all `print` calls are not modelled.
- IEEE double arithmetic in `0.01 * k**2` is not modelled. It is exact `k*k/100`, truncated toward zero as `int()` does.
- `numpy.int32` overflow of landmark and contour coordinates is not modelled. Integers are unbounded.
- `str.lower` is modelled for ASCII letters only.
- `os.path.join` and `os.path.splitext` are modelled with the POSIX behaviour only, not the Windows variant.
- `Eyelid.AddDoubleEyelidLines`: the drawn image is its stroke log, not its pixels, so the contract says what is drawn and in what order, not which pixels change.
