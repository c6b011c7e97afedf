/** RasterProcessor: the optional processing steps of `process`, the feature
    summary of `_extract_features` and the building bundle of
    `_process_building`. Every OpenCV, PIL and skimage call is a field of a
    `Toolkit` value given by the caller, and any of those that can reject
    its input returns a Result. What is modelled is the logic around those
    calls: which steps run and in which order, the error conditions numpy
    and OpenCV impose that the source does not catch, which contours are
    kept, the parallel lists of the bundle and the centroid rule. */
module Raster {
  import opened Wrappers
  import opened Json
  import opened Numeric

  // ---------------------------------------------------------------------
  // Arrays, images and the foreign operations

  /** The numpy element types the processor tells apart: uint8, the other
      integer types, and floating point. */
  datatype DType = UInt8 | OtherInt | Float

  /** A numpy array: its shape, its samples in row-major order and its
      element type. Samples are reals; those of an integer array are whole. */
  datatype ImageArray = ImageArray(shape: seq<nat>, samples: seq<real>, dtype: DType)

  predicate Whole(x: real)
  {
    x == x.Floor as real
  }

  /** An array without elements: one of its dimensions is zero. */
  predicate IsEmpty(a: ImageArray)
  {
    0 in a.shape
  }

  /** A PIL image; its pixels are reached through the toolkit's conversions. */
  datatype Picture = Picture(width: nat, height: nat, mode: string)

  /** The image/array pair `process` carries from step to step. */
  datatype Frame = Frame(image: Picture, pixels: ImageArray)

  datatype Contour = Contour(points: seq<(int, int)>)
  /** The raw moments cv2.moments reports that the centroid needs. */
  datatype Moments = Moments(m00: real, m10: real, m01: real)
  /** cv2.boundingRect: x, y, width, height. */
  datatype Rect = Rect(x: int, y: int, w: int, h: int)
  /** One HoughLinesP segment: x1, y1, x2, y2. */
  datatype Line = Line(x1: int, y1: int, x2: int, y2: int)

  /** The library calls the processor makes, as given functions. */
  datatype Toolkit = Toolkit(
    toArray: Picture -> ImageArray,                           // np.array(image)
    fromArray: ImageArray -> Picture,                         // Image.fromarray, on a shape PilMode accepts
    normalize: ImageArray -> Result<Frame>,                   // the scaling of _normalize
    stretch: (ImageArray, real, real) -> Result<Frame>,       // percentiles, clip and scaling of _contrast_stretch
    denoise: ImageArray -> Result<Frame>,                     // fastNlMeansDenoising(Colored)
    resize: (Picture, (nat, nat)) -> Result<Frame>,           // _resize
    enhance: Picture -> Result<Frame>,                        // _enhance
    toGray: ImageArray -> seq<real>,                          // cvtColor RGB2GRAY: samples of the H x W result
    findContours: ImageArray -> Result<seq<Contour>>,         // blur, adaptive threshold, opening, external contours
    area: Contour -> real,                                    // contourArea
    moments: Contour -> Moments,                              // moments
    boundingRect: Contour -> Rect,                            // boundingRect
    fillContour: (ImageArray, Contour) -> ImageArray,         // drawContours(mask, [cnt], -1, 255, -1)
    drawContours: (ImageArray, seq<Contour>) -> ImageArray,
    canny: ImageArray -> Result<seq<real>>,                   // Canny(gray, 100, 200): samples of the edge map
    houghLines: seq<real> -> Option<seq<Line>>,               // HoughLinesP on the edge map; None when it finds nothing
    drawLine: (ImageArray, Line) -> ImageArray,               // cv2.line
    sift: ImageArray -> Result<seq<real>>,                    // SIFT detect: keypoint responses, Err when it raises
    textureAvailable: bool)                                   // skimage.feature imports

  /** One sample of `astype(np.uint8)`: truncated toward zero, then wrapped
      modulo 256. */
  function ToByte(x: real): real
  {
    (Trunc(x) % 256) as real
  }

  lemma ToByteFacts(x: real)
    ensures 0.0 <= ToByte(x) < 256.0 && Whole(ToByte(x))
    ensures 0.0 <= x < 256.0 ==> ToByte(x) == x.Floor as real
    ensures Whole(x) ==> ToByte(x) == (x.Floor % 256) as real
  {
    if Whole(x) && x < 0.0 {
      assert -x == (-x).Floor as real;
      assert x.Floor == -((-x).Floor);
    }
  }

  /** `astype(np.uint8)` */
  function AsUint8(a: ImageArray): (u: ImageArray)
    ensures u.shape == a.shape && |u.samples| == |a.samples| && u.dtype == UInt8
    ensures forall i :: 0 <= i < |u.samples| ==> 0.0 <= u.samples[i] < 256.0 && Whole(u.samples[i])
    ensures forall i :: 0 <= i < |a.samples| && 0.0 <= a.samples[i] < 256.0 ==> u.samples[i] == a.samples[i].Floor as real
    ensures forall i :: 0 <= i < |a.samples| && Whole(a.samples[i]) ==> u.samples[i] == (a.samples[i].Floor % 256) as real
  {
    forall x | x in a.samples
      ensures 0.0 <= ToByte(x) < 256.0 && Whole(ToByte(x))
      ensures 0.0 <= x < 256.0 ==> ToByte(x) == x.Floor as real
      ensures Whole(x) ==> ToByte(x) == (x.Floor % 256) as real
    {
      ToByteFacts(x);
    }
    ImageArray(a.shape, seq(|a.samples|, i requires 0 <= i < |a.samples| => ToByte(a.samples[i])), UInt8)
  }

  /** image_array * 255 */
  function Times255(a: ImageArray): ImageArray
  {
    ImageArray(a.shape, seq(|a.samples|, i requires 0 <= i < |a.samples| => a.samples[i] * 255.0), a.dtype)
  }

  /** The mode Image.fromarray picks for a uint8 array of the given shape:
      "L" for one or two dimensions, and "LA", "RGB" or "RGBA" for three
      dimensions of 2, 3 or 4 channels. Reading the size of a 0-D array
      raises IndexError; every other shape is missing from PIL's type map
      and raises TypeError. */
  function PilMode(shape: seq<nat>): Result<string>
  {
    if |shape| == 0 then Err(IndexError)
    else if |shape| <= 2 then Ok("L")
    else if |shape| == 3 && shape[2] == 2 then Ok("LA")
    else if |shape| == 3 && shape[2] == 3 then Ok("RGB")
    else if |shape| == 3 && shape[2] == 4 then Ok("RGBA")
    else Err(TypeError)
  }

  /** Image.fromarray on a uint8 array: a picture of the PIL mode of its
      shape, or that shape's error. */
  function FromArray(a: ImageArray, lib: Toolkit): (r: Result<Picture>)
    ensures r.Ok? <==> 1 <= |a.shape| <= 2 || (|a.shape| == 3 && 2 <= a.shape[2] <= 4)
    ensures |a.shape| == 0 ==> r == Err(IndexError)
    ensures |a.shape| >= 4 || (|a.shape| == 3 && (a.shape[2] < 2 || a.shape[2] > 4)) ==> r == Err(TypeError)
    ensures r.Ok? ==> r.value.mode == PilMode(a.shape).value
  {
    match PilMode(a.shape)
    case Err(e) => Err(e)
    case Ok(m) => Ok(lib.fromArray(a).(mode := m))
  }

  /** np.zeros_like */
  function ZerosLike(a: ImageArray): ImageArray
  {
    ImageArray(a.shape, seq(|a.samples|, i => 0.0), a.dtype)
  }

  // ---------------------------------------------------------------------
  // _process_building

  predicate IsRgb(a: ImageArray)
  {
    |a.shape| == 3 && a.shape[2] == 3
  }

  /** The grayscale image of the building pass: the uint8 array converted
      only when it has three dimensions and exactly three channels. */
  function BuildingGray(a: ImageArray, lib: Toolkit): (g: ImageArray)
    ensures g.dtype == UInt8
    ensures IsRgb(a) ==> g.shape == a.shape[..2]
    ensures !IsRgb(a) ==> g == AsUint8(a)
  {
    var u := AsUint8(a);
    if IsRgb(u) then ImageArray(u.shape[..2], lib.toGray(u), UInt8) else u
  }

  /** 1 % of the image area. */
  function MinBuildingArea(g: ImageArray): real
    requires |g.shape| >= 2
  {
    (g.shape[0] * g.shape[1]) as real * 0.01
  }

  /** The comprehension keeping the contours whose area exceeds `min`. */
  function Filter(cs: seq<Contour>, area: Contour -> real, min: real): (kept: seq<Contour>)
    ensures |kept| <= |cs|
    ensures forall j :: 0 <= j < |kept| ==> kept[j] in cs && area(kept[j]) > min
  {
    if cs == [] then []
    else (if area(cs[0]) > min then [cs[0]] else []) + Filter(cs[1..], area, min)
  }

  /** The centroid of one contour, or None when its area moment is zero. */
  function Centroid(m: Moments): (c: Option<(int, int)>)
    ensures c.None? <==> m.m00 == 0.0
  {
    if m.m00 != 0.0 then Some((Trunc(m.m10 / m.m00), Trunc(m.m01 / m.m00))) else None
  }

  function LinesOrEmpty(lines: Option<seq<Line>>): seq<Line>
  {
    if lines.Some? then lines.value else []
  }

  /** The building_segments dict. */
  datatype Segments = Segments(
    edges: ImageArray,
    contours: seq<Contour>,
    masks: seq<ImageArray>,
    count: nat,
    lines: seq<Line>,
    areas: seq<real>,
    boundingBoxes: seq<Rect>,
    centroids: seq<Option<(int, int)>>)

  /** The bundle for a grayscale image, its detected contours and its edge
      map. */
  function SegmentsFor(g: ImageArray, found: seq<Contour>, edges: seq<real>, lib: Toolkit): (s: Segments)
    requires |g.shape| >= 2
    ensures s.count == |s.contours| == |s.masks| == |s.areas| == |s.boundingBoxes| == |s.centroids|
    ensures forall i :: 0 <= i < s.count ==>
      s.areas[i] == lib.area(s.contours[i]) && s.areas[i] > MinBuildingArea(g) &&
      s.boundingBoxes[i] == lib.boundingRect(s.contours[i]) &&
      s.centroids[i] == Centroid(lib.moments(s.contours[i])) &&
      s.masks[i] == lib.fillContour(ZerosLike(g), s.contours[i])
    ensures s.contours == Filter(found, lib.area, MinBuildingArea(g))
    ensures s.edges.samples == edges && s.lines == LinesOrEmpty(lib.houghLines(edges))
  {
    var kept := Filter(found, lib.area, MinBuildingArea(g));
    Segments(
      ImageArray(g.shape[..2], edges, UInt8), kept,
      seq(|kept|, i requires 0 <= i < |kept| => lib.fillContour(ZerosLike(g), kept[i])),
      |kept|,
      LinesOrEmpty(lib.houghLines(edges)),
      seq(|kept|, i requires 0 <= i < |kept| => lib.area(kept[i])),
      seq(|kept|, i requires 0 <= i < |kept| => lib.boundingRect(kept[i])),
      seq(|kept|, i requires 0 <= i < |kept| => Centroid(lib.moments(kept[i]))))
  }

  /** The drawing loop over the detected lines. */
  function DrawLines(a: ImageArray, lines: seq<Line>, lib: Toolkit): ImageArray
    decreases |lines|
  {
    if lines == [] then a else DrawLines(lib.drawLine(a, lines[0]), lines[1..], lib)
  }

  /** The copy of the uint8 input with the kept contours and the lines drawn
      on it. OpenCV draws in place, so the copy keeps the input's shape. */
  function Annotated(a: ImageArray, s: Segments, lib: Toolkit): (r: ImageArray)
    ensures r.shape == a.shape && r.dtype == UInt8
  {
    ImageArray(a.shape, DrawLines(lib.drawContours(AsUint8(a), s.contours), s.lines, lib).samples, UInt8)
  }

  /** What _process_building returns: the annotated image and array and the
      segments. GaussianBlur (and, for a colour input, cvtColor) rejects an
      empty image; the OpenCV chain up to findContours may reject the input;
      `grayscale.shape[1]` fails on an image of fewer than two dimensions;
      Canny may reject its input; and Image.fromarray rejects an annotated
      array whose shape PIL cannot map. */
  function BuildingBundle(a: ImageArray, lib: Toolkit): (r: Result<(Picture, ImageArray, Segments)>)
    ensures var g := BuildingGray(a, lib);
      r.Ok? <==> !IsEmpty(g) && lib.findContours(g).Ok? && |g.shape| >= 2 && lib.canny(g).Ok? && PilMode(a.shape).Ok?
    ensures IsEmpty(BuildingGray(a, lib)) ==> r == Err(CvError)
    ensures var g := BuildingGray(a, lib);
      !IsEmpty(g) && lib.findContours(g).Ok? && |g.shape| < 2 ==> r == Err(IndexError)
    ensures var g := BuildingGray(a, lib);
      !IsEmpty(g) && lib.findContours(g).Ok? && |g.shape| >= 2 && lib.canny(g).Ok? && PilMode(a.shape).Err? ==>
        r == Err(TypeError)
    ensures var g := BuildingGray(a, lib);
      r.Ok? ==> r.value.2 == SegmentsFor(g, lib.findContours(g).value, lib.canny(g).value, lib)
  {
    var g := BuildingGray(a, lib);
    if IsEmpty(g) then Err(CvError)
    else
      match lib.findContours(g)
      case Err(e) => Err(e)
      case Ok(found) =>
        if |g.shape| < 2 then Err(IndexError)
        else
          match lib.canny(g)
          case Err(e) => Err(e)
          case Ok(edges) =>
            var s := SegmentsFor(g, found, edges, lib);
            var annotated := Annotated(a, s, lib);
            match FromArray(annotated, lib)
            case Err(e) => Err(e)
            case Ok(p) => Ok((p, annotated, s))
  }

  /** The mask loop of _process_building: one filled mask per kept contour. */
  method FillMasks(kept: seq<Contour>, gray: ImageArray, lib: Toolkit) returns (masks: seq<ImageArray>)
    ensures masks == seq(|kept|, j requires 0 <= j < |kept| => lib.fillContour(ZerosLike(gray), kept[j]))
  {
    masks := [];
    var i := 0;
    while i < |kept|
      invariant 0 <= i <= |kept| && |masks| == i
      invariant forall j :: 0 <= j < i ==> masks[j] == lib.fillContour(ZerosLike(gray), kept[j])
    {
      masks := masks + [lib.fillContour(ZerosLike(gray), kept[i])];
      i := i + 1;
    }
  }

  /** The line-drawing loop of _process_building. */
  method DrawAll(start: ImageArray, lines: seq<Line>, lib: Toolkit) returns (result: ImageArray)
    ensures result == DrawLines(start, lines, lib)
  {
    result := start;
    var k := 0;
    while k < |lines|
      invariant 0 <= k <= |lines|
      invariant DrawLines(result, lines[k..], lib) == DrawLines(start, lines, lib)
    {
      assert lines[k..][1..] == lines[k + 1..];
      result := lib.drawLine(result, lines[k]);
      k := k + 1;
    }
  }

  /** The centroid loop of _process_building. */
  method Centroids(kept: seq<Contour>, lib: Toolkit) returns (centroids: seq<Option<(int, int)>>)
    ensures centroids == seq(|kept|, j requires 0 <= j < |kept| => Centroid(lib.moments(kept[j])))
  {
    centroids := [];
    var n := 0;
    while n < |kept|
      invariant 0 <= n <= |kept| && |centroids| == n
      invariant forall j :: 0 <= j < n ==> centroids[j] == Centroid(lib.moments(kept[j]))
    {
      var m := lib.moments(kept[n]);
      if m.m00 != 0.0 {
        centroids := centroids + [Some((Trunc(m.m10 / m.m00), Trunc(m.m01 / m.m00)))];
      } else {
        centroids := centroids + [None];
      }
      n := n + 1;
    }
  }

  /** _process_building, with its append loops over masks, lines and
      centroids. The image argument is not used by the source either. */
  method ProcessBuilding(image: Picture, a: ImageArray, lib: Toolkit)
    returns (r: Result<(Picture, ImageArray, Segments)>)
    ensures r == BuildingBundle(a, lib)
  {
    var u := AsUint8(a);
    var gray := if IsRgb(u) then ImageArray(u.shape[..2], lib.toGray(u), UInt8) else u;
    if IsEmpty(gray) {
      return Err(CvError);
    }
    var contours := lib.findContours(gray);
    if contours.Err? {
      return Err(contours.error);
    }
    if |gray.shape| < 2 {
      return Err(IndexError);
    }
    var minArea := (gray.shape[0] * gray.shape[1]) as real * 0.01;
    var kept := Filter(contours.value, lib.area, minArea);
    var masks := FillMasks(kept, gray, lib);
    var edges := lib.canny(gray);
    if edges.Err? {
      return Err(edges.error);
    }
    var found := lib.houghLines(edges.value);
    var lines := if found.Some? then found.value else [];
    var drawn := DrawAll(lib.drawContours(u, kept), lines, lib);
    var result := ImageArray(a.shape, drawn.samples, UInt8);
    var centroids := Centroids(kept, lib);
    var segments := Segments(
      ImageArray(gray.shape[..2], edges.value, UInt8), kept, masks, |kept|, lines,
      seq(|kept|, j requires 0 <= j < |kept| => lib.area(kept[j])),
      seq(|kept|, j requires 0 <= j < |kept| => lib.boundingRect(kept[j])),
      centroids);
    assert segments == SegmentsFor(gray, contours.value, edges.value, lib);
    var pic := FromArray(result, lib);
    if pic.Err? {
      return Err(pic.error);
    }
    r := Ok((pic.value, result, segments));
  }

  // ---------------------------------------------------------------------
  // _extract_features

  /** The gray image of the feature pass: a three-dimensional array is sent
      to cvtColor, which takes three or four channels; any other array is
      used as its uint8 copy. */
  function FeatureGray(a: ImageArray, lib: Toolkit): (r: Result<ImageArray>)
    ensures |a.shape| == 3 ==> (r.Ok? <==> a.shape[2] == 3 || a.shape[2] == 4)
    ensures r.Ok? && |a.shape| >= 2 ==> |r.value.shape| >= 2 && r.value.shape[..2] == a.shape[..2]
  {
    var u := AsUint8(a);
    if |u.shape| == 3 then
      if u.shape[2] == 3 || u.shape[2] == 4 then Ok(ImageArray(u.shape[..2], lib.toGray(u), UInt8)) else Err(CvError)
    else Ok(u)
  }

  function CountPositive(s: seq<real>): (c: nat)
    ensures c <= |s|
  {
    if s == [] then 0 else (if s[0] > 0.0 then 1 else 0) + CountPositive(s[1..])
  }

  /** edge_density: the share of positive edge pixels of an h x w image. */
  function EdgeDensity(edges: seq<real>, h: nat, w: nat): (d: real)
    requires 0 < h * w
    ensures 0.0 <= d
    ensures |edges| <= h * w ==> d <= 1.0
  {
    var c := CountPositive(edges);
    DensityAtMostOne(c, h * w);
    c as real / (h * w) as real
  }

  lemma DensityAtMostOne(c: nat, n: nat)
    requires 0 < n
    ensures 0.0 <= c as real / n as real
    ensures c <= n ==> c as real / n as real <= 1.0
  {
    if c <= n {
      assert c as real <= n as real;
      assert c as real / n as real <= n as real / n as real;
    }
  }

  function Sum(s: seq<real>): real
  {
    if s == [] then 0.0 else s[0] + Sum(s[1..])
  }

  function Max(s: seq<real>): (m: real)
    requires s != []
    ensures m in s
    ensures forall x :: x in s ==> x <= m
  {
    if |s| == 1 then s[0]
    else
      var rest := Max(s[1..]);
      assert forall x :: x in s ==> x == s[0] || x in s[1..];
      if s[0] > rest then s[0] else rest
  }

  datatype Keypoints = Keypoints(count: nat, meanStrength: Option<real>, maxStrength: Option<real>)

  /** The SIFT block: the count always, mean and max only when keypoints were
      found, and all three set to 0 when SIFT raises. */
  function KeypointFeatures(d: Result<seq<real>>): (k: Keypoints)
    ensures d.Err? ==> k == Keypoints(0, Some(0.0), Some(0.0))
    ensures d.Ok? ==> k.count == |d.value|
    ensures d.Ok? ==> (k.meanStrength.Some? <==> d.value != []) && (k.maxStrength.Some? <==> d.value != [])
    ensures d.Ok? && d.value != [] ==> k.maxStrength.value in d.value
  {
    match d
    case Err(_) => Keypoints(0, Some(0.0), Some(0.0))
    case Ok(s) =>
      if s == [] then Keypoints(0, None, None)
      else Keypoints(|s|, Some(Sum(s) / |s| as real), Some(Max(s)))
  }

  /** The texture subsampling step: images with a side over 1000 pixels are
      sliced with stride max(1, min(H, W) div 1000). */
  function SubsampleFactor(h: nat, w: nat): (f: nat)
    ensures 1 <= f
    ensures h <= 1000 && w <= 1000 ==> f == 1
  {
    if h > 1000 || w > 1000 then
      var m := if h < w then h else w;
      if m / 1000 > 1 then m / 1000 else 1
    else 1
  }

  /** The length of `x[::f]` for a side of n samples. */
  function SliceLength(n: nat, f: nat): nat
    requires 1 <= f
    decreases n
  {
    if n == 0 then 0 else 1 + SliceLength(if n >= f then n - f else 0, f)
  }

  /** The modelled part of the features dict. `textureFactor` is not a key
      of that dict: it records the stride the texture pass would slice with,
      and is Some whenever skimage.feature imports, even when graycomatrix
      then raises inside the try and the texture keys are left out. */
  datatype Features = Features(
    edgeDensity: real,
    keypoints: Keypoints,
    textureFactor: Option<nat>)

  /** _extract_features, apart from the floating statistics and the GLCM
      values: the edge density, the keypoint summary and the stride of the
      texture pass (None when skimage is unavailable). The statistics over
      axes 0 and 1 raise AxisError for an array of fewer than two
      dimensions, and np.min raises ValueError when those axes hold no
      element. */
  function ExtractFeatures(a: ImageArray, lib: Toolkit): (r: Result<Features>)
    ensures |a.shape| < 2 ==> r == Err(AxisError)
    ensures |a.shape| >= 2 && a.shape[0] * a.shape[1] == 0 ==> r == Err(ValueError)
    ensures |a.shape| == 3 && a.shape[0] * a.shape[1] != 0 && a.shape[2] != 3 && a.shape[2] != 4 ==> r == Err(CvError)
    ensures r.Ok? <==> |a.shape| >= 2 && a.shape[0] * a.shape[1] != 0 &&
                       FeatureGray(a, lib).Ok? && lib.canny(FeatureGray(a, lib).value).Ok?
    ensures r.Ok? ==> r.value.keypoints == KeypointFeatures(lib.sift(FeatureGray(a, lib).value))
    ensures r.Ok? ==> 0.0 <= r.value.edgeDensity
    ensures r.Ok? && |lib.canny(FeatureGray(a, lib).value).value| <= a.shape[0] * a.shape[1] ==> r.value.edgeDensity <= 1.0
    ensures r.Ok? ==> (r.value.textureFactor.Some? <==> lib.textureAvailable)
  {
    if |a.shape| < 2 then Err(AxisError)
    else if a.shape[0] * a.shape[1] == 0 then Err(ValueError)
    else
      match FeatureGray(a, lib)
      case Err(e) => Err(e)
      case Ok(g) =>
        match lib.canny(g)
        case Err(e) => Err(e)
        case Ok(edges) =>
          var h := a.shape[0];
          var w := a.shape[1];
          Ok(Features(
            EdgeDensity(edges, h, w),
            KeypointFeatures(lib.sift(g)),
            if lib.textureAvailable then Some(SubsampleFactor(h, w)) else None))
  }

  // ---------------------------------------------------------------------
  // The optional steps

  /** `*contrast_stretch` filled into (min_percentile=2, max_percentile=98);
      more than two values is a TypeError. */
  function StretchArgs(ps: seq<real>): (r: Result<(real, real)>)
    ensures r.Err? <==> |ps| > 2
    ensures r.Err? ==> r.error == TypeError
    ensures r.Ok? ==> r.value.0 == (if |ps| >= 1 then ps[0] else 2.0)
    ensures r.Ok? ==> r.value.1 == (if |ps| == 2 then ps[1] else 98.0)
  {
    if |ps| == 0 then Ok((2.0, 98.0))
    else if |ps| == 1 then Ok((ps[0], 98.0))
    else if |ps| == 2 then Ok((ps[0], ps[1]))
    else Err(TypeError)
  }

  predicate InPercentRange(q: real)
  {
    0.0 <= q <= 100.0
  }

  /** _normalize: the min and max of an empty array that is not uint8 raise
      ValueError. */
  function NormalizeStep(a: ImageArray, lib: Toolkit): Result<Frame>
  {
    if a.dtype != UInt8 && IsEmpty(a) then Err(ValueError) else lib.normalize(a)
  }

  /** The unpacking into _contrast_stretch, whose np.percentile calls reject
      a percentile outside [0, 100]. */
  function StretchStep(a: ImageArray, ps: seq<real>, lib: Toolkit): Result<Frame>
  {
    match StretchArgs(ps)
    case Err(e) => Err(e)
    case Ok((low, high)) =>
      if InPercentRange(low) && InPercentRange(high) then lib.stretch(a, low, high) else Err(ValueError)
  }

  /** _denoise: a three-dimensional array goes to the colour denoiser, which
      takes three or four channels (CV_8UC3 or CV_8UC4) only. */
  function DenoiseStep(a: ImageArray, lib: Toolkit): Result<Frame>
  {
    if |a.shape| == 3 && a.shape[2] != 3 && a.shape[2] != 4 then Err(CvError) else lib.denoise(a)
  }

  /** One transforming step of `process`. */
  datatype Step = Normalize | ContrastStretch(percentiles: seq<real>) | Denoise | Resize(size: (nat, nat)) | Enhance

  function Rank(s: Step): nat
  {
    match s
    case Normalize => 0
    case ContrastStretch(_) => 1
    case Denoise => 2
    case Resize(_) => 3
    case Enhance => 4
  }

  function Apply(lib: Toolkit, s: Step, f: Frame): Result<Frame>
  {
    match s
    case Normalize => NormalizeStep(f.pixels, lib)
    case ContrastStretch(ps) => StretchStep(f.pixels, ps, lib)
    case Denoise => DenoiseStep(f.pixels, lib)
    case Resize(size) => lib.resize(f.image, size)
    case Enhance => lib.enhance(f.image)
  }

  /** The steps run one after the other; the first failure ends the run. */
  function Run(lib: Toolkit, steps: seq<Step>, f: Frame): (r: Result<Frame>)
    ensures steps == [] ==> r == Ok(f)
    ensures r.Err? ==> steps != []
    decreases |steps|
  {
    if steps == [] then Ok(f)
    else
      match Apply(lib, steps[0], f)
      case Err(e) => Err(e)
      case Ok(g) => Run(lib, steps[1..], g)
  }

  // ---------------------------------------------------------------------
  // process

  /** The keyword arguments `process` reads, with their types narrowed: a
      Some resize is a truthy size, and contrast_stretch is the tuple that
      is unpacked into the percentile arguments. */
  datatype Options = Options(
    resize: Option<(nat, nat)>,
    enhance: bool,
    extractFeatures: bool,
    buildingMode: bool,
    denoise: bool,
    normalize: bool,
    contrastStretch: Option<seq<real>>)

  /** The defaults of the kwargs.get calls. */
  function DefaultOptions(): Options
  {
    Options(None, false, true, false, false, false, None)
  }

  predicate StretchRequested(o: Options)
  {
    o.contrastStretch.Some? && o.contrastStretch.value != []
  }

  /** Whether the k-th of the five guarded steps is enabled. */
  predicate Enabled(o: Options, k: nat)
  {
    if k == 0 then o.normalize
    else if k == 1 then StretchRequested(o)
    else if k == 2 then o.denoise
    else if k == 3 then o.resize.Some?
    else k == 4 && o.enhance
  }

  /** The k-th of the five guarded steps. */
  function StepAt(o: Options, k: nat): Step
  {
    if k == 0 then Normalize
    else if k == 1 then ContrastStretch(if o.contrastStretch.Some? then o.contrastStretch.value else [])
    else if k == 2 then Denoise
    else if k == 3 then Resize(if o.resize.Some? then o.resize.value else (0, 0))
    else Enhance
  }

  /** The enabled steps from the k-th on, in the order the source tests them. */
  function PlanFrom(o: Options, k: nat): seq<Step>
    decreases 5 - k
  {
    if k >= 5 then [] else (if Enabled(o, k) then [StepAt(o, k)] else []) + PlanFrom(o, k + 1)
  }

  function Plan(o: Options): seq<Step>
  {
    PlanFrom(o, 0)
  }

  /** The run from the k-th guard on, one guard at a time. */
  lemma RunFrom(lib: Toolkit, o: Options, k: nat, f: Frame)
    requires k < 5
    ensures Run(lib, PlanFrom(o, k), f) ==
      if !Enabled(o, k) then Run(lib, PlanFrom(o, k + 1), f)
      else match Apply(lib, StepAt(o, k), f)
        case Err(e) => Err(e)
        case Ok(g) => Run(lib, PlanFrom(o, k + 1), g)
  {
    var s := PlanFrom(o, k);
    if Enabled(o, k) {
      assert s == [StepAt(o, k)] + PlanFrom(o, k + 1);
      assert s[0] == StepAt(o, k) && s[1..] == PlanFrom(o, k + 1);
    } else {
      assert s == [] + PlanFrom(o, k + 1);
      assert s == PlanFrom(o, k + 1);
    }
  }

  /** The three forms `process` accepts: an object with image/array (and
      perhaps metadata) attributes, a PIL image, or a bare array. */
  datatype RasterInput =
    | Loaded(image: Picture, pixels: ImageArray, metadata: Option<Dict>)
    | PilImage(image: Picture)
    | Bare(pixels: ImageArray)

  datatype ProcessedRaster = ProcessedRaster(
    image: Picture,
    pixels: ImageArray,
    features: Option<Features>,
    buildingSegments: Option<Segments>,
    metadata: Dict,
    originalData: RasterInput,
    kind: string)

  /** The image PIL builds from a bare array: the array itself when it is
      uint8, otherwise the array times 255 cast to uint8; either way PIL
      sees the shape of the input. */
  function BareImage(arr: ImageArray, lib: Toolkit): (r: Result<Picture>)
    ensures r.Ok? <==> PilMode(arr.shape).Ok?
    ensures r.Err? ==> r.error == PilMode(arr.shape).error
  {
    FromArray(if arr.dtype == UInt8 then arr else AsUint8(Times255(arr)), lib)
  }

  /** The starting frame and the metadata of each input form; only a bare
      array can fail, in Image.fromarray. */
  function Initial(data: RasterInput, lib: Toolkit): (r: Result<(Frame, Dict)>)
    ensures !data.Bare? ==> r.Ok?
    ensures r.Ok? ==> r.value.0.pixels == (if data.PilImage? then lib.toArray(data.image) else data.pixels)
    ensures data.Bare? ==> (r.Ok? <==> PilMode(data.pixels.shape).Ok?)
    ensures data.Bare? && r.Ok? ==> r.value.1 == map[]
  {
    match data
    case Loaded(img, arr, md) => Ok((Frame(img, arr), if md.Some? then md.value else map[]))
    case PilImage(img) =>
      Ok((Frame(img, lib.toArray(img)),
          map["width" := Int(img.width), "height" := Int(img.height), "mode" := Str(img.mode)]))
    case Bare(arr) =>
      match BareImage(arr, lib)
      case Err(e) => Err(e)
      case Ok(p) => Ok((Frame(p, arr), map[]))
  }

  /** Features, then the building pass, on the frame the steps produced. */
  function Finished(data: RasterInput, metadata: Dict, f: Frame, o: Options, lib: Toolkit): Result<ProcessedRaster>
  {
    var features := if o.extractFeatures then ExtractFeatures(f.pixels, lib) else Ok(Features(0.0, Keypoints(0, None, None), None));
    if features.Err? then Err(features.error)
    else
      var fs := if o.extractFeatures then Some(features.value) else None;
      if !o.buildingMode then Ok(ProcessedRaster(f.image, f.pixels, fs, None, metadata, data, "processed_raster"))
      else
        match BuildingBundle(f.pixels, lib)
        case Err(e) => Err(e)
        case Ok((img, arr, segs)) => Ok(ProcessedRaster(img, arr, fs, Some(segs), metadata, data, "processed_raster"))
  }

  /** The processed raster as the plan describes it: the enabled steps in
      order, then features, then the building pass. */
  function Processed(data: RasterInput, o: Options, lib: Toolkit): (r: Result<ProcessedRaster>)
    ensures Initial(data, lib).Err? ==> r == Err(Initial(data, lib).error)
    ensures r.Ok? ==> r.value.originalData == data && r.value.kind == "processed_raster"
    ensures r.Ok? ==> r.value.metadata == Initial(data, lib).value.1
    ensures r.Ok? ==> (r.value.features.Some? <==> o.extractFeatures)
    ensures r.Ok? ==> (r.value.buildingSegments.Some? <==> o.buildingMode)
  {
    match Initial(data, lib)
    case Err(e) => Err(e)
    case Ok((start, metadata)) =>
      match Run(lib, Plan(o), start)
      case Err(e) => Err(e)
      case Ok(f) => Finished(data, metadata, f, o, lib)
  }

  /** The flag-guarded reassignments of `process` on the array: normalize,
      contrast_stretch and denoise. */
  method ArraySteps(start: Frame, o: Options, lib: Toolkit) returns (r: Result<Frame>)
    ensures r.Err? ==> r == Run(lib, Plan(o), start)
    ensures r.Ok? ==> Run(lib, Plan(o), start) == Run(lib, PlanFrom(o, 3), r.value)
  {
    var image, pixels := start.image, start.pixels;
    RunFrom(lib, o, 0, start);
    if o.normalize {
      var f := NormalizeStep(pixels, lib);
      if f.Err? {
        return Err(f.error);
      }
      image, pixels := f.value.image, f.value.pixels;
    }
    RunFrom(lib, o, 1, Frame(image, pixels));
    ghost var before := Frame(image, pixels);
    if o.contrastStretch.Some? && o.contrastStretch.value != [] {
      var f := StretchStep(pixels, o.contrastStretch.value, lib);
      if f.Err? {
        return Err(f.error);
      }
      image, pixels := f.value.image, f.value.pixels;
    }
    assert Run(lib, PlanFrom(o, 1), before) == Run(lib, PlanFrom(o, 2), Frame(image, pixels));
    RunFrom(lib, o, 2, Frame(image, pixels));
    if o.denoise {
      var f := DenoiseStep(pixels, lib);
      if f.Err? {
        return Err(f.error);
      }
      image, pixels := f.value.image, f.value.pixels;
    }
    r := Ok(Frame(image, pixels));
  }

  /** The flag-guarded reassignments of `process` on the image: resize and
      enhance. */
  method ImageSteps(start: Frame, o: Options, lib: Toolkit) returns (r: Result<Frame>)
    ensures r == Run(lib, PlanFrom(o, 3), start)
  {
    var image, pixels := start.image, start.pixels;
    RunFrom(lib, o, 3, start);
    if o.resize.Some? {
      var f := lib.resize(image, o.resize.value);
      if f.Err? {
        return Err(f.error);
      }
      image, pixels := f.value.image, f.value.pixels;
    }
    RunFrom(lib, o, 4, Frame(image, pixels));
    if o.enhance {
      var f := lib.enhance(image);
      if f.Err? {
        return Err(f.error);
      }
      image, pixels := f.value.image, f.value.pixels;
    }
    assert PlanFrom(o, 5) == [];
    r := Ok(Frame(image, pixels));
  }

  /** The flag-guarded reassignments of `process`, from normalize to enhance. */
  method ApplySteps(start: Frame, o: Options, lib: Toolkit) returns (r: Result<Frame>)
    ensures r == Run(lib, Plan(o), start)
  {
    r := ArraySteps(start, o, lib);
    if r.Ok? {
      r := ImageSteps(r.value, o, lib);
    }
  }

  /** RasterProcessor.process */
  method Process(data: RasterInput, o: Options, lib: Toolkit) returns (r: Result<ProcessedRaster>)
    ensures r == Processed(data, o, lib)
  {
    var image: Picture;
    var pixels: ImageArray;
    var metadata: Dict;
    match data {
      case Loaded(img, arr, md) =>
        image, pixels := img, arr;
        metadata := if md.Some? then md.value else map[];
      case PilImage(img) =>
        image, pixels := img, lib.toArray(img);
        metadata := map["width" := Int(img.width), "height" := Int(img.height), "mode" := Str(img.mode)];
      case Bare(arr) =>
        var pic := FromArray(if arr.dtype == UInt8 then arr else AsUint8(Times255(arr)), lib);
        if pic.Err? {
          return Err(pic.error);
        }
        image, pixels := pic.value, arr;
        metadata := map[];
    }
    assert Initial(data, lib) == Ok((Frame(image, pixels), metadata));
    var stepped := ApplySteps(Frame(image, pixels), o, lib);
    if stepped.Err? {
      return Err(stepped.error);
    }
    image, pixels := stepped.value.image, stepped.value.pixels;
    var features: Option<Features> := None;
    if o.extractFeatures {
      var fr := ExtractFeatures(pixels, lib);
      if fr.Err? {
        return Err(fr.error);
      }
      features := Some(fr.value);
    }
    var segments: Option<Segments> := None;
    if o.buildingMode {
      var b := ProcessBuilding(image, pixels, lib);
      if b.Err? {
        return Err(b.error);
      }
      var (img, arr, segs) := b.value;
      image, pixels, segments := img, arr, Some(segs);
    }
    r := Ok(ProcessedRaster(image, pixels, features, segments, metadata, data, "processed_raster"));
  }
}
