/** Properties of the raster model: which contours the building pass keeps,
    what its bundle does not depend on, the order of the optional steps, and
    the bounds of the feature summary. */
module RasterProofs {
  import opened Wrappers
  import opened Json
  import opened Raster

  // ---------------------------------------------------------------------
  // The area filter

  /** The positions, from k on, of the contours whose area exceeds min. */
  function KeptIndices(cs: seq<Contour>, area: Contour -> real, min: real, k: nat): (idx: seq<nat>)
    requires k <= |cs|
    ensures forall j :: 0 <= j < |idx| ==> k <= idx[j] < |cs| && area(cs[idx[j]]) > min
    ensures forall j1, j2 :: 0 <= j1 < j2 < |idx| ==> idx[j1] < idx[j2]
    ensures forall i :: k <= i < |cs| && area(cs[i]) > min ==> i in idx
    decreases |cs| - k
  {
    if k == |cs| then [] else (if area(cs[k]) > min then [k] else []) + KeptIndices(cs, area, min, k + 1)
  }

  lemma KeptIndicesStep(cs: seq<Contour>, area: Contour -> real, min: real, k: nat)
    requires k < |cs|
    ensures KeptIndices(cs, area, min, k) == (if area(cs[k]) > min then [k] else []) + KeptIndices(cs, area, min, k + 1)
  {
  }

  lemma FilterStep(cs: seq<Contour>, area: Contour -> real, min: real, k: nat)
    requires k < |cs|
    ensures Filter(cs[k..], area, min) == (if area(cs[k]) > min then [cs[k]] else []) + Filter(cs[k + 1..], area, min)
  {
    assert cs[k..][0] == cs[k];
    assert cs[k..][1..] == cs[k + 1..];
  }

  /** Prefixing the same position to both sides keeps them paired. */
  lemma PrefixPaired(cs: seq<Contour>, rest: seq<nat>, tail: seq<Contour>, keep: bool, k: nat)
    requires k < |cs| && |tail| == |rest|
    requires forall j :: 0 <= j < |rest| ==> rest[j] < |cs| && tail[j] == cs[rest[j]]
    ensures var idx := (if keep then [k] else []) + rest; var kept := (if keep then [cs[k]] else []) + tail;
      |kept| == |idx| && forall j :: 0 <= j < |idx| ==> idx[j] < |cs| && kept[j] == cs[idx[j]]
  {
    var idx := (if keep then [k] else []) + rest;
    var kept := (if keep then [cs[k]] else []) + tail;
    forall j | 0 <= j < |idx|
      ensures idx[j] < |cs| && kept[j] == cs[idx[j]]
    {
      if keep && j > 0 {
        assert idx[j] == rest[j - 1] && kept[j] == tail[j - 1];
      } else if !keep {
        assert idx[j] == rest[j] && kept[j] == tail[j];
      }
    }
  }

  /** The kept contours are exactly those of area above the threshold, in
      detection order. */
  lemma {:induction false} FilterKeepsInOrder(cs: seq<Contour>, area: Contour -> real, min: real, k: nat)
    requires k <= |cs|
    ensures var idx := KeptIndices(cs, area, min, k); var kept := Filter(cs[k..], area, min);
      |kept| == |idx| && forall j :: 0 <= j < |idx| ==> kept[j] == cs[idx[j]]
    decreases |cs| - k
  {
    if k < |cs| {
      FilterKeepsInOrder(cs, area, min, k + 1);
      KeptIndicesStep(cs, area, min, k);
      FilterStep(cs, area, min, k);
      PrefixPaired(cs, KeptIndices(cs, area, min, k + 1), Filter(cs[k + 1..], area, min), area(cs[k]) > min, k);
    }
  }

  /** The building pass keeps a detected contour iff its area is above 1 %
      of the image, and reports the kept ones in detection order. */
  lemma BuildingContoursAreTheLargeOnes(a: ImageArray, lib: Toolkit)
    requires BuildingBundle(a, lib).Ok?
    ensures var g := BuildingGray(a, lib); var found := lib.findContours(g).value;
      var s := BuildingBundle(a, lib).value.2; var idx := KeptIndices(found, lib.area, MinBuildingArea(g), 0);
      |s.contours| == |idx| &&
      (forall j :: 0 <= j < |idx| ==> s.contours[j] == found[idx[j]]) &&
      (forall i :: 0 <= i < |found| ==> (i in idx <==> lib.area(found[i]) > MinBuildingArea(g)))
  {
    var g := BuildingGray(a, lib);
    var found := lib.findContours(g).value;
    FilterKeepsInOrder(found, lib.area, MinBuildingArea(g), 0);
    assert found[0..] == found;
  }

  /** The edge map and the detected lines are only drawn: as long as both
      passes succeed, the contours and everything derived from them do not
      depend on Canny, HoughLinesP or the line drawing. */
  lemma LinesDoNotAlterContours(a: ImageArray, lib: Toolkit, canny: ImageArray -> Result<seq<real>>,
                                hough: seq<real> -> Option<seq<Line>>, draw: (ImageArray, Line) -> ImageArray)
    requires BuildingBundle(a, lib).Ok?
    requires BuildingBundle(a, lib.(canny := canny, houghLines := hough, drawLine := draw)).Ok?
    ensures var other := lib.(canny := canny, houghLines := hough, drawLine := draw);
      var s := BuildingBundle(a, lib).value.2; var t := BuildingBundle(a, other).value.2;
      s.contours == t.contours && s.masks == t.masks && s.count == t.count &&
      s.areas == t.areas && s.boundingBoxes == t.boundingBoxes && s.centroids == t.centroids
  {
  }

  /** lines is the empty list when HoughLinesP finds nothing. */
  lemma NoLinesGiveEmptyList(a: ImageArray, lib: Toolkit)
    requires BuildingBundle(a, lib).Ok?
    ensures var s := BuildingBundle(a, lib).value.2;
      lib.houghLines(s.edges.samples).None? ==> s.lines == []
  {
  }

  /** A centroid, when present, truncates the moment quotients toward zero. */
  lemma CentroidTruncates(m: Moments)
    requires m.m00 != 0.0
    ensures var c := Centroid(m).value; var qx := m.m10 / m.m00; var qy := m.m01 / m.m00;
      (0.0 <= qx ==> c.0 as real <= qx < c.0 as real + 1.0) &&
      (qx < 0.0 ==> c.0 as real - 1.0 < qx <= c.0 as real) &&
      (0.0 <= qy ==> c.1 as real <= qy < c.1 as real + 1.0) &&
      (qy < 0.0 ==> c.1 as real - 1.0 < qy <= c.1 as real)
  {
  }

  // ---------------------------------------------------------------------
  // The order of the optional steps

  predicate HasRank(s: seq<Step>, r: nat)
  {
    exists i :: 0 <= i < |s| && Rank(s[i]) == r
  }

  predicate Ascending(s: seq<Step>)
  {
    forall i, j :: 0 <= i < j < |s| ==> Rank(s[i]) < Rank(s[j])
  }

  /** A step of rank k in front of steps of higher rank. */
  lemma ConsRanks(x: Step, t: seq<Step>, k: nat)
    requires Rank(x) == k < 5 && Ascending(t) && forall i :: 0 <= i < |t| ==> k < Rank(t[i]) < 5
    ensures var s := [x] + t;
      Ascending(s) && (forall i :: 0 <= i < |s| ==> k <= Rank(s[i]) < 5) &&
      (forall r :: HasRank(s, r) <==> r == k || HasRank(t, r))
  {
    var s := [x] + t;
    assert forall i :: 1 <= i < |s| ==> s[i] == t[i - 1];
    forall r
      ensures HasRank(s, r) <==> r == k || HasRank(t, r)
    {
      if HasRank(s, r) {
        var i :| 0 <= i < |s| && Rank(s[i]) == r;
        if i > 0 {
          assert Rank(t[i - 1]) == r;
        }
      }
      if HasRank(t, r) {
        var i :| 0 <= i < |t| && Rank(t[i]) == r;
        assert s[i + 1] == t[i];
      }
      assert s[0] == x;
    }
  }

  /** The guards from the k-th on yield ascending ranks, and exactly the
      ranks of the enabled guards. */
  lemma {:induction false} PlanFromOrder(o: Options, k: nat)
    requires k <= 5
    ensures var s := PlanFrom(o, k);
      Ascending(s) && (forall i :: 0 <= i < |s| ==> k <= Rank(s[i]) < 5) &&
      (forall r :: HasRank(s, r) <==> k <= r < 5 && Enabled(o, r))
    decreases 5 - k
  {
    if k < 5 {
      PlanFromOrder(o, k + 1);
      var t := PlanFrom(o, k + 1);
      var x := StepAt(o, k);
      assert Rank(x) == k;
      if Enabled(o, k) {
        assert PlanFrom(o, k) == [x] + t;
        ConsRanks(x, t, k);
        forall r
          ensures HasRank(PlanFrom(o, k), r) <==> k <= r < 5 && Enabled(o, r)
        {
          assert HasRank(t, r) <==> k + 1 <= r < 5 && Enabled(o, r);
        }
      } else {
        assert PlanFrom(o, k) == [] + t == t;
        forall r
          ensures HasRank(t, r) <==> k <= r < 5 && Enabled(o, r)
        {
          assert r == k ==> !Enabled(o, r);
        }
      }
    }
  }

  /** The enabled steps run normalize, contrast stretch, denoise, resize,
      enhance, each at most once and each exactly when its option is set. */
  lemma PlanOrder(o: Options)
    ensures var s := Plan(o);
      Ascending(s) &&
      (HasRank(s, 0) <==> o.normalize) &&
      (HasRank(s, 1) <==> StretchRequested(o)) &&
      (HasRank(s, 2) <==> o.denoise) &&
      (HasRank(s, 3) <==> o.resize.Some?) &&
      (HasRank(s, 4) <==> o.enhance)
  {
    PlanFromOrder(o, 0);
    assert Enabled(o, 0) == o.normalize && Enabled(o, 1) == StretchRequested(o) && Enabled(o, 2) == o.denoise;
    assert Enabled(o, 3) == o.resize.Some? && Enabled(o, 4) == o.enhance;
  }

  /** What each step rejects before its library call: min and max of an
      empty non-uint8 array, an unpacking of more than two percentiles or a
      percentile outside [0, 100], and a colour denoise of other than three
      channels. */
  lemma StepFailures(lib: Toolkit, s: Step, f: Frame)
    ensures s == Normalize ==>
      Apply(lib, s, f) == if f.pixels.dtype != UInt8 && IsEmpty(f.pixels) then Err(ValueError) else lib.normalize(f.pixels)
    ensures s.ContrastStretch? && |s.percentiles| > 2 ==> Apply(lib, s, f) == Err(TypeError)
    ensures s.ContrastStretch? && |s.percentiles| <= 2 ==>
      var (low, high) := StretchArgs(s.percentiles).value;
      Apply(lib, s, f) == if InPercentRange(low) && InPercentRange(high) then lib.stretch(f.pixels, low, high) else Err(ValueError)
    ensures s == Denoise ==>
      Apply(lib, s, f) == if |f.pixels.shape| == 3 && f.pixels.shape[2] != 3 && f.pixels.shape[2] != 4 then Err(CvError) else lib.denoise(f.pixels)
  {
  }

  /** The k-th step fails after the steps before it succeeded. */
  predicate FailsAt(lib: Toolkit, steps: seq<Step>, f: Frame, k: int)
  {
    0 <= k < |steps| && Run(lib, steps[..k], f).Ok? && Apply(lib, steps[k], Run(lib, steps[..k], f).value).Err?
  }

  /** After a first step that succeeds, the run of a prefix is the run of the
      rest's prefix from the new frame. */
  lemma RunShift(lib: Toolkit, steps: seq<Step>, f: Frame, g: Frame, k: nat)
    requires steps != [] && Apply(lib, steps[0], f) == Ok(g) && 1 <= k <= |steps|
    ensures Run(lib, steps[..k], f) == Run(lib, steps[1..][..k - 1], g)
    ensures k < |steps| ==> (FailsAt(lib, steps, f, k) <==> FailsAt(lib, steps[1..], g, k - 1))
  {
    assert steps[..k][0] == steps[0];
    assert steps[..k][1..] == steps[1..][..k - 1];
  }

  /** A run of steps fails exactly when some step fails after all before it
      succeeded, and then its error is that step's. */
  lemma {:induction false} RunFailsIff(lib: Toolkit, steps: seq<Step>, f: Frame)
    ensures Run(lib, steps, f).Err? <==> exists k :: FailsAt(lib, steps, f, k)
    ensures forall k :: FailsAt(lib, steps, f, k) ==>
      Run(lib, steps, f) == Apply(lib, steps[k], Run(lib, steps[..k], f).value)
    decreases |steps|
  {
    if steps != [] {
      assert steps[..0] == [];
      match Apply(lib, steps[0], f)
      case Err(e) =>
        assert FailsAt(lib, steps, f, 0);
        assert forall k :: FailsAt(lib, steps, f, k) ==> k == 0;
      case Ok(g) =>
        RunFailsIff(lib, steps[1..], g);
        assert !FailsAt(lib, steps, f, 0);
        forall k | FailsAt(lib, steps, f, k)
          ensures FailsAt(lib, steps[1..], g, k - 1)
          ensures Run(lib, steps, f) == Apply(lib, steps[k], Run(lib, steps[..k], f).value)
        {
          RunShift(lib, steps, f, g, k);
          assert steps[k] == steps[1..][k - 1];
        }
        forall k | FailsAt(lib, steps[1..], g, k)
          ensures FailsAt(lib, steps, f, k + 1)
        {
          RunShift(lib, steps, f, g, k + 1);
        }
    }
  }

  /** A contrast_stretch tuple of more than two values, or a percentile
      outside [0, 100], makes `process` fail, with the error of the input
      conversion or of normalize when one of those ran first and failed. */
  lemma StretchArgumentsFail(data: RasterInput, o: Options, lib: Toolkit)
    requires StretchRequested(o)
    requires var ps := o.contrastStretch.value;
      |ps| > 2 || !InPercentRange(StretchArgs(ps).value.0) || !InPercentRange(StretchArgs(ps).value.1)
    ensures var i := Initial(data, lib);
      Processed(data, o, lib) ==
        if i.Err? then Err(i.error)
        else if o.normalize && NormalizeStep(i.value.0.pixels, lib).Err? then Err(NormalizeStep(i.value.0.pixels, lib).error)
        else if |o.contrastStretch.value| > 2 then Err(TypeError)
        else Err(ValueError)
  {
    var i := Initial(data, lib);
    if i.Ok? {
      var start := i.value.0;
      RunFrom(lib, o, 0, start);
      RunFrom(lib, o, 1, start);
      var n := NormalizeStep(start.pixels, lib);
      if n.Ok? {
        RunFrom(lib, o, 1, n.value);
      }
    }
  }

  /** A bare array PIL cannot map fails before any step: a 0-D array with
      IndexError, an array of four or more dimensions, or of three whose
      channel count is not 2, 3 or 4, with TypeError. */
  lemma UnmappableBareArrayFails(arr: ImageArray, o: Options, lib: Toolkit)
    ensures |arr.shape| == 0 ==> Processed(Bare(arr), o, lib) == Err(IndexError)
    ensures |arr.shape| >= 4 || (|arr.shape| == 3 && (arr.shape[2] < 2 || arr.shape[2] > 4)) ==>
      Processed(Bare(arr), o, lib) == Err(TypeError)
  {
  }

  /** Arrays the statistics cannot reduce: fewer than two dimensions raise
      AxisError in the feature pass; an empty H x W plane raises ValueError
      there, and fails the building pass's first OpenCV call when features
      are off. */
  lemma BadShapesFail(data: RasterInput, o: Options, lib: Toolkit)
    requires Initial(data, lib).Ok? && Run(lib, Plan(o), Initial(data, lib).value.0).Ok?
    ensures var p := Run(lib, Plan(o), Initial(data, lib).value.0).value.pixels;
      o.extractFeatures && |p.shape| < 2 ==> Processed(data, o, lib) == Err(AxisError)
    ensures var p := Run(lib, Plan(o), Initial(data, lib).value.0).value.pixels;
      |p.shape| >= 2 && p.shape[0] * p.shape[1] == 0 ==>
        Processed(data, o, lib) == (if o.extractFeatures then Err(ValueError) else if o.buildingMode then Err(CvError)
                                    else Processed(data, o, lib))
    ensures var p := Run(lib, Plan(o), Initial(data, lib).value.0).value.pixels;
      |p.shape| >= 2 && p.shape[0] * p.shape[1] == 0 && (o.extractFeatures || o.buildingMode) ==> Processed(data, o, lib).Err?
  {
    var p := Run(lib, Plan(o), Initial(data, lib).value.0).value.pixels;
    if |p.shape| >= 2 && p.shape[0] * p.shape[1] == 0 {
      var g := BuildingGray(p, lib);
      if p.shape[0] == 0 {
        assert g.shape[0] == 0;
      } else {
        assert g.shape[1] == 0;
      }
      assert IsEmpty(g);
    }
  }

  /** Everything `process` reports, given that it succeeds. */
  lemma ProcessedOutputs(data: RasterInput, o: Options, lib: Toolkit)
    requires Processed(data, o, lib).Ok?
    ensures Initial(data, lib).Ok?
    ensures var r := Processed(data, o, lib).value; var (start, metadata) := Initial(data, lib).value;
      var f := Run(lib, Plan(o), start);
      f.Ok? &&
      (r.features.Some? <==> o.extractFeatures) &&
      (o.extractFeatures ==> r.features == Some(ExtractFeatures(f.value.pixels, lib).value)) &&
      (r.buildingSegments.Some? <==> o.buildingMode) &&
      (o.buildingMode ==> r.buildingSegments == Some(BuildingBundle(f.value.pixels, lib).value.2)) &&
      (!o.buildingMode ==> Frame(r.image, r.pixels) == f.value) &&
      r.metadata == metadata && r.originalData == data && r.kind == "processed_raster"
  {
  }

  /** `process` fails exactly when the input conversion fails, a step
      fails, the feature pass fails or the building pass fails, and reports
      the first of these errors. */
  lemma ProcessedFailsIff(data: RasterInput, o: Options, lib: Toolkit)
    ensures var i := Initial(data, lib);
      Processed(data, o, lib).Err? <==>
        i.Err? ||
        var f := Run(lib, Plan(o), i.value.0);
        f.Err? ||
        (o.extractFeatures && ExtractFeatures(f.value.pixels, lib).Err?) ||
        (o.buildingMode && BuildingBundle(f.value.pixels, lib).Err?)
    ensures var i := Initial(data, lib);
      i.Err? ==> Processed(data, o, lib) == Err(i.error)
    ensures var i := Initial(data, lib);
      i.Ok? && Run(lib, Plan(o), i.value.0).Err? ==> Processed(data, o, lib) == Err(Run(lib, Plan(o), i.value.0).error)
    ensures var i := Initial(data, lib);
      i.Ok? ==> var f := Run(lib, Plan(o), i.value.0);
      f.Ok? && o.extractFeatures && ExtractFeatures(f.value.pixels, lib).Err? ==>
        Processed(data, o, lib) == Err(ExtractFeatures(f.value.pixels, lib).error)
    ensures var i := Initial(data, lib);
      i.Ok? ==> var f := Run(lib, Plan(o), i.value.0);
      f.Ok? && (!o.extractFeatures || ExtractFeatures(f.value.pixels, lib).Ok?) &&
      o.buildingMode && BuildingBundle(f.value.pixels, lib).Err? ==>
        Processed(data, o, lib) == Err(BuildingBundle(f.value.pixels, lib).error)
  {
  }

  /** With no options, only the features are computed, on the input frame. */
  lemma DefaultOptionsOnlyExtract(data: RasterInput, lib: Toolkit)
    ensures Plan(DefaultOptions()) == []
    ensures Initial(data, lib).Err? ==> Processed(data, DefaultOptions(), lib) == Err(Initial(data, lib).error)
    ensures Initial(data, lib).Ok? ==>
      var start := Initial(data, lib).value.0; var r := Processed(data, DefaultOptions(), lib);
      (r.Ok? <==> ExtractFeatures(start.pixels, lib).Ok?) &&
      (r.Ok? ==> r.value.image == start.image && r.value.pixels == start.pixels &&
                 r.value.features == Some(ExtractFeatures(start.pixels, lib).value) &&
                 r.value.buildingSegments.None?)
  {
    var o := DefaultOptions();
    assert PlanFrom(o, 4) == [] + PlanFrom(o, 5);
    assert PlanFrom(o, 3) == [] + PlanFrom(o, 4);
    assert PlanFrom(o, 2) == [] + PlanFrom(o, 3);
    assert PlanFrom(o, 1) == [] + PlanFrom(o, 2);
    assert PlanFrom(o, 0) == [] + PlanFrom(o, 1);
  }

  // ---------------------------------------------------------------------
  // Feature bounds

  lemma {:induction false} SumAtMost(s: seq<real>, b: real)
    requires forall x :: x in s ==> x <= b
    ensures Sum(s) <= |s| as real * b
  {
    if s != [] {
      assert forall x :: x in s[1..] ==> x in s;
      assert s[0] in s;
      SumAtMost(s[1..], b);
      assert (|s| - 1) as real * b + b == |s| as real * b;
    }
  }

  /** The mean keypoint strength never exceeds the maximum one. */
  lemma MeanAtMostMax(d: Result<seq<real>>)
    ensures var k := KeypointFeatures(d);
      k.meanStrength.Some? && k.maxStrength.Some? ==> k.meanStrength.value <= k.maxStrength.value
  {
    if d.Ok? && d.value != [] {
      var s := d.value;
      var n := |s| as real;
      SumAtMost(s, Max(s));
      assert Sum(s) / n <= (n * Max(s)) / n;
    }
  }

  lemma {:induction false} SliceAtLeast(n: nat, f: nat, k: nat)
    requires 1 <= f && k * f <= n
    ensures k <= SliceLength(n, f)
    decreases k
  {
    if k > 0 {
      assert (k - 1) * f == k * f - f;
      SliceAtLeast(n - f, f, k - 1);
    }
  }

  lemma {:induction false} SliceAtMost(n: nat, f: nat, k: nat)
    requires 1 <= f && n <= k * f
    ensures SliceLength(n, f) <= k
    decreases n
  {
    if n > 0 {
      assert k > 0;
      assert (k - 1) * f == k * f - f;
      if n >= f {
        SliceAtMost(n - f, f, k - 1);
      } else {
        assert SliceLength(0, f) == 0;
      }
    }
  }

  lemma {:induction false} SliceByOne(n: nat)
    ensures SliceLength(n, 1) == n
    decreases n
  {
    if n > 0 {
      SliceByOne(n - 1);
    }
  }

  /** The texture pass always sees the smaller side at full size when it is
      under 1000 pixels, and otherwise between 1000 and 1999 samples. */
  lemma SubsampleKeepsDetail(h: nat, w: nat)
    ensures var f := SubsampleFactor(h, w); var m := if h < w then h else w;
      (m < 1000 ==> SliceLength(m, f) == m) &&
      (1000 <= m ==> 1000 <= SliceLength(m, f) < 2000)
  {
    var f := SubsampleFactor(h, w);
    var m := if h < w then h else w;
    if f == 1 {
      SliceByOne(m);
      if 1000 <= m {
        assert m < 2000;
      }
    } else {
      assert f == m / 1000 && 2 <= f;
      assert 1000 * f <= m < 1000 * f + 1000;
      SliceAtLeast(m, f, 1000);
      SliceAtMost(m, f, 1999);
    }
  }
}
