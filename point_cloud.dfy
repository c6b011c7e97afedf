/** PointCloudProcessor: the gated steps of `process` and the index logic of
    its helpers. The statistics (distances to the centroid, their mean plus
    two deviations, the median height), the random draw and the random
    normals are given values and functions. */
module PointCloud {
  import opened Wrappers
  import opened Numeric

  datatype Point = Point(x: real, y: real, z: real)
  datatype Color = Color(r: int, g: int, b: int)

  /** A point array with its optional, parallel colour array. */
  datatype Cloud = Cloud(points: seq<Point>, colors: Option<seq<Color>>)

  // ---------------------------------------------------------------------
  // numpy indexing

  /** Boolean-mask indexing `a[mask]`. */
  function Masked<T>(s: seq<T>, mask: seq<bool>): (r: seq<T>)
    requires |mask| == |s|
    ensures |r| <= |s|
  {
    if s == [] then [] else (if mask[0] then [s[0]] else []) + Masked(s[1..], mask[1..])
  }

  /** `np.where(mask)[0]`, from position k on. */
  function Where(mask: seq<bool>, k: nat): (idx: seq<nat>)
    requires k <= |mask|
    ensures forall j :: 0 <= j < |idx| ==> k <= idx[j] < |mask| && mask[idx[j]]
    ensures forall j1, j2 :: 0 <= j1 < j2 < |idx| ==> idx[j1] < idx[j2]
    ensures forall i :: k <= i < |mask| && mask[i] ==> i in idx
    ensures forall i :: i in idx ==> k <= i < |mask| && mask[i]
    decreases |mask| - k
  {
    if k == |mask| then [] else (if mask[k] then [k] else []) + Where(mask, k + 1)
  }

  /** Masking keeps, in order, exactly the entries at the positions `Where` lists. */
  lemma {:induction false} MaskedIsWhere<T>(s: seq<T>, mask: seq<bool>, k: nat)
    requires |mask| == |s| && k <= |s|
    ensures var idx := Where(mask, k); var r := Masked(s[k..], mask[k..]);
      |r| == |idx| && forall j :: 0 <= j < |idx| ==> r[j] == s[idx[j]]
    decreases |s| - k
  {
    if k < |s| {
      assert s[k..][0] == s[k] && mask[k..][0] == mask[k];
      assert s[k..][1..] == s[k + 1..] && mask[k..][1..] == mask[k + 1..];
      MaskedIsWhere(s, mask, k + 1);
    }
  }

  /** Integer-array indexing `a[indices]`: IndexError when an index is out of range. */
  function Gather<T>(s: seq<T>, indices: seq<nat>): (r: Result<seq<T>>)
    ensures r.Ok? <==> forall j :: 0 <= j < |indices| ==> indices[j] < |s|
    ensures r.Err? ==> r.error == IndexError
    ensures r.Ok? ==> |r.value| == |indices| && forall j :: 0 <= j < |indices| ==> r.value[j] == s[indices[j]]
  {
    if forall j :: 0 <= j < |indices| ==> indices[j] < |s| then
      Ok(seq(|indices|, j requires 0 <= j < |indices| => s[indices[j]]))
    else Err(IndexError)
  }

  // ---------------------------------------------------------------------
  // _downsample

  /** max(1, int(n * factor)) */
  function SampleSize(n: nat, factor: real): (k: nat)
    ensures 1 <= k
    ensures factor < 1.0 && 2 <= n ==> k < n
    ensures 1.0 <= factor ==> n <= k
  {
    ScaledBounds(n, factor);
    var t := Trunc(n as real * factor);
    if t > 1 then t else 1
  }

  lemma ScaledBounds(n: nat, factor: real)
    ensures 1.0 <= factor ==> n <= Trunc(n as real * factor)
    ensures factor < 1.0 && 1 <= n ==> Trunc(n as real * factor) < n
  {
    var x := n as real * factor;
    var t := Trunc(x);
    if 1.0 <= factor {
      assert x == n as real + n as real * (factor - 1.0);
      assert n as real <= x;
      assert n as real < t as real + 1.0;
    } else if 1 <= n {
      assert x == n as real - n as real * (1.0 - factor);
      assert x < n as real;
      if 0.0 <= x {
        assert t as real <= x;
      } else {
        assert x <= t as real || t as real - 1.0 < x;
        assert t as real < 1.0;
      }
    }
  }

  /** What np.random.choice(n, k, replace=False) returns: k distinct indices below n. */
  predicate IsDraw(indices: seq<nat>, n: nat, k: nat)
  {
    |indices| == k &&
    (forall j :: 0 <= j < k ==> indices[j] < n) &&
    (forall j1, j2 :: 0 <= j1 < j2 < k ==> indices[j1] != indices[j2])
  }

  /** _downsample with `draw` the random choice. */
  function Downsample(c: Cloud, factor: real, draw: seq<nat>): (r: Result<Cloud>)
    requires SampleSize(|c.points|, factor) < |c.points| ==> IsDraw(draw, |c.points|, SampleSize(|c.points|, factor))
    ensures SampleSize(|c.points|, factor) >= |c.points| ==> r == Ok(c)
    ensures SampleSize(|c.points|, factor) < |c.points| ==>
      (r.Ok? <==> c.colors.None? || forall j :: 0 <= j < |draw| ==> draw[j] < |c.colors.value|)
    ensures SampleSize(|c.points|, factor) < |c.points| && r.Ok? ==>
      |r.value.points| == SampleSize(|c.points|, factor) == |draw| &&
      (forall j :: 0 <= j < |draw| ==> r.value.points[j] == c.points[draw[j]])
    ensures r.Ok? ==> (r.value.colors.Some? <==> c.colors.Some?)
    ensures SampleSize(|c.points|, factor) < |c.points| && r.Ok? && c.colors.Some? ==>
      r.value.colors.Some? && Gather(c.colors.value, draw) == Ok(r.value.colors.value)
  {
    var n := |c.points|;
    if SampleSize(n, factor) >= n then Ok(c)
    else
      var ps := Gather(c.points, draw).value;
      match c.colors
      case None => Ok(Cloud(ps, None))
      case Some(cs) =>
        match Gather(cs, draw)
        case Err(e) => Err(e)
        case Ok(sampled) => Ok(Cloud(ps, Some(sampled)))
  }

  // ---------------------------------------------------------------------
  // _remove_outliers

  /** distances < threshold */
  function CloseMask(distances: seq<real>, threshold: real): seq<bool>
  {
    seq(|distances|, i requires 0 <= i < |distances| => distances[i] < threshold)
  }

  /** _remove_outliers, given each point's distance to the centroid and the
      threshold; numpy rejects a mask whose length is not the array's. */
  function RemoveOutliers(c: Cloud, distances: seq<real>, threshold: real): (r: Result<Cloud>)
    ensures r.Ok? <==> |distances| == |c.points| && (c.colors.None? || |c.colors.value| == |c.points|)
    ensures r.Err? ==> r.error == IndexError
    ensures r.Ok? ==> r.value.points == Masked(c.points, CloseMask(distances, threshold))
    ensures r.Ok? ==> (r.value.colors.Some? <==> c.colors.Some?)
    ensures r.Ok? && c.colors.Some? ==> r.value.colors.value == Masked(c.colors.value, CloseMask(distances, threshold))
  {
    if |distances| != |c.points| then Err(IndexError)
    else
      var mask := CloseMask(distances, threshold);
      match c.colors
      case None => Ok(Cloud(Masked(c.points, mask), None))
      case Some(cs) =>
        if |cs| != |mask| then Err(IndexError) else Ok(Cloud(Masked(c.points, mask), Some(Masked(cs, mask))))
  }

  // ---------------------------------------------------------------------
  // _process_building

  datatype Segments = Segments(roof: seq<nat>, walls: seq<nat>)

  function Heights(ps: seq<Point>): seq<real>
  {
    seq(|ps|, i requires 0 <= i < |ps| => ps[i].z)
  }

  function AboveMask(ps: seq<Point>, median: real): seq<bool>
  {
    seq(|ps|, i requires 0 <= i < |ps| => ps[i].z > median)
  }

  function AtMostMask(ps: seq<Point>, median: real): seq<bool>
  {
    seq(|ps|, i requires 0 <= i < |ps| => ps[i].z <= median)
  }

  /** The 'roof' and 'walls' index lists of _process_building. */
  function SplitByHeight(ps: seq<Point>, median: real): (s: Segments)
    ensures forall j :: 0 <= j < |s.roof| ==> s.roof[j] < |ps| && ps[s.roof[j]].z > median
    ensures forall j :: 0 <= j < |s.walls| ==> s.walls[j] < |ps| && ps[s.walls[j]].z <= median
  {
    Segments(Where(AboveMask(ps, median), 0), Where(AtMostMask(ps, median), 0))
  }

  // ---------------------------------------------------------------------
  // process

  /** The keyword arguments of `process`. */
  datatype Options = Options(downsample: real, removeOutliers: bool, estimateNormals: bool, buildingMode: bool)

  function DefaultOptions(): Options
  {
    Options(1.0, false, true, false)
  }

  /** The input: an object with a point_cloud attribute (colors, intensity and
      classification optional), or a bare array. */
  datatype CloudInput =
    | Attributed(pointCloud: seq<Point>, colors: Option<seq<Color>>, intensity: Option<seq<int>>, classification: Option<seq<int>>)
    | Raw(points: seq<Point>)

  function InputCloud(data: CloudInput): Cloud
  {
    match data
    case Attributed(ps, cs, _, _) => Cloud(ps, cs)
    case Raw(ps) => Cloud(ps, None)
  }

  /** The given numerical and random parts of the helpers. */
  datatype Numerics = Numerics(
    draw: seq<nat>,                      // np.random.choice(n, n_sample, replace=False)
    center: seq<Point> -> Point,         // np.mean(point_cloud, axis=0)
    norm: Point -> real,                 // the Euclidean norm of one row
    threshold: seq<real> -> real,        // mean + 2 * std of the distances
    normals: seq<Point> -> seq<Point>,   // _estimate_normals
    median: seq<real> -> real)           // np.median

  /** np.linalg.norm(point_cloud - center, axis=1): one distance per point. */
  function Distances(ps: seq<Point>, num: Numerics): (ds: seq<real>)
    ensures |ds| == |ps|
  {
    var m := num.center(ps);
    seq(|ps|, i requires 0 <= i < |ps| => num.norm(Point(ps[i].x - m.x, ps[i].y - m.y, ps[i].z - m.z)))
  }

  datatype Processed = Processed(
    pointCloud: seq<Point>,
    colors: Option<seq<Color>>,
    normals: Option<seq<Point>>,
    buildingSegments: Option<Segments>,
    originalData: CloudInput,
    kind: string)

  /** The draw is a proper random choice whenever downsampling samples. */
  predicate DrawFits(data: CloudInput, o: Options, num: Numerics)
  {
    var n := |InputCloud(data).points|;
    o.downsample < 1.0 && SampleSize(n, o.downsample) < n ==> IsDraw(num.draw, n, SampleSize(n, o.downsample))
  }

  /** The cloud after the two gated filtering steps: its points are drawn
      from the input's, colours are kept exactly when the input has them,
      and only a colour array that does not fit the points makes it fail. */
  function Filtered(data: CloudInput, o: Options, num: Numerics): (r: Result<Cloud>)
    requires DrawFits(data, o, num)
    ensures r.Ok? ==> multiset(r.value.points) <= multiset(InputCloud(data).points)
    ensures r.Ok? ==> (r.value.colors.Some? <==> InputCloud(data).colors.Some?)
    ensures r.Err? ==> InputCloud(data).colors.Some?
  {
    var c0 := InputCloud(data);
    var c1 := if o.downsample < 1.0 then Downsample(c0, o.downsample, num.draw) else Ok(c0);
    assert c1.Ok? ==> multiset(c1.value.points) <= multiset(c0.points) by {
      if o.downsample < 1.0 && SampleSize(|c0.points|, o.downsample) < |c0.points| {
        DownsampleIsSubMultiset(c0, o.downsample, num.draw);
      }
    }
    assert c1.Ok? && o.removeOutliers ==>
      var ds := Distances(c1.value.points, num);
      var c2 := RemoveOutliers(c1.value, ds, num.threshold(ds));
      (c2.Err? ==> c1.value.colors.Some?) &&
      (c2.Ok? ==> multiset(c2.value.points) <= multiset(c1.value.points)) by {
      if c1.Ok? && o.removeOutliers {
        var ds := Distances(c1.value.points, num);
        OutlierRemovalFailsOnlyOnColours(c1.value, num);
        MaskedSubMultiset(c1.value.points, CloseMask(ds, num.threshold(ds)));
      }
    }
    if c1.Err? || !o.removeOutliers then c1
    else RemoveOutliers(c1.value, Distances(c1.value.points, num), num.threshold(Distances(c1.value.points, num)))
  }

  /** PointCloudProcessor.process */
  method Process(data: CloudInput, o: Options, num: Numerics) returns (r: Result<Processed>)
    requires DrawFits(data, o, num)
    ensures r.Err? <==> Filtered(data, o, num).Err?
    ensures r.Ok? ==>
      var c := Filtered(data, o, num).value;
      r.value.pointCloud == c.points && r.value.colors == c.colors &&
      r.value.normals == (if o.estimateNormals then Some(num.normals(c.points)) else None) &&
      r.value.buildingSegments == (if o.buildingMode then Some(SplitByHeight(c.points, num.median(Heights(c.points)))) else None) &&
      r.value.originalData == data && r.value.kind == "processed_point_cloud"
  {
    var cloud := InputCloud(data);
    if o.downsample < 1.0 {
      var d := Downsample(cloud, o.downsample, num.draw);
      if d.Err? {
        return Err(d.error);
      }
      cloud := d.value;
    }
    if o.removeOutliers {
      var distances := Distances(cloud.points, num);
      var f := RemoveOutliers(cloud, distances, num.threshold(distances));
      if f.Err? {
        return Err(f.error);
      }
      cloud := f.value;
    }
    var normals := if o.estimateNormals then Some(num.normals(cloud.points)) else None;
    var segments: Option<Segments> := None;
    if o.buildingMode {
      segments := Some(SplitByHeight(cloud.points, num.median(Heights(cloud.points))));
    }
    r := Ok(Processed(cloud.points, cloud.colors, normals, segments, data, "processed_point_cloud"));
  }

  // ---------------------------------------------------------------------
  // Properties

  /** Outlier removal keeps exactly the points closer than the threshold, in
      order, and the colours at the same positions. */
  lemma OutliersKeepCloseOnes(c: Cloud, distances: seq<real>, threshold: real)
    requires RemoveOutliers(c, distances, threshold).Ok?
    ensures var r := RemoveOutliers(c, distances, threshold).value; var idx := Where(CloseMask(distances, threshold), 0);
      |r.points| == |idx| &&
      (forall j :: 0 <= j < |idx| ==> r.points[j] == c.points[idx[j]]) &&
      (forall i :: 0 <= i < |c.points| ==> (i in idx <==> distances[i] < threshold)) &&
      (r.colors.Some? ==> |r.colors.value| == |idx| && forall j :: 0 <= j < |idx| ==> r.colors.value[j] == c.colors.value[idx[j]])
  {
    var mask := CloseMask(distances, threshold);
    MaskedIsWhere(c.points, mask, 0);
    assert c.points[0..] == c.points && mask[0..] == mask;
    if c.colors.Some? {
      MaskedIsWhere(c.colors.value, mask, 0);
      assert c.colors.value[0..] == c.colors.value;
    }
  }

  /** The indices Where lists for a mask of the points' heights. */
  lemma HeightIndices(ps: seq<Point>, mask: seq<bool>, above: bool, median: real)
    requires mask == (if above then AboveMask(ps, median) else AtMostMask(ps, median))
    ensures var idx := Where(mask, 0);
      (forall j1, j2 :: 0 <= j1 < j2 < |idx| ==> idx[j1] < idx[j2]) &&
      (forall i :: i in idx <==> 0 <= i < |ps| && (if above then ps[i].z > median else ps[i].z <= median))
  {
    assert |mask| == |ps|;
    assert forall i :: 0 <= i < |ps| ==> (mask[i] <==> if above then ps[i].z > median else ps[i].z <= median);
  }

  /** Roof and walls partition the point indices, each list ascending. */
  lemma RoofAndWallsPartition(ps: seq<Point>, median: real)
    ensures var s := SplitByHeight(ps, median);
      (forall j1, j2 :: 0 <= j1 < j2 < |s.roof| ==> s.roof[j1] < s.roof[j2]) &&
      (forall j1, j2 :: 0 <= j1 < j2 < |s.walls| ==> s.walls[j1] < s.walls[j2]) &&
      (forall i :: 0 <= i < |ps| ==> (i in s.roof <==> ps[i].z > median)) &&
      (forall i :: 0 <= i < |ps| ==> (i in s.walls <==> ps[i].z <= median)) &&
      (forall i :: i in s.roof ==> i !in s.walls) &&
      (forall i :: i in s.roof || i in s.walls <==> 0 <= i < |ps|)
  {
    HeightIndices(ps, AboveMask(ps, median), true, median);
    HeightIndices(ps, AtMostMask(ps, median), false, median);
  }

  /** Masking keeps a sub-multiset. */
  lemma {:induction false} MaskedSubMultiset<T>(s: seq<T>, mask: seq<bool>)
    requires |mask| == |s|
    ensures multiset(Masked(s, mask)) <= multiset(s)
  {
    if s != [] {
      MaskedSubMultiset(s[1..], mask[1..]);
      assert s == [s[0]] + s[1..];
    }
  }

  /** Switching one mask entry on adds that entry to the masked multiset. */
  lemma {:induction false} MaskedAddOne<T>(s: seq<T>, mask: seq<bool>, d: nat)
    requires |mask| == |s| && d < |s| && !mask[d]
    ensures multiset(Masked(s, mask[d := true])) == multiset(Masked(s, mask)) + multiset{s[d]}
  {
    var m := mask[d := true];
    if d == 0 {
      assert m[1..] == mask[1..];
    } else {
      assert m[1..] == mask[1..][d - 1 := true];
      MaskedAddOne(s[1..], mask[1..], d - 1);
    }
  }

  /** The mask of the positions listed in idx. */
  function MaskOf(idx: seq<nat>, n: nat): seq<bool>
  {
    seq(n, i => i in idx)
  }

  /** Gathering at distinct positions is masking at those positions, up to order. */
  lemma {:induction false} GatherIsMasked<T>(s: seq<T>, idx: seq<nat>)
    requires IsDraw(idx, |s|, |idx|)
    ensures multiset(Gather(s, idx).value) == multiset(Masked(s, MaskOf(idx, |s|)))
    decreases |idx|
  {
    var n := |s|;
    if idx == [] {
      assert MaskOf(idx, n) == seq(n, i => false);
      MaskedNone(s, MaskOf(idx, n));
    } else {
      var k := |idx| - 1;
      var front := idx[..k];
      var d := idx[k];
      assert IsDraw(front, n, k);
      GatherIsMasked(s, front);
      assert idx == front + [d];
      assert d !in front;
      MaskOfSnoc(front, d, n);
      MaskedAddOne(s, MaskOf(front, n), d);
      GatherSnoc(s, front, d);
    }
  }

  lemma MaskOfSnoc(front: seq<nat>, d: nat, n: nat)
    requires d < n && d !in front
    ensures MaskOf(front + [d], n) == MaskOf(front, n)[d := true] && !MaskOf(front, n)[d]
  {
  }

  lemma GatherSnoc<T>(s: seq<T>, front: seq<nat>, d: nat)
    requires d < |s| && Gather(s, front).Ok?
    ensures Gather(s, front + [d]).value == Gather(s, front).value + [s[d]]
  {
  }

  lemma {:induction false} MaskedNone<T>(s: seq<T>, mask: seq<bool>)
    requires |mask| == |s| && forall i :: 0 <= i < |mask| ==> !mask[i]
    ensures Masked(s, mask) == []
  {
    if s != [] {
      MaskedNone(s[1..], mask[1..]);
    }
  }

  /** Downsampling to fewer points draws each source point at most once: the
      sampled points, and the sampled colours, are sub-multisets of the input
      arrays. */
  lemma DownsampleIsSubMultiset(c: Cloud, factor: real, draw: seq<nat>)
    requires SampleSize(|c.points|, factor) < |c.points|
    requires IsDraw(draw, |c.points|, SampleSize(|c.points|, factor))
    ensures Downsample(c, factor, draw).Ok? ==>
      var r := Downsample(c, factor, draw).value;
      |r.points| == SampleSize(|c.points|, factor) < |c.points| &&
      multiset(r.points) <= multiset(c.points) &&
      (c.colors.Some? ==> multiset(r.colors.value) <= multiset(c.colors.value))
  {
    if Downsample(c, factor, draw).Ok? {
      var r := Downsample(c, factor, draw).value;
      GatherIsMasked(c.points, draw);
      MaskedSubMultiset(c.points, MaskOf(draw, |c.points|));
      assert r.points == Gather(c.points, draw).value;
      if c.colors.Some? {
        var cs := c.colors.value;
        assert IsDraw(draw, |cs|, |draw|);
        GatherIsMasked(cs, draw);
        MaskedSubMultiset(cs, MaskOf(draw, |cs|));
      }
    }
  }

  /** The distances have one entry per point, so outlier removal raises only
      when a colour array does not match the points. */
  lemma OutlierRemovalFailsOnlyOnColours(c: Cloud, num: Numerics)
    ensures var ds := Distances(c.points, num);
      RemoveOutliers(c, ds, num.threshold(ds)).Err? <==> c.colors.Some? && |c.colors.value| != |c.points|
  {
  }

  /** A factor of at least 1.0 never downsamples, and neither does a cloud of
      at most one point. */
  lemma NoDownsampleCases(c: Cloud, factor: real, draw: seq<nat>)
    requires 1.0 <= factor || |c.points| <= 1
    ensures Downsample(c, factor, draw) == Ok(c)
  {
  }

  /** The default options only estimate normals. */
  lemma DefaultsOnlyEstimateNormals(data: CloudInput, num: Numerics)
    ensures DrawFits(data, DefaultOptions(), num)
    ensures Filtered(data, DefaultOptions(), num) == Ok(InputCloud(data))
  {
  }
}
