/** The deterministic part of threedify/data/loaders.py: the two built-in
    example datasets of `load_example`. The file-reading `load` methods are
    laspy, PIL and pandas calls and stay outside the model; `_LOADERS`,
    `get_loader` and `register_loader` are a `Registries.Registry`. */
module Loaders {
  import opened Wrappers
  import opened Json
  import opened Registries

  /** The attribute names of the object each built-in loader's `load`
      returns (`LidarData`, `ImageData`, `VectorData`, `TabularData`); a
      caller's own loader is not known. */
  function LoadedAttributes(l: LoaderKind): (ks: Option<set<string>>)
    ensures ks.None? <==> l.CustomLoader?
    ensures ks.Some? ==> "path" in ks.value && "type" in ks.value && "raster" !in ks.value
  {
    match l
    case LidarLoader =>
      Some({"point_cloud", "colors", "intensity", "classification", "header", "path", "type"})
    case ImageLoader => Some({"image", "array", "metadata", "path", "type"})
    case VectorLoader => Some({"vector", "path", "type"})
    case TabularLoader => Some({"dataframe", "path", "type"})
    case CustomLoader(_) => None
  }

  type Rgb = (int, int, int)

  const Black: Rgb := (0, 0, 0)
  const White: Rgb := (255, 255, 255)

  /** The side of the `sample_image` square and of its checkerboard tiles. */
  const ImageSize: nat := 256
  const TileSize: nat := 32

  /** The colour `sample_image` gives pixel (i, j). */
  function Checker(i: nat, j: nat): (c: Rgb)
    ensures c == Black <==> (i / TileSize + j / TileSize) % 2 == 0
    ensures c != Black ==> c == White
  {
    if (i / TileSize + j / TileSize) % 2 == 0 then Black else White
  }

  /** Builds the `sample_image` pixels as the source does: a white
      256 x 256 image, then every pixel of an even tile set to black. */
  method SampleImagePixels() returns (pixels: array2<Rgb>)
    ensures fresh(pixels)
    ensures pixels.Length0 == ImageSize && pixels.Length1 == ImageSize
    ensures forall i, j :: 0 <= i < ImageSize && 0 <= j < ImageSize ==> pixels[i, j] == Checker(i, j)
  {
    pixels := new Rgb[ImageSize, ImageSize]((_, _) => White);
    var i := 0;
    while i < ImageSize
      invariant 0 <= i <= ImageSize
      invariant forall a, b :: 0 <= a < i && 0 <= b < ImageSize ==> pixels[a, b] == Checker(a, b)
      invariant forall a, b :: i <= a < ImageSize && 0 <= b < ImageSize ==> pixels[a, b] == White
    {
      var j := 0;
      while j < ImageSize
        invariant 0 <= j <= ImageSize
        invariant forall a, b :: 0 <= a < i && 0 <= b < ImageSize ==> pixels[a, b] == Checker(a, b)
        invariant forall b :: 0 <= b < j ==> pixels[i, b] == Checker(i, b)
        invariant forall a, b :: i <= a < ImageSize && 0 <= b < ImageSize && (a != i || j <= b) ==>
          pixels[a, b] == White
      {
        if (i / TileSize + j / TileSize) % 2 == 0 {
          pixels[i, j] := Black;
        }
        j := j + 1;
      }
      i := i + 1;
    }
  }

  /** Moving one tile across, in either direction, flips the colour. */
  lemma NeighbourTilesDiffer(i: nat, j: nat)
    ensures Checker(i, j) != Checker(i + TileSize, j)
    ensures Checker(i, j) != Checker(i, j + TileSize)
  {
    assert (i + TileSize) / TileSize == i / TileSize + 1;
    assert (j + TileSize) / TileSize == j / TileSize + 1;
  }

  /** Pixels of the same tile share a colour. */
  lemma SameTileSameColour(i: nat, j: nat, a: nat, b: nat)
    requires i / TileSize == a / TileSize && j / TileSize == b / TileSize
    ensures Checker(i, j) == Checker(a, b)
  {
  }

  /** A point of the sample point cloud. */
  type Xyz = (real, real, real)

  /** The `LidarData` object of `sample_lidar`. */
  datatype LidarSample = LidarSample(
    pointCloud: seq<Xyz>, colors: seq<Xyz>, intensity: seq<real>, classification: seq<int>,
    header: Option<string>, path: Option<string>, kind: string)

  /** The `ImageData` object of `sample_image`. */
  datatype ImageSample = ImageSample(pixels: array2<Rgb>, metadata: Dict, path: Option<string>, kind: string)

  datatype Example = Lidar(lidar: LidarSample) | Image(image: ImageSample)

  const SamplePoints: nat := 1000

  /** `sample_lidar`, with numpy's normal and uniform draws given as the
      streams `randn` and `rand` (the k-th draw of each). */
  function SampleLidar(randn: nat -> real, rand: nat -> real): (s: LidarSample)
    ensures |s.pointCloud| == SamplePoints && |s.colors| == SamplePoints
    ensures |s.intensity| == SamplePoints && |s.classification| == SamplePoints
    ensures forall k :: 0 <= k < |s.classification| ==> s.classification[k] == 0
    ensures (forall k :: 0.0 <= rand(k) < 1.0) ==>
      forall k :: 0 <= k < SamplePoints ==>
        0.0 <= s.colors[k].0 < 1.0 && 0.0 <= s.colors[k].1 < 1.0 && 0.0 <= s.colors[k].2 < 1.0 &&
        0.0 <= s.intensity[k] < 1.0
    ensures s.header.None? && s.path.None? && s.kind == "lidar"
  {
    LidarSample(
      seq(SamplePoints, k requires 0 <= k < SamplePoints => (randn(3 * k), randn(3 * k + 1), randn(3 * k + 2))),
      seq(SamplePoints, k requires 0 <= k < SamplePoints => (rand(3 * k), rand(3 * k + 1), rand(3 * k + 2))),
      seq(SamplePoints, k requires 0 <= k < SamplePoints => rand(3 * SamplePoints + k)),
      seq(SamplePoints, k requires 0 <= k < SamplePoints => 0),
      None, None, "lidar")
  }

  /** The metadata dict of `sample_image`. */
  function SampleImageMetadata(): (m: Dict)
    ensures m.Keys == {"width", "height", "mode", "format"}
    ensures m["width"] == Int(ImageSize) && m["height"] == Int(ImageSize) && m["mode"] == Str("RGB")
  {
    map["width" := Int(ImageSize), "height" := Int(ImageSize), "mode" := Str("RGB"), "format" := Null]
  }

  /** `load_example`: the two named datasets, ValueError for any other name. */
  method LoadExample(name: string, randn: nat -> real, rand: nat -> real) returns (r: Result<Example>)
    ensures r.Err? <==> name != "sample_lidar" && name != "sample_image"
    ensures r.Err? ==> r.error == ValueError
    ensures name == "sample_lidar" ==> r == Ok(Lidar(SampleLidar(randn, rand)))
    ensures name == "sample_image" ==>
      r.Ok? && r.value.Image? && fresh(r.value.image.pixels) &&
      r.value.image.metadata == SampleImageMetadata() && r.value.image.path.None? &&
      r.value.image.kind == "image" &&
      r.value.image.pixels.Length0 == ImageSize && r.value.image.pixels.Length1 == ImageSize &&
      forall i, j :: 0 <= i < ImageSize && 0 <= j < ImageSize ==> r.value.image.pixels[i, j] == Checker(i, j)
  {
    if name == "sample_lidar" {
      r := Ok(Lidar(SampleLidar(randn, rand)));
    } else if name == "sample_image" {
      var pixels := SampleImagePixels();
      r := Ok(Image(ImageSample(pixels, SampleImageMetadata(), None, "image")));
    } else {
      r := Err(ValueError);
    }
  }
}
