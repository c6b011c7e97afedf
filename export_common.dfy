/** What the PLY, glTF and OBJ exporters share: the Python values their
    dispatch inspects, the mesh a `_export_mesh` call ends up exporting, the
    placeholder cube and the decimation rule of the optimising pass. */
module ExportCommon {
  import opened Wrappers
  import opened Text

  /** A Python value held by a model-data attribute, as far as the exporters
      look at it. */
  datatype PyValue =
    | PyNone
    | PyBool(b: bool)
    | PyInt(i: int)
    | PyStr(s: string)
    | PyList(items: seq<PyValue>)
    | PyDict(entries: map<string, PyValue>)
    /** a numpy array, flattened */
    | NdArray(values: seq<real>)
    /** any other object: a trimesh mesh, a client result */
    | PyObject(kind: string)

  /** The attributes of a model-data object: `hasattr` is membership. */
  type Attrs = map<string, PyValue>

  /** Python truthiness; a numpy array of more than one element refuses it. */
  function Truthy(v: PyValue): (r: Result<bool>)
    ensures r.Err? <==> v.NdArray? && |v.values| > 1
    ensures r.Err? ==> r.error == ValueError
    ensures v.PyNone? ==> r == Ok(false)
    ensures v.PyObject? ==> r == Ok(true)
  {
    match v
    case PyNone => Ok(false)
    case PyBool(b) => Ok(b)
    case PyInt(i) => Ok(i != 0)
    case PyStr(s) => Ok(s != "")
    case PyList(items) => Ok(items != [])
    case PyDict(entries) => Ok(|entries| > 0)
    case NdArray(values) =>
      if |values| == 0 then Ok(false)
      else if |values| == 1 then Ok(values[0] != 0.0)
      else Err(ValueError)
    case PyObject(_) => Ok(true)
  }

  /** `hasattr(d, k) and d.k`, the gaussian test of the dispatchers. */
  function AttrTruthy(d: Attrs, k: string): (r: Result<bool>)
    ensures k !in d ==> r == Ok(false)
    ensures k in d ==> r == Truthy(d[k])
  {
    if k in d then Truthy(d[k]) else Ok(false)
  }

  /** `x.endswith(suffix)`: only a string has the method. */
  function StrEndsWith(v: PyValue, suffix: string): (r: Result<bool>)
    ensures r.Err? <==> !v.PyStr?
    ensures r.Err? ==> r.error == AttributeError
    ensures r.Ok? ==> (r.value <==> EndsWith(v.s, suffix))
  {
    if v.PyStr? then Ok(EndsWith(v.s, suffix)) else Err(AttributeError)
  }

  /** `dict.get(k)` */
  function Get(m: map<string, PyValue>, k: string): (r: Option<PyValue>)
    ensures r.Some? <==> k in m
  {
    if k in m then Some(m[k]) else None
  }

  /** `m[k] if k in m and m[k] is not None else None` */
  function GetNotNone(m: map<string, PyValue>, k: string): (r: Option<PyValue>)
    ensures r.Some? <==> k in m && !m[k].PyNone?
  {
    if k in m && !m[k].PyNone? then Some(m[k]) else None
  }

  /** The argument passed to an exporter's `_export_mesh`: the model object
      itself, or a plain dict built by the generic or Gaussian fallbacks. */
  datatype MeshArg = Object(attrs: Attrs) | PlainDict(entries: map<string, PyValue>)

  /** The mesh `_export_mesh` builds: from the object's `mesh` dict, or the
      placeholder cube. */
  datatype MeshSource =
    | FromDict(vertices: Option<PyValue>, faces: Option<PyValue>, colors: Option<PyValue>, uvs: Option<PyValue>)
    | Cube

  /** `hasattr(model_data, 'mesh') and isinstance(model_data.mesh, dict)`:
      a plain dict has no `mesh` attribute, so it always yields the cube. */
  function MeshSourceOf(a: MeshArg): (m: MeshSource)
    ensures a.PlainDict? ==> m == Cube
    ensures m.FromDict? <==> a.Object? && "mesh" in a.attrs && a.attrs["mesh"].PyDict?
  {
    match a
    case PlainDict(_) => Cube
    case Object(attrs) =>
      if "mesh" in attrs && attrs["mesh"].PyDict? then
        var d := attrs["mesh"].entries;
        FromDict(Get(d, "vertices"), Get(d, "faces"), GetNotNone(d, "colors"), GetNotNone(d, "uvs"))
      else Cube
  }

  /** The `{'mesh': {'vertices': ..., 'faces': ..., 'colors': ...}}` dict of
      the generic fallback; colors only when the object has that attribute. */
  function GenericMeshDict(d: Attrs): (m: map<string, PyValue>)
    requires "vertices" in d && "faces" in d
    ensures m.Keys == {"mesh"} && m["mesh"].PyDict?
  {
    var inner := map["vertices" := d["vertices"], "faces" := d["faces"]];
    map["mesh" := PyDict(if "colors" in d then inner["colors" := d["colors"]] else inner)]
  }

  /** `hasattr(d, 'download_path') and d.download_path.endswith(suffix)`:
      a download path that is not a string has no `endswith`. */
  function DownloadEndsWith(d: Attrs, suffix: string): (r: Result<bool>)
    ensures "download_path" !in d ==> r == Ok(false)
    ensures r.Err? <==> "download_path" in d && !d["download_path"].PyStr?
    ensures r == Ok(true) <==> "download_path" in d && d["download_path"].PyStr? &&
                               EndsWith(d["download_path"].s, suffix)
  {
    if "download_path" in d then StrEndsWith(d["download_path"], suffix) else Ok(false)
  }

  // ---------------------------------------------------------------------
  // The placeholder cube

  /** The unit cube's corners, in the exporters' order. */
  function CubeVertices(): seq<(int, int, int)>
  {
    [(0, 0, 0), (1, 0, 0), (1, 1, 0), (0, 1, 0),
     (0, 0, 1), (1, 0, 1), (1, 1, 1), (0, 1, 1)]
  }

  /** Two triangles per side of the cube. */
  function CubeFaces(): seq<(nat, nat, nat)>
  {
    [(0, 1, 2), (0, 2, 3), (4, 5, 6), (4, 6, 7),
     (0, 1, 5), (0, 5, 4), (2, 3, 7), (2, 7, 6),
     (0, 3, 7), (0, 7, 4), (1, 2, 6), (1, 6, 5)]
  }

  /** The `{'mesh': {'vertices': ..., 'faces': ...}}` dict the fallbacks
      build around the cube's arrays, flattened. */
  function PlaceholderMeshDict(): (m: map<string, PyValue>)
    ensures m.Keys == {"mesh"} && m["mesh"].PyDict?
  {
    var vs := CubeVertices();
    var fs := CubeFaces();
    var flatV := seq(24, i requires 0 <= i < 24 =>
      var v := vs[i / 3]; (if i % 3 == 0 then v.0 else if i % 3 == 1 then v.1 else v.2) as real);
    var flatF := seq(36, i requires 0 <= i < 36 =>
      var f := fs[i / 3]; (if i % 3 == 0 then f.0 else if i % 3 == 1 then f.1 else f.2) as real);
    map["mesh" := PyDict(map["vertices" := NdArray(flatV), "faces" := NdArray(flatF)])]
  }

  predicate Uses(f: (nat, nat, nat), v: nat)
  {
    f.0 == v || f.1 == v || f.2 == v
  }

  /** The corners the given triangles use. */
  function Corners(faces: seq<(nat, nat, nat)>): set<nat>
  {
    (set i | 0 <= i < |faces| :: faces[i].0) + (set i | 0 <= i < |faces| :: faces[i].1) +
    (set i | 0 <= i < |faces| :: faces[i].2)
  }

  /** The placeholder's corners are the 8 distinct corners of the unit cube. */
  lemma CubeCornersAreDistinct()
    ensures |CubeVertices()| == 8
    ensures forall i, j :: 0 <= i < j < 8 ==> CubeVertices()[i] != CubeVertices()[j]
    ensures forall i :: 0 <= i < 8 ==>
      var v := CubeVertices()[i]; 0 <= v.0 <= 1 && 0 <= v.1 <= 1 && 0 <= v.2 <= 1
  {
  }

  /** The placeholder's 12 triangles have three distinct corners each in
      0..7. */
  lemma CubeIsValidMesh()
    ensures |CubeFaces()| == 12
    ensures forall i :: 0 <= i < 12 ==>
      var f := CubeFaces()[i]; f.0 < 8 && f.1 < 8 && f.2 < 8 && f.0 != f.1 && f.1 != f.2 && f.0 != f.2
  {
  }

  /** Every corner of the placeholder belongs to some triangle. */
  lemma CubeUsesEveryCorner()
    ensures forall v: nat :: v < 8 ==> v in Corners(CubeFaces())
  {
    var fs := CubeFaces();
    assert fs[0].0 == 0 && fs[0].1 == 1 && fs[0].2 == 2 && fs[1].2 == 3;
    assert fs[2].0 == 4 && fs[2].1 == 5 && fs[2].2 == 6 && fs[3].2 == 7;
  }

  // ---------------------------------------------------------------------
  // Optimisation

  /** The face count after the decimation step of the optimising pass:
      `int(faces * 0.8)` when the mesh has more than 10000 faces. */
  function DecimatedFaces(faces: nat): (n: nat)
    ensures n <= faces
    ensures n < faces <==> faces > 10000
    ensures faces > 10000 ==> 8000 <= n && 5 * n <= 4 * faces < 5 * n + 5
  {
    if faces > 10000 then (4 * faces) / 5 else faces
  }

  /** The random placeholder the glTF and OBJ exporters build for a Gaussian
      model they cannot export directly: a plain dict holding only a random
      mesh. */
  function GaussianPlaceholder(): (m: map<string, PyValue>)
    ensures m.Keys == {"mesh"}
  {
    map["mesh" := PyDict(map["vertices" := PyObject("ndarray"), "faces" := PyObject("ndarray"),
                             "colors" := PyObject("ndarray")])]
  }
}
