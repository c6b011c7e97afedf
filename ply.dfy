/** The PLY exporter (`PLYExporter`): the output path it settles on and the
    write it chooses for each kind of model data. What trimesh or open3d then
    put in the file is not modelled; the chosen write is the result. */
module Ply {
  import opened Wrappers
  import opened Text
  import opened Paths
  import opened ExportCommon

  /** Which of the optional writer libraries import. */
  datatype Env = Env(trimesh: bool, open3d: bool)

  datatype Backend = Trimesh | Open3d

  /** trimesh when it imports, otherwise open3d, otherwise ImportError. */
  function BackendOf(env: Env): (r: Result<Backend>)
    ensures r.Err? <==> !env.trimesh && !env.open3d
    ensures r.Err? ==> r.error == ImportError
    ensures r == Ok(Trimesh) <==> env.trimesh
  {
    if env.trimesh then Ok(Trimesh) else if env.open3d then Ok(Open3d) else Err(ImportError)
  }

  /** An array handed to the writer: a model attribute, or `count` rows drawn
      by numpy's random generator. */
  datatype Payload = Value(v: PyValue) | Random(count: nat)

  /** The keyword arguments of `export`; None where the caller gave none. */
  datatype Kwargs = Kwargs(binary: Option<bool>, normals: Option<bool>, color: Option<bool>)

  function Binary(kw: Kwargs): bool
  {
    if kw.binary.Some? then kw.binary.value else true
  }

  /** The write the exporter ends with. */
  datatype Action =
    | CopyFile(source: string)
    | WritePointCloud(points: Payload, colors: Option<Payload>, normals: Option<Payload>,
                      binary: bool, backend: Backend)
    | WriteMesh(mesh: MeshSource, binary: bool, vertexNormals: bool, backend: Backend)

  /** The attributes of the object `_export_point_cloud` receives. */
  type CloudData = map<string, Payload>

  /** `d.k` when d has it and it is not None. */
  function NotNone(d: CloudData, k: string): (r: Option<Payload>)
    ensures r.Some? <==> k in d && d[k] != Value(PyNone)
    ensures r.Some? ==> r.value == d[k]
  {
    if k in d && d[k] != Value(PyNone) then Some(d[k]) else None
  }

  function Lift(d: Attrs): (c: CloudData)
    ensures c.Keys == d.Keys
    ensures forall k :: k in d ==> c[k] == Value(d[k])
  {
    map k | k in d :: Value(d[k])
  }

  /** `_export_point_cloud`. The include flags it reads under the keys
      'normals' and 'colors' are never among the forwarded keywords, so they
      are always at their default, True. */
  function ExportPointCloud(d: CloudData, binary: bool, env: Env): (r: Result<Action>)
    ensures r.Err? <==> BackendOf(env).Err?
    ensures r.Err? ==> r.error == ImportError
    ensures r.Ok? ==> r.value.WritePointCloud? && r.value.binary == binary &&
                      r.value.backend == BackendOf(env).value
    ensures r.Ok? && "point_cloud" in d ==>
      r.value.points == d["point_cloud"] &&
      (r.value.colors.Some? <==> "colors" in d && d["colors"] != Value(PyNone)) &&
      (r.value.normals.Some? <==> "normals" in d && d["normals"] != Value(PyNone)) &&
      (r.value.colors.Some? ==> r.value.colors.value == d["colors"]) &&
      (r.value.normals.Some? ==> r.value.normals.value == d["normals"])
  {
    match BackendOf(env)
    case Err(e) => Err(e)
    case Ok(b) =>
      if "point_cloud" in d then
        Ok(WritePointCloud(d["point_cloud"], NotNone(d, "colors"), NotNone(d, "normals"), binary, b))
      else
        // no caller reaches this: every argument has a point_cloud attribute
        Ok(WritePointCloud(Random(1000), Some(Random(1000)), None, binary, b))
  }

  /** `_export_mesh`: the object's dict `mesh`, or the placeholder cube;
      vertex normals are always requested. */
  function ExportMesh(a: MeshArg, binary: bool, env: Env): (r: Result<Action>)
    ensures r.Err? <==> BackendOf(env).Err?
    ensures r.Err? ==> r.error == ImportError
    ensures r.Ok? ==> r.value == WriteMesh(MeshSourceOf(a), binary, true, BackendOf(env).value)
  {
    match BackendOf(env)
    case Err(e) => Err(e)
    case Ok(b) => Ok(WriteMesh(MeshSourceOf(a), binary, true, b))
  }

  /** The placeholder `_export_gaussian` builds: 5000 random points with
      random colours. */
  function GaussianCloud(): CloudData
  {
    map["point_cloud" := Random(5000), "colors" := Random(5000), "type" := Value(PyStr("point_cloud"))]
  }

  /** `_export_gaussian`: a .ply download is copied, anything else becomes
      the random placeholder cloud. */
  function ExportGaussian(d: Attrs, binary: bool, env: Env): (r: Result<Action>)
    ensures r.Err? ==> r.error == AttributeError || r.error == ImportError
    ensures DownloadEndsWith(d, ".ply") == Ok(true) ==> r == Ok(CopyFile(d["download_path"].s))
    ensures DownloadEndsWith(d, ".ply") == Ok(false) ==> r == ExportPointCloud(GaussianCloud(), binary, env)
  {
    match DownloadEndsWith(d, ".ply")
    case Err(e) => Err(e)
    case Ok(copy) =>
      if copy then Ok(CopyFile(d["download_path"].s)) else ExportPointCloud(GaussianCloud(), binary, env)
  }

  /** `getattr(d, 'points', None) or getattr(d, 'point_cloud', None)`. */
  function PointsOf(d: Attrs): (r: Result<PyValue>)
    ensures r.Err? <==> "points" in d && d["points"].NdArray? && |d["points"].values| > 1
    ensures r.Err? ==> r.error == ValueError
    ensures r.Ok? && "points" in d && Truthy(d["points"]) == Ok(true) ==> r.value == d["points"]
    ensures r.Ok? && ("points" !in d || Truthy(d["points"]) == Ok(false)) ==>
      r.value == (if "point_cloud" in d then d["point_cloud"] else PyNone)
  {
    var first := if "points" in d then d["points"] else PyNone;
    match Truthy(first)
    case Err(e) => Err(e)
    case Ok(t) =>
      if t then Ok(first) else Ok(if "point_cloud" in d then d["point_cloud"] else PyNone)
  }

  /** The `pc_data` object of the generic fallback: the points, plus the
      model's colors and normals attributes where it has them. */
  function GenericCloud(d: Attrs, points: PyValue): (c: CloudData)
    ensures c.Keys == {"point_cloud", "type"} + ({"colors", "normals"} * d.Keys)
    ensures c["point_cloud"] == Value(points)
    ensures "colors" in d ==> c["colors"] == Value(d["colors"])
    ensures "normals" in d ==> c["normals"] == Value(d["normals"])
  {
    var base := map["point_cloud" := Value(points), "type" := Value(PyStr("point_cloud"))];
    var withColors := if "colors" in d then base["colors" := Value(d["colors"])] else base;
    if "normals" in d then withColors["normals" := Value(d["normals"])] else withColors
  }

  /** Builds `pc_data` attribute by attribute, as the generic fallback does. */
  method BuildGenericCloud(d: Attrs, points: PyValue) returns (c: CloudData)
    ensures c == GenericCloud(d, points)
  {
    c := map["point_cloud" := Value(points), "type" := Value(PyStr("point_cloud"))];
    if "colors" in d {
      c := c["colors" := Value(d["colors"])];
    }
    if "normals" in d {
      c := c["normals" := Value(d["normals"])];
    }
  }

  /** `_export_generic`: vertices and faces > points or point_cloud >
      the placeholder. */
  function ExportGeneric(d: Attrs, binary: bool, env: Env): (r: Result<Action>)
    ensures r.Err? ==> r.error == ValueError || r.error == ImportError
    ensures "vertices" in d && "faces" in d ==> r == ExportMesh(PlainDict(GenericMeshDict(d)), binary, env)
    ensures !("vertices" in d && "faces" in d) && ("points" in d || "point_cloud" in d) ==>
      (PointsOf(d).Err? ==> r == Err(ValueError)) &&
      (PointsOf(d).Ok? ==> r == ExportPointCloud(GenericCloud(d, PointsOf(d).value), binary, env))
    ensures !("vertices" in d && "faces" in d) && !("points" in d || "point_cloud" in d) ==>
      r == ExportMesh(PlainDict(PlaceholderMeshDict()), binary, env)
  {
    if "vertices" in d && "faces" in d then
      ExportMesh(PlainDict(GenericMeshDict(d)), binary, env)
    else if "points" in d || "point_cloud" in d then
      match PointsOf(d)
      case Err(e) => Err(e)
      case Ok(p) => ExportPointCloud(GenericCloud(d, p), binary, env)
    else
      ExportMesh(PlainDict(PlaceholderMeshDict()), binary, env)
  }

  /** The dispatch of `PLYExporter.export`: point_cloud > mesh > truthy
      gaussian (copied when its download is a .ply) > generic. */
  function Dispatch(model: Attrs, binary: bool, env: Env): (r: Result<Action>)
    ensures r.Err? ==> r.error == ValueError || r.error == ImportError || r.error == AttributeError
  {
    if "point_cloud" in model then ExportPointCloud(Lift(model), binary, env)
    else if "mesh" in model then ExportMesh(Object(model), binary, env)
    else match AttrTruthy(model, "gaussian")
      case Err(e) => Err(e)
      case Ok(g) =>
        if !g then ExportGeneric(model, binary, env)
        else match DownloadEndsWith(model, ".ply")
          case Err(e) => Err(e)
          case Ok(copy) =>
            if copy then Ok(CopyFile(model["download_path"].s))
            else ExportGaussian(model, binary, env)
  }

  /** `PLYExporter.export`: the output path with its suffix forced to .ply,
      and the write the dispatch chooses. */
  function Export(model: Attrs, out: Path, kw: Kwargs, env: Env): (r: Result<(Path, Action)>)
    ensures Name(out) == "" ==> r == Err(ValueError)
    ensures r.Err? ==> r.error == ValueError || r.error == ImportError || r.error == AttributeError
    ensures r.Ok? ==> Lower(PathSuffix(r.value.0)) == ".ply"
    ensures r.Ok? && Lower(PathSuffix(out)) == ".ply" ==> r.value.0 == out
    ensures Name(out) != "" ==> (r.Ok? <==> Dispatch(model, Binary(kw), env).Ok?)
    ensures r.Ok? ==> r.value.1 == Dispatch(model, Binary(kw), env).value
  {
    match ForceSuffix(out, ".ply")
    case Err(e) => Err(e)
    case Ok(p) =>
      match Dispatch(model, Binary(kw), env)
      case Err(e) => Err(e)
      case Ok(a) => Ok((p, a))
  }

  // ---------------------------------------------------------------------
  // Properties of the dispatch

  /** The `normals` and `color` keywords change nothing. */
  lemma IncludeFlagsHaveNoEffect(model: Attrs, out: Path, kw: Kwargs, env: Env, n: Option<bool>, c: Option<bool>)
    ensures Export(model, out, kw, env) == Export(model, out, kw.(normals := n, color := c), env)
  {
  }

  /** A point_cloud attribute wins: its points are written with the model's
      colors and normals unless those are None. */
  lemma PointCloudFirst(model: Attrs, out: Path, kw: Kwargs, env: Env)
    requires "point_cloud" in model && Name(out) != "" && BackendOf(env).Ok?
    ensures var r := Export(model, out, kw, env);
      r.Ok? && r.value.1.WritePointCloud? &&
      r.value.1.points == Value(model["point_cloud"]) &&
      (r.value.1.colors.Some? <==> "colors" in model && !model["colors"].PyNone?) &&
      (r.value.1.normals.Some? <==> "normals" in model && !model["normals"].PyNone?) &&
      r.value.1.binary == Binary(kw)
  {
  }

  /** Next comes a mesh attribute: its dict is written, anything else gives
      the cube. */
  lemma MeshSecond(model: Attrs, out: Path, kw: Kwargs, env: Env)
    requires "point_cloud" !in model && "mesh" in model && Name(out) != "" && BackendOf(env).Ok?
    ensures var r := Export(model, out, kw, env);
      r.Ok? && r.value.1 == WriteMesh(MeshSourceOf(Object(model)), Binary(kw), true, BackendOf(env).value) &&
      (r.value.1.mesh == Cube <==> !model["mesh"].PyDict?)
  {
  }

  /** A truthy gaussian with a .ply download is copied; without one the
      exporter writes 5000 random coloured points and no normals. (Stated of
      the dispatch; `Export` returns exactly what the dispatch chooses.) */
  lemma GaussianThird(model: Attrs, binary: bool, env: Env)
    requires "point_cloud" !in model && "mesh" !in model
    requires AttrTruthy(model, "gaussian") == Ok(true)
    ensures DownloadEndsWith(model, ".ply") == Ok(true) ==>
      Dispatch(model, binary, env) == Ok(CopyFile(model["download_path"].s))
    ensures DownloadEndsWith(model, ".ply") == Ok(false) && BackendOf(env).Ok? ==>
      Dispatch(model, binary, env) == Ok(WritePointCloud(Random(5000), Some(Random(5000)), None, binary, BackendOf(env).value))
    ensures DownloadEndsWith(model, ".ply").Err? ==> Dispatch(model, binary, env) == Err(AttributeError)
  {
    var g := GaussianCloud();
    assert "point_cloud" in g && g["point_cloud"] == Random(5000);
    assert NotNone(g, "colors") == Some(Random(5000)) && NotNone(g, "normals") == None;
  }

  /** The truth of a gaussian numpy array of more than one element is
      ambiguous, and the export fails. */
  lemma GaussianArrayRefused(model: Attrs, out: Path, kw: Kwargs, env: Env)
    requires "point_cloud" !in model && "mesh" !in model && Name(out) != ""
    requires "gaussian" in model && model["gaussian"].NdArray? && |model["gaussian"].values| > 1
    ensures Export(model, out, kw, env) == Err(ValueError)
  {
  }

  /** The generic vertices+faces fallback hands `_export_mesh` a plain dict,
      which has no `mesh` attribute: the cube is written whatever the data. */
  lemma GenericMeshIsCube(model: Attrs, out: Path, kw: Kwargs, env: Env)
    requires "point_cloud" !in model && "mesh" !in model && Name(out) != "" && BackendOf(env).Ok?
    requires AttrTruthy(model, "gaussian") == Ok(false)
    requires "vertices" in model && "faces" in model
    ensures var r := Export(model, out, kw, env);
      r.Ok? && r.value.1 == WriteMesh(Cube, Binary(kw), true, BackendOf(env).value)
  {
  }

  /** The generic points fallback fails on a points array of more than one
      element, whose truth value numpy refuses. */
  lemma GenericPointsArrayRefused(model: Attrs, out: Path, kw: Kwargs, env: Env)
    requires "point_cloud" !in model && "mesh" !in model && Name(out) != ""
    requires AttrTruthy(model, "gaussian") == Ok(false)
    requires !("vertices" in model && "faces" in model)
    requires "points" in model && model["points"].NdArray? && |model["points"].values| > 1
    ensures Export(model, out, kw, env) == Err(ValueError)
  {
  }

  /** Data with nothing recognisable gets the cube. */
  lemma NothingGivesCube(model: Attrs, out: Path, kw: Kwargs, env: Env)
    requires Name(out) != "" && BackendOf(env).Ok?
    requires "point_cloud" !in model && "mesh" !in model && "gaussian" !in model
    requires "vertices" !in model && "points" !in model
    ensures var r := Export(model, out, kw, env);
      r.Ok? && r.value.1 == WriteMesh(Cube, Binary(kw), true, BackendOf(env).value)
  {
  }

  /** Without trimesh and open3d only a copy can succeed. */
  lemma NoWriterOnlyCopies(model: Attrs, binary: bool, env: Env)
    requires !env.trimesh && !env.open3d
    ensures var r := Dispatch(model, binary, env); r.Ok? ==> r.value.CopyFile?
  {
    assert BackendOf(env).Err?;
  }
}
