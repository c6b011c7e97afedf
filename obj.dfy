/** The OBJ exporter (`OBJExporter`): the output path, the material file
    name, and the write it chooses for each kind of model data. What trimesh
    then puts in the files is not modelled. */
module Obj {
  import opened Wrappers
  import opened Text
  import opened Paths
  import opened ExportCommon

  /** Whether trimesh imports, and whether `trimesh.load` and the export of a
      downloaded .ply go through without raising. */
  datatype Env = Env(trimesh: bool, plyConverts: bool)

  /** The keyword arguments of `export`; None where the caller gave none. */
  datatype Kwargs = Kwargs(mtl: Option<bool>, texturePath: Option<string>, optimize: Option<bool>)

  function GenerateMtl(kw: Kwargs): bool
  {
    if kw.mtl.Some? then kw.mtl.value else true
  }

  function Optimize(kw: Kwargs): bool
  {
    if kw.optimize.Some? then kw.optimize.value else true
  }

  /** The write the exporter ends with. */
  datatype Action =
    | WriteObj(mesh: MeshSource, optimize: bool, includeTexture: bool, mtlName: Option<string>)
    /** trimesh loads the downloaded .ply and writes it as OBJ */
    | ConvertPly(source: string)

  /** The `mtl_name` handed to trimesh: the name of the output path with a
      .mtl suffix when a material file is wanted, None otherwise. */
  function MtlName(p: Path, generate: bool): (n: Option<string>)
    requires Name(p) != ""
    ensures n.Some? <==> generate
    ensures n.Some? ==> Suffix(n.value) == ".mtl" && n.value == Name(WithSuffix(p, ".mtl").value)
  {
    if !generate then None
    else
      SuffixAfterWithSuffix(p, ".mtl");
      match WithSuffix(p, ".mtl")
      case Err(_) => None
      case Ok(m) => Some(Name(m))
  }

  /** `_export_mesh`: trimesh is required; the object's dict `mesh` is
      written, anything else gives the cube; normals always, a texture only
      when a texture path is given. */
  function ExportMesh(a: MeshArg, p: Path, generateMtl: bool, texturePath: Option<string>, optimize: bool, env: Env)
    : (r: Result<Action>)
    requires Name(p) != ""
    ensures r.Err? <==> !env.trimesh
    ensures r.Err? ==> r.error == ImportError
    ensures r.Ok? ==> r.value == WriteObj(MeshSourceOf(a), optimize, texturePath.Some?, MtlName(p, generateMtl))
  {
    if !env.trimesh then Err(ImportError)
    else Ok(WriteObj(MeshSourceOf(a), optimize, texturePath.Some?, MtlName(p, generateMtl)))
  }

  /** `_export_gaussian_as_mesh`: a .ply download is converted when trimesh
      can load it; any failure in that conversion falls through to the
      placeholder dict. Only `generate_mtl` reaches here. */
  function ExportGaussian(d: Attrs, p: Path, generateMtl: bool, env: Env): (r: Result<Action>)
    requires Name(p) != ""
    ensures r.Err? ==> r.error == AttributeError || r.error == ImportError
    ensures r.Ok? && r.value.WriteObj? ==>
      r.value == WriteObj(Cube, true, false, MtlName(p, generateMtl))
    ensures DownloadEndsWith(d, ".ply") == Ok(true) && env.trimesh && env.plyConverts ==>
      r == Ok(ConvertPly(d["download_path"].s))
    ensures DownloadEndsWith(d, ".ply").Ok? && !(DownloadEndsWith(d, ".ply").value && env.trimesh && env.plyConverts) ==>
      r == ExportMesh(PlainDict(GaussianPlaceholder()), p, generateMtl, None, true, env)
  {
    match DownloadEndsWith(d, ".ply")
    case Err(e) => Err(e)
    case Ok(isPly) =>
      if isPly && env.trimesh && env.plyConverts then Ok(ConvertPly(d["download_path"].s))
      else ExportMesh(PlainDict(GaussianPlaceholder()), p, generateMtl, None, true, env)
  }

  /** `_export_generic`: a dict around the object's vertices and faces, or
      the placeholder dict; either way a plain dict. Only `generate_mtl`
      reaches here. */
  function ExportGeneric(d: Attrs, p: Path, generateMtl: bool, env: Env): (r: Result<Action>)
    requires Name(p) != ""
    ensures r.Err? <==> !env.trimesh
    ensures r.Err? ==> r.error == ImportError
    ensures r.Ok? ==> r.value == WriteObj(Cube, true, false, MtlName(p, generateMtl))
  {
    if "vertices" in d && "faces" in d then
      ExportMesh(PlainDict(GenericMeshDict(d)), p, generateMtl, None, true, env)
    else
      ExportMesh(PlainDict(PlaceholderMeshDict()), p, generateMtl, None, true, env)
  }

  /** The dispatch of `OBJExporter.export`: mesh > truthy gaussian > generic. */
  function Dispatch(model: Attrs, p: Path, kw: Kwargs, env: Env): (r: Result<Action>)
    requires Name(p) != ""
    ensures r.Err? ==> r.error == ImportError || r.error == AttributeError || r.error == ValueError
    ensures r.Ok? && r.value.WriteObj? ==> r.value.mtlName == MtlName(p, GenerateMtl(kw))
    ensures r.Ok? && r.value.WriteObj? && "mesh" !in model ==> r.value.optimize && !r.value.includeTexture
  {
    if "mesh" in model then
      ExportMesh(Object(model), p, GenerateMtl(kw), kw.texturePath, Optimize(kw), env)
    else match AttrTruthy(model, "gaussian")
      case Err(e) => Err(e)
      case Ok(g) =>
        if g then ExportGaussian(model, p, GenerateMtl(kw), env)
        else ExportGeneric(model, p, GenerateMtl(kw), env)
  }

  /** `OBJExporter.export`: the output path with its suffix forced to .obj,
      and the write the dispatch chooses. */
  function Export(model: Attrs, out: Path, kw: Kwargs, env: Env): (r: Result<(Path, Action)>)
    ensures Name(out) == "" ==> r == Err(ValueError)
    ensures r.Err? ==> r.error == ValueError || r.error == ImportError || r.error == AttributeError
    ensures r.Ok? ==> Lower(PathSuffix(r.value.0)) == ".obj"
    ensures r.Ok? && Lower(PathSuffix(out)) == ".obj" ==> r.value.0 == out
    ensures r.Ok? ==> Name(r.value.0) != "" && Dispatch(model, r.value.0, kw, env).Ok? &&
                      r.value.1 == Dispatch(model, r.value.0, kw, env).value
  {
    match ForceSuffix(out, ".obj")
    case Err(e) => Err(e)
    case Ok(p) =>
      match Dispatch(model, p, kw, env)
      case Err(e) => Err(e)
      case Ok(a) => Ok((p, a))
  }

  // ---------------------------------------------------------------------
  // Properties of the dispatch

  /** A material file is named iff `mtl` is on (the default), and its name
      is the output's name with a .mtl suffix. */
  lemma MtlNamedIffRequested(model: Attrs, out: Path, kw: Kwargs, env: Env)
    requires Name(out) != "" && env.trimesh
    ensures var r := Export(model, out, kw, env);
      r.Ok? && r.value.1.WriteObj? ==>
        (r.value.1.mtlName.Some? <==> GenerateMtl(kw)) &&
        (r.value.1.mtlName.Some? ==>
          Suffix(r.value.1.mtlName.value) == ".mtl") &&
        r.value.1.mtlName == MtlName(r.value.0, GenerateMtl(kw))
  {
    var r := Export(model, out, kw, env);
    if r.Ok? && r.value.1.WriteObj? {
      var p := r.value.0;
      assert r.value.1.mtlName == MtlName(p, GenerateMtl(kw));
    }
  }

  /** A mesh attribute wins, with the caller's optimise and texture
      keywords. */
  lemma MeshFirst(model: Attrs, out: Path, kw: Kwargs, env: Env)
    requires Name(out) != "" && env.trimesh && "mesh" in model
    ensures var r := Export(model, out, kw, env);
      r.Ok? && r.value.1.WriteObj? && r.value.1.mesh == MeshSourceOf(Object(model)) &&
      r.value.1.optimize == Optimize(kw) && r.value.1.includeTexture == kw.texturePath.Some?
  {
  }

  /** The Gaussian and generic fallbacks see only `mtl`: they always
      optimise and never include a texture, whatever the caller asked. */
  lemma FallbacksIgnoreTextureAndOptimize(model: Attrs, out: Path, kw: Kwargs, env: Env)
    requires "mesh" !in model
    ensures var r := Export(model, out, kw, env);
      r.Ok? && r.value.1.WriteObj? ==> r.value.1.optimize && !r.value.1.includeTexture
  {
  }

  /** A truthy Gaussian model with a convertible .ply download is converted. */
  lemma GaussianPlyConverted(model: Attrs, out: Path, kw: Kwargs, env: Env)
    requires Name(out) != "" && env.trimesh && env.plyConverts && "mesh" !in model
    requires AttrTruthy(model, "gaussian") == Ok(true) && DownloadEndsWith(model, ".ply") == Ok(true)
    ensures var r := Export(model, out, kw, env);
      r.Ok? && r.value.1 == ConvertPly(model["download_path"].s)
  {
  }

  /** Otherwise a truthy Gaussian model gets the cube: its random placeholder
      is a plain dict. */
  lemma GaussianOtherwiseCube(model: Attrs, out: Path, kw: Kwargs, env: Env)
    requires Name(out) != "" && env.trimesh && "mesh" !in model
    requires AttrTruthy(model, "gaussian") == Ok(true) && DownloadEndsWith(model, ".ply").Ok?
    requires !(DownloadEndsWith(model, ".ply").value && env.plyConverts)
    ensures var r := Export(model, out, kw, env);
      r.Ok? && r.value.1.WriteObj? && r.value.1.mesh == Cube
  {
  }

  /** A download path that is not a string has no `endswith`; the conversion
      guard does not catch that. */
  lemma GaussianDownloadMustBeString(model: Attrs, out: Path, kw: Kwargs, env: Env)
    requires Name(out) != "" && "mesh" !in model && AttrTruthy(model, "gaussian") == Ok(true)
    requires "download_path" in model && !model["download_path"].PyStr?
    ensures Export(model, out, kw, env) == Err(AttributeError)
  {
  }

  /** The generic fallback writes the cube whatever the model holds. */
  lemma GenericIsCube(model: Attrs, out: Path, kw: Kwargs, env: Env)
    requires Name(out) != "" && env.trimesh && "mesh" !in model
    requires AttrTruthy(model, "gaussian") == Ok(false)
    ensures var r := Export(model, out, kw, env);
      r.Ok? && r.value.1.WriteObj? && r.value.1.mesh == Cube
  {
  }
}
