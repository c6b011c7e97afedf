/** The glTF exporter (`GLTFExporter`): the output path it settles on (.glb
    or .gltf) and the write it chooses for each kind of model data. What
    trimesh or pygltflib then put in the file is not modelled. */
module Gltf {
  import opened Wrappers
  import opened Text
  import opened Paths
  import opened ExportCommon

  /** Which of the optional libraries import. */
  datatype Env = Env(trimesh: bool, pygltflib: bool)

  /** The keyword arguments of `export`; None where the caller gave none. */
  datatype Kwargs = Kwargs(binary: Option<bool>, optimize: Option<bool>,
                           embedTextures: Option<bool>, textureResolution: Option<int>)

  function Binary(kw: Kwargs): bool
  {
    if kw.binary.Some? then kw.binary.value else false
  }

  function Optimize(kw: Kwargs): bool
  {
    if kw.optimize.Some? then kw.optimize.value else true
  }

  function EmbedTextures(kw: Kwargs): bool
  {
    if kw.embedTextures.Some? then kw.embedTextures.value else true
  }

  /** The write the exporter ends with. */
  datatype Action =
    | CopyFile(source: string)
    /** pygltflib loads the .glb and saves it as .gltf */
    | ConvertGlb(source: string)
    | WriteMesh(mesh: MeshSource, fileType: string, optimize: bool, embedTextures: bool)

  /** The path the write goes to and the write. */
  type Written = (Path, Action)

  /** `_process_api_output` for an original path ending .glb: copied when
      binary, converted when not; without pygltflib the copy goes to the
      output path with a .glb suffix, and that path is returned. */
  function ProcessApiOutput(source: string, out: Path, binary: bool, env: Env): (r: Result<Written>)
    requires Name(out) != ""
    ensures r.Ok?
    ensures binary ==> r.value == (out, CopyFile(source))
    ensures !binary && env.pygltflib ==> r.value == (out, ConvertGlb(source))
    ensures !binary && !env.pygltflib ==>
      r.value.1 == CopyFile(source) && PathSuffix(r.value.0) == ".glb" &&
      |r.value.0.parts| == |out.parts| && r.value.0.parts[..|out.parts| - 1] == out.parts[..|out.parts| - 1]
  {
    if binary then Ok((out, CopyFile(source)))
    else if env.pygltflib then Ok((out, ConvertGlb(source)))
    else
      SuffixAfterWithSuffix(out, ".glb");
      match WithSuffix(out, ".glb")
      case Err(e) => Err(e)
      case Ok(glb) => Ok((glb, CopyFile(source)))
  }

  /** `_export_mesh`: trimesh is required; the object's dict `mesh` is
      written, anything else gives the cube; glb or gltf after `binary`. */
  function ExportMesh(a: MeshArg, binary: bool, optimize: bool, embed: bool, env: Env): (r: Result<Action>)
    ensures r.Err? <==> !env.trimesh
    ensures r.Err? ==> r.error == ImportError
    ensures r.Ok? ==> r.value.WriteMesh? && r.value.mesh == MeshSourceOf(a) &&
                      r.value.optimize == optimize && r.value.embedTextures == embed
    ensures r.Ok? ==> (r.value.fileType == "glb" <==> binary) && (r.value.fileType == "gltf" <==> !binary)
  {
    if !env.trimesh then Err(ImportError)
    else Ok(WriteMesh(MeshSourceOf(a), if binary then "glb" else "gltf", optimize, embed))
  }

  /** `_export_gaussian`: a .glb download is copied, anything else becomes a
      random placeholder dict, which `_export_mesh` does not recognise. */
  function ExportGaussian(d: Attrs, binary: bool, optimize: bool, embed: bool, env: Env): (r: Result<Action>)
    ensures r.Err? ==> r.error == AttributeError || r.error == ImportError
    ensures DownloadEndsWith(d, ".glb") == Ok(true) ==> r == Ok(CopyFile(d["download_path"].s))
    ensures DownloadEndsWith(d, ".glb") == Ok(false) ==>
      r == ExportMesh(PlainDict(GaussianPlaceholder()), binary, optimize, embed, env)
  {
    match DownloadEndsWith(d, ".glb")
    case Err(e) => Err(e)
    case Ok(copy) =>
      if copy then Ok(CopyFile(d["download_path"].s))
      else ExportMesh(PlainDict(GaussianPlaceholder()), binary, optimize, embed, env)
  }

  /** `_export_generic`: a dict around the object's vertices and faces, or
      the placeholder dict; either way a plain dict. */
  function ExportGeneric(d: Attrs, binary: bool, optimize: bool, embed: bool, env: Env): (r: Result<Action>)
    ensures r.Err? ==> r.error == ImportError
  {
    if "vertices" in d && "faces" in d then
      ExportMesh(PlainDict(GenericMeshDict(d)), binary, optimize, embed, env)
    else
      ExportMesh(PlainDict(PlaceholderMeshDict()), binary, optimize, embed, env)
  }

  /** Builds the generic fallback's dict key by key, as the source does. */
  method BuildGenericMeshDict(d: Attrs) returns (m: map<string, PyValue>)
    requires "vertices" in d && "faces" in d
    ensures m == GenericMeshDict(d)
  {
    var inner := map["vertices" := d["vertices"], "faces" := d["faces"]];
    if "colors" in d {
      inner := inner["colors" := d["colors"]];
    }
    m := map["mesh" := PyDict(inner)];
  }

  /** The suffix `export` forces: .glb when binary, .gltf otherwise. */
  function TargetSuffix(binary: bool): (s: string)
    ensures ProperSuffix(s) && Lower(s) == s
  {
    if binary then ".glb" else ".gltf"
  }

  /** The dispatch of `GLTFExporter.export` once the path is settled:
      original_path ending .glb > mesh > truthy gaussian > generic. */
  function Dispatch(model: Attrs, p: Path, binary: bool, optimize: bool, embed: bool, env: Env): (r: Result<Written>)
    requires Name(p) != ""
    ensures r.Err? ==> r.error == ImportError || r.error == AttributeError || r.error == ValueError
    ensures r.Ok? && (binary || !r.value.1.CopyFile?) ==> r.value.0 == p
    ensures r.Ok? && !binary && r.value.1.CopyFile? && r.value.0 != p ==> PathSuffix(r.value.0) == ".glb"
    ensures r.Ok? && !env.trimesh ==> !r.value.1.WriteMesh?
  {
    var glb := if "original_path" in model then StrEndsWith(model["original_path"], ".glb") else Ok(false);
    match glb
    case Err(e) => Err(e)
    case Ok(isGlb) =>
      if isGlb then ProcessApiOutput(model["original_path"].s, p, binary, env)
      else
        var action :=
          if "mesh" in model then ExportMesh(Object(model), binary, optimize, embed, env)
          else match AttrTruthy(model, "gaussian")
            case Err(e) => Err(e)
            case Ok(g) =>
              if g then ExportGaussian(model, binary, optimize, embed, env)
              else ExportGeneric(model, binary, optimize, embed, env);
        match action
        case Err(e) => Err(e)
        case Ok(a) => Ok((p, a))
  }

  /** `GLTFExporter.export`. */
  function Export(model: Attrs, out: Path, kw: Kwargs, env: Env): (r: Result<Written>)
    ensures Name(out) == "" ==> r == Err(ValueError)
    ensures r.Err? ==> r.error == ValueError || r.error == ImportError || r.error == AttributeError
    ensures r.Ok? && Binary(kw) ==> Lower(PathSuffix(r.value.0)) == ".glb"
    ensures r.Ok? && !Binary(kw) && !r.value.1.CopyFile? ==> Lower(PathSuffix(r.value.0)) == ".gltf"
    ensures r.Ok? && Lower(PathSuffix(out)) == TargetSuffix(Binary(kw)) && !r.value.1.CopyFile? ==>
      r.value.0 == out
  {
    match ForceSuffix(out, TargetSuffix(Binary(kw)))
    case Err(e) => Err(e)
    case Ok(p) =>
      Dispatch(model, p, Binary(kw), Optimize(kw), EmbedTextures(kw), env)
  }

  // ---------------------------------------------------------------------
  // Properties of the dispatch

  /** A .glb produced by the generation service is copied when binary,
      converted when pygltflib is there, and otherwise copied beside the
      .gltf path under a .glb name, which the exporter returns. */
  lemma ApiOutputPaths(model: Attrs, out: Path, kw: Kwargs, env: Env)
    requires Name(out) != ""
    requires "original_path" in model && model["original_path"].PyStr?
    requires EndsWith(model["original_path"].s, ".glb")
    ensures var r := Export(model, out, kw, env); var src := model["original_path"].s;
      r.Ok? &&
      (Binary(kw) ==> r.value.1 == CopyFile(src) && Lower(PathSuffix(r.value.0)) == ".glb") &&
      (!Binary(kw) && env.pygltflib ==> r.value.1 == ConvertGlb(src) && Lower(PathSuffix(r.value.0)) == ".gltf") &&
      (!Binary(kw) && !env.pygltflib ==> r.value.1 == CopyFile(src) && PathSuffix(r.value.0) == ".glb")
  {
  }

  /** A non-string original path has no `endswith`. */
  lemma OriginalPathMustBeString(model: Attrs, out: Path, kw: Kwargs, env: Env)
    requires Name(out) != ""
    requires "original_path" in model && !model["original_path"].PyStr?
    ensures Export(model, out, kw, env) == Err(AttributeError)
  {
  }

  /** A mesh attribute comes next: its dict is written as glb or gltf after
      `binary`, with the optimise and embed keywords. */
  lemma MeshSecond(model: Attrs, out: Path, kw: Kwargs, env: Env)
    requires Name(out) != "" && env.trimesh
    requires "original_path" !in model && "mesh" in model
    ensures var r := Export(model, out, kw, env);
      r.Ok? && r.value.1 == WriteMesh(MeshSourceOf(Object(model)), if Binary(kw) then "glb" else "gltf",
                                      Optimize(kw), EmbedTextures(kw))
  {
  }

  /** A truthy Gaussian model without a .glb download gets the cube: its
      random placeholder is a plain dict. */
  lemma GaussianWithoutGlbIsCube(model: Attrs, out: Path, kw: Kwargs, env: Env)
    requires Name(out) != "" && env.trimesh
    requires "original_path" !in model && "mesh" !in model
    requires AttrTruthy(model, "gaussian") == Ok(true) && DownloadEndsWith(model, ".glb") == Ok(false)
    ensures var r := Export(model, out, kw, env);
      r.Ok? && r.value.1.WriteMesh? && r.value.1.mesh == Cube
  {
  }

  /** The generic fallback writes the cube whatever the model holds. */
  lemma GenericIsCube(model: Attrs, out: Path, kw: Kwargs, env: Env)
    requires Name(out) != "" && env.trimesh
    requires "original_path" !in model && "mesh" !in model
    requires AttrTruthy(model, "gaussian") == Ok(false)
    ensures var r := Export(model, out, kw, env);
      r.Ok? && r.value.1.WriteMesh? && r.value.1.mesh == Cube
  {
  }

  /** Without trimesh, only the copy and conversion paths succeed. */
  lemma NoTrimeshOnlyCopies(model: Attrs, out: Path, kw: Kwargs, env: Env)
    requires !env.trimesh
    ensures var r := Export(model, out, kw, env); r.Ok? ==> !r.value.1.WriteMesh?
  {
  }

  /** The texture resolution keyword changes nothing. */
  lemma TextureResolutionIgnored(model: Attrs, out: Path, kw: Kwargs, env: Env, res: Option<int>)
    ensures Export(model, out, kw, env) == Export(model, out, kw.(textureResolution := res), env)
  {
    var kw2 := kw.(textureResolution := res);
    assert Binary(kw2) == Binary(kw) && Optimize(kw2) == Optimize(kw) && EmbedTextures(kw2) == EmbedTextures(kw);
  }

  /** When the optimising pass decimates, it keeps four fifths (rounded
      down) of a mesh with more than 10000 faces, and only such meshes. */
  lemma DecimationThreshold(faces: nat)
    ensures DecimatedFaces(faces) < faces <==> faces > 10000
    ensures faces > 10000 ==> DecimatedFaces(faces) == (faces * 4) / 5
  {
  }
}
