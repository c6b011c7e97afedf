/** The four name-to-instance tables of the package: `_EXPORTERS`,
    `_PROCESSORS`, `_VISUALIZERS` and `_LOADERS`. Each is a module-level dict
    that a `get_*` function looks names up in and a `register_*` function
    writes into; one class models all four. */
module Registries {
  import opened Wrappers

  /** The exporter instances the package creates, and any a caller registers. */
  datatype ExporterKind = GltfExporter | CityGmlExporter | ObjExporter | PlyExporter | CustomExporter(id: nat)

  datatype ProcessorKind =
    | PointCloudProcessor | RasterProcessor | VectorProcessor | GeneralProcessor | CustomProcessor(id: nat)

  datatype VisualizerKind = JupyterVisualizer | PlotlyVisualizer | MatplotlibVisualizer | CustomVisualizer(id: nat)

  datatype LoaderKind = LidarLoader | ImageLoader | VectorLoader | TabularLoader | CustomLoader(id: nat)

  /** The `name` property of the built-in loaders; a caller's own loader
      names itself. */
  function LoaderName(l: LoaderKind): (n: Option<string>)
    ensures n.None? <==> l.CustomLoader?
  {
    match l
    case LidarLoader => Some("lidar")
    case ImageLoader => Some("image")
    case VectorLoader => Some("vector")
    case TabularLoader => Some("tabular")
    case CustomLoader(_) => None
  }

  /** The lookup of every `get_*` function: the stored instance, or
      ValueError for an unknown name. */
  function Lookup<T>(entries: map<string, T>, name: string): (r: Result<T>)
    ensures r.Err? <==> name !in entries
    ensures r.Err? ==> r.error == ValueError
    ensures r.Ok? ==> r.value == entries[name]
  {
    if name in entries then Ok(entries[name]) else Err(ValueError)
  }

  /** A registry: the dict and the lookup and registration functions around it. */
  class Registry<T> {
    var entries: map<string, T>

    constructor (init: map<string, T>)
      ensures entries == init
    {
      entries := init;
    }

    /** `get_*` */
    function Get(name: string): (r: Result<T>)
      reads this
      ensures r == Lookup(entries, name)
    {
      Lookup(entries, name)
    }

    /** `register_*`: inserts or overwrites that one name. */
    method Register(name: string, instance: T)
      modifies this
      ensures entries == old(entries)[name := instance]
      ensures Get(name) == Ok(instance)
      ensures forall k :: k != name ==> Get(k) == old(Get(k))
    {
      entries := entries[name := instance];
    }
  }

  // ---------------------------------------------------------------------
  // The initial tables

  /** `_EXPORTERS` as the package creates it. */
  function InitialExporters(): (m: map<string, ExporterKind>)
    ensures m.Keys == {"gltf", "citygml", "obj", "ply"}
    ensures forall k :: k in m ==> !m[k].CustomExporter?
  {
    map["gltf" := GltfExporter, "citygml" := CityGmlExporter, "obj" := ObjExporter, "ply" := PlyExporter]
  }

  /** `_PROCESSORS` as the package creates it. */
  function InitialProcessors(): (m: map<string, ProcessorKind>)
    ensures m.Keys == {"point_cloud", "raster", "vector", "general"}
    ensures forall k :: k in m ==> !m[k].CustomProcessor?
  {
    map["point_cloud" := PointCloudProcessor, "raster" := RasterProcessor,
        "vector" := VectorProcessor, "general" := GeneralProcessor]
  }

  /** `_VISUALIZERS` as the package creates it. */
  function InitialVisualizers(): (m: map<string, VisualizerKind>)
    ensures m.Keys == {"jupyter", "plotly", "matplotlib"}
    ensures forall k :: k in m ==> !m[k].CustomVisualizer?
  {
    map["jupyter" := JupyterVisualizer, "plotly" := PlotlyVisualizer, "matplotlib" := MatplotlibVisualizer]
  }

  /** `_LOADERS` as the package creates it. */
  function InitialLoaders(): (m: map<string, LoaderKind>)
    ensures m.Keys == {"lidar", "raster", "vector", "tabular"}
    ensures forall k :: k in m ==> !m[k].CustomLoader?
  {
    map["lidar" := LidarLoader, "raster" := ImageLoader, "vector" := VectorLoader, "tabular" := TabularLoader]
  }

  /** Every built-in instance is registered under its own name, except the
      image loader, which sits under "raster" while calling itself "image". */
  lemma LoadersUnderTheirNames()
    ensures forall k :: k in InitialLoaders() && k != "raster" ==> LoaderName(InitialLoaders()[k]) == Some(k)
    ensures LoaderName(InitialLoaders()["raster"]) == Some("image")
    ensures forall k :: k in InitialLoaders() ==> LoaderName(InitialLoaders()[k]) != Some("raster")
  {
  }
}
