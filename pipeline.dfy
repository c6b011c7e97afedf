/** threedify/core/pipeline.py: the `Pipeline` object that loads, processes,
    generates and exports. The inference of the data and processor types is
    pure; the stages set the pipeline's fields and its `results` entries.
    What a loader, processor, model, exporter or visualizer does with its
    input is outside this model: those calls are the functions of a
    `Services` record, and the registries are passed in. */
module Pipelines {
  import opened Wrappers
  import opened Text
  import opened Paths
  import opened Json
  import opened ExportCommon
  import opened Registries
  import Loaders
  import Configuration

  /** The `data_path` argument: a `str` or a `pathlib.Path`. */
  datatype PathArg = StrPath(s: string) | PathObj(p: Path)

  // ---------------------------------------------------------------------
  // Inference

  /** `_infer_data_type`: the lower-cased suffix of the path names the
      loader. A `str` has no `suffix` attribute. */
  function InferDataType(a: PathArg): (r: Result<string>)
    ensures a.StrPath? ==> r == Err(AttributeError)
    ensures a.PathObj? ==> var e := Lower(PathSuffix(a.p));
      (r == Ok("lidar") <==> e == ".las" || e == ".laz") &&
      (r == Ok("raster") <==> e == ".tif" || e == ".tiff" || e == ".jpg" || e == ".jpeg" || e == ".png") &&
      (r == Ok("vector") <==> e == ".shp" || e == ".geojson") &&
      (r == Ok("tabular") <==> e == ".csv" || e == ".txt")
    ensures a.PathObj? && r.Err? ==> r.error == ValueError
    ensures r.Ok? ==> r.value in InitialLoaders()
  {
    match a
    case StrPath(_) => Err(AttributeError)
    case PathObj(p) =>
      var e := Lower(PathSuffix(p));
      if e in [".las", ".laz"] then Ok("lidar")
      else if e in [".tif", ".tiff", ".jpg", ".jpeg", ".png"] then Ok("raster")
      else if e in [".shp", ".geojson"] then Ok("vector")
      else if e in [".csv", ".txt"] then Ok("tabular")
      else Err(ValueError)
  }

  /** `_infer_processor_type`: the first of point_cloud, raster and vector
      that the loaded data has as an attribute, otherwise general. */
  function InferProcessorType(data: Option<Attrs>): (t: string)
    ensures t in InitialProcessors()
    ensures t == "point_cloud" <==> data.Some? && "point_cloud" in data.value
    ensures t == "raster" <==> data.Some? && "point_cloud" !in data.value && "raster" in data.value
    ensures t == "vector" <==>
      data.Some? && "point_cloud" !in data.value && "raster" !in data.value && "vector" in data.value
  {
    if data.Some? then
      if "point_cloud" in data.value then "point_cloud"
      else if "raster" in data.value then "raster"
      else if "vector" in data.value then "vector"
      else "general"
    else "general"
  }

  /** The type `load` uses: the caller's, or the inferred one. */
  function DataTypeOf(a: PathArg, dataType: Option<string>): Result<string>
  {
    if dataType.Some? then Ok(dataType.value) else InferDataType(a)
  }

  // ---------------------------------------------------------------------
  // The state and the stages

  /** A value stored in `results`. */
  datatype Entry = ProcessedData(processed: PyValue) | ModelData(model: Attrs) | ExporterPath(path: Path)

  /** The calls into loaders, processors, models, exporters and visualizers.
      `getModel` is `get_model`, which the package names but never defines. */
  datatype Services = Services(
    load: (LoaderKind, PathArg) -> Result<Attrs>,
    process: (ProcessorKind, Attrs) -> Result<PyValue>,
    getModel: string -> Outcome,
    generate: (string, PyValue) -> Result<Attrs>,
    exportModel: (ExporterKind, Attrs, Path) -> Result<Path>,
    visualize: (VisualizerKind, Attrs) -> Result<PyValue>)

  /** The fields of a pipeline the stages set. An attribute that was never
      assigned (`data`, `processed_data`, `model_data`) is None; the stage
      instances `_loader` and so on start as None. A model is held by the
      name it was fetched under. */
  datatype State = State(
    data: Option<Attrs>, processedData: Option<PyValue>, modelData: Option<Attrs>,
    loader: Option<LoaderKind>, processor: Option<ProcessorKind>, model: Option<string>,
    exporter: Option<ExporterKind>, visualizer: Option<VisualizerKind>,
    results: map<string, Entry>)

  /** The state `__init__` leaves. */
  function Initial(): State
  {
    State(None, None, None, None, None, None, None, None, map[])
  }

  /** How far the stages have got: data loaded, processed, modelled. */
  function Stage(s: State): (n: nat)
    ensures n <= 3
  {
    if s.modelData.Some? then 3 else if s.processedData.Some? then 2 else if s.data.Some? then 1 else 0
  }

  /** What the stages keep true of a pipeline: every output is preceded by
      the stage before it and by the instance that produced it, and
      `results` holds exactly the latest processed data and model data and
      the latest export path. */
  ghost predicate Ordered(s: State)
  {
    (s.data.Some? ==> s.loader.Some?) &&
    (s.processedData.Some? ==> s.data.Some? && s.processor.Some?) &&
    (s.modelData.Some? ==> s.processedData.Some? && s.model.Some?) &&
    s.results.Keys <= {"processed_data", "model_data", "exporter_path"} &&
    ("processed_data" in s.results <==> s.processedData.Some?) &&
    (s.processedData.Some? ==> s.results["processed_data"] == ProcessedData(s.processedData.value)) &&
    ("model_data" in s.results <==> s.modelData.Some?) &&
    (s.modelData.Some? ==> s.results["model_data"] == ModelData(s.modelData.value)) &&
    ("exporter_path" in s.results ==>
      s.modelData.Some? && s.exporter.Some? && s.results["exporter_path"].ExporterPath?)
  }

  /** `load`: infer the type when none is given, fetch the loader, load. */
  function LoadStep(s: State, a: PathArg, dataType: Option<string>, loaders: map<string, LoaderKind>,
                    svc: Services): (r: (Outcome, State))
    ensures r.1.(loader := s.loader, data := s.data) == s
    ensures DataTypeOf(a, dataType).Err? ==> r == (Fail(DataTypeOf(a, dataType).error), s)
    ensures r.0.Pass? <==>
      DataTypeOf(a, dataType).Ok? && DataTypeOf(a, dataType).value in loaders &&
      svc.load(loaders[DataTypeOf(a, dataType).value], a).Ok?
    ensures r.0.Pass? ==>
      r.1.loader == Some(loaders[DataTypeOf(a, dataType).value]) &&
      r.1.data == Some(svc.load(loaders[DataTypeOf(a, dataType).value], a).value)
    ensures r.0.Fail? ==> r.1.data == s.data
  {
    match DataTypeOf(a, dataType)
    case Err(e) => (Fail(e), s)
    case Ok(t) =>
      match Lookup(loaders, t)
      case Err(e) => (Fail(e), s)
      case Ok(l) =>
        var s1 := s.(loader := Some(l));
        match svc.load(l, a)
        case Err(e) => (Fail(e), s1)
        case Ok(d) => (Pass, s1.(data := Some(d)))
  }

  /** The type `process` uses: the caller's, or the inferred one. */
  function ProcessorTypeOf(s: State, processorType: Option<string>): string
  {
    if processorType.Some? then processorType.value else InferProcessorType(s.data)
  }

  /** `process`: refused without data; otherwise fetch the processor and
      record what it returns. */
  function ProcessStep(s: State, processorType: Option<string>, processors: map<string, ProcessorKind>,
                       svc: Services): (r: (Outcome, State))
    ensures s.data.None? ==> r == (Fail(ValueError), s)
    ensures r.1.(processor := s.processor, processedData := s.processedData, results := s.results) == s
    ensures r.0.Pass? <==>
      s.data.Some? && ProcessorTypeOf(s, processorType) in processors &&
      svc.process(processors[ProcessorTypeOf(s, processorType)], s.data.value).Ok?
    ensures r.0.Pass? ==>
      var v := svc.process(processors[ProcessorTypeOf(s, processorType)], s.data.value).value;
      r.1.processor == Some(processors[ProcessorTypeOf(s, processorType)]) &&
      r.1.processedData == Some(v) && r.1.results == s.results["processed_data" := ProcessedData(v)]
    ensures r.0.Fail? ==> r.1.processedData == s.processedData && r.1.results == s.results
  {
    if s.data.None? then (Fail(ValueError), s)
    else
      match Lookup(processors, ProcessorTypeOf(s, processorType))
      case Err(e) => (Fail(e), s)
      case Ok(p) =>
        var s1 := s.(processor := Some(p));
        match svc.process(p, s.data.value)
        case Err(e) => (Fail(e), s1)
        case Ok(v) => (Pass, s1.(processedData := Some(v), results := s1.results["processed_data" := ProcessedData(v)]))
  }

  /** `generate_model`: refused without processed data; otherwise fetch the
      model and record what it generates. */
  function GenerateStep(s: State, modelType: string, svc: Services): (r: (Outcome, State))
    ensures s.processedData.None? ==> r == (Fail(ValueError), s)
    ensures r.1.(model := s.model, modelData := s.modelData, results := s.results) == s
    ensures r.0.Pass? <==>
      s.processedData.Some? && svc.getModel(modelType).Pass? && svc.generate(modelType, s.processedData.value).Ok?
    ensures r.0.Pass? ==>
      var m := svc.generate(modelType, s.processedData.value).value;
      r.1.model == Some(modelType) && r.1.modelData == Some(m) &&
      r.1.results == s.results["model_data" := ModelData(m)]
    ensures r.0.Fail? ==> r.1.modelData == s.modelData && r.1.results == s.results
  {
    if s.processedData.None? then (Fail(ValueError), s)
    else
      match svc.getModel(modelType)
      case Fail(e) => (Fail(e), s)
      case Pass =>
        var s1 := s.(model := Some(modelType));
        match svc.generate(modelType, s.processedData.value)
        case Err(e) => (Fail(e), s1)
        case Ok(m) => (Pass, s1.(modelData := Some(m), results := s1.results["model_data" := ModelData(m)]))
  }

  /** `export`: refused without model data; otherwise fetch the exporter and
      record the path it reports. */
  function ExportStep(s: State, out: Path, formatType: string, exporters: map<string, ExporterKind>,
                      svc: Services): (r: (Outcome, State))
    ensures s.modelData.None? ==> r == (Fail(ValueError), s)
    ensures r.1.(exporter := s.exporter, results := s.results) == s
    ensures r.0.Pass? <==>
      s.modelData.Some? && formatType in exporters && svc.exportModel(exporters[formatType], s.modelData.value, out).Ok?
    ensures r.0.Pass? ==>
      r.1.exporter == Some(exporters[formatType]) &&
      r.1.results == s.results["exporter_path" := ExporterPath(svc.exportModel(exporters[formatType], s.modelData.value, out).value)]
    ensures r.0.Fail? ==> r.1.results == s.results
  {
    if s.modelData.None? then (Fail(ValueError), s)
    else
      match Lookup(exporters, formatType)
      case Err(e) => (Fail(e), s)
      case Ok(x) =>
        var s1 := s.(exporter := Some(x));
        match svc.exportModel(x, s.modelData.value, out)
        case Err(e) => (Fail(e), s1)
        case Ok(p) => (Pass, s1.(results := s1.results["exporter_path" := ExporterPath(p)]))
  }

  /** `visualize`: refused without model data; otherwise fetch the
      visualizer and return what it returns. Nothing is recorded. */
  function VisualizeStep(s: State, visualizationType: string, visualizers: map<string, VisualizerKind>,
                         svc: Services): (r: (Result<PyValue>, State))
    ensures s.modelData.None? ==> r == (Err(ValueError), s)
    ensures r.1.(visualizer := s.visualizer) == s
    ensures r.0.Ok? <==>
      s.modelData.Some? && visualizationType in visualizers &&
      svc.visualize(visualizers[visualizationType], s.modelData.value).Ok?
    ensures r.0.Ok? ==> r.1.visualizer == Some(visualizers[visualizationType]) &&
                        r.0 == svc.visualize(visualizers[visualizationType], s.modelData.value)
  {
    if s.modelData.None? then (Err(ValueError), s)
    else
      match Lookup(visualizers, visualizationType)
      case Err(e) => (Err(e), s)
      case Ok(v) => (svc.visualize(v, s.modelData.value), s.(visualizer := Some(v)))
  }

  /** The registries `run_pipeline` consults. */
  datatype Tables = Tables(
    loaders: map<string, LoaderKind>, processors: map<string, ProcessorKind>, exporters: map<string, ExporterKind>)

  /** `run_pipeline`: load, process, generate_model, export, stopping at the
      first stage that raises. */
  function RunSteps(s: State, a: PathArg, out: Path, dataType: Option<string>, processorType: Option<string>,
                    modelType: string, formatType: string, t: Tables, svc: Services): (r: (Outcome, State))
    ensures LoadStep(s, a, dataType, t.loaders, svc).0.Fail? ==> r == LoadStep(s, a, dataType, t.loaders, svc)
  {
    var r1 := LoadStep(s, a, dataType, t.loaders, svc);
    if r1.0.Fail? then r1
    else
      var r2 := ProcessStep(r1.1, processorType, t.processors, svc);
      if r2.0.Fail? then r2
      else
        var r3 := GenerateStep(r2.1, modelType, svc);
        if r3.0.Fail? then r3
        else ExportStep(r3.1, out, formatType, t.exporters, svc)
  }

  // ---------------------------------------------------------------------
  // Properties of the stages

  /** A fresh pipeline is ordered and has got nowhere. */
  lemma InitialIsOrdered()
    ensures Ordered(Initial()) && Stage(Initial()) == 0
  {
  }

  /** Each stage keeps the pipeline ordered; a stage that succeeds moves it
      at least as far as its own output, and one that fails leaves the
      stage where it was. */
  lemma LoadKeepsOrder(s: State, a: PathArg, dataType: Option<string>, loaders: map<string, LoaderKind>, svc: Services)
    requires Ordered(s)
    ensures var r := LoadStep(s, a, dataType, loaders, svc);
      Ordered(r.1) && Stage(r.1) == (if r.0.Pass? && Stage(s) == 0 then 1 else Stage(s))
  {
  }

  lemma ProcessKeepsOrder(s: State, processorType: Option<string>, processors: map<string, ProcessorKind>, svc: Services)
    requires Ordered(s)
    ensures var r := ProcessStep(s, processorType, processors, svc);
      Ordered(r.1) && Stage(r.1) == (if r.0.Pass? && Stage(s) < 2 then 2 else Stage(s))
  {
  }

  lemma GenerateKeepsOrder(s: State, modelType: string, svc: Services)
    requires Ordered(s)
    ensures var r := GenerateStep(s, modelType, svc);
      Ordered(r.1) && Stage(r.1) == (if r.0.Pass? then 3 else Stage(s))
  {
  }

  lemma ExportKeepsOrder(s: State, out: Path, formatType: string, exporters: map<string, ExporterKind>, svc: Services)
    requires Ordered(s)
    ensures var r := ExportStep(s, out, formatType, exporters, svc);
      Ordered(r.1) && Stage(r.1) == Stage(s)
  {
  }

  lemma VisualizeKeepsOrder(s: State, visualizationType: string, visualizers: map<string, VisualizerKind>, svc: Services)
    requires Ordered(s)
    ensures var r := VisualizeStep(s, visualizationType, visualizers, svc);
      Ordered(r.1) && Stage(r.1) == Stage(s)
  {
  }

  /** The stage-order guards: each stage is refused with ValueError, leaving
      everything as it was, until the stage before it has succeeded. */
  lemma StageGuards(s: State, svc: Services, t: Tables, visualizers: map<string, VisualizerKind>)
    requires Ordered(s)
    ensures Stage(s) < 1 ==> forall p :: ProcessStep(s, p, t.processors, svc) == (Fail(ValueError), s)
    ensures Stage(s) < 2 ==> forall m :: GenerateStep(s, m, svc) == (Fail(ValueError), s)
    ensures Stage(s) < 3 ==> forall out, f :: ExportStep(s, out, f, t.exporters, svc) == (Fail(ValueError), s)
    ensures Stage(s) < 3 ==> forall v :: VisualizeStep(s, v, visualizers, svc) == (Err(ValueError), s)
  {
  }

  /** A run that gets through every stage leaves all three results, the
      export path being the one the exporter for the format reported. */
  lemma {:induction false} RunRecordsResults(s: State, a: PathArg, out: Path, dataType: Option<string>,
                                             processorType: Option<string>, modelType: string, formatType: string,
                                             t: Tables, svc: Services)
    requires Ordered(s)
    ensures var r := RunSteps(s, a, out, dataType, processorType, modelType, formatType, t, svc);
      Ordered(r.1) &&
      (r.0.Pass? ==>
        Stage(r.1) == 3 && r.1.results.Keys == {"processed_data", "model_data", "exporter_path"} &&
        formatType in t.exporters && r.1.exporter == Some(t.exporters[formatType]) &&
        r.1.model == Some(modelType) &&
        svc.exportModel(t.exporters[formatType], r.1.modelData.value, out).Ok? &&
        r.1.results["exporter_path"] == ExporterPath(svc.exportModel(t.exporters[formatType], r.1.modelData.value, out).value))
  {
    var r1 := LoadStep(s, a, dataType, t.loaders, svc);
    LoadKeepsOrder(s, a, dataType, t.loaders, svc);
    if r1.0.Pass? {
      var r2 := ProcessStep(r1.1, processorType, t.processors, svc);
      ProcessKeepsOrder(r1.1, processorType, t.processors, svc);
      if r2.0.Pass? {
        var r3 := GenerateStep(r2.1, modelType, svc);
        GenerateKeepsOrder(r2.1, modelType, svc);
        if r3.0.Pass? {
          ExportKeepsOrder(r3.1, out, formatType, t.exporters, svc);
        }
      }
    }
  }

  /** A run with the processor type left to inference uses the processor
      registered for the type the loaded data suggests. */
  lemma RunInfersProcessor(s: State, a: PathArg, out: Path, dataType: Option<string>, modelType: string,
                           formatType: string, t: Tables, svc: Services)
    ensures var r := RunSteps(s, a, out, dataType, None, modelType, formatType, t, svc);
      r.0.Pass? ==>
        r.1.data.Some? && InferProcessorType(r.1.data) in t.processors &&
        r.1.processor == Some(t.processors[InferProcessorType(r.1.data)])
  {
  }

  /** A `str` data path with no data type fails at once: a string has no
      suffix to infer from. */
  lemma StringPathNeedsDataType(s: State, path: string, out: Path, processorType: Option<string>,
                                modelType: string, formatType: string, t: Tables, svc: Services)
    ensures RunSteps(s, StrPath(path), out, None, processorType, modelType, formatType, t, svc) == (Fail(AttributeError), s)
  {
  }

  /** Suffixes are matched case-insensitively, and pathlib gives a bare dot
      file no suffix at all. */
  lemma InferenceExamples()
    ensures InferDataType(PathObj(Path(["scan.LAZ"]))) == Ok("lidar")
    ensures InferDataType(PathObj(Path(["tile.Tiff"]))) == Ok("raster")
    ensures InferDataType(PathObj(Path([".las"]))) == Err(ValueError)
  {
    var laz := "scan.LAZ";
    assert laz[4] == '.' && LastDot(laz) == 4;
    assert Suffix(laz) == ".LAZ";
    assert Lower(".LAZ") == ".laz";
    var tiff := "tile.Tiff";
    assert tiff[4] == '.' && LastDot(tiff) == 4;
    assert Suffix(tiff) == ".Tiff";
    assert Lower(".Tiff") == ".tiff";
    var dot := ".las";
    assert dot[0] == '.' && LastDot(dot) == 0;
  }

  /** What the built-in loaders return steers the processor choice: lidar
      data goes to the point-cloud processor and vector data to the vector
      processor, while image and tabular data, having no `raster`
      attribute, go to the general processor. The raster processor is never
      inferred for them. */
  lemma BuiltinLoadersInferProcessor(d: Attrs, l: LoaderKind)
    requires Loaders.LoadedAttributes(l).Some? && d.Keys == Loaders.LoadedAttributes(l).value
    ensures l == LidarLoader ==> InferProcessorType(Some(d)) == "point_cloud"
    ensures l == VectorLoader ==> InferProcessorType(Some(d)) == "vector"
    ensures l == ImageLoader || l == TabularLoader ==> InferProcessorType(Some(d)) == "general"
    ensures InferProcessorType(Some(d)) != "raster"
  {
  }

  // ---------------------------------------------------------------------
  // The object

  /** A pipeline. `config` is built from the dictionary given to the
      constructor and is not read by any stage. */
  class Pipeline {
    const config: Configuration.Config
    const verbose: bool
    var data: Option<Attrs>
    var processedData: Option<PyValue>
    var modelData: Option<Attrs>
    var loader: Option<LoaderKind>
    var processor: Option<ProcessorKind>
    var model: Option<string>
    var exporter: Option<ExporterKind>
    var visualizer: Option<VisualizerKind>
    var results: map<string, Entry>

    /** The fields the stages set. */
    function Snapshot(): (s: State)
      reads this
      ensures s.data == data && s.processedData == processedData && s.modelData == modelData
      ensures s.results == results
    {
      State(data, processedData, modelData, loader, processor, model, exporter, visualizer, results)
    }

    ghost predicate Valid()
      reads this
    {
      Ordered(Snapshot())
    }

    /** `__init__`: the configuration is the defaults with the dictionary
        merged in; no stage has run. */
    constructor (d: Configuration.Defaults, configDict: Option<Dict>, verbose: bool)
      requires d.Valid()
      modifies d
      ensures Valid() && Snapshot() == Initial() && this.verbose == verbose
      ensures config.Valid() && config.defaults == d
      ensures config.Contents() ==
        Configuration.Merge(old(d.table), if configDict.Some? then configDict.value else map[])
    {
      Configuration.MergeEmptySource(d.table);
      config := new Configuration.Config(d, None, configDict);
      this.verbose := verbose;
      data := None;
      processedData := None;
      modelData := None;
      loader := None;
      processor := None;
      model := None;
      exporter := None;
      visualizer := None;
      results := map[];
    }

    method Load(a: PathArg, dataType: Option<string>, loaders: Registry<LoaderKind>, svc: Services)
      returns (o: Outcome)
      requires Valid()
      modifies this
      ensures Valid()
      ensures (o, Snapshot()) == LoadStep(old(Snapshot()), a, dataType, loaders.entries, svc)
    {
      LoadKeepsOrder(Snapshot(), a, dataType, loaders.entries, svc);
      var t: string;
      if dataType.None? {
        var inferred := InferDataType(a);
        if inferred.Err? {
          return Fail(inferred.error);
        }
        t := inferred.value;
      } else {
        t := dataType.value;
      }
      var l := loaders.Get(t);
      if l.Err? {
        return Fail(l.error);
      }
      loader := Some(l.value);
      var loaded := svc.load(l.value, a);
      if loaded.Err? {
        return Fail(loaded.error);
      }
      data := Some(loaded.value);
      o := Pass;
    }

    method Process(processorType: Option<string>, processors: Registry<ProcessorKind>, svc: Services)
      returns (o: Outcome)
      requires Valid()
      modifies this
      ensures Valid()
      ensures (o, Snapshot()) == ProcessStep(old(Snapshot()), processorType, processors.entries, svc)
    {
      ProcessKeepsOrder(Snapshot(), processorType, processors.entries, svc);
      if data.None? {
        return Fail(ValueError);
      }
      var t := if processorType.Some? then processorType.value else InferProcessorType(data);
      var p := processors.Get(t);
      if p.Err? {
        return Fail(p.error);
      }
      processor := Some(p.value);
      var processed := svc.process(p.value, data.value);
      if processed.Err? {
        return Fail(processed.error);
      }
      processedData := Some(processed.value);
      results := results["processed_data" := ProcessedData(processed.value)];
      o := Pass;
    }

    method GenerateModel(modelType: string, svc: Services) returns (o: Outcome)
      requires Valid()
      modifies this
      ensures Valid()
      ensures (o, Snapshot()) == GenerateStep(old(Snapshot()), modelType, svc)
    {
      GenerateKeepsOrder(Snapshot(), modelType, svc);
      if processedData.None? {
        return Fail(ValueError);
      }
      var fetched := svc.getModel(modelType);
      if fetched.Fail? {
        return fetched;
      }
      model := Some(modelType);
      var generated := svc.generate(modelType, processedData.value);
      if generated.Err? {
        return Fail(generated.error);
      }
      modelData := Some(generated.value);
      results := results["model_data" := ModelData(generated.value)];
      o := Pass;
    }

    method Export(out: Path, formatType: string, exporters: Registry<ExporterKind>, svc: Services)
      returns (o: Outcome)
      requires Valid()
      modifies this
      ensures Valid()
      ensures (o, Snapshot()) == ExportStep(old(Snapshot()), out, formatType, exporters.entries, svc)
    {
      ExportKeepsOrder(Snapshot(), out, formatType, exporters.entries, svc);
      if modelData.None? {
        return Fail(ValueError);
      }
      var x := exporters.Get(formatType);
      if x.Err? {
        return Fail(x.error);
      }
      exporter := Some(x.value);
      var written := svc.exportModel(x.value, modelData.value, out);
      if written.Err? {
        return Fail(written.error);
      }
      results := results["exporter_path" := ExporterPath(written.value)];
      o := Pass;
    }

    method Visualize(visualizationType: string, visualizers: Registry<VisualizerKind>, svc: Services)
      returns (v: Result<PyValue>)
      requires Valid()
      modifies this
      ensures Valid()
      ensures (v, Snapshot()) == VisualizeStep(old(Snapshot()), visualizationType, visualizers.entries, svc)
    {
      VisualizeKeepsOrder(Snapshot(), visualizationType, visualizers.entries, svc);
      if modelData.None? {
        return Err(ValueError);
      }
      var x := visualizers.Get(visualizationType);
      if x.Err? {
        return Err(x.error);
      }
      visualizer := Some(x.value);
      v := svc.visualize(x.value, modelData.value);
    }

    method RunPipeline(a: PathArg, out: Path, dataType: Option<string>, processorType: Option<string>,
                       modelType: string, formatType: string, loaders: Registry<LoaderKind>,
                       processors: Registry<ProcessorKind>, exporters: Registry<ExporterKind>, svc: Services)
      returns (o: Outcome)
      requires Valid()
      modifies this
      ensures Valid()
      ensures (o, Snapshot()) ==
        RunSteps(old(Snapshot()), a, out, dataType, processorType, modelType, formatType,
                 Tables(loaders.entries, processors.entries, exporters.entries), svc)
      ensures o.Pass? ==> Stage(Snapshot()) == 3 && results.Keys == {"processed_data", "model_data", "exporter_path"}
    {
      ghost var t := Tables(loaders.entries, processors.entries, exporters.entries);
      RunRecordsResults(Snapshot(), a, out, dataType, processorType, modelType, formatType, t, svc);
      o := Load(a, dataType, loaders, svc);
      if o.Fail? {
        return;
      }
      o := Process(processorType, processors, svc);
      if o.Fail? {
        return;
      }
      o := GenerateModel(modelType, svc);
      if o.Fail? {
        return;
      }
      o := Export(out, formatType, exporters, svc);
    }
  }
}
