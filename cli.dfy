/** threedify/cli.py: the configuration dictionary built from the
    command-line arguments, and the exit code of `main`. Argument parsing and
    logging set-up are argparse and logging calls outside this model. */
module Cli {
  import opened Wrappers
  import opened Paths
  import opened Json
  import opened Registries
  import Configuration
  import Pipelines

  /** The parsed arguments. `output` is the path `Path(args.output)` names. */
  datatype Args = Args(
    verbose: bool, config: Option<string>, input: string, output: Path,
    dataType: Option<string>, process: Option<string>, model: string, exportFormat: string,
    buildingMode: bool, cacheDir: Option<string>, optimizeMesh: bool)

  /** The truth of an optional string argument. */
  predicate Given(o: Option<string>)
  {
    o.Some? && o.value != ""
  }

  /** `config.get(name, {})` */
  function SectionOf(config: Dict, name: string): (v: Value)
    ensures name in config ==> v == config[name]
  {
    if name in config then config[name] else Obj(map[])
  }

  /** The keys a section dictionary starts with: those of the file's section
      when it is a dictionary, none when the file has no such section. */
  function FieldsOf(config: Dict, name: string): Dict
  {
    if name in config && config[name].Obj? then config[name].fields else map[]
  }

  /** Whether `config[name][key] = ...` raises: only a dictionary accepts
      item assignment by a string key. */
  predicate Blocked(config: Dict, name: string)
  {
    name in config && !config[name].Obj?
  }

  /** The dictionary the command line starts from: the `_config` of the
      configuration loaded from `--config`, or empty without one. */
  function StartOf(args: Args, base: Result<Dict>): Result<Dict>
  {
    if Given(args.config) then base else Ok(map[])
  }

  /** One section of `create_config_from_args`: `config[name] =
      config.get(name, {})`, then, when `write` holds, `config[name][key] =
      v`, which only a dictionary accepts. */
  function PutSection(config: Dict, name: string, key: string, v: Value, write: bool): (r: Result<Dict>)
    ensures r.Err? <==> write && Blocked(config, name)
    ensures r.Err? ==> r.error == TypeError
    ensures r.Ok? ==> r.value == config[name := if write then Obj(FieldsOf(config, name)[key := v]) else SectionOf(config, name)]
  {
    var c := config[name := SectionOf(config, name)];
    if !write then Ok(c)
    else if c[name].Obj? then Ok(c[name := Obj(c[name].fields[key := v])])
    else Err(TypeError)
  }

  /** `create_config_from_args`, given `base`, which is what
      `Config(config_path=args.config)._config` yields or the error it
      raises. Item assignment into a section the file holds as something
      other than a dictionary raises TypeError. */
  function ConfigFromArgs(args: Args, base: Result<Dict>): (r: Result<Dict>)
    ensures StartOf(args, base).Err? ==> r == Err(StartOf(args, base).error)
    ensures StartOf(args, base).Ok? ==> var f := StartOf(args, base).value;
      (r.Err? <==>
        Blocked(f, "general") || (Given(args.cacheDir) && Blocked(f, "loader")) ||
        (args.buildingMode && Blocked(f, "processor")) || Blocked(f, "export")) &&
      (r.Err? ==> r.error == TypeError)
  {
    match StartOf(args, base)
    case Err(e) => Err(e)
    case Ok(f) =>
      match PutSection(f, "general", "verbose", Bool(args.verbose), true)
      case Err(e) => Err(e)
      case Ok(c1) =>
        var cacheDir := if args.cacheDir.Some? then args.cacheDir.value else "";
        match PutSection(c1, "loader", "cache_dir", Str(cacheDir), Given(args.cacheDir))
        case Err(e) => Err(e)
        case Ok(c2) =>
          match PutSection(c2, "processor", "building_mode", Bool(true), args.buildingMode)
          case Err(e) => Err(e)
          case Ok(c3) => PutSection(c3, "export", "optimize_mesh", Bool(args.optimizeMesh), true)
  }

  /** `create_config_from_args` as the source runs it: each section is put
      back with `config.get(name, {})`, then written into. */
  method CreateConfigFromArgs(args: Args, base: Result<Dict>) returns (r: Result<Dict>)
    ensures r == ConfigFromArgs(args, base)
  {
    var config: Dict := map[];
    if Given(args.config) {
      if base.Err? {
        return Err(base.error);
      }
      config := base.value;
    }
    ghost var c0 := config;
    config := config["general" := SectionOf(config, "general")];
    if !config["general"].Obj? {
      return Err(TypeError);
    }
    config := config["general" := Obj(config["general"].fields["verbose" := Bool(args.verbose)])];
    assert PutSection(c0, "general", "verbose", Bool(args.verbose), true) == Ok(config);
    ghost var c1 := config;
    config := config["loader" := SectionOf(config, "loader")];
    if Given(args.cacheDir) {
      if !config["loader"].Obj? {
        return Err(TypeError);
      }
      config := config["loader" := Obj(config["loader"].fields["cache_dir" := Str(args.cacheDir.value)])];
    }
    assert PutSection(c1, "loader", "cache_dir", Str(if args.cacheDir.Some? then args.cacheDir.value else ""),
                      Given(args.cacheDir)) == Ok(config);
    ghost var c2 := config;
    config := config["processor" := SectionOf(config, "processor")];
    if args.buildingMode {
      if !config["processor"].Obj? {
        return Err(TypeError);
      }
      config := config["processor" := Obj(config["processor"].fields["building_mode" := Bool(true)])];
    }
    assert PutSection(c2, "processor", "building_mode", Bool(true), args.buildingMode) == Ok(config);
    ghost var c3 := config;
    config := config["export" := SectionOf(config, "export")];
    if !config["export"].Obj? {
      return Err(TypeError);
    }
    config := config["export" := Obj(config["export"].fields["optimize_mesh" := Bool(args.optimizeMesh)])];
    assert PutSection(c3, "export", "optimize_mesh", Bool(args.optimizeMesh), true) == Ok(config);
    r := Ok(config);
  }

  /** The exit code of `main`: 0 when the configuration is built and the run
      gets through every stage, 1 when anything raises. `run_pipeline` is
      called with no processor type and the default gltf format, whatever
      `--process` and `--export-format` say: `main` passes them under names
      `run_pipeline` does not have, so they land in its unused `**kwargs`. */
  function ExitCode(args: Args, base: Result<Dict>, t: Pipelines.Tables, svc: Pipelines.Services): (code: int)
    ensures code == 0 || code == 1
    ensures code == 0 <==>
      ConfigFromArgs(args, base).Ok? &&
      Pipelines.RunSteps(Pipelines.Initial(), Pipelines.StrPath(args.input), args.output, args.dataType, None,
                         args.model, "gltf", t, svc).0.Pass?
  {
    if ConfigFromArgs(args, base).Err? then 1
    else
      var o := Pipelines.RunSteps(Pipelines.Initial(), Pipelines.StrPath(args.input), args.output, args.dataType,
                                  None, args.model, "gltf", t, svc).0;
      if o.Pass? then 0 else 1
  }

  /** What the `--config` file contributes: the defaults with the parsed
      file merged in, or the error loading it raised. */
  function BaseOf(args: Args, defaults: Dict, file: Result<Dict>): Result<Dict>
  {
    if !Given(args.config) then Ok(map[])
    else if file.Err? then Err(file.error)
    else Ok(Configuration.Merge(defaults, file.value))
  }

  /** `main` after argument parsing: `file` is the parsed `--config` file or
      the error reading it raised. */
  method MainReturnCode(args: Args, file: Result<Dict>, d: Configuration.Defaults,
                        loaders: Registry<LoaderKind>, processors: Registry<ProcessorKind>,
                        exporters: Registry<ExporterKind>, svc: Pipelines.Services)
    returns (code: int)
    requires d.Valid()
    modifies d
    ensures code == ExitCode(args, BaseOf(args, old(d.table), file),
                             Pipelines.Tables(loaders.entries, processors.entries, exporters.entries), svc)
  {
    var base: Result<Dict> := Ok(map[]);
    if Given(args.config) {
      if file.Err? {
        base := Err(file.error);
      } else {
        Configuration.MergeEmptySource(Configuration.Merge(d.table, file.value));
        var loaded := new Configuration.Config(d, Some(file.value), None);
        base := Ok(loaded.Contents());
      }
    }
    var config := CreateConfigFromArgs(args, base);
    if config.Err? {
      return 1;
    }
    var pipeline := new Pipelines.Pipeline(d, Some(config.value), true);
    var o := pipeline.RunPipeline(Pipelines.StrPath(args.input), args.output, args.dataType, None, args.model,
                                  "gltf", loaders, processors, exporters, svc);
    code := if o.Pass? then 0 else 1;
  }

  // ---------------------------------------------------------------------
  // Properties of the command line

  /** An input path given as a string and no `--data-type` always exit with
      1: the string has no suffix to infer the type from. */
  lemma MissingDataTypeFails(args: Args, base: Result<Dict>, t: Pipelines.Tables, svc: Pipelines.Services)
    requires args.dataType.None?
    ensures ExitCode(args, base, t, svc) == 1
  {
    Pipelines.StringPathNeedsDataType(Pipelines.Initial(), args.input, args.output, None, args.model, "gltf", t, svc);
  }

  /** `--process` and `--export-format` change nothing: the run always
      infers the processor and exports to gltf. */
  lemma ProcessAndFormatIgnored(args: Args, process: Option<string>, format: string, base: Result<Dict>,
                                t: Pipelines.Tables, svc: Pipelines.Services)
    ensures ExitCode(args.(process := process, exportFormat := format), base, t, svc) == ExitCode(args, base, t, svc)
  {
  }

  /** The options that only write the configuration change the exit code
      only by a section the file holds as something other than a
      dictionary: no stage reads the configuration. */
  lemma ConfigOnlyOptionsIgnoredByTheRun(args: Args, base: Result<Dict>, t: Pipelines.Tables, svc: Pipelines.Services,
                                         verbose: bool, cacheDir: Option<string>, buildingMode: bool, optimizeMesh: bool)
    requires ConfigFromArgs(args, base).Ok?
    requires ConfigFromArgs(args.(verbose := verbose, cacheDir := cacheDir, buildingMode := buildingMode,
                                  optimizeMesh := optimizeMesh), base).Ok?
    ensures ExitCode(args.(verbose := verbose, cacheDir := cacheDir, buildingMode := buildingMode,
                           optimizeMesh := optimizeMesh), base, t, svc) == ExitCode(args, base, t, svc)
  {
  }

  /** Without a `--config` file the configuration is exactly the four
      sections with the command-line values. */
  lemma NoFileConfig(args: Args, base: Result<Dict>)
    requires !Given(args.config)
    ensures var r := ConfigFromArgs(args, base);
      r.Ok? && r.value.Keys == {"general", "loader", "processor", "export"} &&
      r.value["general"] == Obj(map["verbose" := Bool(args.verbose)]) &&
      r.value["export"] == Obj(map["optimize_mesh" := Bool(args.optimizeMesh)]) &&
      (r.value["processor"] == Obj(map[]) <==> !args.buildingMode)
  {
    var r := ConfigFromArgs(args, base);
    if args.buildingMode {
      assert "building_mode" in r.value["processor"].fields;
    }
  }

  /** The dictionary `create_config_from_args` returns, key by key: the four
      sections written in turn over what the file held. */
  lemma ConfigSections(args: Args, base: Result<Dict>)
    requires ConfigFromArgs(args, base).Ok?
    ensures StartOf(args, base).Ok?
    ensures var f := StartOf(args, base).value;
      ConfigFromArgs(args, base).value ==
        f["general" := Obj(FieldsOf(f, "general")["verbose" := Bool(args.verbose)])]
         ["loader" := if Given(args.cacheDir)
                      then Obj(FieldsOf(f, "loader")["cache_dir" := Str(args.cacheDir.value)])
                      else SectionOf(f, "loader")]
         ["processor" := if args.buildingMode
                         then Obj(FieldsOf(f, "processor")["building_mode" := Bool(true)])
                         else SectionOf(f, "processor")]
         ["export" := Obj(FieldsOf(f, "export")["optimize_mesh" := Bool(args.optimizeMesh)])]
  {
    var f := StartOf(args, base).value;
    var cacheDir := if args.cacheDir.Some? then args.cacheDir.value else "";
    var c1 := PutSection(f, "general", "verbose", Bool(args.verbose), true).value;
    var c2 := PutSection(c1, "loader", "cache_dir", Str(cacheDir), Given(args.cacheDir)).value;
    var c3 := PutSection(c2, "processor", "building_mode", Bool(true), args.buildingMode).value;
    assert FieldsOf(c1, "loader") == FieldsOf(f, "loader") && SectionOf(c1, "loader") == SectionOf(f, "loader");
    assert FieldsOf(c2, "processor") == FieldsOf(f, "processor") && SectionOf(c2, "processor") == SectionOf(f, "processor");
    assert FieldsOf(c3, "export") == FieldsOf(f, "export");
  }

  /** `general.verbose` and `export.optimize_mesh` always hold the flags. */
  lemma FlagsAlwaysWritten(args: Args, base: Result<Dict>)
    requires ConfigFromArgs(args, base).Ok?
    ensures var c := ConfigFromArgs(args, base).value;
      "general" in c && c["general"].Obj? && c["general"].fields["verbose"] == Bool(args.verbose) &&
      "export" in c && c["export"].Obj? && c["export"].fields["optimize_mesh"] == Bool(args.optimizeMesh)
  {
    ConfigSections(args, base);
  }

  /** `loader.cache_dir` is the given directory when one is given; without
      one the loader section is the file's, untouched. */
  lemma CacheDirOnlyWhenGiven(args: Args, base: Result<Dict>)
    requires ConfigFromArgs(args, base).Ok?
    ensures var c := ConfigFromArgs(args, base).value; var f := StartOf(args, base).value;
      "loader" in c &&
      (Given(args.cacheDir) ==> c["loader"].Obj? && c["loader"].fields["cache_dir"] == Str(args.cacheDir.value)) &&
      (!Given(args.cacheDir) ==> c["loader"] == SectionOf(f, "loader"))
  {
    ConfigSections(args, base);
  }

  /** `processor.building_mode` is written only with the flag on, and then
      as True; with the flag off the section is the file's, untouched, so a
      False never comes from the command line. */
  lemma BuildingModeOnlyTrue(args: Args, base: Result<Dict>)
    requires ConfigFromArgs(args, base).Ok?
    ensures var c := ConfigFromArgs(args, base).value; var f := StartOf(args, base).value;
      "processor" in c &&
      (args.buildingMode ==> c["processor"].Obj? && c["processor"].fields["building_mode"] == Bool(true)) &&
      (!args.buildingMode ==> c["processor"] == SectionOf(f, "processor"))
  {
    ConfigSections(args, base);
  }

  /** Every other key of the file survives, and so does every key of the
      four sections apart from the one the command line writes. */
  lemma FileKeysPreserved(args: Args, base: Result<Dict>)
    requires ConfigFromArgs(args, base).Ok?
    ensures var c := ConfigFromArgs(args, base).value; var f := StartOf(args, base).value;
      c.Keys == f.Keys + {"general", "loader", "processor", "export"} &&
      (forall k :: k in f && k != "general" && k != "loader" && k != "processor" && k != "export" ==>
        c[k] == f[k]) &&
      (forall k :: k in FieldsOf(f, "general") && k != "verbose" ==> c["general"].fields[k] == FieldsOf(f, "general")[k]) &&
      (forall k :: k in FieldsOf(f, "export") && k != "optimize_mesh" ==> c["export"].fields[k] == FieldsOf(f, "export")[k])
  {
    ConfigSections(args, base);
  }
}
