/** Reading and writing the AbacusHOD configuration (Abacus/src/config_helper.py).
    The YAML files are an ideal store: a map from path to the document it holds. */
module ConfigHelper {
  import opened Wrappers
  import opened Text

  /** A YAML node as `yaml.safe_load` produces it and `yaml.dump` writes it. */
  datatype Value =
    | Null
    | Bool(b: bool)
    | Int(i: int)
    | Real(r: real)
    | Str(s: string)
    | List(items: seq<Value>)
    | Dict(entries: map<string, Value>)

  const EmptyDict: Value := Dict(map[])

  /** The three sections every caller unpacks. */
  datatype Sections = Sections(sim: Value, hod: Value, clustering: Value)

  datatype ConfigError =
    | LoadError(path: string)      // RuntimeError "Error loading configuration file '<path>': ..."
    | SaveError(path: string)      // RuntimeError "Error saving configuration to '<path>': ..."
    | NotAMapping(key: string)     // AttributeError / TypeError: indexing something that is not a dict
    | MissingKey(key: string)      // KeyError
    | NotAString(key: string)      // TypeError: a path built from a value that is not a str
    | MakeDirsError(path: string)  // os.makedirs failing (the empty path)

  /** `node.get(key, {})`: a missing key gives an empty mapping; a node that is
      not a mapping has no `get`. */
  function GetSection(node: Value, key: string): (r: Result<Value, ConfigError>)
    ensures r.Failure? <==> !node.Dict?
    ensures r.Success? && key in node.entries ==> r.value == node.entries[key]
    ensures r.Success? && key !in node.entries ==> r.value == EmptyDict
  {
    if !node.Dict? then Failure(NotAMapping(key))
    else if key in node.entries then Success(node.entries[key])
    else Success(EmptyDict)
  }

  /** The three sections of a parsed configuration document (load_AbacusHOD_config
      after the file has been read). */
  function SectionsOf(doc: Value): (r: Result<Sections, ConfigError>)
    ensures r.Success? <==> doc.Dict?
    ensures r.Success? ==>
      && r.value.sim == (if "sim_params" in doc.entries then doc.entries["sim_params"] else EmptyDict)
      && r.value.hod == (if "HOD_params" in doc.entries then doc.entries["HOD_params"] else EmptyDict)
      && r.value.clustering == (if "clustering_params" in doc.entries then doc.entries["clustering_params"] else EmptyDict)
  {
    if !doc.Dict? then Failure(NotAMapping("sim_params"))
    else
      Success(Sections(GetSection(doc, "sim_params").value,
                       GetSection(doc, "HOD_params").value,
                       GetSection(doc, "clustering_params").value))
  }

  /** The document holding exactly the three sections, in the order callers rebuild it. */
  function SectionsDocument(s: Sections): Value {
    Dict(map["sim_params" := s.sim, "HOD_params" := s.hod, "clustering_params" := s.clustering])
  }

  /** Packing the sections into a document and reading them back gives them unchanged. */
  lemma SectionsDocumentRoundTrip(s: Sections)
    ensures SectionsOf(SectionsDocument(s)) == Success(s)
  {
  }

  /** `load_config` then the section selection of `load_AbacusHOD_config`, over
      the store contents `files`. */
  function LoadSections(files: map<string, Value>, path: string): (r: Result<Sections, ConfigError>)
    ensures path !in files ==> r == Failure(LoadError(path))
    ensures path in files ==> r == SectionsOf(files[path])
  {
    if path !in files then Failure(LoadError(path)) else SectionsOf(files[path])
  }

  /** Reading back a file just written returns the sections of what was written,
      whatever else the store holds. */
  lemma SaveThenLoad(files: map<string, Value>, path: string, doc: Value)
    ensures LoadSections(files[path := doc], path) == SectionsOf(doc)
  {
  }

  /** What `config_Abacus` decides before touching the store: which directory
      must exist, which document is written, and which path is read. */
  datatype Plan = Plan(makeDir: Option<string>, write: Option<Value>, path: string)

  /** `output_dir` of a configuration, defaulting to "./". */
  function OutputDir(config: Value): (r: Result<string, ConfigError>)
    ensures r.Success? <==>
      && config.Dict?
      && GetSection(config, "sim_params").value.Dict?
      && var sim := GetSection(config, "sim_params").value;
         "output_dir" !in sim.entries || sim.entries["output_dir"].Str?
    ensures r.Success? && "output_dir" !in GetSection(config, "sim_params").value.entries ==> r.value == "./"
  {
    match GetSection(config, "sim_params")
    case Failure(e) => Failure(e)
    case Success(sim) =>
      if !sim.Dict? then Failure(NotAMapping("output_dir"))
      else if "output_dir" !in sim.entries then Success("./")
      else if sim.entries["output_dir"].Str? then Success(sim.entries["output_dir"].s)
      else Failure(NotAString("output_dir"))
  }

  /** The four branches of `config_Abacus`. */
  function Resolve(config: Option<Value>, configPath: Option<string>, default: Value): (r: Result<Plan, ConfigError>)
    // A given path is the path read, whether or not a config is written to it.
    ensures configPath.Some? ==> r == Success(Plan(None, config, configPath.value))
    // No config and no path: the built-in default goes to example.yaml.
    ensures config.None? && configPath.None? ==> r == Success(Plan(None, Some(default), "example.yaml"))
    // A config and no path: "config.yaml" is appended to output_dir with no separator.
    ensures config.Some? && configPath.None? ==>
      match OutputDir(config.value)
      case Failure(e) => r == Failure(e)
      case Success(d) =>
        if d == "" then r == Failure(MakeDirsError(d))
        else r == Success(Plan(Some(d), config, d + "config.yaml"))
  {
    match (config, configPath)
    case (_, Some(p)) => Success(Plan(None, config, p))
    case (None, None) => Success(Plan(None, Some(default), "example.yaml"))
    case (Some(c), None) =>
      match OutputDir(c)
      case Failure(e) => Failure(e)
      case Success(d) =>
        if d == "" then Failure(MakeDirsError(d))
        else Success(Plan(Some(d), config, d + "config.yaml"))
  }

  /** A config whose `sim_params` names a non-empty `output_dir` string, given
      without a path, is saved as `config.yaml` in that directory, which is the
      directory created. */
  lemma ConfigSavedInOutputDir(config: Value, default: Value, d: string)
    requires config.Dict? && "sim_params" in config.entries
    requires config.entries["sim_params"].Dict?
    requires "output_dir" in config.entries["sim_params"].entries
    requires config.entries["sim_params"].entries["output_dir"] == Str(d)
    requires d != ""
    ensures Resolve(Some(config), None, default) == Success(Plan(Some(d), Some(config), d + "config.yaml"))
  {
  }

  /** What `os.makedirs(d)` creates when `d` is missing: `d` and its ancestors. */
  function MadeDirs(d: string): (r: set<string>)
    ensures d in r
    ensures forall a | a in r && a != d :: |a| < |d| && d[..|a|] == a && d[|a|] == '/'
  {
    {d} + Parents(d)
  }

  /** `_DEFAULT_CONFIG`: the example written when neither a config nor a path is given. */
  const DefaultConfig: Value := Dict(map[
    "sim_params" := Dict(map[
      "cleaned_halos" := Bool(true),
      "output_dir" := Str("/pscratch/sd/s/siyizhao/tmp/"),
      "sim_dir" := Str("/global/cfs/projectdirs/desi/cosmosim/Abacus/"),
      "sim_name" := Str("Abacus_pngbase_c300_ph000"),
      "subsample_dir" := Str("/pscratch/sd/s/siyizhao/AbacusSummit/subsample_desidr2_profile_withAB/"),
      "z_mock" := Real(2.5),
      "force_mt" := Bool(true)]),
    "HOD_params" := Dict(map[
      "tracer_flags" := Dict(map["ELG" := Bool(false), "LRG" := Bool(false), "QSO" := Bool(true)]),
      "use_particles" := Bool(false),
      "use_profiles" := Bool(true),
      "want_AB" := Bool(true),
      "want_rsd" := Bool(true),
      "want_dv" := Bool(true),
      "write_to_disk" := Bool(false),
      "QSO_params" := Dict(map[
        "logM_cut" := Real(12.03), "logM1" := Real(13.11), "sigma" := Real(0.08),
        "alpha" := Real(1.03), "kappa" := Real(0.39), "alpha_c" := Real(0.92),
        "alpha_s" := Real(2.7), "ic" := Real(1.0), "profile_code" := Int(1)]),
      "dv_draw_Q" := Str("/global/homes/s/siyizhao/projects/fihobi/data/dv_draws/QSO_z2.3-2.8_CDF.npz")]),
    "clustering_params" := Dict(map[
      "bin_params" := Dict(map["logmax" := Real(1.5), "logmin" := Real(-1.0), "nbins" := Int(15)]),
      "clustering_type" := Str("all"),
      "pi_bin_size" := Int(40),
      "pimax" := Int(40)])])

  /** The YAML files and directories `config_Abacus` works on. `unwritable`
      holds the paths that cannot be opened for writing. */
  class ConfigStore {
    var files: map<string, Value>
    var dirs: set<string>
    var unwritable: set<string>

    constructor (files: map<string, Value>, dirs: set<string>, unwritable: set<string>)
      ensures this.files == files && this.dirs == dirs && this.unwritable == unwritable
    {
      this.files := files;
      this.dirs := dirs;
      this.unwritable := unwritable;
    }

    /** `load_AbacusHOD_config(path)` against the current store. */
    function LoadAbacusHODConfig(path: string): Result<Sections, ConfigError>
      reads this
    {
      LoadSections(files, path)
    }

    /** `save_config`: writes the document, or raises naming the path. */
    method SaveConfig(config: Value, path: string) returns (r: Outcome<ConfigError>)
      modifies this`files
      ensures r.Pass? <==> path !in unwritable
      ensures r.Fail? ==> r.error == SaveError(path)
      ensures files == if r.Pass? then old(files)[path := config] else old(files)
    {
      if path in unwritable {
        r := Fail(SaveError(path));
      } else {
        files := files[path := config];
        r := Pass;
      }
    }

    /** `if not os.path.exists(d): os.makedirs(d, exist_ok=True)`. */
    method MakeDirs(d: string)
      modifies this`dirs
      ensures dirs == old(dirs) + (if d !in old(dirs) then MadeDirs(d) else {})
    {
      if d !in dirs {
        dirs := dirs + MadeDirs(d);
      }
    }

    /** `config_Abacus(config, config_path)`: resolve the path, create the output
        directory only if it is missing, write the config if one is to be written,
        then read the path back. */
    method ConfigAbacus(config: Option<Value>, configPath: Option<string>) returns (r: Result<Sections, ConfigError>)
      modifies this`files, this`dirs
      ensures unwritable == old(unwritable)
      ensures Resolve(config, configPath, DefaultConfig).Failure? ==>
        r == Failure(Resolve(config, configPath, DefaultConfig).error) && unchanged(this)
      ensures Resolve(config, configPath, DefaultConfig).Success? ==>
        var plan := Resolve(config, configPath, DefaultConfig).value;
        // `os.makedirs` runs only for a missing directory, and creates its ancestors too.
        && dirs == old(dirs) +
             (if plan.makeDir.Some? && plan.makeDir.value !in old(dirs) then MadeDirs(plan.makeDir.value) else {})
        && (plan.write.Some? && plan.path in unwritable ==>
              files == old(files) && r == Failure(SaveError(plan.path)))
        && (plan.write.Some? && plan.path !in unwritable ==>
              files == old(files)[plan.path := plan.write.value] && r == SectionsOf(plan.write.value))
        && (plan.write.None? ==> files == old(files) && r == LoadSections(files, plan.path))
      // Round trip: a config that is saved and read back yields its own sections.
      ensures config.Some? && r.Success? ==> SectionsOf(config.value) == r
      // Without a config, nothing is written to a given path.
      ensures config.None? && configPath.Some? ==> files == old(files)
    {
      var resolved := Resolve(config, configPath, DefaultConfig);
      if resolved.Failure? {
        return Failure(resolved.error);
      }
      var plan := resolved.value;
      if plan.makeDir.Some? {
        MakeDirs(plan.makeDir.value);
      }
      if plan.write.Some? {
        var saved := SaveConfig(plan.write.value, plan.path);
        if saved.Fail? {
          return Failure(saved.error);
        }
        SaveThenLoad(old(files), plan.path, plan.write.value);
      }
      r := LoadAbacusHODConfig(plan.path);
    }
  }
}
