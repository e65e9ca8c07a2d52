/** The mock-generation driver (Abacus/src/AbacusHODmock.py): directory naming,
    flag overrides, the config snapshot, the result dictionary and the command
    line. AbacusHOD itself (`run_hod`, `compute_multipole`) is external: what it
    returns is passed in as an opaque token, and every call made to it is
    recorded in order. */
module AbacusHODMock {
  import opened Wrappers
  import opened Text
  import opened ConfigHelper

  /** Opaque stand-ins for what AbacusHOD returns. */
  datatype Mock = Mock(id: nat)
  datatype Clustering = Clustering(id: nat)

  /** A call into external code, with the arguments that the driver decides. */
  datatype Call =
    | RunHod(tracers: seq<string>, wantRsd: bool, nthread: int, verbose: bool, writeToDisk: bool, fnExt: string)
    | ComputeMultipole(rpbins: seq<real>, pimax: real, sbins: seq<real>, nbinsMu: int, nthread: int)
    | SaveClustering(path: string)

  /** A value stored in the result dictionary `re`. */
  datatype Product = MockProduct(mock: Mock) | ClusteringProduct(clustering: Clustering)

  /** How `compute_all` ends: it returns `re`, calls `sys.exit`, or lets an
      exception escape. */
  datatype Outcome = Returned(re: map<string, Product>) | Exited(code: int) | Raised(error: ConfigError)

  /** The directory suffix of a mock variant in `find_path`. */
  function Suffix(wantRsd: bool, wantDv: bool): (s: string)
    ensures s == "" <==> !wantRsd
    ensures s == "_rsd" <==> wantRsd && !wantDv
    ensures s == "_rsd_dv" <==> wantRsd && wantDv
  {
    if wantRsd then (if wantDv then "_rsd" + "_dv" else "_rsd") else ""
  }

  /** Two variants share a directory exactly when both are real-space, or both
      are redshift-space with the same velocity flag: `want_dv` is ignored
      without `want_rsd`. */
  lemma SuffixSharedExactly(rsd1: bool, dv1: bool, rsd2: bool, dv2: bool)
    ensures Suffix(rsd1, dv1) == Suffix(rsd2, dv2) <==> rsd1 == rsd2 && (rsd1 ==> dv1 == dv2)
  {
  }

  /** The file-name extension passed to `run_hod`. */
  function FnExt(wantRsd: bool, wantDv: bool): (e: string)
    ensures e == "_dv" <==> wantRsd && wantDv
    ensures e == "" <==> !(wantRsd && wantDv)
  {
    if wantRsd && wantDv then "_dv" else ""
  }

  /** `rpbins[5:]` with Python's slicing: the bins after the first five, or none. */
  function SepBins(rpbins: seq<real>): (s: seq<real>)
    ensures |s| == if |rpbins| <= 5 then 0 else |rpbins| - 5
    ensures forall i | 0 <= i < |s| :: s[i] == rpbins[i + 5]
  {
    if |rpbins| <= 5 then [] else rpbins[5..]
  }

  /** The AbacusHOD object. Only the RSD and velocity flags are changed by this
      module; the rest is read. */
  class Ball {
    var wantRsd: bool
    var wantDv: bool
    const mockDir: string
    const outputDir: string
    const tracers: seq<string>
    const rpbins: seq<real>
    const pimax: real

    constructor (wantRsd: bool, wantDv: bool, mockDir: string, outputDir: string,
                 tracers: seq<string>, rpbins: seq<real>, pimax: real)
      ensures this.wantRsd == wantRsd && this.wantDv == wantDv
      ensures this.mockDir == mockDir && this.outputDir == outputDir
      ensures this.tracers == tracers && this.rpbins == rpbins && this.pimax == pimax
    {
      this.wantRsd := wantRsd;
      this.wantDv := wantDv;
      this.mockDir := mockDir;
      this.outputDir := outputDir;
      this.tracers := tracers;
      this.rpbins := rpbins;
      this.pimax := pimax;
    }
  }

  /** `find_path(Ball)`: the variant directory under the mock directory. */
  function FindPath(ball: Ball): (p: string)
    reads ball
    ensures StartsWith(p, ball.mockDir)
    ensures var name := "galaxies" + Suffix(ball.wantRsd, ball.wantDv);
      |p| >= |name| && p[|p| - |name|..] == name
  {
    JoinPath(ball.mockDir, "galaxies" + Suffix(ball.wantRsd, ball.wantDv))
  }

  /** `cfg['HOD_params']['want_rsd'] = rsd; cfg['HOD_params']['want_dv'] = dv`. */
  function StampFlags(cfg: Value, rsd: bool, dv: bool): (r: Result<Value, ConfigError>)
    ensures r.Success? <==> cfg.Dict? && "HOD_params" in cfg.entries && cfg.entries["HOD_params"].Dict?
    ensures r.Success? ==>
      && r.value.Dict? && r.value.entries.Keys == cfg.entries.Keys
      && (forall k | k in cfg.entries && k != "HOD_params" :: r.value.entries[k] == cfg.entries[k])
      && var hod := cfg.entries["HOD_params"].entries;
         r.value.entries["HOD_params"] == Dict(hod["want_rsd" := Bool(rsd)]["want_dv" := Bool(dv)])
  {
    if !cfg.Dict? then Failure(NotAMapping("HOD_params"))
    else if "HOD_params" !in cfg.entries then Failure(MissingKey("HOD_params"))
    else if !cfg.entries["HOD_params"].Dict? then Failure(NotAMapping("want_rsd"))
    else
      var hod := cfg.entries["HOD_params"].entries;
      Success(Dict(cfg.entries["HOD_params" := Dict(hod["want_rsd" := Bool(rsd)]["want_dv" := Bool(dv)])]))
  }

  /** The config that `compute_all` stamps and saves: the one given, or else the
      three sections loaded from `<output_dir>config.yaml`. */
  function SnapshotBase(files: map<string, Value>, outputDir: string, cfg: Option<Value>): (r: Result<Value, ConfigError>)
    ensures cfg.Some? ==> r == Success(cfg.value)
    ensures cfg.None? ==> (r.Success? <==> LoadSections(files, outputDir + "config.yaml").Success?)
    ensures cfg.None? && r.Success? ==> SectionsOf(r.value) == LoadSections(files, outputDir + "config.yaml")
  {
    if cfg.Some? then Success(cfg.value)
    else
      match LoadSections(files, outputDir + "config.yaml")
      case Failure(e) => Failure(e)
      case Success(s) => SectionsDocumentRoundTrip(s); Success(SectionsDocument(s))
  }

  /** The `if out:` block of `compute_all`: obtain the config, stamp the
      effective flags into it and save it as `config.yaml` in the variant
      directory. Returns None when `compute_all` carries on. */
  method SaveSnapshot(ball: Ball, store: ConfigStore, cfg: Option<Value>) returns (stop: Option<Outcome>)
    modifies store
    ensures store.unwritable == old(store.unwritable) && store.dirs == old(store.dirs)
    ensures var base := SnapshotBase(old(store.files), ball.outputDir, cfg);
      && (base.Failure? ==> stop == Some(Exited(1)) && store.files == old(store.files))
      && (base.Success? ==>
            var stamped := StampFlags(base.value, ball.wantRsd, ball.wantDv);
            var path := JoinPath(FindPath(ball), "config.yaml");
            && (stamped.Failure? ==> stop == Some(Raised(stamped.error)) && store.files == old(store.files))
            && (stamped.Success? && path in store.unwritable ==>
                  stop == Some(Raised(SaveError(path))) && store.files == old(store.files))
            && (stamped.Success? && path !in store.unwritable ==>
                  stop == None && store.files == old(store.files)[path := stamped.value]))
  {
    var c: Value;
    if cfg.None? {
      var loaded := store.ConfigAbacus(None, Some(ball.outputDir + "config.yaml"));
      if loaded.Failure? {
        return Some(Exited(1));
      }
      c := SectionsDocument(loaded.value);
    } else {
      c := cfg.value;
    }
    var stamped := StampFlags(c, ball.wantRsd, ball.wantDv);
    if stamped.Failure? {
      return Some(Raised(stamped.error));
    }
    var saved := store.SaveConfig(stamped.value, JoinPath(FindPath(ball), "config.yaml"));
    if saved.Fail? {
      return Some(Raised(saved.error));
    }
    stop := None;
  }

  /** The result dictionary `re`: the mock always, the clustering when asked for. */
  function ResultDict(mock: Mock, clustering: Clustering, wantClustering: bool): (re: map<string, Product>)
    ensures re.Keys == {"mock_dict"} + (if wantClustering then {"clustering"} else {})
    ensures re["mock_dict"] == MockProduct(mock)
    ensures wantClustering ==> re["clustering"] == ClusteringProduct(clustering)
  {
    if wantClustering then map["mock_dict" := MockProduct(mock), "clustering" := ClusteringProduct(clustering)]
    else map["mock_dict" := MockProduct(mock)]
  }

  /** The calls of the `if want_clustering:` block, after the mock exists. */
  function ClusteringCalls(rpbins: seq<real>, pimax: real, path2dir: string,
                           wantClustering: bool, out: bool, nthread: int): (calls: seq<Call>)
    ensures !wantClustering ==> calls == []
    ensures wantClustering ==> |calls| == (if out then 2 else 1)
    ensures wantClustering ==> calls[0] == ComputeMultipole(rpbins, pimax, SepBins(rpbins), 40, nthread)
    ensures wantClustering && out ==> calls[1] == SaveClustering(JoinPath(path2dir, "clustering.npy"))
  {
    if !wantClustering then []
    else [ComputeMultipole(rpbins, pimax, SepBins(rpbins), 40, nthread)]
         + (if out then [SaveClustering(JoinPath(path2dir, "clustering.npy"))] else [])
  }

  /** The first lines of `compute_all`: an override is applied only when
      given, and persists on the handle. */
  method ApplyOverrides(ball: Ball, wantRsd: Option<bool>, wantDv: Option<bool>)
    modifies ball
    ensures ball.wantRsd == (if wantRsd.Some? then wantRsd.value else old(ball.wantRsd))
    ensures ball.wantDv == (if wantDv.Some? then wantDv.value else old(ball.wantDv))
  {
    if wantRsd.Some? {
      ball.wantRsd := wantRsd.value;
    }
    if wantDv.Some? {
      ball.wantDv := wantDv.value;
    }
  }

  /** The snapshot step of `compute_all` as seen from the rest of it: nothing
      without `out`; with `out`, an exit when no config can be obtained, and
      on carrying on the stamped config saved beside the mock. */
  method SnapshotIfOut(ball: Ball, store: ConfigStore, out: bool, cfg: Option<Value>) returns (stop: Option<Outcome>)
    modifies store
    ensures store.unwritable == old(store.unwritable) && store.dirs == old(store.dirs)
    ensures !out ==> stop.None? && store.files == old(store.files)
    ensures stop.Some? ==> !stop.value.Returned?
    ensures (stop.Some? && stop.value.Exited?) <==> out && SnapshotBase(old(store.files), ball.outputDir, cfg).Failure?
    ensures stop.Some? && stop.value.Exited? ==> stop.value.code == 1 && store.files == old(store.files)
    // With `out`, every way the snapshot step ends: a config that stamps and
    // a writable path carry on; a stamp or save error is raised with nothing written.
    ensures out && SnapshotBase(old(store.files), ball.outputDir, cfg).Success? ==>
      var stamped := StampFlags(SnapshotBase(old(store.files), ball.outputDir, cfg).value, ball.wantRsd, ball.wantDv);
      var path := JoinPath(FindPath(ball), "config.yaml");
      && (stamped.Failure? ==> stop == Some(Raised(stamped.error)) && store.files == old(store.files))
      && (stamped.Success? && path in store.unwritable ==>
            stop == Some(Raised(SaveError(path))) && store.files == old(store.files))
      && (stamped.Success? && path !in store.unwritable ==>
            stop.None? && store.files == old(store.files)[path := stamped.value])
    ensures out && stop.None? ==>
      var base := SnapshotBase(old(store.files), ball.outputDir, cfg);
      && base.Success?
      && StampFlags(base.value, ball.wantRsd, ball.wantDv).Success?
      && store.files == old(store.files)[JoinPath(FindPath(ball), "config.yaml")
                                         := StampFlags(base.value, ball.wantRsd, ball.wantDv).value]
  {
    if out {
      stop := SaveSnapshot(ball, store, cfg);
    } else {
      stop := None;
    }
  }

  /** The rest of `compute_all`, with the flags already set on the handle:
      generate the mock, and with `out` stamp the flags into the config and
      save it beside the mock; with `wantClustering` also compute (and with
      `out` save) the clustering. */
  method GenerateAndSave(ball: Ball, store: ConfigStore, out: bool, cfg: Option<Value>, wantClustering: bool,
                         nthread: int, verbose: bool, mock: Mock, clustering: Clustering)
    returns (o: Outcome, calls: seq<Call>)
    modifies store
    // The mock is generated first, with the effective flags.
    ensures |calls| >= 1 && calls[0] == RunHod(ball.tracers, ball.wantRsd, nthread, verbose, out,
                                               FnExt(ball.wantRsd, ball.wantDv))
    ensures store.unwritable == old(store.unwritable) && store.dirs == old(store.dirs)
    // Without `out` nothing is written and the call returns.
    ensures !out ==> o.Returned? && store.files == old(store.files)
    // A missing cfg that cannot be loaded ends the program with status 1.
    ensures o.Exited? <==> out && SnapshotBase(old(store.files), ball.outputDir, cfg).Failure?
    ensures o.Exited? ==> o.code == 1 && |calls| == 1 && store.files == old(store.files)
    // With `out`, every way the snapshot step ends: a config that stamps and
    // a writable path carry on; a stamp or save error is raised with nothing written.
    ensures out && SnapshotBase(old(store.files), ball.outputDir, cfg).Success? ==>
      var stamped := StampFlags(SnapshotBase(old(store.files), ball.outputDir, cfg).value, ball.wantRsd, ball.wantDv);
      var path := JoinPath(FindPath(ball), "config.yaml");
      && (stamped.Failure? ==> o == Raised(stamped.error) && |calls| == 1 && store.files == old(store.files))
      && (stamped.Success? && path in store.unwritable ==>
            o == Raised(SaveError(path)) && |calls| == 1 && store.files == old(store.files))
      && (stamped.Success? && path !in store.unwritable ==>
            o.Returned? && store.files == old(store.files)[path := stamped.value])
    ensures o.Raised? ==> out && |calls| == 1 && store.files == old(store.files)
    // On return with `out`, the saved snapshot carries the effective flags.
    ensures out && o.Returned? ==>
      var base := SnapshotBase(old(store.files), ball.outputDir, cfg);
      && base.Success?
      && StampFlags(base.value, ball.wantRsd, ball.wantDv).Success?
      && store.files == old(store.files)[JoinPath(FindPath(ball), "config.yaml")
                                         := StampFlags(base.value, ball.wantRsd, ball.wantDv).value]
    // The result always has the mock; it has the clustering exactly when asked.
    ensures o.Returned? ==>
      && o.re.Keys == {"mock_dict"} + (if wantClustering then {"clustering"} else {})
      && o.re["mock_dict"] == MockProduct(mock)
      && (wantClustering ==> o.re["clustering"] == ClusteringProduct(clustering))
    // The clustering is computed on rpbins[5:] and saved only with `out`.
    ensures o.Returned? ==>
      calls[1..] ==
        (if wantClustering then [ComputeMultipole(ball.rpbins, ball.pimax, SepBins(ball.rpbins), 40, nthread)] else [])
        + (if wantClustering && out then [SaveClustering(JoinPath(FindPath(ball), "clustering.npy"))] else [])
  {
    calls := [RunHod(ball.tracers, ball.wantRsd, nthread, verbose, out, FnExt(ball.wantRsd, ball.wantDv))];
    var stop := SnapshotIfOut(ball, store, out, cfg);
    if stop.Some? {
      return stop.value, calls;
    }
    calls := calls + ClusteringCalls(ball.rpbins, ball.pimax, FindPath(ball), wantClustering, out, nthread);
    o := Returned(ResultDict(mock, clustering, wantClustering));
  }

  /** `compute_all`: apply the overrides to the handle, then generate, save
      and measure. `mock` and `clustering` are what AbacusHOD returns. */
  method ComputeAll(ball: Ball, store: ConfigStore, out: bool, cfg: Option<Value>,
                    wantRsd: Option<bool>, wantDv: Option<bool>, wantClustering: bool,
                    nthread: int, verbose: bool, mock: Mock, clustering: Clustering)
    returns (o: Outcome, calls: seq<Call>)
    modifies ball, store
    ensures ball.wantRsd == (if wantRsd.Some? then wantRsd.value else old(ball.wantRsd))
    ensures ball.wantDv == (if wantDv.Some? then wantDv.value else old(ball.wantDv))
    ensures |calls| >= 1 && calls[0] == RunHod(ball.tracers, ball.wantRsd, nthread, verbose, out,
                                               FnExt(ball.wantRsd, ball.wantDv))
    ensures store.unwritable == old(store.unwritable) && store.dirs == old(store.dirs)
    ensures !out ==> o.Returned? && store.files == old(store.files)
    ensures o.Exited? <==> out && SnapshotBase(old(store.files), ball.outputDir, cfg).Failure?
    ensures o.Exited? ==> o.code == 1 && |calls| == 1 && store.files == old(store.files)
    // With `out`, every way the snapshot step ends: a config that stamps and
    // a writable path carry on; a stamp or save error is raised with nothing written.
    ensures out && SnapshotBase(old(store.files), ball.outputDir, cfg).Success? ==>
      var stamped := StampFlags(SnapshotBase(old(store.files), ball.outputDir, cfg).value, ball.wantRsd, ball.wantDv);
      var path := JoinPath(FindPath(ball), "config.yaml");
      && (stamped.Failure? ==> o == Raised(stamped.error) && |calls| == 1 && store.files == old(store.files))
      && (stamped.Success? && path in store.unwritable ==>
            o == Raised(SaveError(path)) && |calls| == 1 && store.files == old(store.files))
      && (stamped.Success? && path !in store.unwritable ==>
            o.Returned? && store.files == old(store.files)[path := stamped.value])
    ensures o.Raised? ==> out && |calls| == 1 && store.files == old(store.files)
    ensures out && o.Returned? ==>
      var base := SnapshotBase(old(store.files), ball.outputDir, cfg);
      && base.Success?
      && StampFlags(base.value, ball.wantRsd, ball.wantDv).Success?
      && store.files == old(store.files)[JoinPath(FindPath(ball), "config.yaml")
                                         := StampFlags(base.value, ball.wantRsd, ball.wantDv).value]
    ensures o.Returned? ==>
      && o.re.Keys == {"mock_dict"} + (if wantClustering then {"clustering"} else {})
      && o.re["mock_dict"] == MockProduct(mock)
      && (wantClustering ==> o.re["clustering"] == ClusteringProduct(clustering))
    ensures o.Returned? ==>
      calls[1..] ==
        (if wantClustering then [ComputeMultipole(ball.rpbins, ball.pimax, SepBins(ball.rpbins), 40, nthread)] else [])
        + (if wantClustering && out then [SaveClustering(JoinPath(FindPath(ball), "clustering.npy"))] else [])
  {
    ApplyOverrides(ball, wantRsd, wantDv);
    o, calls := GenerateAndSave(ball, store, out, cfg, wantClustering, nthread, verbose, mock, clustering);
  }

  /** `CONFIG`: the configuration built into the script. */
  const BuiltinConfig: Value := Dict(map[
    "sim_params" := Dict(map[
      "cleaned_halos" := Bool(true),
      "output_dir" := Str("/pscratch/sd/s/siyizhao/data_learnCosm/AbacusMocks/QSOz3-fnl100bf/"),
      "sim_dir" := Str("/global/cfs/projectdirs/desi/cosmosim/Abacus/"),
      "sim_name" := Str("Abacus_pngbase_c302_ph000"),
      "subsample_dir" := Str("/pscratch/sd/s/siyizhao/AbacusSummit/subsample_desidr2_profile_withAB/"),
      "z_mock" := Real(1.55),
      "force_mt" := Bool(true)]),
    "HOD_params" := Dict(map[
      "tracer_flags" := Dict(map["ELG" := Bool(false), "LRG" := Bool(false), "QSO" := Bool(true)]),
      "use_particles" := Bool(false),
      "use_profiles" := Bool(true),
      "want_AB" := Bool(true),
      "want_rsd" := Bool(true),
      "want_dv" := Bool(false),
      "write_to_disk" := Bool(false),
      "QSO_params" := Dict(map[
        "logM_cut" := Real(12.1467902), "logM1" := Real(13.12929296), "sigma" := Real(0.22703947),
        "alpha" := Real(1.23981437), "kappa" := Real(0.30623195), "alpha_c" := Real(0.46184538),
        "alpha_s" := Real(1.62540044), "ic" := Real(1.0), "profile_code" := Int(1)]),
      "dv_draw_Q" := Str("/global/homes/s/siyizhao/projects/fihobi/data/dv_draws/QSO_z1.4-1.7_CDF.npz")]),
    "clustering_params" := Dict(map[
      "bin_params" := Dict(map["logmax" := Real(1.5), "logmin" := Real(-1.0), "nbins" := Int(15)]),
      "clustering_type" := Str("all"),
      "pi_bin_size" := Int(40),
      "pimax" := Int(40)])])

  /** The config `main` hands to `config_Abacus`: none when it comes from a file. */
  function MainConfig(configByFile: bool): (c: Option<Value>)
    ensures c.None? <==> configByFile
    ensures c.Some? ==> c.value == BuiltinConfig
  {
    if configByFile then None else Some(BuiltinConfig)
  }

  /** With the built-in config and no file, the snapshot lands in the built-in
      output directory. */
  lemma BuiltinConfigPath()
    ensures OutputDir(BuiltinConfig) == Success("/pscratch/sd/s/siyizhao/data_learnCosm/AbacusMocks/QSOz3-fnl100bf/")
    ensures Resolve(MainConfig(false), None, DefaultConfig)
         == Success(Plan(Some("/pscratch/sd/s/siyizhao/data_learnCosm/AbacusMocks/QSOz3-fnl100bf/"),
                         Some(BuiltinConfig),
                         "/pscratch/sd/s/siyizhao/data_learnCosm/AbacusMocks/QSOz3-fnl100bf/config.yaml"))
  {
    var d := "/pscratch/sd/s/siyizhao/data_learnCosm/AbacusMocks/QSOz3-fnl100bf/";
    ConfigSavedInOutputDir(BuiltinConfig, DefaultConfig, d);
    assert d + "config.yaml" == "/pscratch/sd/s/siyizhao/data_learnCosm/AbacusMocks/QSOz3-fnl100bf/config.yaml";
  }

  /** `main`: resolve the configuration, then run `compute_all` with output and
      clustering on. `ball` is the AbacusHOD object built from the three
      sections (its construction is external). */
  method RunMain(store: ConfigStore, nthread: int, path2config: Option<string>, configByFile: bool,
                 ball: Ball, mock: Mock, clustering: Clustering)
    returns (o: Outcome, calls: seq<Call>)
    modifies ball, store
    ensures var resolved := Resolve(MainConfig(configByFile), path2config, DefaultConfig);
      resolved.Failure? ==> o == Raised(resolved.error) && calls == []
    ensures o.Returned? ==> o.re.Keys == {"mock_dict", "clustering"}
  {
    var sections := store.ConfigAbacus(MainConfig(configByFile), path2config);
    if sections.Failure? {
      return Raised(sections.error), [];
    }
    var cfg := SectionsDocument(sections.value);
    o, calls := ComputeAll(ball, store, true, Some(cfg), None, None, true, nthread, true, mock, clustering);
  }

  /** The parsed command line: `--nthread` (default 16), `--config`, `--template`. */
  datatype Args = Args(nthread: int, config: Option<string>, template: bool)

  const DefaultNthread: int := 16

  datatype Action = WriteTemplate | Run(nthread: int, path2config: Option<string>, configByFile: bool)

  /** The `__main__` branch: `--template` writes the example and stops; otherwise
      the config comes from a file exactly when `--config` was given. */
  function Dispatch(args: Args): (a: Action)
    ensures a.WriteTemplate? <==> args.template
    ensures a.Run? ==> a.nthread == args.nthread && a.path2config == args.config
    ensures a.Run? ==> (a.configByFile <==> args.config.Some?)
  {
    if args.template then WriteTemplate
    else Run(args.nthread, args.config, args.config.Some?)
  }

  /** The script run as a program; returns its exit status (an uncaught
      exception exits with 1). */
  method Cli(store: ConfigStore, args: Args, ball: Ball, mock: Mock, clustering: Clustering)
    returns (status: int, calls: seq<Call>)
    modifies ball, store
    // `--template` never generates a mock, and exits 0 when example.yaml can be written.
    ensures args.template ==> calls == []
    ensures args.template ==> (status == 0 <==> "example.yaml" !in old(store.unwritable))
    ensures args.template && "example.yaml" !in old(store.unwritable) ==>
      "example.yaml" in store.files && store.files["example.yaml"] == DefaultConfig
    ensures status == 0 || status == 1
  {
    match Dispatch(args)
    case WriteTemplate =>
      var r := store.ConfigAbacus(None, None);
      status := if r.Success? then 0 else 1;
      calls := [];
    case Run(n, path, byFile) =>
      var o;
      o, calls := RunMain(store, n, path, byFile, ball, mock, clustering);
      status := if o.Returned? then 0 else 1;
  }
}
