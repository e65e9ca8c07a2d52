# learnCosm pipeline core, modelled in Dafny

This project models the Python driver code of two mock-catalogue pipelines for
cosmology. It covers five files.

- **AbacusHOD** (`Abacus/src`):
  - `config_helper.py` loads and saves the YAML configuration.
  - `AbacusHODmock.py` generates a mock, snapshots its configuration next to it and computes its clustering.
  - `data_object.py` holds the observed clustering and densities and computes the Gaussian log-likelihood of a theory prediction.
- **EZmock** (`EZmock/src`):
  - `disp2LPT_helper.py` writes the 2LPTic parameter file and launches the displacement code in a prepared environment.
  - `prep_ref.py` reads the reference AbacusSummit catalogue and measures its power spectrum, correlation function and bispectrum. It silences the pair counter by redirecting file descriptors 1 and 2.

Each source file has one module:

| file | module |
|---|---|
| `wrappers.dfy` | `Wrappers`: Option, Result, Outcome |
| `text.dfy` | `Text`: Python string behaviour (`isspace`, `lstrip`, `startswith`, ASCII `lower`, `str(int)`, path joining, the ancestors of a path) |
| `config_helper.dfy` | `ConfigHelper` |
| `abacus_hod_mock.dfy` | `AbacusHODMock` |
| `data_object.dfy` | `DataObject` |
| `disp2lpt_helper.dfy` | `Disp2LPTHelper`: the parameter file |
| `disp2lpt_run.dfy` | `Disp2LPTRun`: `run_disp_2lpt` |
| `prep_ref.dfy` | `PrepRef` |

Code that mutates state is written as classes whose methods carry `modifies` clauses:

- `ConfigStore`: the YAML files and directories.
- `Ball`: the AbacusHOD object's flags.
- `DataObject`: the seven dictionaries and their insertion order.
- `Host`: the environment, files, directories, console and launched commands of `run_disp_2lpt`.
- `Process`: the descriptor table, the external calls made and the saved tables of `prep_ref`.

Each method is proved against pure functions, and the functions carry the lemmas.

External code is a parameter, and each call to it is recorded as a value. This covers:

- AbacusHOD;
- `np.loadtxt` and `np.linalg.inv`;
- `catinbox`, `pyfcfc`;
- the 2LPTic binary.

Each such call is recorded, with its arguments, in a `calls` or `commands` sequence. What the call returns is an argument.

## Model

| member | source | states |
|---|---|---|
| Text.LStrip | EZmock/src/disp2LPT_helper.py:67 | `str.lstrip()`: the result is a suffix of the input, everything dropped is whitespace, and the result does not start with whitespace |
| Text.LowerCharIs | Abacus/src/data_object.py:41 | lowering one ASCII character gives a letter with no capital exactly when the character is that letter in either case |
| Text.LowerIsWord | Abacus/src/data_object.py:41 | `lower()`, on ASCII letters, gives a word with no capitals exactly when the text spells that word letter by letter in either case (`SpelledAs`, defined without lowering) |
| Text.IntToStringInjective | EZmock/src/disp2LPT_helper.py:56 | different integers print as different strings, so a printed seed names its value (proved through the digits round trip `NatToStringRoundTrip`) |
| Text.JoinPath | Abacus/src/AbacusHODmock.py:101 | `Path(dir) / name`, for a directory already in pathlib's normal form (no `.` parts, no repeated or trailing `/` except the root), adds a separator exactly when `dir` is non-empty and does not already end in `/` |
| ConfigHelper.GetSection | Abacus/src/config_helper.py:34-36 | `.get(key, {})` fails exactly on a node that is not a mapping; otherwise it gives the key's value, or an empty mapping when the key is absent |
| ConfigHelper.SectionsOf | Abacus/src/config_helper.py:33-37 | the three sections are read exactly when the document is a mapping; each is the document's entry or an empty mapping |
| ConfigHelper.SectionsDocumentRoundTrip | Abacus/src/AbacusHODmock.py:93-94 | rebuilding the document from three sections and reading it again gives the same sections |
| ConfigHelper.LoadSections | Abacus/src/config_helper.py:4-19 | a missing file raises a load error naming the path; otherwise the result is the sections of the stored document |
| ConfigHelper.SaveThenLoad | Abacus/src/config_helper.py:39-51 | reading a path just written gives the sections of the written document, whatever else the store holds |
| ConfigHelper.OutputDir | Abacus/src/config_helper.py:106-107 | succeeds exactly when the config and its `sim_params` are mappings and `output_dir` is missing or a string; when it is missing the result is `./` |
| ConfigHelper.Resolve | Abacus/src/config_helper.py:104-118 | the branches of `config_Abacus`. (1) A given path is the one read back. (2) With neither config nor path, the default is written to `example.yaml`. (3) With a config but no path, `config.yaml` is appended to `output_dir` with no separator, and an empty directory fails at `makedirs` |
| ConfigHelper.ConfigStore.SaveConfig | Abacus/src/config_helper.py:39-51 | succeeds exactly when the path is writable. It writes that path and nothing else. A failure names the path |
| ConfigHelper.MadeDirs | Abacus/src/config_helper.py:108-109 | `os.makedirs(d)` creates `d` and every ancestor of `d`, each a prefix of `d` ending before a `/` |
| ConfigHelper.ConfigStore.MakeDirs | Abacus/src/config_helper.py:108-109 | a missing output directory is created with its ancestors; an existing one leaves the directories unchanged |
| ConfigHelper.ConfigStore.ConfigAbacus | Abacus/src/config_helper.py:91-119 | states the whole new store for each branch: the directories created (a missing output directory and its ancestors), the file written, the error raised. A config that is saved and read back yields its own sections. Without a config, a given path is never written |
| AbacusHODMock.Suffix | Abacus/src/AbacusHODmock.py:58-63 | `""`, `"_rsd"` and `"_rsd_dv"` each occur exactly for their flag combination |
| AbacusHODMock.SuffixSharedExactly | Abacus/src/AbacusHODmock.py:57-65 | two flag settings share a mock directory iff they agree on `want_rsd` and, when it is set, on `want_dv` |
| AbacusHODMock.FnExt | Abacus/src/AbacusHODmock.py:83-86 | the file extension is `_dv` exactly when both `want_rsd` and `want_dv` hold, and empty otherwise |
| AbacusHODMock.SepBins | Abacus/src/AbacusHODmock.py:105 | `rpbins[5:]`: the bins after the first five, empty when there are five or fewer |
| AbacusHODMock.FindPath | Abacus/src/AbacusHODmock.py:57-65 | the mock directory lies under `mock_dir` and ends in `galaxies` followed by the suffix |
| AbacusHODMock.StampFlags | Abacus/src/AbacusHODmock.py:98-99 | succeeds exactly when the config is a mapping whose `HOD_params` is a mapping. Only `want_rsd` and `want_dv` of `HOD_params` change; every other section and key is unchanged |
| AbacusHODMock.SnapshotBase | Abacus/src/AbacusHODmock.py:91-97 | a given cfg is used as is. Otherwise `output_dir + 'config.yaml'` is loaded, with success exactly when the load succeeds, and the result has the loaded sections |
| AbacusHODMock.SaveSnapshot | Abacus/src/AbacusHODmock.py:90-102 | exits with status 1 when no snapshot can be loaded. Otherwise it saves the stamped config to `<mock dir>/config.yaml`, or raises naming that path |
| AbacusHODMock.ResultDict | Abacus/src/AbacusHODmock.py:72-113 | the result has `mock_dict`, and has `clustering` exactly when it was asked for |
| AbacusHODMock.ClusteringCalls | Abacus/src/AbacusHODmock.py:103-111 | without clustering, no call is made. Otherwise `compute_multipole` is called on `rpbins[5:]` with 40 mu bins, and it is saved to `clustering.npy` only with `out` |
| AbacusHODMock.ApplyOverrides | Abacus/src/AbacusHODmock.py:73-80 | each flag is overridden exactly when a value is given |
| AbacusHODMock.SnapshotIfOut | Abacus/src/AbacusHODmock.py:90-102 | nothing is written without `out`. The process exits exactly when `out` holds and no snapshot loads. A snapshot that stamps, with a writable path, is saved and the step carries on. A stamp error or an unwritable path is raised with nothing written |
| AbacusHODMock.GenerateAndSave | Abacus/src/AbacusHODmock.py:81-113 | the mock is generated first, with the effective flags and extension. Then the snapshot is saved, or the process exits, or a stamp or save error is raised with only the generation call made and nothing written. A loadable snapshot that stamps, with a writable path, is saved and the call returns. Then come the clustering calls and the result keys |
| AbacusHODMock.ComputeAll | Abacus/src/AbacusHODmock.py:67-113 | `compute_all`: the overrides on the object, the external calls in order, and the store and outcome in every case: return (with the stamped snapshot saved when `out` holds), exit 1 when no snapshot loads, and a raised stamp or save error with nothing written |
| AbacusHODMock.MainConfig | Abacus/src/AbacusHODmock.py:117-120 | the built-in CONFIG is used exactly when no config file is given |
| ConfigHelper.ConfigSavedInOutputDir | Abacus/src/config_helper.py:104-113 | any config whose `sim_params` names a non-empty `output_dir` string, given without a path, is saved as `config.yaml` appended to that directory, and the directory is the one created. A corollary of `Resolve`'s third branch |
| AbacusHODMock.BuiltinConfigPath | Abacus/src/AbacusHODmock.py:20-55 | an example, not a general property: one instance of `ConfigSavedInOutputDir`, where the built-in CONFIG's `output_dir` is `.../QSOz3-fnl100bf/`, and it is saved there as `config.yaml` |
| AbacusHODMock.RunMain | Abacus/src/AbacusHODmock.py:115-130 | a configuration that cannot be resolved raises before any external call. A run that returns holds both the mock and the clustering |
| AbacusHODMock.Dispatch | Abacus/src/AbacusHODmock.py:148-161 | `--template` is dispatched exactly when set. Otherwise main gets the thread count and path, and reads the config from the file exactly when a path is given |
| AbacusHODMock.Cli | Abacus/src/AbacusHODmock.py:148-161 | `--template` never generates a mock. It exits with 0 exactly when `example.yaml` is writable, and that file then holds the default config. Every exit status is 0 or 1 |
| DataObject.ClusterTypeModes | Abacus/src/data_object.py:41 | the mode is `wp` exactly when `clustering_type` is missing or spells `wp` in any mix of ASCII cases, and `all` exactly when it spells `all` so |
| DataObject.CompositeKeyInjective | Abacus/src/data_object.py:47 | different tracers get different composite keys |
| DataObject.ActiveTracers | Abacus/src/data_object.py:39-40 | a tracer is active iff some flag pairs it with true. Distinct flag names give a list without repeats |
| DataObject.Truncate | Abacus/src/data_object.py:59 | NumPy `m[:n, :n]`: at most `n` rows, each cut to at most `n` entries |
| DataObject.TruncateLeadingBlock | Abacus/src/data_object.py:57-59 | a covariance at least n×n keeps exactly its leading n×n block |
| DataObject.FlattenColumnMajor | Abacus/src/data_object.py:74 | `ravel(order='F')` gives all of column 1, then all of column 3 |
| DataObject.WpModeShapes | Abacus/src/data_object.py:53-71 | in `wp` mode the observation is the wp column, and the covariance is square with the same dimension |
| DataObject.AllModeLayout | Abacus/src/data_object.py:72-75 | in `all` mode the observation is wp, then xi0, then xi2, and the covariance is the file's, untruncated |
| DataObject.Included | Abacus/src/data_object.py:46-51 | a tracer is kept iff its composite key has data paths. Order and distinctness are kept |
| DataObject.Present | Abacus/src/data_object.py:61-64 | a tracer has a density mean iff the data params give one |
| DataObject.KeysOfDistinct | Abacus/src/data_object.py:47 | distinct tracers give distinct composite keys, in the same order |
| DataObject.MatVec | Abacus/src/data_object.py:103 | `invcov.dot(diff)`: one dot product per row |
| DataObject.Difference | Abacus/src/data_object.py:102 | an elementwise difference, which broadcasts a length-1 side. It fails exactly when the shapes cannot broadcast |
| DataObject.LogLikeOfParts | Abacus/src/data_object.py:114 | the total is the clustering part plus the density part, and the first failure is the result |
| DataObject.ClusterSumStopsAtFailure | Abacus/src/data_object.py:97-104 | an exception ends the clustering loop: the result is the first failure |
| DataObject.DensitySumStopsAtFailure | Abacus/src/data_object.py:106-113 | an exception ends the density loop: the result is the first failure |
| DataObject.ClusterSumLast | Abacus/src/data_object.py:98-104 | one pass of the clustering loop: skip a key without theory, or add its term |
| DataObject.ClusterSumOverMatched | Abacus/src/data_object.py:98-101 | skipping keys without theory is the same as summing over the matched keys only |
| DataObject.ClusterSumAtObservation | Abacus/src/data_object.py:97-104 | a theory equal to the observation adds 0 to the clustering part |
| DataObject.DensitySumAtObservation | Abacus/src/data_object.py:106-113 | a theory equal to the observed density adds 0 to the density part |
| DataObject.DensitySumFailsIff | Abacus/src/data_object.py:106-113 | the density part fails exactly when some tracer with a theory density has no std (KeyError) or a zero std (ZeroDivisionError) |
| DataObject.ClusterSumNonPositive | Abacus/src/data_object.py:97-104 | with positive semidefinite inverse covariances, the clustering part is at most 0 |
| DataObject.DensitySumNonPositive | Abacus/src/data_object.py:106-113 | the density part is at most 0 |
| DataObject.LogLikeNonPositive | Abacus/src/data_object.py:79-114 | the log-likelihood is at most 0 |
| DataObject.LogLikeAtObservation | Abacus/src/data_object.py:79-114 | a theory equal to the data gives a log-likelihood of exactly 0 |
| DataObject.TwoBinExample | Abacus/src/data_object.py:102-104 | a concrete χ² with the identity inverse covariance: 0 at the observation, -2.5 at zero, and a shape error for a length-3 theory |
| DataObject.KeysExtend | Abacus/src/data_object.py:46-77 | one pass of the constructor loop appends the composite key to the insertion order. The keys stay distinct and agree with the maps |
| DataObject.KeySetsExtend | Abacus/src/data_object.py:53-77 | `wp`, `cov`, `invcov` and `clustering` keep the same key set, and `xi02` is filled only in `all` mode |
| DataObject.EntriesExtend | Abacus/src/data_object.py:52-77 | every entry is the one built from its key's own files |
| DataObject.DensityExtend | Abacus/src/data_object.py:61-68 | the density tables hold exactly the included tracers that have a mean or a std |
| DataObject.BuildStep | Abacus/src/data_object.py:46-77 | one pass of the loop keeps the table invariant for the included prefix |
| DataObject.BuildTables | Abacus/src/data_object.py:39-77 | after the loop, the tables are exactly those built from the active tracers that have data paths |
| DataObject.WpModeSquare | Abacus/src/data_object.py:57-60 | in `wp` mode every inverse covariance fits its observation vector |
| DataObject.WpModeLogLikeAtObservation | Abacus/src/data_object.py:7-114 | for an object built in `wp` mode, a theory equal to its own data gives a log-likelihood of 0 |
| DataObject.DataObject.constructor | Abacus/src/data_object.py:7-77 | `__init__`: the object's dictionaries and their order are the ones built from the parameters |
| DataObject.DataObject.ClusteringLogLike | Abacus/src/data_object.py:97-104 | the clustering loop computes the clustering sum over the insertion order |
| DataObject.DataObject.DensityLogLike | Abacus/src/data_object.py:106-113 | the density loop computes the density sum over the insertion order |
| DataObject.DataObject.ComputeLogLike | Abacus/src/data_object.py:79-114 | `compute_loglike` computes the log-likelihood of the stored data, so every lemma about it holds for the method |
| Disp2LPTHelper.TemplateWellFormed | EZmock/src/disp2LPT_helper.py:27-66 | every entry line of the template has a key, a gap and a non-empty value |
| Disp2LPTHelper.LineFields | EZmock/src/disp2LPT_helper.py:27-66 | every rendered entry line splits into exactly its key and its value, and a blank line has no fields |
| Disp2LPTHelper.ParamTextStart | EZmock/src/disp2LPT_helper.py:27-67 | `lstrip` removes nothing: the text is the filled template and starts with `Nmesh` |
| Disp2LPTHelper.ReadParam | EZmock/src/disp2LPT_helper.py:27-67 | a line whose key occurs first reads back as that key and its filled value |
| Disp2LPTHelper.NmeshRead | EZmock/src/disp2LPT_helper.py:27 | `Nmesh` reads back as `Ngrid` |
| Disp2LPTHelper.NsampleRead | EZmock/src/disp2LPT_helper.py:28 | `Nsample` reads back as `Ngrid` |
| Disp2LPTHelper.BoxRead | EZmock/src/disp2LPT_helper.py:29 | `Box` reads back as `Lbox` |
| Disp2LPTHelper.FileBaseRead | EZmock/src/disp2LPT_helper.py:30 | `FileBase` reads back as `ics_<Ngrid>_<Lbox>` |
| Disp2LPTHelper.GlassTileFacRead | EZmock/src/disp2LPT_helper.py:33 | `GlassTileFac` reads back as `Ngrid` |
| Disp2LPTHelper.RedshiftRead | EZmock/src/disp2LPT_helper.py:42 | `Redshift` reads back as the printed redshift |
| Disp2LPTHelper.FnlRead | EZmock/src/disp2LPT_helper.py:43 | `Fnl` reads back as the printed fnl |
| Disp2LPTHelper.FixedAmplitudeRead | EZmock/src/disp2LPT_helper.py:45 | `FixedAmplitude` reads back as `fix_amp` |
| Disp2LPTHelper.SeedRead | EZmock/src/disp2LPT_helper.py:56 | `Seed` reads back as the seed |
| Disp2LPTHelper.ParamTextDeterminesArgs | EZmock/src/disp2LPT_helper.py:8-74 | equal parameter texts come from equal arguments, so the file determines the run |
| Disp2LPTHelper.ParamTextFixedLines | EZmock/src/disp2LPT_helper.py:27-67 | the text has 40 lines plus the final empty one. Every line except the nine that carry an argument is the same whatever the arguments |
| Disp2LPTRun.ParamPath | EZmock/src/disp2LPT_helper.py:82 | the parameter file is `conf_2lpt/params_2lpt/r<seed>.param` |
| Disp2LPTRun.ParamPathInjective | EZmock/src/disp2LPT_helper.py:82 | different seeds get different parameter files |
| Disp2LPTRun.LogPathInjective | EZmock/src/disp2LPT_helper.py:105-107 | different seeds get different log files |
| Disp2LPTRun.LogIsNotParam | EZmock/src/disp2LPT_helper.py:82-107 | a log file never overwrites a parameter file |
| Text.Parents | EZmock/src/disp2LPT_helper.py:71 | every directory created is a proper prefix of the path that ends just before a `/` |
| Disp2LPTRun.Home | EZmock/src/disp2LPT_helper.py:89 | `expanduser("~")`: `HOME` without trailing slashes when set, else the password-database home, and never empty |
| Disp2LPTRun.NewLdPath | EZmock/src/disp2LPT_helper.py:95-98 | the library prefix, followed by `:` and the old value exactly when the old value is set and non-empty |
| Disp2LPTRun.LdPathRepeated | EZmock/src/disp2LPT_helper.py:95-98 | a second run in the same process prepends the prefix once more |
| Disp2LPTRun.ChildEnv | EZmock/src/disp2LPT_helper.py:101-102 | the child's environment copies the process's, and `OMP_NUM_THREADS` is `1` unless already set |
| Disp2LPTRun.ChildEnvAfterRun | EZmock/src/disp2LPT_helper.py:95-102 | the child sees the new library path and one thread by default, and the process's own environment gains no `OMP_NUM_THREADS` |
| Disp2LPTRun.ParamFileAfterRun | EZmock/src/disp2LPT_helper.py:82-83 | after a run the parameter file holds the generated text, and its `Seed` reads back as the seed |
| Disp2LPTRun.Host.WriteParam | EZmock/src/disp2LPT_helper.py:69-72 | writes only for a non-empty `output_path`, creating the parent directories |
| Disp2LPTRun.Host.GenerateParam | EZmock/src/disp2LPT_helper.py:8-74 | returns the parameter text, and the written file holds exactly that text |
| Disp2LPTRun.Host.ComposeEnv | EZmock/src/disp2LPT_helper.py:95-102 | sets the process's library path and returns the child environment |
| Disp2LPTRun.Host.OpenLog | EZmock/src/disp2LPT_helper.py:105-108 | creates `logs` under the working directory and truncates `2lpt_r<seed>.log` |
| Disp2LPTRun.Host.RunChild | EZmock/src/disp2LPT_helper.py:108-115 | records the command. The log holds the child's output. Exit 0 prints Done; a non-zero exit is reported and re-raised; a launch failure propagates without a report |
| Disp2LPTRun.Host.Launch2LPT | EZmock/src/disp2LPT_helper.py:87-115 | the environment, directories, files, command and console after the launch |
| Disp2LPTRun.Host.Prepare | EZmock/src/disp2LPT_helper.py:82-87 | the parameter file is written under its seed's path, and the two messages are printed |
| Disp2LPTRun.Host.RunDisp2LPT | EZmock/src/disp2LPT_helper.py:76-115 | `run_disp_2lpt`: the whole new state (environment, directories, files, command, console) for each way the child ends |
| PrepRef.CommentLineIsLStrip | EZmock/src/prep_ref.py:25 | a comment line, defined as whitespace and then `#`, is exactly a line whose `lstrip()` starts with `#` |
| PrepRef.HeaderEnd | EZmock/src/prep_ref.py:22-27 | the loop consumes at most every line, and none only from an empty file |
| PrepRef.HeaderEndSpans | EZmock/src/prep_ref.py:22-27 | all lines before the consumed one are comments. The consumed line is the first that is not a comment, or the file ends |
| PrepRef.SkipHeader | EZmock/src/prep_ref.py:23-26 | the `for ... break` loop stops just after the first line that is not a comment |
| PrepRef.FirstRecordSkipped | EZmock/src/prep_ref.py:22-27 | `np.loadtxt` gets the lines after the first non-comment line, which is the column-name line of the catalogue |
| PrepRef.NoHeaderDropsFirstRow | EZmock/src/prep_ref.py:22-27 | a file without a header loses its first data row |
| PrepRef.MockPathInjective | EZmock/src/prep_ref.py:20 | within one mock directory, different tracers are read from different catalogue files |
| PrepRef.CatalogueOf | EZmock/src/prep_ref.py:28-32 | succeeds exactly on a 2-D table (at least two rows) whose rows have at least three columns. The catalogue is those three columns and the row count |
| PrepRef.ParseMock | EZmock/src/prep_ref.py:22-32 | the reading loop plus `loadtxt` gives the catalogue of the lines after the header |
| PrepRef.Column | EZmock/src/prep_ref.py:28-30 | `data[:, c]` is entry `c` of each row |
| PrepRef.ColumnStack | EZmock/src/prep_ref.py:66 | `np.column_stack` succeeds exactly on columns of equal length. Row `i` is entry `i` of every column |
| PrepRef.ColumnOfStack | EZmock/src/prep_ref.py:66 | the columns of a stacked table are the stacked vectors |
| PrepRef.DropLast | EZmock/src/prep_ref.py:56 | `kedge[:-1]` |
| PrepRef.DropFirst | EZmock/src/prep_ref.py:57 | `kedge[1:]` |
| PrepRef.ZerosLike | EZmock/src/prep_ref.py:63-65 | a missing P_4 is written as zeros of P_0's length |
| PrepRef.Lookup | EZmock/src/prep_ref.py:38 | indexing fails with KeyError on a missing key and TypeError on a node that is not a mapping |
| PrepRef.Fields | EZmock/src/prep_ref.py:39-52 | the settings read in order. The first missing one is the error |
| PrepRef.Settings | EZmock/src/prep_ref.py:13-16 | a missing configuration file fails; then a failing `['clustering']` or `[kind]` lookup is the error, KeyError or TypeError naming its key; otherwise the result is the fields of `clustering[kind]` |
| PrepRef.PkColumnsAgree | EZmock/src/prep_ref.py:55-66 | the power-spectrum table can be written exactly when the arrays agree in length and there is one more edge than bins |
| PrepRef.PkTableLayout | EZmock/src/prep_ref.py:54-66 | the 8 columns of each row, with a missing P_4 written as 0 |
| PrepRef.FirstColumn | EZmock/src/prep_ref.py:111-112 | `[:, 0]` succeeds exactly when no row is empty |
| PrepRef.XiColumns | EZmock/src/prep_ref.py:110-114 | the columns exist exactly when the pair tables have a first column and there are two multipoles |
| PrepRef.XiTableLayout | EZmock/src/prep_ref.py:109-115 | each row holds s, smin, smax, xi0 and xi2 |
| PrepRef.BkTableLayout | EZmock/src/prep_ref.py:136-143 | each row holds theta, theta_mean, k3, modes, B and Q |
| PrepRef.LowestFree | EZmock/src/prep_ref.py:70-79 | the lowest descriptor at or above the start that is not open |
| PrepRef.EdgeCount | EZmock/src/prep_ref.py:85 | `nbin + 1` edges for an integer (a bool counts as one), and an error otherwise |
| PrepRef.DupGivesTwo | EZmock/src/prep_ref.py:78-79 | `os.dup(1)` returns 2 exactly when 0 and 1 are open and 2 is closed |
| PrepRef.StderrClosedAtImport | EZmock/src/prep_ref.py:70-78 | a descriptor 2 closed before import is taken by the null device, so `os.dup(1)` cannot return 2 and `get_xi` as written leaves the table alone |
| PrepRef.AgreeWhenStderrAndNullOpen | EZmock/src/prep_ref.py:78-81 | with 2 and the null device open, the code as written and the correction redirect exactly when 1 is open |
| PrepRef.ClosedNullDeviceDiffers | EZmock/src/prep_ref.py:78-81 | with the null device's descriptor closed, the copy made by `os.dup` reopens it: the code as written proceeds where the correction fails |
| PrepRef.CorrectionRefusesClosedStderr | EZmock/src/prep_ref.py:78-96 | on the table of the finding, the code as written proceeds to redirect, while the corrected save of descriptor 2 fails because 2 is closed |
| PrepRef.StdoutLeftOnNullDevice | EZmock/src/prep_ref.py:78-96 | a concrete table on which `get_xi` as written leaves standard output on the null device |
| PrepRef.SavedAboveStandard | EZmock/src/prep_ref.py:78-79 | copies made at or above 3 never land on descriptor 2 |
| PrepRef.RestoreFirst | EZmock/src/prep_ref.py:88-98 | restoring after only the first copy gives the original table |
| PrepRef.RestoreBoth | EZmock/src/prep_ref.py:88-98 | restoring after both copies gives the original table unless the first copy was 2. If it was, descriptor 1 ends on the null device when that descriptor is open; otherwise 1 keeps its file. Either way 2 becomes a copy of the old 1 |
| PrepRef.Process.constructor | EZmock/src/prep_ref.py:70 | the null device opens at the lowest free descriptor |
| PrepRef.Process.ReadAbacusMock | EZmock/src/prep_ref.py:19-32 | prints the path. A missing file is FileNotFound; otherwise the result is the parsed catalogue |
| PrepRef.Process.Dup | EZmock/src/prep_ref.py:78-79 | a copy of an open descriptor at the lowest free number; an error for a closed one |
| PrepRef.Process.Dup2 | EZmock/src/prep_ref.py:80-81 | points the target at the source's file, and fails for a closed source |
| PrepRef.Process.Close | EZmock/src/prep_ref.py:93-96 | removes the descriptor, and fails if it was not open |
| PrepRef.Process.Restore | EZmock/src/prep_ref.py:88-98 | the `finally` block. The first failing call ends it and its error is swallowed |
| PrepRef.XiCallMadeIff | EZmock/src/prep_ref.py:83-86 | the pair counter runs exactly when neither stacking, `nbin + 1` nor `np.linspace` raised, and then the result is the counter's |
| PrepRef.Process.CountPairs | EZmock/src/prep_ref.py:83-87 | the pair counter is called with `nbin + 1` edges only when the columns stack, the count is valid and both end points are numbers |
| PrepRef.Process.GetXiSaving | EZmock/src/prep_ref.py:71-98 | the result, the calls made and the table after `get_xi`, for copies saved at or above a given number |
| PrepRef.Process.GetXiAsWritten | EZmock/src/prep_ref.py:71-98 | `get_xi` as written leaves the table unchanged, except when 0 and 1 are open and 2 is closed. Then descriptor 1 ends on the null device when that descriptor is open; otherwise 1 keeps its file. Either way 2 becomes a copy of the old 1. The pair counter runs exactly when the redirect succeeds and the body gets past `np.linspace` |
| PrepRef.Process.GetXi | EZmock/src/prep_ref.py:71-98 | `get_xi` with the saved copies above 2 leaves the table exactly as it found it on every path |
| PrepRef.Process.MeasurePk | EZmock/src/prep_ref.py:36-66 | the settings error, the call, the saved table, and the P_4 warning. The other errors are the external call raising and an unstackable table (LengthMismatch) |
| PrepRef.Process.MeasureXi | EZmock/src/prep_ref.py:100-116 | the settings error, the pair count with 100 mu bins and the FCFC configuration, the saved table and the result. It calls the corrected `get_xi` (see Findings), so the descriptor table is unchanged, and it fails where that correction refuses a closed descriptor 2 |
| PrepRef.Process.MeasureBk | EZmock/src/prep_ref.py:119-143 | the settings error, the call, and the saved table. The other errors are the external call raising and an unstackable table (LengthMismatch) |
| PrepRef.Process.MeasureXiThenBk | EZmock/src/prep_ref.py:147-148 | the pair count comes before the bispectrum, and a pass made both calls. It uses the corrected `get_xi` |
| PrepRef.Process.SaveRefClus | EZmock/src/prep_ref.py:145-148 | the calls are the power spectrum, then the pair count, then the bispectrum. A pass made all three. It uses the corrected `get_xi`, so the descriptor table is unchanged |

## Left out

- Console output in `config_helper.py`, `AbacusHODmock.py`, `data_object.py` and most of `prep_ref.py` is not modelled. The `run_disp_2lpt` console is modelled as message values, without the formatting of the text. `measure_pk`'s P_4 warning is modelled as a string.
- Python float formatting is not modelled. The redshift and fnl of the parameter file are passed in as their printed text, and `ArgsOk` requires each to be a single field. The `{z:.3f}` of `MOCK_IN` is a string argument too.
- YAML text is not modelled: the store maps a path to the parsed document. `yaml.dump` formatting, key order and anchors are left out, as is `safe_load` of malformed text. An unreadable file is a missing path.
- The contents of `AbacusHOD`, `compute_multipole`, `np.save`, `np.loadtxt`, `np.linalg.inv`, `catinbox.powspec_box`, `catinbox.bispec_box`, `py_compute_cf` and the 2LPTic binary are not modelled. They are parameters or recorded calls.
- Floating point is not modelled: every number is a Dafny `real`. The float32 cast of `get_xi` and the `np.linspace` edge values are left out. Only the edge count, its errors and the TypeError of a non-numeric end point are kept.
- PrepRef.XiOutcome: an end point that is a list, which `np.linspace` broadcasts into a grid of edges, is treated as a TypeError like any other non-number.
- DataObject.DensityTerm is written as `-0.5 * (diff/std)²`, which is the same real number as `-0.5 * diff²/std²`.
- Disp2LPTRun.Host.WriteParam: a failing `mkdir` or `write_text` is not modelled, and the write always succeeds. The same holds for the log file of `run_disp_2lpt` and for `os.makedirs` in `config_Abacus`, except that an empty `output_dir` fails.
- `os.path.abspath` is not modelled. The working directory is taken to be absolute and normalised already.
- The inheritable flag of duplicated descriptors is not modelled. The descriptor table maps a number to the open file it refers to.
- `ncpu` is a constructor argument of `PrepRef.Process`, not `int(os.environ[...])`. `int()` of a malformed value raises at import, which is not modelled.
- `argparse` is not modelled: `AbacusHODMock.Args` holds its parsed result, and `DefaultNthread` holds its default of 16.
- AbacusHODMock.ComputeAll: lines 98-99 of `AbacusHODmock.py` stamp the flags into the caller's `cfg['HOD_params']` in place. In `main` that mapping may be the module's `CONFIG`. The model saves a stamped copy, and the caller's value is left unchanged, so this aliasing is not modelled.
- DataObject.ComboPaths always has all three paths. A `tracer_combos` entry that lacks `path2wp`, `path2xi02` or `path2cov` raises KeyError at lines 53-56 of `data_object.py`, which the model cannot reach.
- `AbacusHODMock.RunMain` states only the error and the result keys for the whole of `main`. The store and calls are stated by `ComputeAll` and `ConfigAbacus`, which it calls.
- `PrepRef.Process.MeasureXiThenBk` and `PrepRef.Process.SaveRefClus` state the order and number of the external calls and the descriptor table. Each step's own effects are stated by `MeasurePk`, `MeasureXi` and `MeasureBk`.
- PrepRef.Process.MeasureXi, PrepRef.Process.MeasureXiThenBk and PrepRef.Process.SaveRefClus call the corrected `GetXi`, not `GetXiAsWritten`. They differ from the source when descriptor 2 is closed on entry: the source carries on and may leave standard output on the null device, while these return `DescriptorError` (`PrepRef.CorrectionRefusesClosedStderr`). They also differ when the null device's descriptor has been closed, since the source's copy can reopen that number (`PrepRef.ClosedNullDeviceDiffers`). With descriptor 2 and the null device open on entry the two agree (`PrepRef.AgreeWhenStderrAndNullOpen`).
- Text.Lower: lowers ASCII letters only. Python's `str.lower()` also maps non-ASCII letters, so a `clustering_type` spelled with such letters is not modelled.
- Text.JoinPath: is `os.path.join` on a directory in normal form. pathlib's `/` also drops `.` parts and collapses repeated slashes (`Path('.') / 'x'` is `x`), which is not modelled. The model joins the directory text as written, which agrees with pathlib only when that text is already in normal form, as `os.getcwd()` is.
- Signals, concurrency and the process exit of `sys.exit`/`exit` are not modelled. An exit is an `Exited(code)` result.
- Plotting scripts, notebooks and the rest of the repository are not part of this model.

## Findings

| source | as written | input that shows it | evidently intended | confidence | as-written member | corrected member |
|---|---|---|---|---|---|---|
| EZmock/src/prep_ref.py:78-96 | the saved copy of standard output comes from `os.dup(1)`, the lowest free descriptor. When descriptor 2 is closed, the copy lands on 2, and `os.dup2(devnull, 2)` overwrites it. The `finally` block then restores standard output from the null device | descriptors 0 and 1 open, 2 closed after the module was imported (a descriptor 2 closed before import is taken by the null device, `PrepRef.StderrClosedAtImport`), null device on 3; the lemma PrepRef.StdoutLeftOnNullDevice exhibits it | the saved copies do not collide with descriptors 1 and 2, so `get_xi` leaves the descriptor table as it found it. The corrected version saves its copies above 2, so on the same input it raises `EBADF` when saving the closed descriptor 2, where the code as written proceeds (PrepRef.CorrectionRefusesClosedStderr) | not executed | PrepRef.Process.GetXiAsWritten | PrepRef.Process.GetXi |
