/** Writing the parameter file and launching the 2LPT displacement code
    (`generate_2lpt_param`'s optional write and `run_disp_2lpt` in
    `EZmock/src/disp2LPT_helper.py`). The file system, the environment, the
    console and the child process are the fields of a `Host`. */
module Disp2LPTRun {
  import opened Wrappers
  import opened Text
  import opened Disp2LPTHelper

  // ---------------------------------------------------------------------
  // Names derived from the seed.

  /** A value between a fixed prefix and a fixed suffix can be read back. */
  lemma AffixInjective(pre: string, x: string, y: string, post: string)
    requires pre + x + post == pre + y + post
    ensures x == y
  {
    var s := pre + x + post;
    assert |x| == |y|;
    assert x == s[|pre|..|pre| + |x|];
    assert y == (pre + y + post)[|pre|..|pre| + |y|];
  }

  const ParamPrefix := "conf_2lpt/params_2lpt/r"

  /** `fn_config`: the parameter file of a seed, relative to the working directory. */
  function ParamPath(seed: int): (p: string)
    ensures StartsWith(p, ParamPrefix) && p[|p| - 6..] == ".param"
  {
    ParamPrefix + IntToString(seed) + ".param"
  }

  /** Different seeds write different parameter files. */
  lemma ParamPathInjective(s1: int, s2: int)
    requires ParamPath(s1) == ParamPath(s2)
    ensures s1 == s2
  {
    AffixInjective(ParamPrefix, IntToString(s1), IntToString(s2), ".param");
    IntToStringInjective(s1, s2);
  }

  /** `logs_dir`: `logs` under the working directory. `cwd` is what
      `os.getcwd()` returns, already absolute and normalised. */
  function LogsDir(cwd: string): string {
    JoinPath(cwd, "logs")
  }

  function LogName(seed: int): string {
    "2lpt_r" + IntToString(seed) + ".log"
  }

  /** `logpath`: `2lpt_r{seed}.log` in the logs directory. */
  function LogPath(cwd: string, seed: int): (p: string)
    ensures p == LogsDir(cwd) + "/" + LogName(seed)
  {
    JoinPath(LogsDir(cwd), LogName(seed))
  }

  /** Different seeds write different logs. */
  lemma LogPathInjective(cwd: string, s1: int, s2: int)
    requires LogPath(cwd, s1) == LogPath(cwd, s2)
    ensures s1 == s2
  {
    var d := LogsDir(cwd) + "/";
    assert d + LogName(s1) == d + LogName(s2);
    assert LogName(s1) == (d + LogName(s1))[|d|..];
    AffixInjective("2lpt_r", IntToString(s1), IntToString(s2), ".log");
    IntToStringInjective(s1, s2);
  }

  /** The log never overwrites the parameter file: one ends in `.log`,
      the other in `.param`. */
  lemma LogIsNotParam(cwd: string, s1: int, s2: int)
    ensures LogPath(cwd, s1) != ParamPath(s2)
  {
    var l := LogPath(cwd, s1);
    var p := ParamPath(s2);
    assert l[|l| - 1] == 'g';
    assert p[|p| - 1] == 'm';
  }

  // ---------------------------------------------------------------------
  // The environment.

  const LdVar := "LD_LIBRARY_PATH"
  const OmpVar := "OMP_NUM_THREADS"
  const HomeVar := "HOME"

  /** `s.rstrip("/")`. */
  function RStripSlash(s: string): (r: string)
    ensures |r| <= |s| && r == s[..|r|]
    ensures r == [] || r[|r| - 1] != '/'
    ensures forall i | |r| <= i < |s| :: s[i] == '/'
  {
    if s != [] && s[|s| - 1] == '/' then RStripSlash(s[..|s| - 1]) else s
  }

  /** `os.path.expanduser("~")`: `$HOME` when it is set, else the home
      directory of the password database, without trailing separators, and
      `/` when nothing is left. */
  function Home(environ: map<string, string>, pwdHome: string): (h: string)
    ensures h != []
    ensures HomeVar in environ && RStripSlash(environ[HomeVar]) != [] ==> h == RStripSlash(environ[HomeVar])
    ensures HomeVar !in environ && RStripSlash(pwdHome) != [] ==> h == RStripSlash(pwdHome)
  {
    var h := RStripSlash(if HomeVar in environ then environ[HomeVar] else pwdHome);
    if h == [] then "/" else h
  }

  /** The fftw2 and conda library directories under the home directory. */
  function LdPrefix(home: string): string {
    home + "/lib/fftw-2.1.5/lib:" + home + "/.conda/envs/ezmock_png/lib"
  }

  /** `new_ld`: the prefix, then `:` and the old value when that is set and non-empty. */
  function NewLdPath(home: string, environ: map<string, string>): (r: string)
    ensures StartsWith(r, LdPrefix(home))
    ensures r == LdPrefix(home) <==> LdVar !in environ || environ[LdVar] == ""
    ensures r != LdPrefix(home) ==> r[|LdPrefix(home)|] == ':' && r[|LdPrefix(home)| + 1..] == environ[LdVar]
  {
    if LdVar in environ && environ[LdVar] != "" then LdPrefix(home) + ":" + environ[LdVar] else LdPrefix(home)
  }

  /** A second run prepends the prefix again, in front of the first run's value. */
  lemma LdPathRepeated(home: string, environ: map<string, string>)
    ensures var once := environ[LdVar := NewLdPath(home, environ)];
      NewLdPath(home, once) == LdPrefix(home) + ":" + NewLdPath(home, environ)
  {
    var once := environ[LdVar := NewLdPath(home, environ)];
    assert once[LdVar] != "" by {
      assert |once[LdVar]| >= |LdPrefix(home)| > 0;
    }
  }

  /** `env = os.environ.copy(); env.setdefault("OMP_NUM_THREADS", "1")`. */
  function ChildEnv(environ: map<string, string>): (env: map<string, string>)
    ensures env.Keys == environ.Keys + {OmpVar}
    ensures forall k | k in environ :: env[k] == environ[k]
    ensures OmpVar !in environ ==> env[OmpVar] == "1"
  {
    if OmpVar in environ then environ else environ[OmpVar := "1"]
  }

  // ---------------------------------------------------------------------
  // The host.

  /** What the child process does: it exits with a code after writing its
      output, or it cannot be started at all. */
  datatype Launch = Exited(code: int, output: string) | NotStarted

  /** The two ways `run_disp_2lpt` raises. */
  datatype RunError =
    | CalledProcessError(returncode: int)   // re-raised after the report
    | LaunchError                           // OSError from subprocess.run, not reported

  /** One `subprocess.run` call: the command line, its environment and the
      file its output goes to. */
  datatype Command = Command(argv: seq<string>, env: map<string, string>, log: string)

  /** The 2LPTnonlocal binary under the home directory. */
  function Binary(home: string): string {
    home + "/lib/2LPTic_PNG/2LPTnonlocal"
  }

  /** The lines `run_disp_2lpt` prints. */
  datatype Message =
    | Generated(path: string)
    | Generating(seed: int)
    | Failed(seed: int, code: int, logpath: string)
    | Done(logpath: string)

  /** The printed text of a message. */
  function MessageText(m: Message): string {
    match m
    case Generated(path) => "Generated " + path
    case Generating(seed) => "Generating 2LPT displacement field for seed " + IntToString(seed) + "..."
    case Failed(seed, code, logpath) =>
      "2LPT failed for seed " + IntToString(seed) + ", returncode " + IntToString(code) + ". See " + logpath
    case Done(logpath) => "Done. Displacement field saved to /pscratch/sd/s/siyizhao/2LPTdisp/. LOG: " + logpath
  }

  /** What a file holds: the parameter file `generate_2lpt_param` writes for
      `args`, or plain text. */
  datatype FileContent = ParamFile(args: ParamArgs) | TextFile(text: string)

  /** The characters of a file. */
  function Contents(f: FileContent): (s: string)
    ensures f.ParamFile? ==> s == GenerateParamText(f.args)
    ensures f.TextFile? ==> s == f.text
  {
    match f
    case ParamFile(a) => GenerateParamText(a)
    case TextFile(t) => t
  }

  class Host {
    /** `os.environ`. */
    var environ: map<string, string>
    /** File contents by path. */
    var files: map<string, FileContent>
    var dirs: set<string>
    /** Lines printed to standard output. */
    var console: seq<Message>
    /** The child processes started, in order. */
    var commands: seq<Command>
    /** `os.getcwd()`. */
    const cwd: string
    /** The home directory of the password database. */
    const pwdHome: string

    constructor (environ: map<string, string>, files: map<string, FileContent>, dirs: set<string>,
                 cwd: string, pwdHome: string)
      ensures this.environ == environ && this.files == files && this.dirs == dirs
      ensures console == [] && commands == []
      ensures this.cwd == cwd && this.pwdHome == pwdHome
    {
      this.environ := environ;
      this.files := files;
      this.dirs := dirs;
      this.console := [];
      this.commands := [];
      this.cwd := cwd;
      this.pwdHome := pwdHome;
    }

    /** The write at the end of `generate_2lpt_param`: only when the path is
        given and non-empty, after creating the parent directories. */
    method WriteParam(a: ParamArgs, outputPath: Option<string>)
      modifies this`files, this`dirs
      ensures outputPath.Some? && outputPath.value != "" ==>
        files == old(files)[outputPath.value := ParamFile(a)] && dirs == old(dirs) + Parents(outputPath.value)
      ensures outputPath.None? || outputPath.value == "" ==> files == old(files) && dirs == old(dirs)
    {
      if outputPath.Some? && outputPath.value != "" {
        dirs := dirs + Parents(outputPath.value);
        files := files[outputPath.value := ParamFile(a)];
      }
    }

    /** `generate_2lpt_param(...)`: returns the text, and writes it when a path is given. */
    method GenerateParam(a: ParamArgs, outputPath: Option<string>) returns (text: string)
      modifies this`files, this`dirs
      ensures text == GenerateParamText(a)
      ensures outputPath.Some? && outputPath.value != "" ==>
        && files == old(files)[outputPath.value := ParamFile(a)] && dirs == old(dirs) + Parents(outputPath.value)
        && Contents(files[outputPath.value]) == text
      ensures outputPath.None? || outputPath.value == "" ==> files == old(files) && dirs == old(dirs)
    {
      text := GenerateParamText(a);
      WriteParam(a, outputPath);
    }

    /** `LD_LIBRARY_PATH` gets the library prefix in the process environment;
        the child's environment is a copy with one thread by default. */
    method ComposeEnv(home: string) returns (env: map<string, string>)
      modifies this`environ
      ensures environ == old(environ)[LdVar := NewLdPath(home, old(environ))]
      ensures env == ChildEnv(environ)
    {
      var newLd := NewLdPath(home, environ);
      environ := environ[LdVar := newLd];
      env := ChildEnv(environ);
    }

    /** `os.makedirs(logs_dir, exist_ok=True)` and `open(logpath, "w")`: the
        log exists and is empty. */
    method OpenLog(seed: int) returns (logpath: string)
      modifies this`dirs, this`files
      ensures logpath == LogPath(cwd, seed)
      ensures dirs == old(dirs) + {LogsDir(cwd)}
      ensures files == old(files)[logpath := TextFile("")]
    {
      var logsDir := LogsDir(cwd);
      dirs := dirs + {logsDir};
      logpath := JoinPath(logsDir, LogName(seed));
      files := files[logpath := TextFile("")];
    }

    /** `subprocess.run(cmd, env=env, stdout=logfile, ..., check=True)`: the
        child's output goes to the log; a non-zero exit is reported and raised. */
    method RunChild(seed: int, cmd: seq<string>, env: map<string, string>, logpath: string, child: Launch)
      returns (r: Outcome<RunError>)
      modifies this`files, this`console, this`commands
      ensures commands == old(commands) + [Command(cmd, env, logpath)]
      ensures files == if child.Exited? then old(files)[logpath := TextFile(child.output)] else old(files)
      ensures match child
        case NotStarted => r == Fail(LaunchError) && console == old(console)
        case Exited(code, _) =>
          if code == 0 then r == Pass && console == old(console) + [Done(logpath)]
          else r == Fail(CalledProcessError(code)) && console == old(console) + [Failed(seed, code, logpath)]
    {
      commands := commands + [Command(cmd, env, logpath)];
      match child
      case NotStarted =>
        r := Fail(LaunchError);
      case Exited(code, output) =>
        files := files[logpath := TextFile(output)];
        if code != 0 {
          console := console + [Failed(seed, code, logpath)];
          r := Fail(CalledProcessError(code));
        } else {
          console := console + [Done(logpath)];
          r := Pass;
        }
    }

    /** The second half of `run_disp_2lpt`: compose the environment, open
        the log and run the binary on `fnConfig`. */
    method Launch2LPT(seed: int, fnConfig: string, child: Launch) returns (r: Outcome<RunError>)
      modifies this`environ, this`files, this`dirs, this`console, this`commands
      ensures var home := Home(old(environ), pwdHome);
        && environ == old(environ)[LdVar := NewLdPath(home, old(environ))]
        && commands == old(commands) + [Command([Binary(home), fnConfig], ChildEnv(environ), LogPath(cwd, seed))]
      ensures dirs == old(dirs) + {LogsDir(cwd)}
      ensures files == old(files)[LogPath(cwd, seed) := TextFile(if child.Exited? then child.output else "")]
      ensures match child
        case NotStarted => r == Fail(LaunchError) && console == old(console)
        case Exited(code, _) =>
          if code == 0 then r == Pass && console == old(console) + [Done(LogPath(cwd, seed))]
          else r == Fail(CalledProcessError(code)) && console == old(console) + [Failed(seed, code, LogPath(cwd, seed))]
    {
      var home := Home(environ, pwdHome);
      var env, logpath := ComposeAndOpen(home, seed);
      r := RunChild(seed, [Binary(home), fnConfig], env, logpath, child);
    }

    /** The environment for the child and its empty log, before the run. */
    method ComposeAndOpen(home: string, seed: int) returns (env: map<string, string>, logpath: string)
      modifies this`environ, this`files, this`dirs
      ensures environ == old(environ)[LdVar := NewLdPath(home, old(environ))]
      ensures env == ChildEnv(environ)
      ensures logpath == LogPath(cwd, seed)
      ensures dirs == old(dirs) + {LogsDir(cwd)}
      ensures files == old(files)[logpath := TextFile("")]
    {
      env := ComposeEnv(home);
      logpath := OpenLog(seed);
    }

    /** The first half of `run_disp_2lpt`: write the parameter file under
        its seed's name and announce it. */
    method Prepare(a: ParamArgs) returns (fnConfig: string)
      modifies this`files, this`dirs, this`console
      ensures fnConfig == ParamPath(a.seed)
      ensures dirs == old(dirs) + Parents(fnConfig)
      ensures files == old(files)[fnConfig := ParamFile(a)]
      ensures console == old(console) + [Generated(fnConfig), Generating(a.seed)]
    {
      fnConfig := ParamPath(a.seed);
      // The text `generate_2lpt_param` returns is discarded here: only its write matters.
      WriteParam(a, Some(fnConfig));
      console := console + [Generated(fnConfig), Generating(a.seed)];
    }

    /** `run_disp_2lpt(...)` with the child's behaviour `child`. */
    method RunDisp2LPT(a: ParamArgs, child: Launch) returns (r: Outcome<RunError>)
      modifies this`environ, this`files, this`dirs, this`console, this`commands
      ensures var home := Home(old(environ), pwdHome);
        environ == old(environ)[LdVar := NewLdPath(home, old(environ))]
      ensures var home := Home(old(environ), pwdHome);
        commands == old(commands) + [Command([Binary(home), ParamPath(a.seed)], ChildEnv(environ), LogPath(cwd, a.seed))]
      ensures dirs == old(dirs) + Parents(ParamPath(a.seed)) + {LogsDir(cwd)}
      ensures files == old(files)[ParamPath(a.seed) := ParamFile(a)]
                                 [LogPath(cwd, a.seed) := TextFile(if child.Exited? then child.output else "")]
      ensures var started := old(console) + [Generated(ParamPath(a.seed)), Generating(a.seed)];
        match child
        case NotStarted => r == Fail(LaunchError) && console == started
        case Exited(code, _) =>
          if code == 0 then r == Pass && console == started + [Done(LogPath(cwd, a.seed))]
          else r == Fail(CalledProcessError(code)) && console == started + [Failed(a.seed, code, LogPath(cwd, a.seed))]
    {
      var fnConfig := Prepare(a);
      r := Launch2LPT(a.seed, fnConfig, child);
    }
  }

  // ---------------------------------------------------------------------
  // What a run leaves behind.

  /** After a run the parameter file holds the rendered text, and the text
      read back from it carries the seed. */
  lemma ParamFileAfterRun(files: map<string, FileContent>, cwd: string, a: ParamArgs, log: string)
    requires ArgsOk(a)
    ensures var after := files[ParamPath(a.seed) := ParamFile(a)][LogPath(cwd, a.seed) := TextFile(log)];
      && ParamPath(a.seed) in after && Contents(after[ParamPath(a.seed)]) == GenerateParamText(a)
      && Lookup(Contents(after[ParamPath(a.seed)]), "Seed") == Some(IntToString(a.seed))
  {
    LogIsNotParam(cwd, a.seed, a.seed);
    SeedRead(a);
  }

  /** The environment given to the child: the updated library path, and one
      thread unless the caller chose otherwise; the process's own environment
      does not gain `OMP_NUM_THREADS`. */
  lemma ChildEnvAfterRun(environ: map<string, string>, home: string)
    ensures var after := environ[LdVar := NewLdPath(home, environ)];
      && ChildEnv(after)[LdVar] == NewLdPath(home, environ)
      && ChildEnv(after)[OmpVar] == (if OmpVar in environ then environ[OmpVar] else "1")
      && (OmpVar in after <==> OmpVar in environ)
  {
    assert LdVar != OmpVar;
  }
}
