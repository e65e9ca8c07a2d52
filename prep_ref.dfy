/** Reading the reference AbacusSummit catalogue and measuring its clustering
    (EZmock/src/prep_ref.py). The measurements themselves (`catinbox`'s power
    spectrum and bispectrum, `pyfcfc`'s pair counts) and `np.loadtxt` are
    external: what they return is passed in, and every call made to them is
    recorded in order. Files, the YAML configuration and the process's file
    descriptors are abstract maps. */
module PrepRef {
  import opened Wrappers
  import opened Text
  import opened ConfigHelper

  const Lbox: real := 2000.0
  const Ngrid: int := 512

  /** Where the configuration of the measurements is read from. */
  const ConfigPath: string := "conf/fitEZ.yaml"

  /** The pair-counting configuration handed to `pyfcfc`. */
  const FcfcConf: string := "conf/fcfc_ref.conf"

  datatype PrepError =
    | FileNotFound(path: string)   // open() of a missing file
    | KeyMissing(key: string)      // KeyError
    | NotADict(key: string)     // TypeError: indexing something that is not a dict
    | NotAnInteger                 // TypeError: a bin count that is not an int
    | ParseError                   // ValueError raised by np.loadtxt
    | BadShape                     // IndexError: a column or entry that is not there
    | LengthMismatch               // ValueError: np.column_stack of unequal columns
    | NegativeCount                // ValueError: np.linspace with a negative count
    | NotANumber                   // TypeError: np.linspace with a non-numeric end point
    | DescriptorError              // OSError from os.dup / os.dup2
    | ExternalError                // an exception raised inside the external code

  // ---------------------------------------------------------------------
  // read_Abacus_mock

  /** A header line: after any leading whitespace comes `#`. */
  predicate IsCommentLine(line: string) {
    line != [] && (line[0] == '#' || (IsSpace(line[0]) && IsCommentLine(line[1..])))
  }

  /** That is the test `line.lstrip().startswith('#')`. */
  lemma {:induction false} CommentLineIsLStrip(line: string)
    ensures IsCommentLine(line) <==> StartsWith(LStrip(line), "#")
  {
    if line != [] && IsSpace(line[0]) {
      CommentLineIsLStrip(line[1..]);
    }
  }

  /** How many lines the header loop consumes: every leading comment line and
      then the first line that is not one, which the `break` leaves consumed. */
  function HeaderEnd(lines: seq<string>): (n: nat)
    ensures n <= |lines|
    ensures n == 0 <==> lines == []
  {
    if lines == [] then 0
    else if !IsCommentLine(lines[0]) then 1
    else 1 + HeaderEnd(lines[1..])
  }

  /** The lines the header loop consumes: all but the last are comments, and
      the last is a comment only when the whole file is. */
  lemma {:induction false} HeaderEndSpans(lines: seq<string>)
    ensures forall j | 0 <= j < HeaderEnd(lines) - 1 :: IsCommentLine(lines[j])
    ensures 0 < HeaderEnd(lines) && IsCommentLine(lines[HeaderEnd(lines) - 1]) ==>
      HeaderEnd(lines) == |lines| && forall j | 0 <= j < |lines| :: IsCommentLine(lines[j])
  {
    if lines != [] && IsCommentLine(lines[0]) {
      var rest := lines[1..];
      HeaderEndSpans(rest);
      assert HeaderEnd(lines) == 1 + HeaderEnd(rest);
      forall j | 0 <= j < |rest| ensures rest[j] == lines[j + 1] {
      }
    }
  }

  /** The loop `for line in it: if not comment: break` over the open file. */
  method SkipHeader(lines: seq<string>) returns (next: nat)
    ensures next == HeaderEnd(lines)
  {
    next := 0;
    while next < |lines|
      invariant next <= |lines|
      invariant HeaderEnd(lines) == next + HeaderEnd(lines[next..])
    {
      var line := lines[next];
      assert lines[next..][1..] == lines[next + 1..];
      next := next + 1;
      if !IsCommentLine(line) {
        break;
      }
    }
  }

  /** The first line that is not a comment is never given to `np.loadtxt`:
      only the lines after it are parsed. */
  lemma {:induction false} FirstRecordSkipped(lines: seq<string>, k: nat)
    requires k < |lines| && !IsCommentLine(lines[k])
    requires forall j | 0 <= j < k :: IsCommentLine(lines[j])
    ensures HeaderEnd(lines) == k + 1
    ensures lines[HeaderEnd(lines)..] == lines[k + 1..]
    decreases k
  {
    if k > 0 {
      var rest := lines[1..];
      assert IsCommentLine(lines[0]) && rest[k - 1] == lines[k];
      forall j | 0 <= j < k - 1 ensures IsCommentLine(rest[j]) {
        assert rest[j] == lines[j + 1];
      }
      FirstRecordSkipped(rest, k - 1);
      assert rest[k..] == lines[k + 1..];
    }
  }

  /** A file with no header loses its first data row. */
  lemma NoHeaderDropsFirstRow()
    ensures var lines := ["1 2 3", "4 5 6", "7 8 9"];
      lines[HeaderEnd(lines)..] == ["4 5 6", "7 8 9"]
  {
    var lines := ["1 2 3", "4 5 6", "7 8 9"];
    assert !IsCommentLine(lines[0]);
  }

  /** `MOCK_IN`: the catalogue of one tracer in one mock directory. The
      redshift arrives already formatted with three decimals. */
  function MockPath(dir: string, sim: string, zText: string, hod: string, tracer: string): string {
    "/pscratch/sd/s/siyizhao/desi-dr2-hod/" + dir + "/" + sim + "/z" + zText
      + "/galaxies_rsd" + hod + "/" + tracer + "s.dat"
  }

  /** Within one mock directory, different tracers are read from different files. */
  lemma MockPathInjective(dir: string, sim: string, zText: string, hod: string, t1: string, t2: string)
    requires MockPath(dir, sim, zText, hod, t1) == MockPath(dir, sim, zText, hod, t2)
    ensures t1 == t2
  {
    var pre := "/pscratch/sd/s/siyizhao/desi-dr2-hod/" + dir + "/" + sim + "/z" + zText
      + "/galaxies_rsd" + hod + "/";
    var p1 := pre + t1 + "s.dat";
    var p2 := pre + t2 + "s.dat";
    assert p1 == MockPath(dir, sim, zText, hod, t1);
    assert p2 == MockPath(dir, sim, zText, hod, t2);
    assert |t1| == |t2|;
    assert t1 == p1[|pre|..|pre| + |t1|];
    assert t2 == p2[|pre|..|pre| + |t2|];
  }

  /** What `read_Abacus_mock` returns: the row count and the three position columns. */
  datatype Catalogue = Catalogue(num: nat, x: seq<real>, y: seq<real>, z: seq<real>)

  /** `data[:,c]` for every row. */
  function Column(rows: seq<seq<real>>, c: nat): (col: seq<real>)
    requires forall i | 0 <= i < |rows| :: c < |rows[i]|
    ensures |col| == |rows| && forall i | 0 <= i < |rows| :: col[i] == rows[i][c]
  {
    seq(|rows|, i requires 0 <= i < |rows| => rows[i][c])
  }

  /** The catalogue in the rows `np.loadtxt` returned. `np.loadtxt` squeezes a
      single row (or no row at all) to a one-dimensional array, on which
      `data[:,0]` is an IndexError, as is a row with fewer than three entries. */
  function CatalogueOf(rows: seq<seq<real>>): (r: Result<Catalogue, PrepError>)
    ensures r.Success? <==> |rows| >= 2 && forall i | 0 <= i < |rows| :: |rows[i]| >= 3
    ensures r.Failure? ==> r.error == BadShape
    ensures r.Success? ==>
      && r.value.num == |rows| == |r.value.x| == |r.value.y| == |r.value.z|
      && forall i | 0 <= i < |rows| ::
           r.value.x[i] == rows[i][0] && r.value.y[i] == rows[i][1] && r.value.z[i] == rows[i][2]
  {
    if |rows| < 2 || exists i | 0 <= i < |rows| :: |rows[i]| < 3 then Failure(BadShape)
    else Success(Catalogue(|rows|, Column(rows, 0), Column(rows, 1), Column(rows, 2)))
  }

  // ---------------------------------------------------------------------
  // Output tables: np.column_stack and np.savetxt

  /** `np.column_stack(cols)`: row `i` holds entry `i` of every column, in order. */
  function ColumnStack(cols: seq<seq<real>>): (r: Result<seq<seq<real>>, PrepError>)
    ensures r.Success? <==> |cols| > 0 && forall j | 0 <= j < |cols| :: |cols[j]| == |cols[0]|
    ensures r.Failure? ==> r.error == LengthMismatch
    ensures r.Success? ==>
      && |r.value| == |cols[0]|
      && forall i | 0 <= i < |r.value| :: |r.value[i]| == |cols| && forall j | 0 <= j < |cols| :: r.value[i][j] == cols[j][i]
  {
    if |cols| == 0 || exists j | 0 <= j < |cols| :: |cols[j]| != |cols[0]| then Failure(LengthMismatch)
    else
      Success(seq(|cols[0]|, i requires 0 <= i < |cols[0]| =>
                seq(|cols|, j requires 0 <= j < |cols| && i < |cols[j]| => cols[j][i])))
  }

  /** Reading column `j` back out of the stacked rows gives the `j`-th input column. */
  lemma ColumnOfStack(cols: seq<seq<real>>, j: nat)
    requires ColumnStack(cols).Success? && j < |cols|
    ensures forall i | 0 <= i < |ColumnStack(cols).value| :: j < |ColumnStack(cols).value[i]|
    ensures Column(ColumnStack(cols).value, j) == cols[j]
  {
    assert |cols[j]| == |cols[0]|;
  }

  /** A file written by `np.savetxt`: its header line and its rows. */
  datatype Table = Table(header: string, rows: seq<seq<real>>)

  /** `s[:-1]`: every entry but the last (nothing, for an empty array). */
  function DropLast(s: seq<real>): (r: seq<real>)
    ensures |r| == if s == [] then 0 else |s| - 1
    ensures forall i | 0 <= i < |r| :: r[i] == s[i]
  {
    if s == [] then [] else s[..|s| - 1]
  }

  /** `s[1:]`: every entry but the first (nothing, for an empty array). */
  function DropFirst(s: seq<real>): (r: seq<real>)
    ensures |r| == if s == [] then 0 else |s| - 1
    ensures forall i | 0 <= i < |r| :: r[i] == s[i + 1]
  {
    if s == [] then [] else s[1..]
  }

  /** `np.zeros_like(p)`. */
  function ZerosLike(p: seq<real>): (z: seq<real>)
    ensures |z| == |p| && forall i | 0 <= i < |z| :: z[i] == 0.0
  {
    seq(|p|, _ => 0.0)
  }

  // ---------------------------------------------------------------------
  // The configuration of the measurements

  /** `node[key]` on a parsed YAML node. */
  function Lookup(node: Value, key: string): (r: Result<Value, PrepError>)
    ensures r.Success? <==> node.Dict? && key in node.entries
    ensures r.Success? ==> r.value == node.entries[key]
    ensures r.Failure? ==> r.error == if node.Dict? then KeyMissing(key) else NotADict(key)
  {
    if !node.Dict? then Failure(NotADict(key))
    else if key !in node.entries then Failure(KeyMissing(key))
    else Success(node.entries[key])
  }

  /** The values of `keys` in `item`, read in order as the configuration
      dictionary literal does: the first missing key raises. */
  function Fields(item: Value, keys: seq<string>): (r: Result<seq<Value>, PrepError>)
    ensures r.Success? <==> forall i | 0 <= i < |keys| :: Lookup(item, keys[i]).Success?
    ensures r.Success? ==> |r.value| == |keys| && forall i | 0 <= i < |keys| ::
      item.Dict? && keys[i] in item.entries && r.value[i] == item.entries[keys[i]]
    ensures r.Failure? ==> exists i | 0 <= i < |keys| ::
      && Lookup(item, keys[i]).Failure? && r.error == Lookup(item, keys[i]).error
      && forall j | 0 <= j < i :: Lookup(item, keys[j]).Success?
  {
    if keys == [] then Success([])
    else
      var head := Lookup(item, keys[0]);
      if head.Failure? then Failure(head.error)
      else
        var tail := Fields(item, keys[1..]);
        if tail.Failure? then Failure(tail.error) else Success([head.value] + tail.value)
  }

  const PkKeys: seq<string> := ["kmin", "kmax", "nbin"]
  const XiKeys: seq<string> := ["smin", "smax", "nbin"]
  const BkKeys: seq<string> := ["k1", "dk1", "k2", "dk2", "nbin"]

  /** `load_config()['clustering'][kind]`, then the keys the measurement reads. */
  function Settings(configs: map<string, Value>, kind: string, keys: seq<string>): (r: Result<seq<Value>, PrepError>)
    ensures ConfigPath !in configs ==> r == Failure(FileNotFound(ConfigPath))
    ensures r.Success? ==>
      && ConfigPath in configs
      && Lookup(configs[ConfigPath], "clustering").Success?
      && Lookup(Lookup(configs[ConfigPath], "clustering").value, kind).Success?
      && r == Fields(Lookup(Lookup(configs[ConfigPath], "clustering").value, kind).value, keys)
    // The first lookup that fails is the error: KeyError or TypeError naming its key.
    ensures ConfigPath in configs && Lookup(configs[ConfigPath], "clustering").Failure? ==>
      r == Failure(Lookup(configs[ConfigPath], "clustering").error)
    ensures ConfigPath in configs && Lookup(configs[ConfigPath], "clustering").Success?
            && Lookup(Lookup(configs[ConfigPath], "clustering").value, kind).Failure? ==>
      r == Failure(Lookup(Lookup(configs[ConfigPath], "clustering").value, kind).error)
    // Otherwise the result is the fields of `clustering[kind]`.
    ensures ConfigPath in configs && Lookup(configs[ConfigPath], "clustering").Success?
            && Lookup(Lookup(configs[ConfigPath], "clustering").value, kind).Success? ==>
      r == Fields(Lookup(Lookup(configs[ConfigPath], "clustering").value, kind).value, keys)
  {
    if ConfigPath !in configs then Failure(FileNotFound(ConfigPath))
    else
      var clustering := Lookup(configs[ConfigPath], "clustering");
      if clustering.Failure? then Failure(clustering.error)
      else
        var item := Lookup(clustering.value, kind);
        if item.Failure? then Failure(item.error) else Fields(item.value, keys)
  }

  // ---------------------------------------------------------------------
  // What the external measurements return, and the tables written from them

  /** The attributes of `catinbox`'s power-spectrum result that are saved;
      `p4` is `None` when no hexadecapole was computed. */
  datatype PowerSpectrum = PowerSpectrum(k: seq<real>, kedge: seq<real>, kmean: seq<real>, nmode: seq<real>,
                                         p0: seq<real>, p2: seq<real>, p4: Option<seq<real>>)

  /** The entries of `pyfcfc`'s result that are saved: the separations, the
      per-bin pair limits (one row per separation bin) and the multipoles of
      each catalogue pair (monopole first). */
  datatype PairCounts = PairCounts(s: seq<real>, pairSmin: seq<seq<real>>, pairSmax: seq<seq<real>>,
                                   multipoles: seq<seq<seq<real>>>)

  /** The attributes of `catinbox`'s bispectrum result that are saved. */
  datatype Bispectrum = Bispectrum(a: seq<real>, amean: seq<real>, k3: seq<real>, nmode: seq<real>,
                                   b: seq<real>, q: seq<real>)

  const PkHeader: string := "kcen kmin kmax kavg nmod P_0 P_2 P_4"
  const XiHeader: string := "s smin smax xi0 xi2"
  const BkHeader: string := "theta theta_mean k3 modes B Q"

  const P4Warning: string := "Warning: P_4 is None, set to zero."

  /** The columns `measure_pk` saves; a missing hexadecapole is saved as zeros. */
  function PkColumns(pk: PowerSpectrum): seq<seq<real>> {
    [pk.k, DropLast(pk.kedge), DropFirst(pk.kedge), pk.kmean, pk.nmode, pk.p0, pk.p2,
     if pk.p4.Some? then pk.p4.value else ZerosLike(pk.p0)]
  }

  /** The power-spectrum columns stack exactly when every attribute has one
      entry per bin and the edges one more (or there are no bins at all). */
  lemma PkColumnsAgree(pk: PowerSpectrum)
    ensures ColumnStack(PkColumns(pk)).Success? <==>
      && |pk.kmean| == |pk.nmode| == |pk.p0| == |pk.p2| == |pk.k|
      && (pk.p4.Some? ==> |pk.p4.value| == |pk.k|)
      && (|pk.kedge| == |pk.k| + 1 || pk.k == pk.kedge == [])
  {
    var cols := PkColumns(pk);
    var n := |pk.k|;
    assert |cols| == 8 && |cols[0]| == n;
    assert |cols[1]| == |cols[2]| == if pk.kedge == [] then 0 else |pk.kedge| - 1;
    assert |cols[3]| == |pk.kmean| && |cols[4]| == |pk.nmode| && |cols[5]| == |pk.p0| && |cols[6]| == |pk.p2|;
    assert |cols[7]| == if pk.p4.Some? then |pk.p4.value| else |pk.p0|;
    if ColumnStack(cols).Success? {
      assert |cols[1]| == n && |cols[3]| == n && |cols[4]| == n && |cols[5]| == n && |cols[6]| == n && |cols[7]| == n;
    }
  }

  /** Row `i` of the saved power spectrum is bin `i`: its centre, its two edges,
      its mean wavenumber, its mode count and the three multipoles, the
      hexadecapole being zero when none was computed. */
  lemma PkTableLayout(pk: PowerSpectrum)
    requires ColumnStack(PkColumns(pk)).Success?
    ensures |pk.kmean| == |pk.nmode| == |pk.p0| == |pk.p2| == |pk.k|
    ensures pk.p4.Some? ==> |pk.p4.value| == |pk.k|
    ensures pk.k != [] ==> |pk.kedge| == |pk.k| + 1
    ensures var rows := ColumnStack(PkColumns(pk)).value;
      && |rows| == |pk.k|
      && forall i | 0 <= i < |rows| ::
           && |rows[i]| == 8
           && rows[i][0] == pk.k[i] && rows[i][1] == pk.kedge[i] && rows[i][2] == pk.kedge[i + 1]
           && rows[i][3] == pk.kmean[i] && rows[i][4] == pk.nmode[i]
           && rows[i][5] == pk.p0[i] && rows[i][6] == pk.p2[i]
           && rows[i][7] == (if pk.p4.Some? then pk.p4.value[i] else 0.0)
  {
    PkColumnsAgree(pk);
    var cols := PkColumns(pk);
    var rows := ColumnStack(cols).value;
    forall i | 0 <= i < |rows|
      ensures rows[i][1] == pk.kedge[i] && rows[i][2] == pk.kedge[i + 1]
      ensures rows[i][7] == (if pk.p4.Some? then pk.p4.value[i] else 0.0)
    {
      assert rows[i][1] == cols[1][i] && rows[i][2] == cols[2][i] && rows[i][7] == cols[7][i];
    }
  }

  /** `m[:,0]`: the first entry of every row. */
  function FirstColumn(m: seq<seq<real>>): (r: Result<seq<real>, PrepError>)
    ensures r.Success? <==> forall i | 0 <= i < |m| :: m[i] != []
    ensures r.Success? ==> |r.value| == |m| && forall i | 0 <= i < |m| :: r.value[i] == m[i][0]
  {
    if exists i | 0 <= i < |m| :: m[i] == [] then Failure(BadShape) else Success(Column(m, 0))
  }

  /** The columns `measure_xi` saves: the separations, the lower and upper
      pair limits of each bin, the monopole and the quadrupole. */
  function XiColumns(x: PairCounts): (r: Result<seq<seq<real>>, PrepError>)
    ensures r.Success? <==>
      && FirstColumn(x.pairSmin).Success? && FirstColumn(x.pairSmax).Success?
      && |x.multipoles| > 0 && |x.multipoles[0]| > 1
  {
    var smin := FirstColumn(x.pairSmin);
    var smax := FirstColumn(x.pairSmax);
    if smin.Failure? || smax.Failure? || |x.multipoles| == 0 || |x.multipoles[0]| < 2 then Failure(BadShape)
    else Success([x.s, smin.value, smax.value, x.multipoles[0][0], x.multipoles[0][1]])
  }

  /** The rows `measure_xi` saves. */
  function XiRows(x: PairCounts): Result<seq<seq<real>>, PrepError> {
    if XiColumns(x).Failure? then Failure(XiColumns(x).error) else ColumnStack(XiColumns(x).value)
  }

  /** Row `i` of the saved correlation function is separation bin `i`. */
  lemma XiTableLayout(x: PairCounts)
    requires XiRows(x).Success?
    ensures XiColumns(x).Success? && XiRows(x) == ColumnStack(XiColumns(x).value)
    ensures |x.multipoles| > 0 && |x.multipoles[0]| > 1
    ensures |x.pairSmin| == |x.pairSmax| == |x.multipoles[0][0]| == |x.multipoles[0][1]| == |x.s|
    ensures var rows := XiRows(x).value;
      && |rows| == |x.s|
      && forall i | 0 <= i < |rows| ::
           && x.pairSmin[i] != [] && x.pairSmax[i] != []
           && rows[i] == [x.s[i], x.pairSmin[i][0], x.pairSmax[i][0], x.multipoles[0][0][i], x.multipoles[0][1][i]]
  {
    var cols := XiColumns(x).value;
    assert |cols| == 5;
    var rows := ColumnStack(cols).value;
    forall i | 0 <= i < |rows|
      ensures rows[i] == [cols[0][i], cols[1][i], cols[2][i], cols[3][i], cols[4][i]]
    {
    }
  }

  /** The columns `measure_bk` saves. */
  function BkColumns(bk: Bispectrum): seq<seq<real>> {
    [bk.a, bk.amean, bk.k3, bk.nmode, bk.b, bk.q]
  }

  /** Row `i` of the saved bispectrum is triangle configuration `i`. */
  lemma BkTableLayout(bk: Bispectrum)
    requires ColumnStack(BkColumns(bk)).Success?
    ensures |bk.amean| == |bk.k3| == |bk.nmode| == |bk.b| == |bk.q| == |bk.a|
    ensures var rows := ColumnStack(BkColumns(bk)).value;
      && |rows| == |bk.a|
      && forall i | 0 <= i < |rows| ::
           rows[i] == [bk.a[i], bk.amean[i], bk.k3[i], bk.nmode[i], bk.b[i], bk.q[i]]
  {
    var cols := BkColumns(bk);
    assert |cols| == 6;
    var rows := ColumnStack(cols).value;
    forall i | 0 <= i < |rows|
      ensures rows[i] == [cols[0][i], cols[1][i], cols[2][i], cols[3][i], cols[4][i], cols[5][i]]
    {
    }
  }

  // ---------------------------------------------------------------------
  // File descriptors: the table maps each open descriptor number to the open
  // file it refers to.

  /** The lowest descriptor number at or above `from` that is not open: what
      `os.dup` (from 0), `fcntl(F_DUPFD, from)` and `os.open` hand out. */
  function LowestFree(fds: map<int, nat>, from: int): (n: int)
    ensures n >= from && n !in fds
    ensures forall k | from <= k < n :: k in fds
    decreases |set k | k in fds && k >= from|
  {
    if from !in fds then from
    else
      ghost var above := set k | k in fds && k >= from;
      assert (set k | k in fds && k >= from + 1) == above - {from};
      LowestFree(fds, from + 1)
  }

  /** The table after the `finally` block of `get_xi`: descriptor 1 is restored
      from `old1` and the copy closed, then 2 from `old2`. The first call that
      fails ends the block, its exception swallowed. */
  function Restored(fds: map<int, nat>, old1: Option<int>, old2: Option<int>): map<int, nat> {
    if old1.Some? && old1.value !in fds then fds
    else
      var t := if old1.Some? then fds[1 := fds[old1.value]] - {old1.value} else fds;
      if old2.Some? && old2.value in t then t[2 := t[old2.value]] - {old2.value} else t
  }

  /** Whether saving descriptors 1 and 2 (copies at or above `from`) and
      pointing both at the null device succeeds. */
  predicate Redirects(fds: map<int, nat>, from: int, devnull: int) {
    && 1 in fds
    && var a := LowestFree(fds, from);
       var t := fds[a := fds[1]];
       && 2 in t
       && var b := LowestFree(t, from);
          devnull in t[b := t[2]]
  }

  /** The number of bin edges handed to the pair counter: `nbin + 1`, which
      needs an integer (a bool counts as one). */
  function EdgeCount(nbin: Value): (r: Result<int, PrepError>)
    ensures r.Success? <==> nbin.Int? || nbin.Bool?
    ensures nbin.Int? ==> r == Success(nbin.i + 1)
    ensures nbin.Bool? ==> r == Success(if nbin.b then 2 else 1)
  {
    match nbin
    case Int(i) => Success(i + 1)
    case Bool(b) => Success(if b then 2 else 1)
    case _ => Failure(NotAnInteger)
  }

  /** A call into external code, with the arguments the driver decides. */
  datatype Call =
    | PowerSpectrumBox(ngrid: int, lbox: real, settings: seq<Value>, ncpu: int, points: nat)
    | PairCount(points: nat, edges: int, nmu: int, conf: string, smin: Value, smax: Value)
    | BispectrumBox(ngrid: int, lbox: real, settings: seq<Value>, ncpu: int, points: nat)

  /** An end point `np.linspace` can scale: a number, a bool counting as one. */
  predicate IsNumber(v: Value) {
    v.Int? || v.Real? || v.Bool?
  }

  /** How the body of `get_xi` ends once the descriptors are redirected:
      stacking the positions, then `nbin + 1`, then `np.linspace`, which checks
      its count before it scales its end points, then the pair counter. */
  function XiOutcome(xs: seq<real>, ys: seq<real>, zs: seq<real>, smin: Value, smax: Value, nbin: Value,
                     cf: Option<PairCounts>)
    : Result<PairCounts, PrepError>
  {
    if !(|xs| == |ys| == |zs|) then Failure(LengthMismatch)
    else if EdgeCount(nbin).Failure? then Failure(EdgeCount(nbin).error)
    else if EdgeCount(nbin).value < 0 then Failure(NegativeCount)
    else if !IsNumber(smin) || !IsNumber(smax) then Failure(NotANumber)
    else if cf.None? then Failure(ExternalError)
    else Success(cf.value)
  }

  /** Whether the body of `get_xi` gets as far as calling the pair counter. */
  predicate XiCallMade(xs: seq<real>, ys: seq<real>, zs: seq<real>, smin: Value, smax: Value, nbin: Value) {
    && |xs| == |ys| == |zs|
    && EdgeCount(nbin).Success? && EdgeCount(nbin).value >= 0
    && IsNumber(smin) && IsNumber(smax)
  }

  /** The pair counter runs exactly when the body gets past `np.linspace`, and
      then the measurement is whatever the counter returned. */
  lemma XiCallMadeIff(xs: seq<real>, ys: seq<real>, zs: seq<real>, smin: Value, smax: Value, nbin: Value,
                      cf: Option<PairCounts>)
    ensures XiCallMade(xs, ys, zs, smin, smax, nbin) <==>
      XiOutcome(xs, ys, zs, smin, smax, nbin, cf) !in
        {Failure(LengthMismatch), Failure(NotAnInteger), Failure(NegativeCount), Failure(NotANumber)}
    ensures XiCallMade(xs, ys, zs, smin, smax, nbin) ==>
      XiOutcome(xs, ys, zs, smin, smax, nbin, cf) == if cf.None? then Failure(ExternalError) else Success(cf.value)
  {
  }

  /** What `read_Abacus_mock` makes of the lines of the open file: the lines
      left after the header loop go to `np.loadtxt`. */
  function ParsedMock(lines: seq<string>, loadtxt: seq<string> -> Option<seq<seq<real>>>)
    : Result<Catalogue, PrepError>
  {
    var data := loadtxt(lines[HeaderEnd(lines)..]);
    if data.None? then Failure(ParseError) else CatalogueOf(data.value)
  }

  /** The reading of the open file, with the header loop as written. */
  method ParseMock(lines: seq<string>, loadtxt: seq<string> -> Option<seq<seq<real>>>)
    returns (r: Result<Catalogue, PrepError>)
    ensures r == ParsedMock(lines, loadtxt)
  {
    var next := SkipHeader(lines);
    var data := loadtxt(lines[next..]);
    assert data == loadtxt(lines[HeaderEnd(lines)..]);
    if data.None? {
      r := Failure(ParseError);
    } else {
      r := CatalogueOf(data.value);
    }
  }

  /** Restoring from a copy of descriptor 1 alone (saving 2 failed) gives the table back. */
  lemma RestoreFirst(o: map<int, nat>, a: int)
    requires 1 in o && a !in o
    ensures Restored(o[a := o[1]], Some(a), None) == o
  {
    var t := o[a := o[1]];
    assert t[1 := t[a]] - {a} == o;
  }

  /** The `finally` block after both descriptors were saved at `a` and `b`
      and then redirected, or not, to the null device: the table comes back
      unless the copy of 1 was itself put on descriptor 2, which the redirect
      then overwrote. */
  lemma RestoreBoth(o: map<int, nat>, a: int, b: int, t3: map<int, nat>, devnull: int)
    requires 1 in o && a !in o && 2 in o[a := o[1]] && b !in o[a := o[1]]
    requires var t2 := o[a := o[1]][b := o[a := o[1]][2]];
      && t3.Keys == t2.Keys
      && (forall k | k in t3 && k != 1 && k != 2 :: t3[k] == t2[k])
      && t3[2] == (if devnull in t2 then t2[devnull] else t2[2])
    ensures a != 2 ==> Restored(t3, Some(a), Some(b)) == o
    ensures a == 2 ==>
      Restored(t3, Some(a), Some(b)) == o[1 := if devnull in o then o[devnull] else o[1]][2 := o[1]]
  {
    var t1 := o[a := o[1]];
    var t2 := t1[b := t1[2]];
    assert a != 1 && b != 1 && b != 2 && a != b;
    var u := t3[1 := t3[a]] - {a};
    assert b in u;
    var f := u[2 := u[b]] - {b};
    assert Restored(t3, Some(a), Some(b)) == f;
    assert t3.Keys == o.Keys + {a, b};
    assert u[b] == t2[b] == t1[2];
    if a != 2 {
      assert f.Keys == o.Keys;
      forall k | k in o ensures f[k] == o[k] {
        if k != 1 && k != 2 {
          assert f[k] == t3[k] == t2[k];
        }
      }
      assert f == o;
    } else {
      var x := if devnull in o then o[devnull] else o[1];
      var g := o[1 := x][2 := o[1]];
      assert t3[a] == x;
      assert f.Keys == g.Keys;
      forall k | k in g ensures f[k] == g[k] {
        if k != 1 && k != 2 {
          assert f[k] == t3[k] == t2[k];
        }
      }
      assert f == g;
    }
  }

  /** `os.dup` hands out descriptor 2 for the copy of 1 exactly when 0 and 1
      are open and 2 is not. */
  lemma DupGivesTwo(o: map<int, nat>)
    ensures LowestFree(o, 0) == 2 <==> 0 in o && 1 in o && 2 !in o
  {
    if 0 in o && 1 in o && 2 !in o {
      assert LowestFree(o, 1) == LowestFree(o, 2) == 2;
    }
  }

  /** With descriptor 2 closed, `get_xi` as written leaves standard output on
      the null device: here 0 and 1 are open, the null device is 3, and after
      the call descriptor 1 no longer refers to what it did. */
  lemma StdoutLeftOnNullDevice()
    ensures var o := map[0 := 10, 1 := 11, 3 := 30];
      && LowestFree(o, 0) == 2
      && o[1 := o[3]][2 := o[1]][1] != o[1]
  {
    var o := map[0 := 10, 1 := 11, 3 := 30];
    DupGivesTwo(o);
  }

  /** On that same table the corrected `get_xi` does not proceed: saving
      descriptor 2 fails because it is closed, where the code as written
      carries on. */
  lemma CorrectionRefusesClosedStderr()
    ensures var o := map[0 := 10, 1 := 11, 3 := 30];
      && Redirects(o, 0, 3)
      && !Redirects(o, 3, 3)
  {
  }

  /** A descriptor 2 already closed when the module is imported is harmless:
      the null device is opened on 2, so `os.dup(1)` in `get_xi` cannot return
      2 and the code as written leaves the table as it found it. */
  lemma StderrClosedAtImport(fds: map<int, nat>, nullDevice: nat)
    requires 0 in fds && 1 in fds && 2 !in fds
    ensures LowestFree(fds, 0) == 2
    ensures var t := fds[LowestFree(fds, 0) := nullDevice];
      2 in t && LowestFree(t, 0) != 2
  {
  }

  /** With descriptor 2 and the null device open on entry, the code as written
      and the correction redirect on the same tables: exactly when 1 is open. */
  lemma AgreeWhenStderrAndNullOpen(fds: map<int, nat>, devnull: int)
    requires 2 in fds && devnull in fds
    ensures Redirects(fds, 0, devnull) <==> 1 in fds
    ensures Redirects(fds, 3, devnull) <==> 1 in fds
  {
  }

  /** With the null device's descriptor closed, the copy made by `os.dup` can
      reopen it: the code as written proceeds where the correction fails. */
  lemma ClosedNullDeviceDiffers()
    ensures var o := map[1 := 11, 2 := 12];
      && Redirects(o, 0, 0)
      && !Redirects(o, 3, 0)
  {
  }

  /** `fcntl(F_DUPFD, 3)` never hands out descriptor 2. */
  lemma SavedAboveStandard(o: map<int, nat>)
    ensures LowestFree(o, 3) != 2
  {
  }

  /** The process: its descriptor table, the files it reads and writes, the
      external calls it has made and what it has printed. */
  class Process {
    var fds: map<int, nat>
    /** The descriptor the module opens on the null device when imported. */
    const devnull: int
    /** `SLURM_CPUS_PER_TASK` as read at import. */
    const ncpu: int
    const configs: map<string, Value>
    const mocks: map<string, seq<string>>
    var tables: map<string, Table>
    var calls: seq<Call>
    var console: seq<string>

    /** Importing the module opens the null device on the lowest free descriptor. */
    constructor (fds: map<int, nat>, nullDevice: nat, ncpu: int, configs: map<string, Value>,
                 mocks: map<string, seq<string>>, tables: map<string, Table>)
      ensures devnull == LowestFree(fds, 0) && this.fds == fds[devnull := nullDevice]
      ensures this.ncpu == ncpu && this.configs == configs && this.mocks == mocks && this.tables == tables
      ensures calls == [] && console == []
    {
      devnull := LowestFree(fds, 0);
      this.fds := fds[LowestFree(fds, 0) := nullDevice];
      this.ncpu := ncpu;
      this.configs := configs;
      this.mocks := mocks;
      this.tables := tables;
      calls := [];
      console := [];
    }

    /** `read_Abacus_mock`: skip the header, hand the rest of the file to
        `np.loadtxt`, and return the row count and the position columns. */
    method ReadAbacusMock(dir: string, sim: string, zText: string, hod: string, tracer: string,
                          loadtxt: seq<string> -> Option<seq<seq<real>>>)
      returns (r: Result<Catalogue, PrepError>)
      modifies this`console
      ensures console == old(console) + ["Loading mock from " + MockPath(dir, sim, zText, hod, tracer)]
      ensures MockPath(dir, sim, zText, hod, tracer) !in mocks ==>
        r == Failure(FileNotFound(MockPath(dir, sim, zText, hod, tracer)))
      ensures MockPath(dir, sim, zText, hod, tracer) in mocks ==>
        r == ParsedMock(mocks[MockPath(dir, sim, zText, hod, tracer)], loadtxt)
    {
      var path := MockPath(dir, sim, zText, hod, tracer);
      console := console + ["Loading mock from " + path];
      if path !in mocks {
        return Failure(FileNotFound(path));
      }
      r := ParseMock(mocks[path], loadtxt);
    }
    /** `os.dup(fd)` (from 0) or `fcntl(fd, F_DUPFD, from)`: a new descriptor
        on the same open file, or an error when `fd` is not open. */
    method Dup(fd: int, from: nat) returns (r: Option<int>)
      modifies this`fds
      ensures fd !in old(fds) ==> r.None? && fds == old(fds)
      ensures fd in old(fds) ==>
        r == Some(LowestFree(old(fds), from)) && fds == old(fds)[r.value := old(fds)[fd]]
    {
      if fd !in fds {
        return None;
      }
      var n := LowestFree(fds, from);
      fds := fds[n := fds[fd]];
      r := Some(n);
    }

    /** `os.dup2(fd, fd2)`: `fd2` is made to refer to what `fd` refers to. */
    method Dup2(fd: int, fd2: int) returns (ok: bool)
      modifies this`fds
      ensures ok <==> fd in old(fds) && fd2 >= 0
      ensures fds == if ok then old(fds)[fd2 := old(fds)[fd]] else old(fds)
    {
      if fd !in fds || fd2 < 0 {
        return false;
      }
      fds := fds[fd2 := fds[fd]];
      ok := true;
    }

    /** `os.close(fd)`. */
    method Close(fd: int) returns (ok: bool)
      modifies this`fds
      ensures ok <==> fd in old(fds)
      ensures fds == old(fds) - {fd}
    {
      ok := fd in fds;
      fds := fds - {fd};
    }

    /** The `finally` block of `get_xi`. */
    method Restore(old1: Option<int>, old2: Option<int>)
      modifies this`fds
      ensures fds == Restored(old(fds), old1, old2)
    {
      if old1.Some? {
        var ok := Dup2(old1.value, 1);
        if !ok {
          return;
        }
        ok := Close(old1.value);
      }
      if old2.Some? {
        var ok := Dup2(old2.value, 2);
        if !ok {
          return;
        }
        ok := Close(old2.value);
      }
    }

    /** The body of `get_xi` once the output is silenced: stack the positions,
        make `nbin + 1` bin edges and count pairs. */
    method CountPairs(xs: seq<real>, ys: seq<real>, zs: seq<real>, smin: Value, smax: Value, nbin: Value,
                      nmu: int, conf: string, cf: Option<PairCounts>)
      returns (r: Result<PairCounts, PrepError>)
      modifies this`calls
      ensures r == XiOutcome(xs, ys, zs, smin, smax, nbin, cf)
      ensures calls == old(calls) +
        (if XiCallMade(xs, ys, zs, smin, smax, nbin) then [PairCount(|xs|, EdgeCount(nbin).value, nmu, conf, smin, smax)] else [])
    {
      if !(|xs| == |ys| == |zs|) {
        return Failure(LengthMismatch);
      }
      var edges := EdgeCount(nbin);
      if edges.Failure? {
        return Failure(edges.error);
      }
      if edges.value < 0 {
        return Failure(NegativeCount);
      }
      if !IsNumber(smin) || !IsNumber(smax) {
        return Failure(NotANumber);
      }
      calls := calls + [PairCount(|xs|, edges.value, nmu, conf, smin, smax)];
      if cf.None? {
        return Failure(ExternalError);
      }
      r := Success(cf.value);
    }

    /** `get_xi`, saving descriptors 1 and 2 on the lowest free descriptors at
        or above `saveFrom`, pointing both at the null device around the pair
        count, and restoring them in `finally` whatever happened. */
    method GetXiSaving(saveFrom: nat, xs: seq<real>, ys: seq<real>, zs: seq<real>, smin: Value, smax: Value,
                       nbin: Value, nmu: int, conf: string, cf: Option<PairCounts>)
      returns (r: Result<PairCounts, PrepError>)
      modifies this`fds, this`calls
      ensures !Redirects(old(fds), saveFrom, devnull) ==> r == Failure(DescriptorError) && calls == old(calls)
      ensures Redirects(old(fds), saveFrom, devnull) ==>
        && r == XiOutcome(xs, ys, zs, smin, smax, nbin, cf)
        && calls == old(calls) +
             (if XiCallMade(xs, ys, zs, smin, smax, nbin) then [PairCount(|xs|, EdgeCount(nbin).value, nmu, conf, smin, smax)] else [])
      ensures 1 !in old(fds) || LowestFree(old(fds), saveFrom) != 2 ==> fds == old(fds)
      ensures 1 in old(fds) && LowestFree(old(fds), saveFrom) == 2 ==>
        fds == old(fds)[1 := if devnull in old(fds) then old(fds)[devnull] else old(fds)[1]][2 := old(fds)[1]]
    {
      ghost var o := fds;
      var old1: Option<int> := None;
      var old2: Option<int> := None;
      old1 := Dup(1, saveFrom);
      if old1.None? {
        r := Failure(DescriptorError);
        Restore(old1, old2);
        return;
      }
      ghost var t1 := fds;
      old2 := Dup(2, saveFrom);
      if old2.None? {
        r := Failure(DescriptorError);
        RestoreFirst(o, old1.value);
        Restore(old1, old2);
        return;
      }
      ghost var t2 := fds;
      var ok := Dup2(devnull, 1);
      if ok {
        ok := Dup2(devnull, 2);
      }
      if !ok {
        r := Failure(DescriptorError);
      } else {
        r := CountPairs(xs, ys, zs, smin, smax, nbin, nmu, conf, cf);
      }
      RestoreBoth(o, old1.value, old2.value, fds, devnull);
      Restore(old1, old2);
    }

    /** `get_xi` as written: the copies come from `os.dup`. When descriptor 2
        is closed and 0 is open, the copy of standard output lands on 2, the
        redirect overwrites it, and standard output stays on the null device. */
    method GetXiAsWritten(xs: seq<real>, ys: seq<real>, zs: seq<real>, smin: Value, smax: Value,
                          nbin: Value, nmu: int, conf: string, cf: Option<PairCounts>)
      returns (r: Result<PairCounts, PrepError>)
      modifies this`fds, this`calls
      ensures !(0 in old(fds) && 1 in old(fds) && 2 !in old(fds)) ==> fds == old(fds)
      ensures 0 in old(fds) && 1 in old(fds) && 2 !in old(fds) ==>
        fds == old(fds)[1 := if devnull in old(fds) then old(fds)[devnull] else old(fds)[1]][2 := old(fds)[1]]
      ensures r == if Redirects(old(fds), 0, devnull) then XiOutcome(xs, ys, zs, smin, smax, nbin, cf) else Failure(DescriptorError)
      ensures calls == old(calls) +
        (if Redirects(old(fds), 0, devnull) && XiCallMade(xs, ys, zs, smin, smax, nbin)
         then [PairCount(|xs|, EdgeCount(nbin).value, nmu, conf, smin, smax)] else [])
    {
      DupGivesTwo(fds);
      r := GetXiSaving(0, xs, ys, zs, smin, smax, nbin, nmu, conf, cf);
    }

    /** `get_xi` with the copies of 1 and 2 kept above the standard
        descriptors: every path through it leaves the table as it found it. */
    method GetXi(xs: seq<real>, ys: seq<real>, zs: seq<real>, smin: Value, smax: Value,
                 nbin: Value, nmu: int, conf: string, cf: Option<PairCounts>)
      returns (r: Result<PairCounts, PrepError>)
      modifies this`fds, this`calls
      ensures fds == old(fds)
      ensures r == if Redirects(old(fds), 3, devnull) then XiOutcome(xs, ys, zs, smin, smax, nbin, cf) else Failure(DescriptorError)
      ensures calls == old(calls) +
        (if Redirects(old(fds), 3, devnull) && XiCallMade(xs, ys, zs, smin, smax, nbin)
         then [PairCount(|xs|, EdgeCount(nbin).value, nmu, conf, smin, smax)] else [])
    {
      SavedAboveStandard(fds);
      r := GetXiSaving(3, xs, ys, zs, smin, smax, nbin, nmu, conf, cf);
    }

    /** `measure_pk`: read the settings, run the power spectrum, and save its
        table when a path is given. Returns nothing. */
    method MeasurePk(xs: seq<real>, ys: seq<real>, zs: seq<real>, path: Option<string>, pk: Option<PowerSpectrum>)
      returns (r: Outcome<PrepError>)
      modifies this`calls, this`tables, this`console
      ensures Settings(configs, "pk", PkKeys).Failure? ==>
        r == Fail(Settings(configs, "pk", PkKeys).error) && calls == old(calls) && console == old(console)
      ensures Settings(configs, "pk", PkKeys).Success? ==>
        calls == old(calls) + [PowerSpectrumBox(Ngrid, Lbox, Settings(configs, "pk", PkKeys).value, ncpu, |xs|)]
      ensures r.Pass? <==>
        Settings(configs, "pk", PkKeys).Success? && pk.Some? && (path.Some? ==> ColumnStack(PkColumns(pk.value)).Success?)
      // The external call raising, then an unstackable table, are the other errors.
      ensures Settings(configs, "pk", PkKeys).Success? && pk.None? ==> r == Fail(ExternalError)
      ensures Settings(configs, "pk", PkKeys).Success? && pk.Some? && path.Some? && ColumnStack(PkColumns(pk.value)).Failure? ==>
        r == Fail(LengthMismatch)
      ensures tables == if r.Pass? && path.Some?
        then old(tables)[path.value := Table(PkHeader, ColumnStack(PkColumns(pk.value)).value)] else old(tables)
      ensures console == old(console) +
        (if Settings(configs, "pk", PkKeys).Success? && pk.Some? && path.Some? && pk.value.p4.None? then [P4Warning] else [])
    {
      var settings := Settings(configs, "pk", PkKeys);
      if settings.Failure? {
        return Fail(settings.error);
      }
      calls := calls + [PowerSpectrumBox(Ngrid, Lbox, settings.value, ncpu, |xs|)];
      if pk.None? {
        return Fail(ExternalError);
      }
      if path.Some? {
        if pk.value.p4.None? {
          console := console + [P4Warning];
        }
        var rows := ColumnStack(PkColumns(pk.value));
        if rows.Failure? {
          return Fail(rows.error);
        }
        tables := tables[path.value := Table(PkHeader, rows.value)];
      }
      r := Pass;
    }

    /** `measure_xi`: read the settings, measure through `get_xi`, save the
        table when a path is given, and return the measurement either way. */
    method MeasureXi(xs: seq<real>, ys: seq<real>, zs: seq<real>, path: Option<string>, cf: Option<PairCounts>)
      returns (r: Result<PairCounts, PrepError>)
      modifies this`fds, this`calls, this`tables
      ensures fds == old(fds)
      ensures Settings(configs, "xi", XiKeys).Failure? ==>
        r == Failure(Settings(configs, "xi", XiKeys).error) && calls == old(calls) && tables == old(tables)
      ensures Settings(configs, "xi", XiKeys).Success? ==>
        var st := Settings(configs, "xi", XiKeys).value;
        var measured := if Redirects(old(fds), 3, devnull) then XiOutcome(xs, ys, zs, st[0], st[1], st[2], cf) else Failure(DescriptorError);
        && calls == old(calls) +
             (if Redirects(old(fds), 3, devnull) && XiCallMade(xs, ys, zs, st[0], st[1], st[2])
              then [PairCount(|xs|, EdgeCount(st[2]).value, 100, FcfcConf, st[0], st[1])] else [])
        && (measured.Failure? || path.None? ==> r == measured && tables == old(tables))
        && (measured.Success? && path.Some? ==>
              && (r == if XiRows(cf.value).Failure? then Failure(XiRows(cf.value).error) else measured)
              && tables == if r.Success? then old(tables)[path.value := Table(XiHeader, XiRows(cf.value).value)]
                           else old(tables))
    {
      var settings := Settings(configs, "xi", XiKeys);
      if settings.Failure? {
        return Failure(settings.error);
      }
      r := GetXi(xs, ys, zs, settings.value[0], settings.value[1], settings.value[2], 100, FcfcConf, cf);
      if r.Success? && path.Some? {
        var rows := XiRows(r.value);
        if rows.Failure? {
          return Failure(rows.error);
        }
        tables := tables[path.value := Table(XiHeader, rows.value)];
      }
    }

    /** `measure_bk`: read the settings, run the bispectrum, and save its table
        when a path is given. Returns nothing. */
    method MeasureBk(xs: seq<real>, ys: seq<real>, zs: seq<real>, path: Option<string>, bk: Option<Bispectrum>)
      returns (r: Outcome<PrepError>)
      modifies this`calls, this`tables
      ensures Settings(configs, "bk", BkKeys).Failure? ==>
        r == Fail(Settings(configs, "bk", BkKeys).error) && calls == old(calls)
      ensures Settings(configs, "bk", BkKeys).Success? ==>
        calls == old(calls) + [BispectrumBox(Ngrid, Lbox, Settings(configs, "bk", BkKeys).value, ncpu, |xs|)]
      ensures r.Pass? <==>
        Settings(configs, "bk", BkKeys).Success? && bk.Some? && (path.Some? ==> ColumnStack(BkColumns(bk.value)).Success?)
      // The external call raising, then an unstackable table, are the other errors.
      ensures Settings(configs, "bk", BkKeys).Success? && bk.None? ==> r == Fail(ExternalError)
      ensures Settings(configs, "bk", BkKeys).Success? && bk.Some? && path.Some? && ColumnStack(BkColumns(bk.value)).Failure? ==>
        r == Fail(LengthMismatch)
      ensures tables == if r.Pass? && path.Some?
        then old(tables)[path.value := Table(BkHeader, ColumnStack(BkColumns(bk.value)).value)] else old(tables)
    {
      var settings := Settings(configs, "bk", BkKeys);
      if settings.Failure? {
        return Fail(settings.error);
      }
      calls := calls + [BispectrumBox(Ngrid, Lbox, settings.value, ncpu, |xs|)];
      if bk.None? {
        return Fail(ExternalError);
      }
      if path.Some? {
        var rows := ColumnStack(BkColumns(bk.value));
        if rows.Failure? {
          return Fail(rows.error);
        }
        tables := tables[path.value := Table(BkHeader, rows.value)];
      }
      r := Pass;
    }

    /** The last two steps of `save_ref_clus`: the correlation function, then
        the bispectrum unless the first raised. */
    method MeasureXiThenBk(xs: seq<real>, ys: seq<real>, zs: seq<real>, pathXi: Option<string>,
                           pathBk: Option<string>, cf: Option<PairCounts>, bk: Option<Bispectrum>)
      returns (r: Outcome<PrepError>)
      modifies this`fds, this`calls, this`tables
      ensures fds == old(fds)
      ensures |calls| >= |old(calls)| && calls[..|old(calls)|] == old(calls)
      ensures var made := calls[|old(calls)|..];
        && |made| <= 2
        && (|made| > 0 ==> made[0].PairCount?)
        && (|made| > 1 ==> made[1].BispectrumBox?)
        && (r.Pass? ==> |made| == 2)
    {
      ghost var before := calls;
      var xi := MeasureXi(xs, ys, zs, pathXi, cf);
      if xi.Failure? {
        return Fail(xi.error);
      }
      ghost var xiCall := calls[|before|];
      assert calls == before + [xiCall] && xiCall.PairCount?;
      r := MeasureBk(xs, ys, zs, pathBk, bk);
    }

    /** `save_ref_clus`: the power spectrum, then the correlation function,
        then the bispectrum; an exception in one stops the rest. */
    method SaveRefClus(xs: seq<real>, ys: seq<real>, zs: seq<real>,
                       pathPk: Option<string>, pathXi: Option<string>, pathBk: Option<string>,
                       pk: Option<PowerSpectrum>, cf: Option<PairCounts>, bk: Option<Bispectrum>)
      returns (r: Outcome<PrepError>)
      modifies this`fds, this`calls, this`tables, this`console
      ensures fds == old(fds)
      ensures |calls| >= |old(calls)| && calls[..|old(calls)|] == old(calls)
      ensures var made := calls[|old(calls)|..];
        && |made| <= 3
        && (|made| > 0 ==> made[0].PowerSpectrumBox?)
        && (|made| > 1 ==> made[1].PairCount?)
        && (|made| > 2 ==> made[2].BispectrumBox?)
        && (r.Pass? ==> |made| == 3)
    {
      ghost var before := calls;
      r := MeasurePk(xs, ys, zs, pathPk, pk);
      if r.Fail? {
        return;
      }
      ghost var pkCall := calls[|before|];
      assert calls == before + [pkCall] && pkCall.PowerSpectrumBox?;
      r := MeasureXiThenBk(xs, ys, zs, pathXi, pathBk, cf, bk);
      assert calls[|before|..][1..] == calls[|before| + 1..];
    }
  }
}
