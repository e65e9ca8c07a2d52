/** The 2LPTic parameter file and the launch of the 2LPT displacement code
    (`EZmock/src/disp2LPT_helper.py`). */
module Disp2LPTHelper {
  import opened Wrappers
  import opened Text

  // ---------------------------------------------------------------------
  // Reading a parameter file back: one whitespace-separated `key value`
  // pair per line. This is the reference the rendered text is checked against.

  /** Position of the first line break of `s`. */
  function IndexOfNewline(s: string): (i: nat)
    requires '\n' in s
    ensures i < |s| && s[i] == '\n'
    ensures forall j | 0 <= j < i :: s[j] != '\n'
  {
    if s[0] == '\n' then 0
    else
      assert s == [s[0]] + s[1..];
      1 + IndexOfNewline(s[1..])
  }

  /** `s.split("\n")`: the pieces between line breaks, keeping empty ones. */
  function SplitLines(s: string): (ls: seq<string>)
    decreases |s|
    ensures |ls| >= 1 && forall i | 0 <= i < |ls| :: '\n' !in ls[i]
  {
    if '\n' !in s then [s]
    else
      var i := IndexOfNewline(s);
      [s[..i]] + SplitLines(s[i + 1..])
  }

  /** `"\n".join(ls)`. */
  function JoinLines(ls: seq<string>): string
    requires |ls| >= 1
  {
    if |ls| == 1 then ls[0] else ls[0] + "\n" + JoinLines(ls[1..])
  }

  /** Splitting at line breaks loses nothing: joining the pieces gives the text back. */
  lemma {:induction false} SplitLinesJoin(s: string)
    ensures JoinLines(SplitLines(s)) == s
    decreases |s|
  {
    if '\n' in s {
      var i := IndexOfNewline(s);
      var rest := s[i + 1..];
      SplitLinesJoin(rest);
      var ls := SplitLines(rest);
      assert SplitLines(s) == [s[..i]] + ls;
      assert ([s[..i]] + ls)[1..] == ls;
      assert JoinLines(SplitLines(s)) == s[..i] + "\n" + rest;
      assert s == s[..i] + "\n" + rest;
    }
  }

  /** A line with no break in it is split off whole. */
  lemma SplitLinesCons(a: string, rest: string)
    requires '\n' !in a
    ensures SplitLines(a + "\n" + rest) == [a] + SplitLines(rest)
  {
    var s := a + "\n" + rest;
    assert s[|a|] == '\n';
    forall j | 0 <= j < |a| ensures s[j] != '\n' {
      assert s[j] == a[j] && a[j] in a;
    }
    var i := IndexOfNewline(s);
    assert i == |a|;
    assert s[..i] == a;
    assert s[i + 1..] == rest;
  }

  /** `s` without its leading blanks. */
  function DropBlanks(s: string): (r: string)
    ensures |r| <= |s|
    ensures r == [] || !IsSpace(r[0])
  {
    if s != [] && IsSpace(s[0]) then DropBlanks(s[1..]) else s
  }

  /** The leading run of non-blank characters of `s`. */
  function Word(s: string): (w: string)
    ensures |w| <= |s|
    ensures s != [] && !IsSpace(s[0]) ==> |w| > 0
  {
    if s == [] || IsSpace(s[0]) then [] else [s[0]] + Word(s[1..])
  }

  /** `s.split()`: the maximal runs of non-blank characters, in order. */
  function Fields(s: string): seq<string>
    decreases |s|
  {
    var t := DropBlanks(s);
    if t == [] then []
    else
      var w := Word(t);
      [w] + Fields(t[|w|..])
  }

  /** The value read for `key`: the second field of the first line whose first field is `key`. */
  function LookupIn(lines: seq<string>, key: string): Option<string> {
    if lines == [] then None
    else
      var fs := Fields(lines[0]);
      if |fs| > 0 && fs[0] == key then (if |fs| > 1 then Some(fs[1]) else None)
      else LookupIn(lines[1..], key)
  }

  function Lookup(text: string, key: string): Option<string> {
    LookupIn(SplitLines(text), key)
  }

  lemma {:induction false} WordOfToken(w: string, rest: string)
    requires IsToken(w) && (rest == [] || IsSpace(rest[0]))
    ensures Word(w + rest) == w
  {
    var s := w + rest;
    assert s[0] == w[0];
    assert s[1..] == w[1..] + rest;
    if |w| > 1 {
      WordOfToken(w[1..], rest);
    }
  }

  lemma {:induction false} LStripBlanks(g: string, s: string)
    requires AllSpace(g) && (s == [] || !IsSpace(s[0]))
    ensures DropBlanks(g + s) == s
  {
    if g != [] {
      assert (g + s)[0] == g[0];
      assert (g + s)[1..] == g[1..] + s;
      LStripBlanks(g[1..], s);
    } else {
      assert g + s == s;
    }
  }

  lemma FieldsOfBlank(t: string)
    requires AllSpace(t)
    ensures Fields(t) == []
  {
    LStripBlanks(t, []);
    assert t + [] == t;
  }

  /** Leading blanks do not change the fields. */
  lemma {:induction false} FieldsAfterBlanks(g: string, s: string)
    requires AllSpace(g)
    ensures Fields(g + s) == Fields(s)
  {
    if g != [] {
      assert (g + s)[0] == g[0];
      assert (g + s)[1..] == g[1..] + s;
      FieldsAfterBlanks(g[1..], s);
    } else {
      assert g + s == s;
    }
  }

  /** A field followed by a blank or by nothing is split off whole. */
  lemma FieldsCons(w: string, rest: string)
    requires IsToken(w) && (rest == [] || IsSpace(rest[0]))
    ensures Fields(w + rest) == [w] + Fields(rest)
  {
    var s := w + rest;
    assert s[0] == w[0];
    assert DropBlanks(s) == s;
    WordOfToken(w, rest);
    assert s[|w|..] == rest;
  }

  /** A line `key`, padding, `value`, padding has exactly the two fields `key` and `value`. */
  lemma FieldsOfEntry(k: string, g: string, v: string, t: string)
    requires IsToken(k) && IsToken(v) && g != [] && AllSpace(g) && AllSpace(t)
    ensures Fields(k + g + v + t) == [k, v]
  {
    assert k + g + v + t == k + (g + (v + t));
    FieldsCons(k, g + (v + t));
    FieldsAfterBlanks(g, v + t);
    FieldsCons(v, t);
    FieldsOfBlank(t);
  }

  // ---------------------------------------------------------------------
  // The parameter template of `generate_2lpt_param`.

  /** The placeholders of the f-string. */
  datatype Slot = SeedSlot | RedshiftSlot | FnlSlot | NgridSlot | LboxSlot | FixAmpSlot

  /** Printable ASCII other than the space: the characters of the template's keys and literal values. */
  predicate Printable(s: string) {
    s != [] && forall i | 0 <= i < |s| :: '!' <= s[i] <= '~'
  }

  type Token = s: string | Printable(s) witness "0"

  /** Part of a value: literal characters or a placeholder. */
  datatype Piece = Chars(s: Token) | Hole(slot: Slot)

  /** A run of blanks: `n` spaces, or one tab. */
  datatype Pad = Spaces(n: nat) | Tab

  /** One template line: a key, the number of spaces after it, the value and
      the trailing blanks; or a line of blanks only. */
  datatype TemplateLine =
    | Entry(key: Token, gap: nat, value: seq<Piece>, trail: seq<Pad>)
    | Blank(pad: seq<Pad>)

  /** The arguments of `generate_2lpt_param`. The floats `redshift` and `fnl`
      are given as the text Python prints for them. */
  datatype ParamArgs = ParamArgs(seed: int, redshift: string, fnl: string, ngrid: int, lbox: int, fixAmp: int)

  /** The defaults `Ngrid=512`, `Lbox=2000`, `fix_amp=0`. */
  function DefaultArgs(seed: int, redshift: string, fnl: string): ParamArgs {
    ParamArgs(seed, redshift, fnl, 512, 2000, 0)
  }

  function SlotText(slot: Slot, a: ParamArgs): string {
    match slot
    case SeedSlot => IntToString(a.seed)
    case RedshiftSlot => a.redshift
    case FnlSlot => a.fnl
    case NgridSlot => IntToString(a.ngrid)
    case LboxSlot => IntToString(a.lbox)
    case FixAmpSlot => IntToString(a.fixAmp)
  }

  function PieceText(p: Piece, a: ParamArgs): string {
    match p
    case Chars(s) => s
    case Hole(slot) => SlotText(slot, a)
  }

  function FillPieces(ps: seq<Piece>, a: ParamArgs): string {
    if ps == [] then "" else PieceText(ps[0], a) + FillPieces(ps[1..], a)
  }

  function SpaceRun(n: nat): string {
    seq(n, _ => ' ')
  }

  function PadText(ps: seq<Pad>): string {
    if ps == [] then ""
    else (match ps[0] case Spaces(n) => SpaceRun(n) case Tab => "\t") + PadText(ps[1..])
  }

  function LineText(l: TemplateLine, a: ParamArgs): string {
    match l
    case Entry(k, g, v, t) => k + SpaceRun(g) + FillPieces(v, a) + PadText(t)
    case Blank(t) => PadText(t)
  }

  /** Every line followed by a line break. */
  function Render(t: seq<TemplateLine>, a: ParamArgs): string {
    if t == [] then "" else LineText(t[0], a) + "\n" + Render(t[1..], a)
  }

  /** The f-string of `generate_2lpt_param`, line by line. */
  const Template: seq<TemplateLine> := FirstHalf + SecondHalf

  /** The grid, the cosmology and the epoch. */
  const FirstHalf: seq<TemplateLine> := GridLines + GlassLines + DensityLines + PowerLines + EpochLines

  /** The modes, the spectrum, the seed and the units. */
  const SecondHalf: seq<TemplateLine> :=
    ModeLines + SpectrumLines + TransferLines + SeedLines + UnitLines + WdmLines

  // The literal values that are paths or long numbers, each checked on its own.

  /** The user's scratch directory on the cluster. */
  const ScratchDir: Token := "/pscratch/sd/s/siyizhao/"
  /** The directory of the 2LPTic inputs, relative to the working directory. */
  const ConfDir: Token := "conf_2lpt/"

  const OutputDirValue: Token := ScratchDir + "no_need_of_dir"
  const GlassFileValue: Token := ConfDir + "glass1_le"
  const InputSpectrumFile: Token := ConfDir + "no_need_of_file.txt"
  const InputTransferFile: Token := ConfDir + "abacus_c000_tk.dat"
  const SpectrumFileKey: Token := "FileWithInputSpectrum"
  const GlassTileFacKey: Token := "GlassTileFac"
  const FixedAmplitudeKey: Token := "FixedAmplitude"
  const UnitLengthKey: Token := "UnitLength_in_cm"
  const SpectrumUnitKey: Token := "InputSpectrum_" + UnitLengthKey
  const VelocityUnitKey: Token := "UnitVelocity_in_cm_per_s"
  /** One megaparsec in centimetres (for h = 1), the length unit. */
  const UnitLengthCm: Token := "3.085678e24"

  /** The mesh size, the box size and the file base name. */
  const GridLines: seq<TemplateLine> := [
    Entry("Nmesh", 9, [Hole(NgridSlot)], [Spaces(5)]),
    Entry("Nsample", 7, [Hole(NgridSlot)], [Spaces(36)]),
    Entry("Box", 11, [Hole(LboxSlot)], []),
    Entry("FileBase", 6, FileBasePieces, [])
  ]

  /** The output directory and the glass file with its tiling. */
  const GlassLines: seq<TemplateLine> := [
    Entry("OutputDir", 5, [Chars(OutputDirValue)], []),
    Entry("GlassFile", 5, [Chars(GlassFileValue)], []),
    Entry(GlassTileFacKey, 2, [Hole(NgridSlot)], [Spaces(5)]),
    Blank([])
  ]

  /** The density parameters. */
  const DensityLines: seq<TemplateLine> := [
    Entry("Omega", 15, [Chars("0.315192")], [Spaces(6)]),
    Entry("OmegaLambda", 9, [Chars("0.684808")], [Spaces(6)]),
    Entry("OmegaBaryon", 9, [Chars("0.0493")], [Spaces(4)]),
    Entry("OmegaDM_2ndSpecies", 2, [Chars("0.00")], [Spaces(6), Tab, Spaces(4)])
  ]

  /** The Hubble parameter and the amplitude and tilt of the power spectrum. */
  const PowerLines: seq<TemplateLine> := [
    Entry("HubbleParam", 9, [Chars("0.6736")], [Spaces(7)]),
    Entry("Sigma8", 14, [Chars("0.819")], []),
    Entry("PrimordialIndex", 5, [Chars("0.9649")], [Spaces(9)])
  ]

  /** The redshift and fNL. */
  const EpochLines: seq<TemplateLine> := [
    Entry("Redshift", 12, [Hole(RedshiftSlot)], [Spaces(2)]),
    Entry("Fnl", 17, [Hole(FnlSlot)], []),
    Blank([])
  ]

  /** The amplitude and phase switches. */
  const ModeLines: seq<TemplateLine> := [
    Entry(FixedAmplitudeKey, 3, [Hole(FixAmpSlot)], [Spaces(9)]),
    Entry("PhaseFlip", 8, [Chars("0")], [Spaces(9)]),
    Entry("SphereMode", 7, [Chars("0")], [Spaces(9)]),
    Blank([Spaces(54)])
  ]

  /** The input spectrum. */
  const SpectrumLines: seq<TemplateLine> := [
    Entry("WhichSpectrum", 4, [Chars("0")], [Spaces(9)]),
    Entry(SpectrumFileKey, 4, [Chars(InputSpectrumFile)], []),
    Entry(SpectrumUnitKey, 2, [Chars(UnitLengthCm)], [Spaces(1)])
  ]

  /** The shape parameter and the transfer function. */
  const TransferLines: seq<TemplateLine> := [
    Entry("ShapeGamma", 7, [Chars("0.201")], [Spaces(5)]),
    Entry("WhichTransfer", 4, [Chars("2")], [Spaces(8)]),
    Entry("FileWithInputTransfer", 5, [Chars(InputTransferFile)], []),
    Blank([])
  ]

  /** The seed and the number of files written in parallel. */
  const SeedLines: seq<TemplateLine> := [
    Entry("Seed", 13, [Hole(SeedSlot)], [Spaces(7)]),
    Blank([]),
    Entry("NumFilesWrittenInParallel", 1, [Chars("1")], [Spaces(3)]),
    Blank([])
  ]

  /** The units. */
  const UnitLines: seq<TemplateLine> := [
    Entry(UnitLengthKey, 10, [Chars(UnitLengthCm)], []),
    Entry("UnitMass_in_g", 13, [Chars("1.989e43")], [Spaces(6)]),
    Entry(VelocityUnitKey, 2, [Chars("1e5")], [Spaces(11)]),
    Blank([])
  ]

  /** The warm dark matter switches. */
  const WdmLines: seq<TemplateLine> := [
    Entry("WDM_On", 15, [Chars("0")], [Spaces(6)]),
    Entry("WDM_Vtherm_On", 8, [Chars("0")], [Spaces(62)]),
    Entry("WDM_PartMass_in_kev", 2, [Chars("10.0")], [Spaces(3)])
  ]

  /** `generate_2lpt_param(...)`'s return value: the filled template with leading whitespace stripped. */
  function GenerateParamText(a: ParamArgs): string {
    LStrip(Render(Template, a))
  }

  /** The keys whose value carries an argument. */
  const InputKeys: set<string> :=
    {"Nmesh", "Nsample", "Box", "FileBase", "GlassTileFac", "Redshift", "Fnl", "FixedAmplitude", "Seed"}

  // Shape of the template.

  predicate LineOk(l: TemplateLine) {
    l.Entry? ==> l.gap > 0 && l.value != []
  }

  predicate TemplateOk(t: seq<TemplateLine>) {
    forall l | l in t :: LineOk(l)
  }

  /** The printed floats are single fields, as Python prints them. */
  predicate ArgsOk(a: ParamArgs) {
    IsToken(a.redshift) && IsToken(a.fnl)
  }

  predicate HoleFree(ps: seq<Piece>) {
    forall p | p in ps :: p.Chars?
  }

  lemma TemplateOkAppend(t: seq<TemplateLine>, u: seq<TemplateLine>)
    requires TemplateOk(t) && TemplateOk(u)
    ensures TemplateOk(t + u)
  {
  }

  lemma {:induction false} FirstHalfWellFormed()
    ensures TemplateOk(FirstHalf)
  {
    assert TemplateOk(GridLines) && TemplateOk(GlassLines) && TemplateOk(DensityLines);
    assert TemplateOk(PowerLines) && TemplateOk(EpochLines);
    TemplateOkAppend(GridLines, GlassLines);
    TemplateOkAppend(GridLines + GlassLines, DensityLines);
    TemplateOkAppend(GridLines + GlassLines + DensityLines, PowerLines);
    TemplateOkAppend(GridLines + GlassLines + DensityLines + PowerLines, EpochLines);
  }

  lemma {:induction false} SecondHalfWellFormed()
    ensures TemplateOk(SecondHalf)
  {
    assert TemplateOk(ModeLines) && TemplateOk(SpectrumLines) && TemplateOk(TransferLines);
    assert TemplateOk(SeedLines) && TemplateOk(UnitLines) && TemplateOk(WdmLines);
    TemplateOkAppend(ModeLines, SpectrumLines);
    TemplateOkAppend(ModeLines + SpectrumLines, TransferLines);
    TemplateOkAppend(ModeLines + SpectrumLines + TransferLines, SeedLines);
    TemplateOkAppend(ModeLines + SpectrumLines + TransferLines + SeedLines, UnitLines);
    TemplateOkAppend(ModeLines + SpectrumLines + TransferLines + SeedLines + UnitLines, WdmLines);
  }

  lemma TemplateWellFormed()
    ensures TemplateOk(Template)
  {
    FirstHalfWellFormed();
    SecondHalfWellFormed();
    TemplateOkAppend(FirstHalf, SecondHalf);
  }

  lemma PrintableToken(s: string)
    requires Printable(s)
    ensures IsToken(s)
  {
  }

  lemma TokenUnbroken(s: string)
    requires IsToken(s)
    ensures '\n' !in s
  {
    forall i | 0 <= i < |s| ensures s[i] != '\n' {
      assert !IsSpace(s[i]);
    }
  }

  lemma {:induction false} PadBlank(ps: seq<Pad>)
    ensures AllSpace(PadText(ps)) && '\n' !in PadText(ps)
  {
    if ps != [] {
      PadBlank(ps[1..]);
    }
  }

  /** A filled value is one field. */
  lemma {:induction false} FillToken(ps: seq<Piece>, a: ParamArgs)
    requires ps != [] && ArgsOk(a)
    ensures IsToken(FillPieces(ps, a))
  {
    var head := PieceText(ps[0], a);
    if ps[0].Chars? {
      PrintableToken(ps[0].s);
    }
    if |ps| > 1 {
      FillToken(ps[1..], a);
      var tail := FillPieces(ps[1..], a);
      forall i | 0 <= i < |head + tail| ensures !IsSpace((head + tail)[i]) {
        if i >= |head| {
          assert (head + tail)[i] == tail[i - |head|];
        }
      }
    } else {
      assert FillPieces(ps, a) == head + "";
    }
  }

  /** A filled value does not depend on the arguments when it has no placeholder. */
  lemma {:induction false} FillHoleFree(ps: seq<Piece>, a1: ParamArgs, a2: ParamArgs)
    requires HoleFree(ps)
    ensures FillPieces(ps, a1) == FillPieces(ps, a2)
  {
    if ps != [] {
      assert ps[0] in ps;
      forall p | p in ps[1..] ensures p.Chars? {
        assert p in ps;
      }
      FillHoleFree(ps[1..], a1, a2);
    }
  }

  /** The fields of a rendered line: the key and its filled value, or none. */
  lemma LineFields(l: TemplateLine, a: ParamArgs)
    requires LineOk(l) && ArgsOk(a)
    ensures '\n' !in LineText(l, a)
    ensures l.Entry? ==> Fields(LineText(l, a)) == [l.key, FillPieces(l.value, a)]
    ensures l.Blank? ==> Fields(LineText(l, a)) == []
  {
    match l
    case Entry(k, g, v, t) =>
      PrintableToken(k);
      var gap := SpaceRun(g);
      var trail := PadText(t);
      PadBlank(t);
      FillToken(v, a);
      var fv := FillPieces(v, a);
      FieldsOfEntry(k, gap, fv, trail);
      TokenUnbroken(k);
      TokenUnbroken(fv);
      assert '\n' !in k + gap;
      assert '\n' !in k + gap + fv;
    case Blank(t) =>
      PadBlank(t);
      FieldsOfBlank(PadText(t));
  }

  lemma TailOk(t: seq<TemplateLine>)
    requires t != [] && TemplateOk(t)
    ensures LineOk(t[0]) && TemplateOk(t[1..])
  {
    assert t[0] in t;
    forall l | l in t[1..] ensures LineOk(l) {
      assert l in t;
    }
  }

  /** One step of reading the rendered text: the first line either carries
      the key or is passed over. */
  lemma LookupStep(t: seq<TemplateLine>, a: ParamArgs, key: string)
    requires t != [] && TemplateOk(t) && ArgsOk(a)
    ensures Lookup(Render(t, a), key) ==
      if t[0].Entry? && t[0].key == key then Some(FillPieces(t[0].value, a))
      else Lookup(Render(t[1..], a), key)
  {
    TailOk(t);
    LineFields(t[0], a);
    var line := LineText(t[0], a);
    var rest := Render(t[1..], a);
    assert Render(t, a) == line + "\n" + rest;
    SplitLinesCons(line, rest);
    var lines := [line] + SplitLines(rest);
    assert lines[0] == line && lines[1..] == SplitLines(rest);
  }

  /** The rendering of no lines reads nothing. */
  lemma LookupEmpty(a: ParamArgs, key: string)
    ensures Lookup(Render([], a), key) == None
  {
    assert SplitLines("") == [""];
    assert Fields("") == [];
    assert LookupIn([""], key) == LookupIn([], key);
  }

  /** Reading a rendered key back: the value of the first line with that key. */
  lemma {:induction false} LookupAt(t: seq<TemplateLine>, a: ParamArgs, i: nat)
    requires TemplateOk(t) && ArgsOk(a) && i < |t| && t[i].Entry?
    requires forall j | 0 <= j < i && t[j].Entry? :: t[j].key != t[i].key
    ensures Lookup(Render(t, a), t[i].key) == Some(FillPieces(t[i].value, a))
  {
    var key := t[i].key;
    LookupStep(t, a, key);
    if i > 0 {
      KeyStillFirst(t, i);
      LookupAt(t[1..], a, i - 1);
    }
  }

  /** Dropping the first line keeps a later line first with its key. */
  lemma KeyStillFirst(t: seq<TemplateLine>, i: nat)
    requires TemplateOk(t) && 0 < i < |t| && t[i].Entry?
    requires forall j | 0 <= j < i && t[j].Entry? :: t[j].key != t[i].key
    ensures TemplateOk(t[1..]) && t[1..][i - 1] == t[i]
    ensures forall j | 0 <= j < i - 1 && t[1..][j].Entry? :: t[1..][j].key != t[i].key
  {
    TailOk(t);
    forall j | 0 <= j < i - 1 && t[1..][j].Entry? ensures t[1..][j].key != t[i].key {
      assert t[1..][j] == t[j + 1];
    }
  }

  /** Reading a key no line carries finds nothing. */
  lemma {:induction false} LookupMissing(t: seq<TemplateLine>, a: ParamArgs, key: string)
    requires TemplateOk(t) && ArgsOk(a)
    requires forall l | l in t && l.Entry? :: l.key != key
    ensures Lookup(Render(t, a), key) == None
  {
    if t == [] {
      LookupEmpty(a, key);
    } else {
      LookupStep(t, a, key);
      TailOk(t);
      assert t[0] in t;
      forall l | l in t[1..] && l.Entry? ensures l.key != key {
        assert l in t;
      }
      LookupMissing(t[1..], a, key);
    }
  }

  /** One more line in front: the pieces after a line break are the pieces
      of what follows it, one place further on. */
  lemma LinesCons(t: seq<TemplateLine>, a: ParamArgs, line: string, ls: seq<string>)
    requires t != [] && line == LineText(t[0], a)
    requires |ls| == |t| && ls[|t| - 1] == ""
    requires forall i | 0 <= i < |t| - 1 :: ls[i] == LineText(t[1..][i], a)
    ensures |[line] + ls| == |t| + 1 && ([line] + ls)[|t|] == ""
    ensures forall i | 0 <= i < |t| :: ([line] + ls)[i] == LineText(t[i], a)
  {
    forall i | 0 < i < |t| ensures ([line] + ls)[i] == LineText(t[i], a) {
      assert t[1..][i - 1] == t[i];
    }
  }

  /** The rendered text, split at line breaks, is the rendered lines and
      the empty piece after the last break. */
  lemma {:induction false} RenderLines(t: seq<TemplateLine>, a: ParamArgs)
    requires TemplateOk(t) && ArgsOk(a)
    ensures |SplitLines(Render(t, a))| == |t| + 1
    ensures forall i | 0 <= i < |t| :: SplitLines(Render(t, a))[i] == LineText(t[i], a)
    ensures SplitLines(Render(t, a))[|t|] == ""
  {
    if t == [] {
      assert SplitLines("") == [""];
    } else {
      TailOk(t);
      LineFields(t[0], a);
      RenderLines(t[1..], a);
      var line := LineText(t[0], a);
      var rest := Render(t[1..], a);
      assert Render(t, a) == line + "\n" + rest;
      SplitLinesCons(line, rest);
      LinesCons(t, a, line, SplitLines(rest));
    }
  }

  // ---------------------------------------------------------------------
  // What the rendered parameter text says.

  /** `lstrip` removes nothing: the text starts with the `Nmesh` line. */
  lemma ParamTextStart(a: ParamArgs)
    ensures GenerateParamText(a) == Render(Template, a)
    ensures StartsWith(GenerateParamText(a), "Nmesh")
  {
    var r := Render(Template, a);
    RenderStartsWithNmesh(a);
    assert r[0] == 'N' && !IsSpace(r[0]);
    assert LStrip(r) == r;
  }

  lemma RenderStartsWithNmesh(a: ParamArgs)
    ensures |Render(Template, a)| >= 5 && Render(Template, a)[..5] == "Nmesh"
  {
    var first := LineText(Template[0], a);
    var r := Render(Template, a);
    assert Template[0] == Entry("Nmesh", 9, [Hole(NgridSlot)], [Spaces(5)]);
    assert r == first + "\n" + Render(Template[1..], a);
    assert first[..5] == "Nmesh";
  }


  /** The lines of the returned text. */
  function ParamLines(a: ParamArgs): seq<string> {
    SplitLines(GenerateParamText(a))
  }

  /** Line `i` of the text is template line `i` filled in; an entry's fields
      are its key and value, and the first entry with a key gives the value
      read for it. */
  lemma ReadParam(a: ParamArgs, i: nat)
    requires ArgsOk(a) && FirstWithKey(Template, i)
    ensures |ParamLines(a)| == |Template| + 1 && ParamLines(a)[i] == LineText(Template[i], a)
    ensures Fields(ParamLines(a)[i]) == [Template[i].key, FillPieces(Template[i].value, a)]
    ensures Lookup(GenerateParamText(a), Template[i].key) == Some(FillPieces(Template[i].value, a))
  {
    ParamTextStart(a);
    TemplateWellFormed();
    RenderLines(Template, a);
    assert Template[i] in Template;
    LineFields(Template[i], a);
    LookupAt(Template, a, i);
  }

  /** The first line of the template that has the key of line `i` is line `i`. */
  predicate FirstWithKey(t: seq<TemplateLine>, i: nat) {
    i < |t| && t[i].Entry? && forall j | 0 <= j < i && t[j].Entry? :: t[j].key != t[i].key
  }

  /** A value of one placeholder is the text of that placeholder. */
  lemma FillOne(slot: Slot, a: ParamArgs)
    ensures FillPieces([Hole(slot)], a) == SlotText(slot, a)
  {
    assert FillPieces([Hole(slot)], a) == SlotText(slot, a) + FillPieces([], a);
  }

  lemma SlotTexts(a: ParamArgs)
    ensures SlotText(SeedSlot, a) == IntToString(a.seed)
    ensures SlotText(RedshiftSlot, a) == a.redshift && SlotText(FnlSlot, a) == a.fnl
    ensures SlotText(NgridSlot, a) == IntToString(a.ngrid) && SlotText(LboxSlot, a) == IntToString(a.lbox)
    ensures SlotText(FixAmpSlot, a) == IntToString(a.fixAmp)
  {
  }

  /** Reading a key whose first line is one placeholder gives that placeholder's text. */
  lemma ReadOne(a: ParamArgs, i: nat, slot: Slot)
    requires ArgsOk(a) && FirstWithKey(Template, i) && Template[i].value == [Hole(slot)]
    ensures Lookup(GenerateParamText(a), Template[i].key) == Some(SlotText(slot, a))
  {
    ReadParam(a, i);
    FillOne(slot, a);
  }

  lemma NmeshLine()
    ensures |Template| == 40 && Template[0] == Entry("Nmesh", 9, [Hole(NgridSlot)], [Spaces(5)]) && FirstWithKey(Template, 0)
  {
  }

  lemma NmeshRead(a: ParamArgs)
    requires ArgsOk(a)
    ensures Lookup(GenerateParamText(a), "Nmesh") == Some(IntToString(a.ngrid))
  {
    NmeshLine();
    ReadOne(a, 0, NgridSlot);
    SlotTexts(a);
  }

  lemma NsampleLine()
    ensures |Template| == 40 && Template[1] == Entry("Nsample", 7, [Hole(NgridSlot)], [Spaces(36)]) && FirstWithKey(Template, 1)
  {
  }

  lemma NsampleRead(a: ParamArgs)
    requires ArgsOk(a)
    ensures Lookup(GenerateParamText(a), "Nsample") == Some(IntToString(a.ngrid))
  {
    NsampleLine();
    ReadOne(a, 1, NgridSlot);
    SlotTexts(a);
  }

  lemma BoxLine()
    ensures |Template| == 40 && Template[2] == Entry("Box", 11, [Hole(LboxSlot)], []) && FirstWithKey(Template, 2)
  {
  }

  lemma BoxRead(a: ParamArgs)
    requires ArgsOk(a)
    ensures Lookup(GenerateParamText(a), "Box") == Some(IntToString(a.lbox))
  {
    BoxLine();
    ReadOne(a, 2, LboxSlot);
    SlotTexts(a);
  }

  lemma GlassTileFacLine()
    ensures |Template| == 40 && Template[6] == Entry(GlassTileFacKey, 2, [Hole(NgridSlot)], [Spaces(5)]) && FirstWithKey(Template, 6)
  {
  }

  lemma GlassTileFacRead(a: ParamArgs)
    requires ArgsOk(a)
    ensures Lookup(GenerateParamText(a), GlassTileFacKey) == Some(IntToString(a.ngrid))
  {
    GlassTileFacLine();
    ReadOne(a, 6, NgridSlot);
    SlotTexts(a);
  }

  lemma RedshiftLine()
    ensures |Template| == 40 && Template[15] == Entry("Redshift", 12, [Hole(RedshiftSlot)], [Spaces(2)]) && FirstWithKey(Template, 15)
  {
  }

  lemma RedshiftRead(a: ParamArgs)
    requires ArgsOk(a)
    ensures Lookup(GenerateParamText(a), "Redshift") == Some(a.redshift)
  {
    RedshiftLine();
    ReadOne(a, 15, RedshiftSlot);
    SlotTexts(a);
  }

  lemma FnlLine()
    ensures |Template| == 40 && Template[16] == Entry("Fnl", 17, [Hole(FnlSlot)], []) && FirstWithKey(Template, 16)
  {
  }

  lemma FnlRead(a: ParamArgs)
    requires ArgsOk(a)
    ensures Lookup(GenerateParamText(a), "Fnl") == Some(a.fnl)
  {
    FnlLine();
    ReadOne(a, 16, FnlSlot);
    SlotTexts(a);
  }

  lemma FixedAmplitudeLine()
    ensures |Template| == 40 && Template[18] == Entry(FixedAmplitudeKey, 3, [Hole(FixAmpSlot)], [Spaces(9)]) && FirstWithKey(Template, 18)
  {
  }

  lemma FixedAmplitudeRead(a: ParamArgs)
    requires ArgsOk(a)
    ensures Lookup(GenerateParamText(a), FixedAmplitudeKey) == Some(IntToString(a.fixAmp))
  {
    FixedAmplitudeLine();
    ReadOne(a, 18, FixAmpSlot);
    SlotTexts(a);
  }

  lemma SeedLine()
    ensures |Template| == 40 && Template[29] == Entry("Seed", 13, [Hole(SeedSlot)], [Spaces(7)]) && FirstWithKey(Template, 29)
  {
    assert |FirstHalf| == 18 && |SecondHalf| == 22;
    assert Template[29] == SecondHalf[11];
    forall j | 0 <= j < 29 && Template[j].Entry? ensures Template[j].key != "Seed" {
      if j < 18 {
        assert Template[j] == FirstHalf[j];
      } else {
        assert Template[j] == SecondHalf[j - 18];
      }
    }
  }

  lemma SeedRead(a: ParamArgs)
    requires ArgsOk(a)
    ensures Lookup(GenerateParamText(a), "Seed") == Some(IntToString(a.seed))
  {
    SeedLine();
    ReadOne(a, 29, SeedSlot);
    SlotTexts(a);
  }

  const FileBasePieces: seq<Piece> := [Chars("ics_"), Hole(NgridSlot), Chars("_"), Hole(LboxSlot)]

  lemma FileBaseLine()
    ensures |Template| == 40 && Template[3] == Entry("FileBase", 6, FileBasePieces, []) && FirstWithKey(Template, 3)
  {
  }

  /** The file base name joins the mesh size and the box size. */
  lemma FillFileBase(a: ParamArgs)
    ensures FillPieces(FileBasePieces, a) == "ics_" + IntToString(a.ngrid) + "_" + IntToString(a.lbox)
  {
    var ps := FileBasePieces;
    SlotTexts(a);
    assert ps[1..][1..] == [Chars("_"), Hole(LboxSlot)];
    assert ps[1..][1..][1..] == [Hole(LboxSlot)];
    calc {
      FillPieces(ps, a);
      "ics_" + FillPieces(ps[1..], a);
      "ics_" + (IntToString(a.ngrid) + FillPieces(ps[1..][1..], a));
      "ics_" + (IntToString(a.ngrid) + ("_" + FillPieces([Hole(LboxSlot)], a)));
      { FillOne(LboxSlot, a); }
      "ics_" + IntToString(a.ngrid) + "_" + IntToString(a.lbox);
    }
  }

  lemma FileBaseRead(a: ParamArgs)
    requires ArgsOk(a)
    ensures Lookup(GenerateParamText(a), "FileBase") == Some("ics_" + IntToString(a.ngrid) + "_" + IntToString(a.lbox))
  {
    FileBaseLine();
    ReadParam(a, 3);
    FillFileBase(a);
  }

  /** The text determines the arguments: two calls that return the same text
      were given the same arguments. */
  lemma ParamTextDeterminesArgs(a1: ParamArgs, a2: ParamArgs)
    requires ArgsOk(a1) && ArgsOk(a2) && GenerateParamText(a1) == GenerateParamText(a2)
    ensures a1 == a2
  {
    SeedRead(a1);
    SeedRead(a2);
    IntToStringInjective(a1.seed, a2.seed);
    NmeshRead(a1);
    NmeshRead(a2);
    IntToStringInjective(a1.ngrid, a2.ngrid);
    BoxRead(a1);
    BoxRead(a2);
    IntToStringInjective(a1.lbox, a2.lbox);
    FixedAmplitudeRead(a1);
    FixedAmplitudeRead(a2);
    IntToStringInjective(a1.fixAmp, a2.fixAmp);
    RedshiftRead(a1);
    RedshiftRead(a2);
    FnlRead(a1);
    FnlRead(a2);
  }

  /** A line with no placeholder. */
  predicate FixedLine(l: TemplateLine) {
    l.Blank? || HoleFree(l.value)
  }

  /** The line numbers of the entries that carry an argument. */
  const InputLines: set<nat> := {0, 1, 2, 3, 6, 15, 16, 18, 29}

  /** The lines of `t`, placed at line `offset` of the template, are fixed
      wherever they do not carry an argument. */
  predicate FixedOutside(t: seq<TemplateLine>, offset: int) {
    forall i | 0 <= i < |t| && offset + i !in InputLines :: FixedLine(t[i])
  }

  lemma FixedOutsideAppend(t: seq<TemplateLine>, u: seq<TemplateLine>, offset: int)
    requires FixedOutside(t, offset) && FixedOutside(u, offset + |t|)
    ensures FixedOutside(t + u, offset)
  {
    forall i | 0 <= i < |t + u| && offset + i !in InputLines ensures FixedLine((t + u)[i]) {
      if i >= |t| {
        assert (t + u)[i] == u[i - |t|];
      }
    }
  }

  lemma FirstBlocksFixed()
    ensures FixedOutside(GridLines, 0) && FixedOutside(GlassLines, 4) && FixedOutside(DensityLines, 8)
    ensures FixedOutside(PowerLines, 12) && FixedOutside(EpochLines, 15)
  {
    GridBlocksFixed();
    PowerBlocksFixed();
  }

  lemma GridBlocksFixed()
    ensures FixedOutside(GridLines, 0) && FixedOutside(GlassLines, 4) && FixedOutside(DensityLines, 8)
  {
  }

  lemma PowerBlocksFixed()
    ensures FixedOutside(PowerLines, 12) && FixedOutside(EpochLines, 15)
  {
  }

  lemma SecondBlocksFixed()
    ensures FixedOutside(ModeLines, 18) && FixedOutside(SpectrumLines, 22) && FixedOutside(TransferLines, 25)
    ensures FixedOutside(SeedLines, 29) && FixedOutside(UnitLines, 33) && FixedOutside(WdmLines, 37)
  {
    ModeBlocksFixed();
    UnitBlocksFixed();
  }

  lemma ModeBlocksFixed()
    ensures FixedOutside(ModeLines, 18) && FixedOutside(SpectrumLines, 22) && FixedOutside(TransferLines, 25)
  {
  }

  lemma UnitBlocksFixed()
    ensures FixedOutside(SeedLines, 29) && FixedOutside(UnitLines, 33) && FixedOutside(WdmLines, 37)
  {
  }

  lemma {:induction false} FirstThreeFixed()
    ensures |GridLines + GlassLines + DensityLines| == 12
    ensures FixedOutside(GridLines + GlassLines + DensityLines, 0)
  {
    FirstBlocksFixed();
    FixedOutsideAppend(GridLines, GlassLines, 0);
    FixedOutsideAppend(GridLines + GlassLines, DensityLines, 0);
  }

  lemma {:induction false} FirstHalfFixed()
    ensures |FirstHalf| == 18 && FixedOutside(FirstHalf, 0)
  {
    FirstBlocksFixed();
    FirstThreeFixed();
    FixedOutsideAppend(GridLines + GlassLines + DensityLines, PowerLines, 0);
    FixedOutsideAppend(GridLines + GlassLines + DensityLines + PowerLines, EpochLines, 0);
  }

  lemma {:induction false} SecondThreeFixed()
    ensures |ModeLines + SpectrumLines + TransferLines| == 11
    ensures FixedOutside(ModeLines + SpectrumLines + TransferLines, 18)
  {
    SecondBlocksFixed();
    FixedOutsideAppend(ModeLines, SpectrumLines, 18);
    FixedOutsideAppend(ModeLines + SpectrumLines, TransferLines, 18);
  }

  lemma {:induction false} SecondFiveFixed()
    ensures |ModeLines + SpectrumLines + TransferLines + SeedLines + UnitLines| == 19
    ensures FixedOutside(ModeLines + SpectrumLines + TransferLines + SeedLines + UnitLines, 18)
  {
    SecondBlocksFixed();
    SecondThreeFixed();
    FixedOutsideAppend(ModeLines + SpectrumLines + TransferLines, SeedLines, 18);
    FixedOutsideAppend(ModeLines + SpectrumLines + TransferLines + SeedLines, UnitLines, 18);
  }

  lemma {:induction false} SecondHalfFixed()
    ensures |SecondHalf| == 22 && FixedOutside(SecondHalf, 18)
  {
    SecondBlocksFixed();
    SecondFiveFixed();
    FixedOutsideAppend(ModeLines + SpectrumLines + TransferLines + SeedLines + UnitLines, WdmLines, 18);
  }

  /** The template has 40 lines, and all but the nine input lines are fixed. */
  lemma FixedLinesOutsideInputs()
    ensures |Template| == 40 && FixedOutside(Template, 0)
  {
    FirstHalfFixed();
    SecondHalfFixed();
    FixedOutsideAppend(FirstHalf, SecondHalf, 0);
  }

  lemma FixedLineSame(l: TemplateLine, a1: ParamArgs, a2: ParamArgs)
    requires FixedLine(l)
    ensures LineText(l, a1) == LineText(l, a2)
  {
    if l.Entry? {
      FillHoleFree(l.value, a1, a2);
    }
  }

  /** Every line but the nine that carry an argument is the same text
      whatever the arguments. */
  lemma ParamTextFixedLines(a1: ParamArgs, a2: ParamArgs)
    requires ArgsOk(a1) && ArgsOk(a2)
    ensures |ParamLines(a1)| == |ParamLines(a2)| == 41
    ensures forall i | 0 <= i < 40 && i !in InputLines :: ParamLines(a1)[i] == ParamLines(a2)[i]
  {
    FixedLinesOutsideInputs();
    ParamTextStart(a1);
    ParamTextStart(a2);
    TemplateWellFormed();
    RenderLines(Template, a1);
    RenderLines(Template, a2);
    forall i | 0 <= i < 40 && i !in InputLines ensures ParamLines(a1)[i] == ParamLines(a2)[i] {
      FixedLineSame(Template[i], a1, a2);
    }
  }
}
