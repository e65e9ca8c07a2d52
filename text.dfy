/** String helpers with Python's meaning: whitespace, `lstrip`, `startswith`,
    `lower`, `str(int)` and path joining. */
module Text {

  /** `c.isspace()` in Python: the ASCII blanks and the Unicode space separators. */
  predicate IsSpace(c: char) {
    || c == ' '
    || ('\t' <= c <= '\r')
    || ('\U{1C}' <= c <= '\U{1F}')
    || c == '\U{85}' || c == '\U{A0}' || c == '\U{1680}'
    || ('\U{2000}' <= c <= '\U{200A}')
    || c == '\U{2028}' || c == '\U{2029}' || c == '\U{202F}' || c == '\U{205F}' || c == '\U{3000}'
  }

  predicate AllSpace(s: string) {
    forall i | 0 <= i < |s| :: IsSpace(s[i])
  }

  /** A non-empty run of non-blank characters: one whitespace-separated field. */
  predicate IsToken(s: string) {
    |s| > 0 && forall i | 0 <= i < |s| :: !IsSpace(s[i])
  }

  /** `s.lstrip()`: the suffix of `s` left after dropping its leading whitespace. */
  function LStrip(s: string): (r: string)
    ensures |r| <= |s| && r == s[|s| - |r|..]
    ensures AllSpace(s[..|s| - |r|])
    ensures r == [] || !IsSpace(r[0])
  {
    if s != [] && IsSpace(s[0]) then
      var r := LStrip(s[1..]);
      LStripStep(s, r);
      r
    else s
  }

  /** One blank more in front leaves the stripped text as it was. */
  lemma LStripStep(s: string, r: string)
    requires s != [] && IsSpace(s[0]) && |r| <= |s| - 1
    requires r == s[1..][|s| - 1 - |r|..] && AllSpace(s[1..][..|s| - 1 - |r|])
    ensures r == s[|s| - |r|..] && AllSpace(s[..|s| - |r|])
  {
    var k := |s| - |r|;
    assert s[1..][k - 1..] == s[k..];
    forall i | 0 <= i < k ensures IsSpace(s[i]) {
      if i > 0 {
        assert s[i] == s[1..][..k - 1][i - 1];
      }
    }
  }

  /** `s.startswith(p)`. */
  predicate StartsWith(s: string, p: string) {
    |p| <= |s| && s[..|p|] == p
  }

  function LowerChar(c: char): char {
    if 'A' <= c <= 'Z' then (c as int + 32) as char else c
  }

  /** `s.lower()` restricted to ASCII letters. */
  function Lower(s: string): string {
    seq(|s|, i requires 0 <= i < |s| => LowerChar(s[i]))
  }

  /** `c` is the letter `w` or, for a lower-case ASCII `w`, its capital. */
  predicate SameLetter(c: char, w: char) {
    c == w || ('a' <= w <= 'z' && c as int == w as int - 32)
  }

  /** `s` spells `word` in some mix of ASCII cases. */
  predicate SpelledAs(s: string, word: string) {
    |s| == |word| && forall i | 0 <= i < |s| :: SameLetter(s[i], word[i])
  }

  /** Lowering a character gives `w`, which has no capital letter in it,
      exactly when the character is `w` in either case. */
  lemma LowerCharIs(c: char, w: char)
    requires !('A' <= w <= 'Z')
    ensures LowerChar(c) == w <==> SameLetter(c, w)
  {
  }

  /** Lowering gives a word with no capital letters exactly when the text
      spells that word in any mix of ASCII cases. */
  lemma LowerIsWord(s: string, word: string)
    requires forall i | 0 <= i < |word| :: !('A' <= word[i] <= 'Z')
    ensures Lower(s) == word <==> SpelledAs(s, word)
  {
  }

  predicate IsDigits(s: string) {
    forall i | 0 <= i < |s| :: '0' <= s[i] <= '9'
  }

  function DigitChar(d: nat): (c: char)
    requires d < 10
    ensures '0' <= c <= '9' && c as int - '0' as int == d
  {
    ('0' as int + d) as char
  }

  /** Decimal digits of `n`, most significant first, with no leading zero. */
  function NatToString(n: nat): (s: string)
    ensures |s| >= 1 && IsDigits(s)
  {
    if n < 10 then [DigitChar(n)] else NatToString(n / 10) + [DigitChar(n % 10)]
  }

  /** The number a string of decimal digits denotes. */
  function DigitsValue(s: string): nat
    requires IsDigits(s)
  {
    if s == [] then 0 else 10 * DigitsValue(s[..|s| - 1]) + (s[|s| - 1] as int - '0' as int)
  }

  lemma {:induction false} NatToStringRoundTrip(n: nat)
    ensures DigitsValue(NatToString(n)) == n
  {
    if n >= 10 {
      NatToStringRoundTrip(n / 10);
      var s := NatToString(n);
      assert s[..|s| - 1] == NatToString(n / 10);
    }
  }

  /** `str(i)` for a Python int. */
  function IntToString(i: int): (s: string)
    ensures IsToken(s)
    ensures s[0] == '-' <==> i < 0
  {
    if i < 0 then "-" + NatToString(-i) else NatToString(i)
  }

  /** Different integers print differently, so a printed integer names its value. */
  lemma IntToStringInjective(a: int, b: int)
    requires IntToString(a) == IntToString(b)
    ensures a == b
  {
    if a < 0 {
      assert b < 0;
      assert NatToString(-a) == IntToString(a)[1..] == NatToString(-b);
    } else {
      assert b >= 0;
    }
    NatToStringRoundTrip(if a < 0 then -a else a);
    NatToStringRoundTrip(if b < 0 then -b else b);
  }

  /** `os.path.join(dir, name)` and `Path(dir) / name` for a relative `name`:
      a separator is inserted unless `dir` is empty or already ends with one. */
  function JoinPath(dir: string, name: string): (p: string)
    ensures p == dir + name || p == dir + "/" + name
    ensures p == dir + name <==> dir == [] || dir[|dir| - 1] == '/'
  {
    if dir == [] || dir[|dir| - 1] == '/' then dir + name else dir + "/" + name
  }

  /** The ancestors that `Path(p).parent.mkdir(parents=True)` and
      `os.makedirs(p)` make sure of: every proper prefix of `p` that ends
      before a separator. */
  function Parents(p: string): (r: set<string>)
    ensures forall d | d in r :: |d| < |p| && p[..|d|] == d && p[|d|] == '/'
  {
    set i | 0 < i < |p| && p[i] == '/' :: p[..i]
  }
}
