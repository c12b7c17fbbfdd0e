/** String operations of the host languages that the model needs: JavaScript's `trim`,
    Python's `str.lower`, `str.rfind`, pathlib's `name` and `suffix`, decimal rendering
    of numbers, and the shape of identifiers cut from a uuid4 hex string. */
module Text {

  /** The characters JavaScript's String.prototype.trim removes: WhiteSpace and LineTerminator. */
  predicate IsJsWhitespace(c: char) {
    var n := c as int;
    n == 0x09 || n == 0x0A || n == 0x0B || n == 0x0C || n == 0x0D || n == 0x20 ||
    n == 0xA0 || n == 0x1680 || (0x2000 <= n <= 0x200A) || n == 0x2028 || n == 0x2029 ||
    n == 0x202F || n == 0x205F || n == 0x3000 || n == 0xFEFF
  }

  function TrimStart(s: string): (r: string)
    ensures |r| <= |s| && r == s[|s| - |r|..]
    ensures forall i :: 0 <= i < |s| - |r| ==> IsJsWhitespace(s[i])
    ensures r == [] || !IsJsWhitespace(r[0])
  {
    if s != [] && IsJsWhitespace(s[0]) then TrimStart(s[1..]) else s
  }

  function TrimEnd(s: string): (r: string)
    ensures |r| <= |s| && r == s[..|r|]
    ensures forall i :: |r| <= i < |s| ==> IsJsWhitespace(s[i])
    ensures r == [] || !IsJsWhitespace(r[|r| - 1])
  {
    if s != [] && IsJsWhitespace(s[|s| - 1]) then TrimEnd(s[..|s| - 1]) else s
  }

  /** JavaScript's `s.trim()`. */
  function Trim(s: string): string {
    TrimEnd(TrimStart(s))
  }

  /** A string trims to "" exactly when every character of it is whitespace. */
  lemma TrimEmptyIff(s: string)
    ensures Trim(s) == [] <==> forall i :: 0 <= i < |s| ==> IsJsWhitespace(s[i])
  {

  }

  /** Python's `str.lower()` on ASCII letters. */
  function LowerChar(c: char): char {
    if 'A' <= c <= 'Z' then (c as int + 32) as char else c
  }

  function Lower(s: string): (r: string)
    ensures |r| == |s|
    ensures forall i :: 0 <= i < |s| ==> r[i] == LowerChar(s[i])
  {
    if s == [] then [] else [LowerChar(s[0])] + Lower(s[1..])
  }

  lemma LowerIdempotent(s: string)
    ensures Lower(Lower(s)) == Lower(s)
  {
  }

  /** Python's `s.rfind(c)`: the last index holding c, or -1. */
  function LastIndexOf(s: string, c: char): (r: int)
    ensures -1 <= r < |s|
    ensures r >= 0 ==> s[r] == c
    ensures forall j :: r < j < |s| ==> s[j] != c
  {
    if s == [] then -1
    else if s[|s| - 1] == c then |s| - 1
    else LastIndexOf(s[..|s| - 1], c)
  }

  /** Lowering does not move a character that lowering leaves alone and produces from nothing else. */
  lemma {:induction false} LastIndexOfLower(s: string, c: char)
    requires !('A' <= c <= 'Z') && !('a' <= c <= 'z')
    ensures LastIndexOf(Lower(s), c) == LastIndexOf(s, c)
  {
    if s != [] {
      assert Lower(s)[..|s| - 1] == Lower(s[..|s| - 1]);
      LastIndexOfLower(s[..|s| - 1], c);
    }
  }

  /** pathlib's `PurePosixPath(p).name`: the last component, where empty components and "." are
      dropped, or "" when nothing is left. */
  function PathName(p: string): (r: string)
    decreases |p|
  {
    if p == [] then ""
    else if p[|p| - 1] == '/' then PathName(p[..|p| - 1])
    else
      var i := LastIndexOf(p, '/');
      if p[i + 1..] == "." then PathName(p[..i + 1]) else p[i + 1..]
  }

  /** pathlib's `suffix` of a final component (CPython 3.12): the text from the last dot, when
      that dot is neither the first nor the last character; "" otherwise. */
  function Suffix(name: string): (r: string)
    ensures r == [] || (r[0] == '.' && 1 < |r| <= |name| && r == name[|name| - |r|..])
    ensures forall j :: 0 <= j < |r| ==> (r[j] == '.' <==> j == 0)
  {
    var i := LastIndexOf(name, '.');
    if 0 < i < |name| - 1 then name[i..] else ""
  }

  /** The suffix is non-empty exactly when the name has a dot that is neither its first nor its
      last character and is followed by no other dot; the suffix then starts at that dot. */
  lemma SuffixNonEmptyIff(name: string)
    ensures Suffix(name) != [] <==>
      exists i :: 0 < i < |name| - 1 && name[i] == '.' && (forall j :: i < j < |name| ==> name[j] != '.')
    ensures forall i :: 0 < i < |name| - 1 && name[i] == '.' && (forall j :: i < j < |name| ==> name[j] != '.') ==>
      Suffix(name) == name[i..]
  {
    var r := LastIndexOf(name, '.');
    forall i | 0 < i < |name| - 1 && name[i] == '.' && (forall j :: i < j < |name| ==> name[j] != '.')
      ensures r == i
    {
    }
    if 0 < r < |name| - 1 {
      assert name[r] == '.' && forall j :: r < j < |name| ==> name[j] != '.';
    }
  }

  /** pathlib's behaviour on the names the upload route sees: the text from the last dot, and no
      suffix for a hidden file's leading dot or a trailing dot. */
  lemma SuffixExamples()
    ensures Suffix("a.pdf") == ".pdf"
    ensures Suffix("archive.tar.gz") == ".gz"
    ensures Suffix(".bashrc") == ""
    ensures Suffix("notes.") == ""
    ensures Suffix("README") == ""
  {
    assert LastIndexOf("a.pdf", '.') == 1 by {
      assert "a.pdf"[..4] == "a.pd" && "a.pd"[..3] == "a.p" && "a.p"[..2] == "a.";
    }
    assert LastIndexOf("archive.tar.gz", '.') == 11 by {
      assert "archive.tar.gz"[..13] == "archive.tar.g" && "archive.tar.g"[..12] == "archive.tar.";
    }
    assert LastIndexOf(".bashrc", '.') <= 0 by {
      assert forall j :: 0 < j < 7 ==> ".bashrc"[j] != '.';
    }
    assert LastIndexOf("notes.", '.') == 5;
    assert LastIndexOf("README", '.') == -1 by {
      assert forall j :: 0 <= j < 6 ==> "README"[j] != '.';
    }
  }

  /** `Path(filename).suffix.lower()`: the extension both the upload route and the loader dispatch on. */
  function Extension(filename: string): string {
    Lower(Suffix(PathName(filename)))
  }

  lemma {:induction false} PathNameLower(p: string)
    ensures PathName(Lower(p)) == Lower(PathName(p))
    decreases |p|
  {
    var lp := Lower(p);
    if p != [] {
      assert Lower(p[..|p| - 1]) == lp[..|p| - 1];
      if p[|p| - 1] == '/' {
        PathNameLower(p[..|p| - 1]);
      } else {
        LastIndexOfLower(p, '/');
        var i := LastIndexOf(p, '/');
        assert lp[i + 1..] == Lower(p[i + 1..]);
        assert Lower(p[..i + 1]) == lp[..i + 1];
        if p[i + 1..] == "." {
          PathNameLower(p[..i + 1]);
        } else {
          assert lp[i + 1..] != ".";
        }
      }
    }
  }

  lemma SuffixLower(name: string)
    ensures Suffix(Lower(name)) == Lower(Suffix(name))
  {
    LastIndexOfLower(name, '.');
    var i := LastIndexOf(name, '.');
    if 0 < i < |name| - 1 {
      assert |Lower(name)[i..]| == |Lower(name[i..])|;
      assert forall j :: 0 <= j < |name| - i ==> Lower(name)[i..][j] == LowerChar(name[i + j]) == Lower(name[i..])[j];
      assert Lower(name)[i..] == Lower(name[i..]);
    }
  }

  /** The extension check is case-insensitive: "REPORT.PDF" and "report.pdf" have the same extension. */
  lemma ExtensionIgnoresCase(filename: string)
    ensures Extension(Lower(filename)) == Extension(filename)
  {
    PathNameLower(filename);
    SuffixLower(PathName(filename));
    LowerIdempotent(Suffix(PathName(filename)));
  }

  function DigitChar(d: nat): (c: char)
    requires d < 10
    ensures '0' <= c <= '9'
  {
    "0123456789"[d]
  }

  /** The decimal rendering of a number: JavaScript's template `${n}`, Python's `f"{n}"`. */
  function Decimal(n: nat): (r: string)
    ensures |r| >= 1
    ensures forall i :: 0 <= i < |r| ==> '0' <= r[i] <= '9'
    ensures r[0] == '0' ==> n == 0
  {
    if n < 10 then [DigitChar(n)] else Decimal(n / 10) + [DigitChar(n % 10)]
  }

  predicate IsLowerHex(s: string) {
    forall i :: 0 <= i < |s| ==> s[i] in "0123456789abcdef"
  }

  /** `uuid.uuid4().hex`: 32 lower-case hexadecimal digits. */
  predicate IsUuidHex(h: string) {
    |h| == 32 && IsLowerHex(h)
  }

  /** The identifier shape `f"{prefix}{uuid.uuid4().hex[:12]}"`. */
  predicate IsShortId(s: string, prefix: string) {
    |s| == |prefix| + 12 && s[..|prefix|] == prefix && IsLowerHex(s[|prefix|..])
  }

  function ShortId(prefix: string, hex: string): (r: string)
    requires IsUuidHex(hex)
    ensures IsShortId(r, prefix)
  {
    prefix + hex[..12]
  }
}
