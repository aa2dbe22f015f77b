/** The Python string built-ins that the user interface applies to its labels
    and to the downloaded file's path: `str.lower`, `str.split()` (first item)
    and `os.path.basename` in its POSIX form. */
module PyText {
  import opened Wrappers

  // ---------------------------------------------------------------------
  // Character classes
  // ---------------------------------------------------------------------

  /** Python's `str.isspace`: the separators `str.split()` splits on. */
  predicate IsSpace(c: char) {
    c == ' ' || ('\t' <= c <= '\r') || ('\U{1C}' <= c <= '\U{1F}')
    || c == '\U{85}' || c == '\U{A0}' || c == '\U{1680}'
    || ('\U{2000}' <= c <= '\U{200A}') || c == '\U{2028}' || c == '\U{2029}'
    || c == '\U{202F}' || c == '\U{205F}' || c == '\U{3000}'
  }

  /** Upper-case letters whose lower-case form is 32 code points further:
      ASCII `A`..`Z` and the Latin-1 capitals `À`..`Þ` except `×`. */
  predicate IsUpper(c: char) {
    ('A' <= c <= 'Z') || ('\U{C0}' <= c <= '\U{DE}' && c != '\U{D7}')
  }

  predicate AllSpace(s: string) {
    forall i :: 0 <= i < |s| ==> IsSpace(s[i])
  }

  predicate NoSpace(s: string) {
    forall i :: 0 <= i < |s| ==> !IsSpace(s[i])
  }

  // ---------------------------------------------------------------------
  // str.lower
  // ---------------------------------------------------------------------

  /** The lower-case form of one character: an upper-case letter moves 32
      code points up, every other character is kept. */
  function LowerChar(c: char): (d: char)
    ensures !IsUpper(d)
    ensures IsSpace(d) <==> IsSpace(c)
    ensures d == c || (IsUpper(c) && d as int == c as int + 32)
  {
    if IsUpper(c) then (c as int + 32) as char else c
  }

  /** `s.lower()`: the characters of `s` lowered one by one. */
  function Lower(s: string): (r: string)
    ensures |r| == |s|
    ensures forall i :: 0 <= i < |s| ==> r[i] == LowerChar(s[i])
  {
    seq(|s|, i requires 0 <= i < |s| => LowerChar(s[i]))
  }

  // ---------------------------------------------------------------------
  // str.split()[0]
  // ---------------------------------------------------------------------

  /** `w` occurs in `s` at index `k` as a maximal run of non-space characters. */
  predicate IsWordAt(s: string, k: nat, w: string)
  {
    w != [] && k + |w| <= |s| && s[k..k + |w|] == w && NoSpace(w)
    && (k + |w| == |s| || IsSpace(s[k + |w|]))
  }

  /** The number of whitespace characters `s` starts with. */
  function LeadingSpaces(s: string): (n: nat)
    ensures n <= |s| && AllSpace(s[..n])
    ensures n == |s| || !IsSpace(s[n])
  {
    if s == [] || !IsSpace(s[0]) then 0
    else
      var n := LeadingSpaces(s[1..]);
      ShiftSpaces(s, n);
      n + 1
  }

  /** `w` is the first item of `s.split()`: the maximal run of non-space
      characters that follows the leading whitespace. */
  predicate IsFirstWord(s: string, w: string)
  {
    IsWordAt(s, LeadingSpaces(s), w)
  }

  /** The longest prefix of `s` that holds no whitespace. */
  function TakeWord(s: string): (w: string)
    ensures |w| <= |s| && s[..|w|] == w
    ensures NoSpace(w)
    ensures |w| == |s| || IsSpace(s[|w|])
  {
    if s == [] || IsSpace(s[0]) then [] else [s[0]] + TakeWord(s[1..])
  }

  /** A word of `s[1..]` at `k` is a word of `s` at `k + 1`. */
  lemma ShiftWord(s: string, k: nat, w: string)
    requires s != [] && IsWordAt(s[1..], k, w)
    ensures IsWordAt(s, k + 1, w)
  {
    assert s[k + 1..k + 1 + |w|] == s[1..][k..k + |w|];
    assert k + 1 + |w| < |s| ==> s[k + 1 + |w|] == s[1..][k + |w|];
  }

  /** Leading whitespace of `s[1..]`, preceded by the space `s[0]`. */
  lemma ShiftSpaces(s: string, k: nat)
    requires s != [] && IsSpace(s[0]) && k < |s| && AllSpace(s[1..][..k])
    ensures AllSpace(s[..k + 1])
  {
    forall i | 0 < i < k + 1 ensures IsSpace(s[i]) {
      SpaceBefore(s[1..], k, i - 1);
    }
  }

  lemma SpaceBefore(s: string, k: nat, i: int)
    requires k <= |s| && AllSpace(s[..k]) && 0 <= i < k
    ensures IsSpace(s[i])
  {
    assert s[i] == s[..k][i];
  }

  /** `s.split()[0]`, or None where Python raises IndexError because `s`
      holds no word at all. */
  function FirstWord(s: string): (r: Option<string>)
    ensures r.None? <==> AllSpace(s)
    ensures r.Some? ==> IsFirstWord(s, r.value)
  {
    if s == [] then None
    else if IsSpace(s[0]) then
      var r := FirstWord(s[1..]);
      assert AllSpace(s) <==> AllSpace(s[1..]) by {
        forall i | 0 < i < |s| ensures s[i] == s[1..][i - 1] { }
      }
      if r.Some? then ShiftWord(s, LeadingSpaces(s[1..]), r.value); r else r
    else
      var w := TakeWord(s);
      assert IsWordAt(s, 0, w);
      Some(w)
  }

  /** `s.split()[0]` is well defined: a string has at most one first word. */
  lemma FirstWordUnique(s: string, w1: string, w2: string)
    requires IsFirstWord(s, w1) && IsFirstWord(s, w2)
    ensures w1 == w2
  {
  }

  /** Taking the first word commutes with lower-casing, because lower-casing
      neither creates nor removes whitespace. */
  lemma {:induction false} FirstWordOfLower(s: string)
    ensures FirstWord(Lower(s)).None? <==> FirstWord(s).None?
    ensures FirstWord(s).Some? ==> FirstWord(Lower(s)) == Some(Lower(FirstWord(s).value))
  {
    if s != [] {
      assert Lower(s)[1..] == Lower(s[1..]);
      if IsSpace(s[0]) {
        FirstWordOfLower(s[1..]);
      } else {
        TakeWordOfLower(s);
      }
    }
  }

  lemma {:induction false} TakeWordOfLower(s: string)
    ensures TakeWord(Lower(s)) == Lower(TakeWord(s))
  {
    if s != [] && !IsSpace(s[0]) {
      assert Lower(s)[1..] == Lower(s[1..]);
      TakeWordOfLower(s[1..]);
      assert Lower(TakeWord(s)) == [LowerChar(s[0])] + Lower(TakeWord(s[1..]));
    }
  }

  // ---------------------------------------------------------------------
  // os.path.basename (POSIX)
  // ---------------------------------------------------------------------

  /** `b` is a suffix of `p` holding no `/`. */
  predicate SlashFreeSuffix(p: string, b: string) {
    |b| <= |p| && p[|p| - |b|..] == b && '/' !in b
  }

  /** The last `n` characters of `p` are all of `p` or follow a `/`. */
  predicate AfterSlash(p: string, n: nat) {
    n <= |p| && (n == |p| || p[|p| - n - 1] == '/')
  }

  /** `os.path.basename(p)`: the part of `p` after its last `/`, or all of
      `p` when it holds no `/`. */
  function Basename(p: string): (b: string)
    ensures SlashFreeSuffix(p, b)
    ensures AfterSlash(p, |b|)
  {
    if p == [] || p[|p| - 1] == '/' then []
    else
      var init := p[..|p| - 1];
      assert p == init + [p[|p| - 1]];
      Basename(init) + [p[|p| - 1]]
  }

  /** The two properties in Basename's contract determine its result. */
  lemma BasenameUnique(p: string, b: string)
    requires SlashFreeSuffix(p, b) && AfterSlash(p, |b|)
    ensures Basename(p) == b
  {
  }

  /** The basename of `dir/name` is `name` whenever `name` holds no `/`. */
  lemma BasenameOfJoin(dir: string, name: string)
    requires '/' !in name
    ensures Basename(dir + "/" + name) == name
  {
    var p := dir + "/" + name;
    assert p[|p| - |name|..] == name;
    assert p[|p| - |name| - 1] == '/';
    BasenameUnique(p, name);
  }
}
