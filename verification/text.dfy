/** The string primitives the classifier and the cost estimate rely on:
    lower-casing, stripping, whitespace-separated word counting and the
    regular-expression word-boundary test. Whitespace is Python's full set;
    case mapping and word characters are the ASCII parts of Python's
    Unicode-aware `str.lower` and `\b`. */
module Text {

  /** Whitespace as `str.split()` and `str.strip()` see it: every character
      for which Python's `str.isspace` holds. */
  predicate IsSpace(c: char) {
    (9 <= c as int <= 13) || (28 <= c as int <= 32) || (c as int >= 0x85 && IsWideSpace(c))
  }

  /** The whitespace characters beyond ASCII. */
  predicate IsWideSpace(c: char) {
    var n := c as int;
    n == 0x85 || n == 0xA0 || n == 0x1680 || (0x2000 <= n <= 0x200A)
    || n == 0x2028 || n == 0x2029 || n == 0x202F || n == 0x205F || n == 0x3000
  }

  /** A regular-expression word character: `[A-Za-z0-9_]`. */
  predicate IsWordChar(c: char) {
    ('a' <= c <= 'z') || ('A' <= c <= 'Z') || ('0' <= c <= '9') || c == '_'
  }

  predicate IsUpper(c: char) { 'A' <= c <= 'Z' }

  function LowerChar(c: char): (d: char)
    ensures !IsUpper(d)
    ensures IsUpper(c) ==> d as int == c as int + 32
    ensures !IsUpper(c) ==> d == c
  {
    if IsUpper(c) then (c as int + 32) as char else c
  }

  function UpperChar(c: char): (d: char)
    ensures LowerChar(d) == LowerChar(c)
  {
    if 'a' <= c <= 'z' then (c as int - 32) as char else c
  }

  /** `str.lower()`, character by character. */
  function Lower(s: string): (r: string)
    ensures |r| == |s|
    ensures forall i :: 0 <= i < |s| ==> r[i] == LowerChar(s[i])
  {
    if |s| == 0 then [] else [LowerChar(s[0])] + Lower(s[1..])
  }

  /** ASCII upper-casing, used only to state case-insensitivity. */
  function Upper(s: string): (r: string)
    ensures |r| == |s|
    ensures forall i :: 0 <= i < |s| ==> r[i] == UpperChar(s[i])
  {
    if |s| == 0 then [] else [UpperChar(s[0])] + Upper(s[1..])
  }

  /** Lower-casing twice is lower-casing once. */
  lemma LowerIdempotent(s: string)
    ensures Lower(Lower(s)) == Lower(s)
  {
  }

  /** Upper-case and lower-case spellings of a text lower-case alike. */
  lemma LowerOfUpper(s: string)
    ensures Lower(Upper(s)) == Lower(s)
  {
  }

  predicate IsBlank(s: string) {
    forall i :: 0 <= i < |s| ==> IsSpace(s[i])
  }

  /** Drops leading whitespace. */
  function TrimStart(s: string): (r: string)
    ensures |r| <= |s| && r == s[|s| - |r|..]
    ensures |r| > 0 ==> !IsSpace(r[0])
    ensures IsBlank(s[..|s| - |r|])
  {
    if |s| > 0 && IsSpace(s[0]) then TrimStart(s[1..]) else s
  }

  /** Drops trailing whitespace. */
  function TrimEnd(s: string): (r: string)
    ensures |r| <= |s| && r == s[..|r|]
    ensures |r| > 0 ==> !IsSpace(r[|r| - 1])
    ensures IsBlank(s[|r|..])
  {
    if |s| > 0 && IsSpace(s[|s| - 1]) then TrimEnd(s[..|s| - 1]) else s
  }

  /** `str.strip()`: the text between the first and the last non-space. */
  function Strip(s: string): (r: string)
  {
    TrimEnd(TrimStart(s))
  }

  /** Stripping cuts a blank prefix and a blank suffix, and nothing else. */
  lemma StripIsSlice(s: string)
    ensures var a := |s| - |TrimStart(s)|;
      && a + |Strip(s)| <= |s|
      && Strip(s) == s[a..a + |Strip(s)|]
      && IsBlank(s[..a])
      && IsBlank(s[a + |Strip(s)|..])
  {
    var u := TrimStart(s);
    var a := |s| - |u|;
    var r := TrimEnd(u);
    assert u[..|r|] == s[a..a + |r|];
    assert u[|r|..] == s[a + |r|..];
  }

  /** A text that neither starts nor ends with a space is its own strip. */
  lemma StripKeeps(s: string)
    requires |s| > 0 ==> !IsSpace(s[0]) && !IsSpace(s[|s| - 1])
    ensures Strip(s) == s
  {
  }

  /** Number of maximal runs of non-space characters, i.e. `len(s.split())`. */
  function WordCount(s: string): (n: nat)
    ensures n <= |s|
  {
    if |s| == 0 then 0
    else
      var starts := !IsSpace(s[|s| - 1]) && (|s| == 1 || IsSpace(s[|s| - 2]));
      WordCount(s[..|s| - 1]) + (if starts then 1 else 0)
  }

  /** The length of the leading run of non-space characters. */
  function Span(t: string): (k: nat)
    ensures k <= |t|
    ensures forall i :: 0 <= i < k ==> !IsSpace(t[i])
    ensures k < |t| ==> IsSpace(t[k])
  {
    if |t| == 0 || IsSpace(t[0]) then 0 else 1 + Span(t[1..])
  }

  /** A non-empty run of non-space characters. */
  predicate IsWord(w: string) {
    |w| > 0 && forall j :: 0 <= j < |w| ==> !IsSpace(w[j])
  }

  /** `str.split()` without arguments: the maximal runs of non-space
      characters, left to right. */
  function Words(s: string): (ws: seq<string>)
    ensures forall i :: 0 <= i < |ws| ==> IsWord(ws[i])
    decreases |s|
  {
    var t := TrimStart(s);
    if |t| == 0 then []
    else
      var k := Span(t);
      var rest := Words(t[k..]);
      assert IsWord(t[..k]);
      [t[..k]] + rest
  }

  /** Counting across a cut: the words of the two halves, less one when the
      cut falls inside a word. */
  lemma {:induction false} WordCountAppend(a: string, b: string)
    ensures WordCount(a + b) ==
      WordCount(a) + WordCount(b) - (if |a| > 0 && |b| > 0 && !IsSpace(a[|a| - 1]) && !IsSpace(b[0]) then 1 else 0)
    decreases |b|
  {
    if |b| == 0 {
      assert a + b == a;
    } else {
      var b' := b[..|b| - 1];
      assert (a + b)[..|a + b| - 1] == a + b';
      WordCountAppend(a, b');
    }
  }

  /** A blank text has no words. */
  lemma {:induction false} BlankHasNoWords(s: string)
    requires IsBlank(s)
    ensures WordCount(s) == 0
  {
    if |s| > 0 {
      BlankHasNoWords(s[..|s| - 1]);
    }
  }

  /** A non-empty run of non-space characters is one word. */
  lemma {:induction false} RunIsOneWord(s: string)
    requires IsWord(s)
    ensures WordCount(s) == 1
  {
    if |s| > 1 {
      RunIsOneWord(s[..|s| - 1]);
    }
  }

  /** Cutting a text and joining the halves gives it back. */
  lemma CutAndJoin(s: string, k: nat)
    requires k <= |s|
    ensures s[..k] + s[k..] == s
  {
  }

  /** Leading whitespace adds no word. */
  lemma WordCountSkipsBlank(s: string)
    ensures WordCount(s) == WordCount(TrimStart(s))
  {
    var t := TrimStart(s);
    var blank := s[..|s| - |t|];
    CutAndJoin(s, |s| - |t|);
    BlankHasNoWords(blank);
    WordCountAppend(blank, t);
  }

  /** A text that starts with a word has that word and the words after it. */
  lemma WordCountFirstWord(t: string)
    requires |t| > 0 && !IsSpace(t[0])
    ensures WordCount(t) == 1 + WordCount(t[Span(t)..])
  {
    var k := Span(t);
    CutAndJoin(t, k);
    assert IsWord(t[..k]);
    RunIsOneWord(t[..k]);
    WordCountAppend(t[..k], t[k..]);
  }

  /** The text after the first word of `s`, when `s` has one. */
  function AfterFirstWord(s: string): (r: string)
    ensures |r| < |s| || |TrimStart(s)| == 0
  {
    var t := TrimStart(s);
    t[Span(t)..]
  }

  /** `str.split()` peels off the first word and splits the rest. */
  lemma WordsPeel(s: string)
    requires |TrimStart(s)| > 0
    ensures |Words(s)| == 1 + |Words(AfterFirstWord(s))|
  {
  }

  /** `WordCount` is the length of `str.split()`. */
  lemma {:induction false} WordCountIsSplitLength(s: string)
    ensures WordCount(s) == |Words(s)|
    decreases |s|
  {
    WordCountSkipsBlank(s);
    if |TrimStart(s)| > 0 {
      WordsPeel(s);
      WordCountFirstWord(TrimStart(s));
      WordCountIsSplitLength(AfterFirstWord(s));
    }
  }
}
