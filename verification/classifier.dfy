/** `classifier.py`: a total map from a prompt to one of five task labels by
    case-insensitive, whole-word keyword search with a fixed priority:
    code, then data, then reasoning, then writing, else general chat. */
module Classifier {
  import opened Text

  const CODE: string := "code"
  const REASONING: string := "reasoning"
  const DATA: string := "data"
  const WRITING: string := "writing"
  const GENERAL: string := "chat/general"

  /** `TASK_TYPES`, in the source's listing order. */
  const TASK_TYPES: seq<string> := [CODE, REASONING, DATA, WRITING, GENERAL]

  /** A search pattern: `\b<w>\b`, or a bare literal that may occur anywhere. */
  datatype Pattern = Word(w: string) | Anywhere(w: string)

  const CODE_PATTERNS: seq<Pattern> :=
    [Anywhere("```"), Word("python"), Word("java"), Word("debug"), Word("function")]
  const REASONING_PATTERNS: seq<Pattern> :=
    [Word("why"), Word("prove"), Word("step by step"), Word("logic")]
  const DATA_PATTERNS: seq<Pattern> :=
    [Word("csv"), Word("table"), Word("query"), Word("sql"), Word("data")]
  const WRITING_PATTERNS: seq<Pattern> :=
    [Word("blog"), Word("essay"), Word("rewrite"), Word("tone"), Word("summary")]

  /** There is a word character at position `i` (outside the text there is none). */
  predicate IsWordAt(t: string, i: int) {
    0 <= i < |t| && IsWordChar(t[i])
  }

  /** The regular-expression assertion `\b` at position `i`. */
  predicate Boundary(t: string, i: int) {
    IsWordAt(t, i - 1) != IsWordAt(t, i)
  }

  /** `w` occurs in `t` starting at position `i` (checked character by character). */
  predicate OccursAt(w: string, t: string, i: nat)
    decreases |w|
  {
    if |w| == 0 then i <= |t| else i < |t| && t[i] == w[0] && OccursAt(w[1..], t, i + 1)
  }

  lemma {:induction false} OccursAtIsSlice(w: string, t: string, i: nat)
    ensures OccursAt(w, t, i) <==> i + |w| <= |t| && t[i..i + |w|] == w
    decreases |w|
  {
    if |w| > 0 {
      OccursAtIsSlice(w[1..], t, i + 1);
      if i + |w| <= |t| {
        var s := t[i..i + |w|];
        assert s[0] == t[i];
        assert s[1..] == t[i + 1..i + 1 + |w[1..]|];
        if s == w {
          assert s[1..] == w[1..];
        }
      }
    }
  }

  /** The pattern matches `t` at position `i`. */
  predicate MatchAt(p: Pattern, t: string, i: nat) {
    OccursAt(p.w, t, i) && (p.Word? ==> Boundary(t, i) && Boundary(t, i + |p.w|))
  }

  /** `re.search` from position `i` on: scans the positions left to right. */
  function SearchFrom(p: Pattern, t: string, i: nat): bool
    decreases |t| - i
  {
    if i > |t| then false else MatchAt(p, t, i) || SearchFrom(p, t, i + 1)
  }

  /** `re.search(p, t) is not None`. */
  function Search(p: Pattern, t: string): bool {
    SearchFrom(p, t, 0)
  }

  /** The scan finds a match exactly when the pattern matches at some position. */
  lemma {:induction false} SearchFromFindsMatch(p: Pattern, t: string, i: nat)
    ensures SearchFrom(p, t, i) <==> exists j :: i <= j <= |t| && MatchAt(p, t, j)
    decreases |t| - i
  {
    if i <= |t| {
      SearchFromFindsMatch(p, t, i + 1);
    }
  }

  /** `re.search(p, t)` succeeds exactly when `p` matches `t` somewhere. */
  lemma SearchFindsMatch(p: Pattern, t: string)
    ensures Search(p, t) <==> exists j :: 0 <= j <= |t| && MatchAt(p, t, j)
  {
    SearchFromFindsMatch(p, t, 0);
  }

  /** `any(re.search(p, t) for p in ps)`. */
  function AnySearch(ps: seq<Pattern>, t: string): bool {
    |ps| > 0 && (Search(ps[0], t) || AnySearch(ps[1..], t))
  }

  /** `any(...)` holds exactly when one of the patterns is found. */
  lemma {:induction false} AnySearchFindsOne(ps: seq<Pattern>, t: string)
    ensures AnySearch(ps, t) <==> exists k :: 0 <= k < |ps| && Search(ps[k], t)
  {
    if |ps| > 0 {
      AnySearchFindsOne(ps[1..], t);
      assert forall k :: 0 < k < |ps| ==> ps[k] == ps[1..][k - 1];
    }
  }

  /** `prompt.lower().strip()`. */
  function Normalize(prompt: string): string {
    Strip(Lower(prompt))
  }

  /** The priority chain of `classify_task`, applied to the normalized text. */
  function LabelOf(text: string): (task: string)
    ensures task in TASK_TYPES
  {
    if |text| == 0 then GENERAL
    else if AnySearch(CODE_PATTERNS, text) then CODE
    else if AnySearch(DATA_PATTERNS, text) then DATA
    else if AnySearch(REASONING_PATTERNS, text) then REASONING
    else if AnySearch(WRITING_PATTERNS, text) then WRITING
    else GENERAL
  }

  /** `classify_task`: total, one of `TASK_TYPES`, general chat for a blank prompt. */
  function Classify(prompt: string): (task: string)
    ensures task in TASK_TYPES
    ensures IsBlank(prompt) ==> task == GENERAL
  {
    LabelOf(Normalize(prompt))
  }

  /** Every keyword starts and ends with a non-space character. */
  predicate Trimmed(p: Pattern) {
    |p.w| > 0 && !IsSpace(p.w[0]) && !IsSpace(p.w[|p.w| - 1])
  }

  /** Inside the stripped part of a text, positions correspond one to one. */
  lemma WordAtShifts(t: string, a: nat, r: string, i: int)
    requires a + |r| <= |t| && r == t[a..a + |r|]
    requires IsBlank(t[..a]) && IsBlank(t[a + |r|..])
    requires -1 <= i <= |r|
    ensures IsWordAt(r, i) == IsWordAt(t, a + i)
  {
    if i == -1 && a > 0 {
      assert t[..a][a - 1] == t[a - 1];
    } else if i == |r| && a + |r| < |t| {
      assert t[a + |r|..][0] == t[a + |r|];
    }
  }

  /** A match in the stripped text is a match in the whole text, shifted by
      the stripped prefix, and the other way round. */
  lemma SliceOfSlice(t: string, lo: nat, hi: nat, i: nat, k: nat)
    requires lo <= hi <= |t| && i <= k <= hi - lo
    ensures t[lo..hi][i..k] == t[lo + i..lo + k]
  {
    var x, y := t[lo..hi][i..k], t[lo + i..lo + k];
    forall n | 0 <= n < k - i
      ensures x[n] == y[n]
    {
      assert x[n] == t[lo..hi][i + n] == t[lo + i + n];
    }
  }

  lemma MatchShifts(p: Pattern, t: string, a: nat, r: string, j: nat)
    requires a + |r| <= |t| && r == t[a..a + |r|]
    requires IsBlank(t[..a]) && IsBlank(t[a + |r|..])
    requires j + |p.w| <= |r|
    ensures MatchAt(p, r, j) <==> MatchAt(p, t, a + j)
  {
    var m := |p.w|;
    OccursAtIsSlice(p.w, r, j);
    OccursAtIsSlice(p.w, t, a + j);
    SliceOfSlice(t, a, a + |r|, j, j + m);
    WordAtShifts(t, a, r, j - 1);
    WordAtShifts(t, a, r, j);
    WordAtShifts(t, a, r, j + m - 1);
    WordAtShifts(t, a, r, j + m);
  }

  /** A trimmed keyword can only occur inside the stripped part of a text. */
  lemma MatchInsideStrip(p: Pattern, t: string, a: nat, n: nat, j: nat)
    requires Trimmed(p)
    requires a + n <= |t| && IsBlank(t[..a]) && IsBlank(t[a + n..])
    requires MatchAt(p, t, j)
    ensures a <= j && j + |p.w| <= a + n
  {
    OccursAtIsSlice(p.w, t, j);
    var w := p.w;
    assert t[j..j + |w|][0] == t[j] == w[0];
    assert t[j..j + |w|][|w| - 1] == t[j + |w| - 1] == w[|w| - 1];
  }

  /** A match in the whole text reappears in its blank-bordered middle part. */
  lemma MatchInMiddle(p: Pattern, t: string, a: nat, r: string, j: nat)
    requires Trimmed(p)
    requires a + |r| <= |t| && r == t[a..a + |r|]
    requires IsBlank(t[..a]) && IsBlank(t[a + |r|..])
    requires MatchAt(p, t, j)
    ensures a <= j && MatchAt(p, r, j - a)
  {
    MatchInsideStrip(p, t, a, |r|, j);
    MatchShifts(p, t, a, r, j - a);
  }

  /** A match in the stripped text is a match in the text. */
  lemma MatchInStripped(p: Pattern, t: string, j: int)
    requires Trimmed(p)
    requires 0 <= j <= |Strip(t)| && MatchAt(p, Strip(t), j)
    ensures exists i :: 0 <= i <= |t| && MatchAt(p, t, i)
  {
    StripIsSlice(t);
    var a := |t| - |TrimStart(t)|;
    var r := Strip(t);
    OccursAtIsSlice(p.w, r, j);
    MatchShifts(p, t, a, r, j);
    assert 0 <= a + j <= |t| && MatchAt(p, t, a + j);
  }

  /** A match in the text is a match in the stripped text. */
  lemma MatchInUnstripped(p: Pattern, t: string, j: int)
    requires Trimmed(p)
    requires 0 <= j <= |t| && MatchAt(p, t, j)
    ensures exists i :: 0 <= i <= |Strip(t)| && MatchAt(p, Strip(t), i)
  {
    StripIsSlice(t);
    var a := |t| - |TrimStart(t)|;
    var r := Strip(t);
    MatchInMiddle(p, t, a, r, j);
    assert 0 <= j - a <= |r|;
  }

  /** A trimmed keyword matches the stripped text iff it matches the text. */
  lemma MatchesIgnoreStrip(p: Pattern, t: string)
    requires Trimmed(p)
    ensures (exists j :: 0 <= j <= |Strip(t)| && MatchAt(p, Strip(t), j))
        <==> (exists j :: 0 <= j <= |t| && MatchAt(p, t, j))
  {
    if j :| 0 <= j <= |Strip(t)| && MatchAt(p, Strip(t), j) {
      MatchInStripped(p, t, j);
    }
    if j :| 0 <= j <= |t| && MatchAt(p, t, j) {
      MatchInUnstripped(p, t, j);
    }
  }

  /** Stripping the text never changes whether a trimmed keyword is found. */
  lemma SearchIgnoresStrip(p: Pattern, t: string)
    requires Trimmed(p)
    ensures Search(p, Strip(t)) <==> Search(p, t)
  {
    SearchFindsMatch(p, Strip(t));
    SearchFindsMatch(p, t);
    MatchesIgnoreStrip(p, t);
  }

  /** Some keyword of `ps` matches somewhere in `t`. */
  predicate Mentions(t: string, ps: seq<Pattern>) {
    exists k, j :: 0 <= k < |ps| && 0 <= j <= |t| && MatchAt(ps[k], t, j)
  }

  lemma {:induction false} AnySearchIgnoresStrip(ps: seq<Pattern>, t: string)
    requires forall k :: 0 <= k < |ps| ==> Trimmed(ps[k])
    ensures AnySearch(ps, Strip(t)) <==> Mentions(t, ps)
  {
    AnySearchFindsOne(ps, Strip(t));
    forall k | 0 <= k < |ps|
      ensures Search(ps[k], Strip(t)) <==> exists j :: 0 <= j <= |t| && MatchAt(ps[k], t, j)
    {
      SearchIgnoresStrip(ps[k], t);
      SearchFindsMatch(ps[k], t);
    }
  }

  /** No trimmed keyword is found in the empty text. */
  lemma NothingInEmpty(ps: seq<Pattern>, t: string)
    requires forall k :: 0 <= k < |ps| ==> Trimmed(ps[k])
    requires |t| == 0
    ensures !AnySearch(ps, t)
  {
    AnySearchFindsOne(ps, t);
    forall k | 0 <= k < |ps|
      ensures !Search(ps[k], t)
    {
      SearchFindsMatch(ps[k], t);
    }
  }

  lemma AllTrimmed()
    ensures forall k :: 0 <= k < |CODE_PATTERNS| ==> Trimmed(CODE_PATTERNS[k])
    ensures forall k :: 0 <= k < |DATA_PATTERNS| ==> Trimmed(DATA_PATTERNS[k])
    ensures forall k :: 0 <= k < |REASONING_PATTERNS| ==> Trimmed(REASONING_PATTERNS[k])
    ensures forall k :: 0 <= k < |WRITING_PATTERNS| ==> Trimmed(WRITING_PATTERNS[k])
  {
  }

  /** The classification in declarative terms: the first category, in the
      order code, data, reasoning, writing, one of whose keywords occurs as
      a whole word (the fence anywhere) in the lower-cased prompt, and
      general chat when none does. Stripping and the empty-text test do not
      change the outcome. */
  lemma {:induction false} ClassifyByPriority(prompt: string)
    ensures var t := Lower(prompt);
      && (Classify(prompt) == CODE <==> Mentions(t, CODE_PATTERNS))
      && (Classify(prompt) == DATA <==> !Mentions(t, CODE_PATTERNS) && Mentions(t, DATA_PATTERNS))
      && (Classify(prompt) == REASONING <==>
            !Mentions(t, CODE_PATTERNS) && !Mentions(t, DATA_PATTERNS) && Mentions(t, REASONING_PATTERNS))
      && (Classify(prompt) == WRITING <==>
            !Mentions(t, CODE_PATTERNS) && !Mentions(t, DATA_PATTERNS)
            && !Mentions(t, REASONING_PATTERNS) && Mentions(t, WRITING_PATTERNS))
      && (Classify(prompt) == GENERAL <==>
            !Mentions(t, CODE_PATTERNS) && !Mentions(t, DATA_PATTERNS)
            && !Mentions(t, REASONING_PATTERNS) && !Mentions(t, WRITING_PATTERNS))
  {
    var t := Lower(prompt);
    var n := Strip(t);
    AllTrimmed();
    AnySearchIgnoresStrip(CODE_PATTERNS, t);
    AnySearchIgnoresStrip(DATA_PATTERNS, t);
    AnySearchIgnoresStrip(REASONING_PATTERNS, t);
    AnySearchIgnoresStrip(WRITING_PATTERNS, t);
    if |n| == 0 {
      NothingInEmpty(CODE_PATTERNS, n);
      NothingInEmpty(DATA_PATTERNS, n);
      NothingInEmpty(REASONING_PATTERNS, n);
      NothingInEmpty(WRITING_PATTERNS, n);
    }
  }

  /** The label depends only on the lower-cased text: upper-casing or
      lower-casing the prompt first changes nothing. */
  lemma ClassifyIgnoresCase(prompt: string)
    ensures Classify(Upper(prompt)) == Classify(prompt)
    ensures Classify(Lower(prompt)) == Classify(prompt)
  {
    LowerOfUpper(prompt);
    LowerIdempotent(prompt);
    assert Normalize(Upper(prompt)) == Normalize(prompt);
    assert Normalize(Lower(prompt)) == Normalize(prompt);
  }

  /** The words `ws[from..]` joined by single spaces. */
  function JoinWords(ws: seq<string>, from: nat): string
    decreases |ws| - from
  {
    if from >= |ws| then "" else if from == |ws| - 1 then ws[from] else ws[from] + " " + JoinWords(ws, from + 1)
  }

  /** A keyword without a space in it. */
  predicate Spaceless(p: Pattern) {
    |p.w| > 0 && forall i :: 0 <= i < |p.w| ==> p.w[i] != ' '
  }

  /** In `u + " " + v`, a keyword lying inside `u` matches as it does in `u`. */
  lemma MatchLeft(p: Pattern, u: string, v: string, j: nat)
    requires j + |p.w| <= |u|
    ensures MatchAt(p, u + " " + v, j) <==> MatchAt(p, u, j)
  {
    var t := u + " " + v;
    OccursAtIsSlice(p.w, t, j);
    OccursAtIsSlice(p.w, u, j);
    assert t[j..j + |p.w|] == u[j..j + |p.w|];
    assert IsWordAt(t, j - 1) == IsWordAt(u, j - 1);
    assert IsWordAt(t, j) == IsWordAt(u, j);
    assert IsWordAt(t, j + |p.w| - 1) == IsWordAt(u, j + |p.w| - 1);
    assert IsWordAt(t, j + |p.w|) == IsWordAt(u, j + |p.w|);
  }

  /** In `u + " " + v`, a keyword starting after the space matches as it does in `v`. */
  lemma MatchRight(p: Pattern, u: string, v: string, j: nat)
    requires |u| < j
    ensures MatchAt(p, u + " " + v, j) <==> MatchAt(p, v, j - |u| - 1)
  {
    var t := u + " " + v;
    var k := j - |u| - 1;
    OccursAtIsSlice(p.w, t, j);
    OccursAtIsSlice(p.w, v, k);
    if j + |p.w| <= |t| {
      assert t[j..j + |p.w|] == v[k..k + |p.w|];
    }
    assert IsWordAt(t, j - 1) == IsWordAt(v, k - 1);
    assert IsWordAt(t, j) == IsWordAt(v, k);
    assert IsWordAt(t, j + |p.w| - 1) == IsWordAt(v, k + |p.w| - 1);
    assert IsWordAt(t, j + |p.w|) == IsWordAt(v, k + |p.w|);
  }

  /** A keyword without a space never covers the joining space. */
  lemma MatchAcross(p: Pattern, u: string, v: string, j: nat)
    requires Spaceless(p)
    requires j <= |u| < j + |p.w|
    ensures !MatchAt(p, u + " " + v, j)
  {
    var t := u + " " + v;
    if OccursAt(p.w, t, j) {
      OccursAtChar(p.w, t, j, |u| - j);
    }
  }

  /** An occurrence agrees with the keyword character by character. */
  lemma {:induction false} OccursAtChar(w: string, t: string, i: nat, m: nat)
    requires OccursAt(w, t, i) && m < |w|
    ensures i + m < |t| && t[i + m] == w[m]
    decreases m
  {
    if m > 0 {
      OccursAtChar(w[1..], t, i + 1, m - 1);
    }
  }

  /** Searching two words joined by a space is searching each of them. */
  lemma SearchSplits(p: Pattern, u: string, v: string)
    requires Spaceless(p)
    ensures Search(p, u + " " + v) <==> Search(p, u) || Search(p, v)
  {
    var t := u + " " + v;
    SearchFindsMatch(p, t);
    SearchFindsMatch(p, u);
    SearchFindsMatch(p, v);
    if Search(p, t) {
      var j :| 0 <= j <= |t| && MatchAt(p, t, j);
      if j + |p.w| <= |u| {
        MatchLeft(p, u, v, j);
      } else if j <= |u| {
        MatchAcross(p, u, v, j);
      } else {
        MatchRight(p, u, v, j);
      }
    }
    if Search(p, u) {
      var j :| 0 <= j <= |u| && MatchAt(p, u, j);
      OccursAtIsSlice(p.w, u, j);
      MatchLeft(p, u, v, j);
    }
    if Search(p, v) {
      var k :| 0 <= k <= |v| && MatchAt(p, v, k);
      MatchRight(p, u, v, k + |u| + 1);
    }
  }

  /** A keyword without a space is found in a sentence exactly when it is found in one of its words. */
  lemma {:induction false} SearchJoin(p: Pattern, ws: seq<string>, from: nat)
    requires Spaceless(p)
    ensures Search(p, JoinWords(ws, from)) <==> exists i :: from <= i < |ws| && Search(p, ws[i])
    decreases |ws| - from
  {
    if from >= |ws| {
      SearchFindsMatch(p, JoinWords(ws, from));
    } else if from < |ws| - 1 {
      SearchSplits(p, ws[from], JoinWords(ws, from + 1));
      SearchJoin(p, ws, from + 1);
    }
  }
}
