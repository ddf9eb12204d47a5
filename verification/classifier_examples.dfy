/** The classifier cases of `tests/test_classifier.py`, and prompts that
    show the whole-word boundaries and the fixed priority at work. Each
    prompt is normalized, split into its words, and every keyword group is
    searched word by word, so that every obligation stays small. */
module ClassifierExamples {
  import opened Text
  import opened Classifier

  /** A prompt whose lower-cased form is `t`, with `t` already stripped, normalizes to `t`. */
  lemma NormalizesTo(prompt: string, t: string)
    requires |prompt| == |t|
    requires forall i :: 0 <= i < |t| ==> LowerChar(prompt[i]) == t[i]
    requires |t| > 0 ==> !IsSpace(t[0]) && !IsSpace(t[|t| - 1])
    ensures Normalize(prompt) == t
  {
    assert Lower(prompt) == t;
    StripKeeps(t);
  }

  lemma ClassifyVia(prompt: string, t: string)
    requires Normalize(prompt) == t
    ensures Classify(prompt) == LabelOf(t)
  {
  }

  /** `x[k..]` occurs in `t` at index `i + k`, compared character by character. */
  predicate RestAt(x: string, t: string, i: nat, k: nat)
    decreases |x| - k
  {
    k >= |x| || (i + k < |t| && t[i + k] == x[k] && RestAt(x, t, i, k + 1))
  }

  /** `x` occurs in `t` at some index from `i` on. */
  predicate OccursFrom(x: string, t: string, i: nat)
    decreases |t| - i
  {
    i + |x| <= |t| && (RestAt(x, t, i, 0) || OccursFrom(x, t, i + 1))
  }

  lemma {:induction false} SliceIsRest(x: string, t: string, i: nat, k: nat)
    requires i + |x| <= |t| && t[i..i + |x|] == x && k <= |x|
    ensures RestAt(x, t, i, k)
    decreases |x| - k
  {
    if k < |x| {
      assert t[i + k] == t[i..i + |x|][k];
      SliceIsRest(x, t, i, k + 1);
    }
  }

  lemma {:induction false} NowhereFrom(x: string, t: string, i: nat, j: nat)
    requires !OccursFrom(x, t, i) && i <= j
    ensures !OccursAt(x, t, j)
    decreases j - i
  {
    OccursAtIsSlice(x, t, j);
    if OccursAt(x, t, j) {
      SliceIsRest(x, t, j, 0);
      if i < j {
        NowhereFrom(x, t, i + 1, j);
      }
    }
  }

  /** A keyword whose text does not occur in `t` is not found in `t`. */
  lemma NotFoundAnywhere(p: Pattern, t: string)
    requires !OccursFrom(p.w, t, 0)
    ensures !Search(p, t)
  {
    SearchFindsMatch(p, t);
    forall j | 0 <= j <= |t|
      ensures !MatchAt(p, t, j)
    {
      NowhereFrom(p.w, t, 0, j);
    }
  }

  /** A whole-word keyword that only begins `t`, running on into more word
      characters, and whose first character occurs nowhere else, is not found. */
  lemma NotFoundInsideWord(w: string, t: string)
    requires 0 < |w| < |t| && t[..|w|] == w
    requires IsWordChar(w[|w| - 1]) && IsWordChar(t[|w|])
    requires forall j :: 0 < j < |t| ==> t[j] != w[0]
    ensures !Search(Word(w), t)
  {
    SearchFindsMatch(Word(w), t);
    assert !Boundary(t, |w|);
  }

  lemma NoneFound(ps: seq<Pattern>, t: string)
    requires forall k :: 0 <= k < |ps| ==> !Search(ps[k], t)
    ensures !AnySearch(ps, t)
  {
    AnySearchFindsOne(ps, t);
  }

  /** No keyword of `ps` in a sentence: none in any word, and none of the
      keywords with a space in them in the whole sentence. */
  lemma NoneFoundInWords(ps: seq<Pattern>, ws: seq<string>)
    requires forall k :: 0 <= k < |ps| ==> Spaceless(ps[k]) || !Search(ps[k], JoinWords(ws, 0))
    requires forall i :: 0 <= i < |ws| ==> !AnySearch(ps, ws[i])
    ensures !AnySearch(ps, JoinWords(ws, 0))
  {
    AnySearchFindsOne(ps, JoinWords(ws, 0));
    if AnySearch(ps, JoinWords(ws, 0)) {
      var k :| 0 <= k < |ps| && Search(ps[k], JoinWords(ws, 0));
      SearchJoin(ps[k], ws, 0);
      var i :| 0 <= i < |ws| && Search(ps[k], ws[i]);
      AnySearchFindsOne(ps, ws[i]);
    }
  }

  lemma FoundInWord(ps: seq<Pattern>, k: nat, ws: seq<string>, i: nat)
    requires k < |ps| && Spaceless(ps[k])
    requires i < |ws| && Search(ps[k], ws[i])
    ensures AnySearch(ps, JoinWords(ws, 0))
  {
    SearchJoin(ps[k], ws, 0);
    AnySearchFindsOne(ps, JoinWords(ws, 0));
  }

  lemma NoCodeInWords(ws: seq<string>)
    requires forall i :: 0 <= i < |ws| ==> !AnySearch(CODE_PATTERNS, ws[i])
    ensures !AnySearch(CODE_PATTERNS, JoinWords(ws, 0))
  {
    AllSpaceless();
    NoneFoundInWords(CODE_PATTERNS, ws);
  }

  lemma NoDataInWords(ws: seq<string>)
    requires forall i :: 0 <= i < |ws| ==> !AnySearch(DATA_PATTERNS, ws[i])
    ensures !AnySearch(DATA_PATTERNS, JoinWords(ws, 0))
  {
    AllSpaceless();
    NoneFoundInWords(DATA_PATTERNS, ws);
  }

  /** A phrase that begins with the word `w`, followed by a space. */
  predicate StartsWithWord(phrase: string, w: string) {
    |w| < |phrase| && phrase[..|w|] == w && phrase[|w|] == ' '
  }

  /** A whole-word match of a phrase whose first word ends in a word
      character is a whole-word match of that first word. */
  lemma FirstWordMatches(phrase: string, w: string, t: string, j: nat)
    requires |w| > 0 && IsWordChar(w[|w| - 1]) && StartsWithWord(phrase, w)
    requires MatchAt(Word(phrase), t, j)
    ensures MatchAt(Word(w), t, j)
  {
    OccursAtIsSlice(phrase, t, j);
    OccursAtIsSlice(w, t, j);
    assert t[j..j + |w|] == t[j..j + |phrase|][..|w|];
    assert t[j + |w|] == t[j..j + |phrase|][|w|];
  }

  /** A phrase spans words: a sentence without its first word has none. */
  lemma NoPhraseInWords(phrase: string, w: string, ws: seq<string>)
    requires Spaceless(Word(w)) && IsWordChar(w[|w| - 1]) && StartsWithWord(phrase, w)
    requires forall i :: 0 <= i < |ws| ==> !Search(Word(w), ws[i])
    ensures !Search(Word(phrase), JoinWords(ws, 0))
  {
    var t := JoinWords(ws, 0);
    SearchJoin(Word(w), ws, 0);
    SearchFindsMatch(Word(phrase), t);
    SearchFindsMatch(Word(w), t);
    if Search(Word(phrase), t) {
      var j :| 0 <= j <= |t| && MatchAt(Word(phrase), t, j);
      FirstWordMatches(phrase, w, t, j);
    }
  }

  /** No keyword of `ps` in a sentence, where the one keyword that is a
      phrase has a first word that occurs in none of the sentence's words. */
  lemma NoneFoundInWordsBut(ps: seq<Pattern>, ws: seq<string>, k: nat, w: string)
    requires k < |ps| && ps[k].Word?
    requires Spaceless(Word(w)) && IsWordChar(w[|w| - 1]) && StartsWithWord(ps[k].w, w)
    requires forall m :: 0 <= m < |ps| && m != k ==> Spaceless(ps[m])
    requires forall i :: 0 <= i < |ws| ==> !AnySearch(ps, ws[i]) && !Search(Word(w), ws[i])
    ensures !AnySearch(ps, JoinWords(ws, 0))
  {
    NoPhraseInWords(ps[k].w, w, ws);
    NoneFoundInWords(ps, ws);
  }

  /** "step by step" spans words: a sentence none of whose words is "step" has none. */
  lemma NoReasoningInWords(ws: seq<string>)
    requires forall i :: 0 <= i < |ws| ==> !AnySearch(REASONING_PATTERNS, ws[i]) && !Search(Word("step"), ws[i])
    ensures !AnySearch(REASONING_PATTERNS, JoinWords(ws, 0))
  {
    AllSpaceless();
    StepByStepStartsWithStep();
    NoneFoundInWordsBut(REASONING_PATTERNS, ws, 2, "step");
  }

  lemma StepByStepStartsWithStep()
    ensures REASONING_PATTERNS[2].Word? && StartsWithWord(REASONING_PATTERNS[2].w, "step")
    ensures Spaceless(Word("step")) && IsWordChar("step"[3])
  {
  }

  lemma NoWritingInWords(ws: seq<string>)
    requires forall i :: 0 <= i < |ws| ==> !AnySearch(WRITING_PATTERNS, ws[i])
    ensures !AnySearch(WRITING_PATTERNS, JoinWords(ws, 0))
  {
    AllSpaceless();
    NoneFoundInWords(WRITING_PATTERNS, ws);
  }

  lemma AllSpaceless()
    ensures forall k :: 0 <= k < |CODE_PATTERNS| ==> Spaceless(CODE_PATTERNS[k])
    ensures forall k :: 0 <= k < |DATA_PATTERNS| ==> Spaceless(DATA_PATTERNS[k])
    ensures forall k :: 0 <= k < |WRITING_PATTERNS| ==> Spaceless(WRITING_PATTERNS[k])
    ensures forall k :: 0 <= k < |REASONING_PATTERNS| && k != 2 ==> Spaceless(REASONING_PATTERNS[k])
  {
  }

  // Words free of a whole keyword group: no keyword of the group occurs
  // in the word at all.

  /** No code keyword occurs in `w`. */
  predicate CodeFree(w: string) {
    && !OccursFrom("```", w, 0)
    && !OccursFrom("python", w, 0)
    && !OccursFrom("java", w, 0)
    && !OccursFrom("debug", w, 0)
    && !OccursFrom("function", w, 0)
  }

  lemma CodeFreeWord(w: string)
    requires CodeFree(w)
    ensures !AnySearch(CODE_PATTERNS, w)
  {
    NotFoundAnywhere(Anywhere("```"), w);
    NotFoundAnywhere(Word("python"), w);
    NotFoundAnywhere(Word("java"), w);
    NotFoundAnywhere(Word("debug"), w);
    NotFoundAnywhere(Word("function"), w);
    NoneFound(CODE_PATTERNS, w);
  }

  /** No data keyword occurs in `w`. */
  predicate DataFree(w: string) {
    && !OccursFrom("csv", w, 0)
    && !OccursFrom("table", w, 0)
    && !OccursFrom("query", w, 0)
    && !OccursFrom("sql", w, 0)
    && !OccursFrom("data", w, 0)
  }

  lemma DataFreeWord(w: string)
    requires DataFree(w)
    ensures !AnySearch(DATA_PATTERNS, w)
  {
    NotFoundAnywhere(Word("csv"), w);
    NotFoundAnywhere(Word("table"), w);
    NotFoundAnywhere(Word("query"), w);
    NotFoundAnywhere(Word("sql"), w);
    NotFoundAnywhere(Word("data"), w);
    NoneFound(DATA_PATTERNS, w);
  }

  /** No reasoning keyword, nor the word "step", occurs in `w`. */
  predicate ReasoningFree(w: string) {
    && !OccursFrom("why", w, 0)
    && !OccursFrom("prove", w, 0)
    && !OccursFrom("step by step", w, 0)
    && !OccursFrom("logic", w, 0)
    && !OccursFrom("step", w, 0)
  }

  lemma ReasoningFreeWord(w: string)
    requires ReasoningFree(w)
    ensures !AnySearch(REASONING_PATTERNS, w)
    ensures !Search(Word("step"), w)
  {
    NotFoundAnywhere(Word("why"), w);
    NotFoundAnywhere(Word("prove"), w);
    NotFoundAnywhere(Word("step by step"), w);
    NotFoundAnywhere(Word("logic"), w);
    NoneFound(REASONING_PATTERNS, w);
    NotFoundAnywhere(Word("step"), w);
  }

  /** No writing keyword occurs in `w`. */
  predicate WritingFree(w: string) {
    && !OccursFrom("blog", w, 0)
    && !OccursFrom("essay", w, 0)
    && !OccursFrom("rewrite", w, 0)
    && !OccursFrom("tone", w, 0)
    && !OccursFrom("summary", w, 0)
  }

  lemma WritingFreeWord(w: string)
    requires WritingFree(w)
    ensures !AnySearch(WRITING_PATTERNS, w)
  {
    NotFoundAnywhere(Word("blog"), w);
    NotFoundAnywhere(Word("essay"), w);
    NotFoundAnywhere(Word("rewrite"), w);
    NotFoundAnywhere(Word("tone"), w);
    NotFoundAnywhere(Word("summary"), w);
    NoneFound(WRITING_PATTERNS, w);
  }

  // The two words that begin with a whole keyword of the group.

  lemma FunctionalLacksOtherCode(w: string)
    requires w == "functional"
    ensures !OccursFrom("```", w, 0) && !OccursFrom("python", w, 0)
    ensures !OccursFrom("java", w, 0) && !OccursFrom("debug", w, 0)
  {
    assert !OccursFrom("```", "functional", 0) && !OccursFrom("python", "functional", 0);
    assert !OccursFrom("java", "functional", 0) && !OccursFrom("debug", "functional", 0);
  }

  /** "function" begins "functional" but is no whole word there. */
  lemma FunctionalHasNoCode(w: string)
    requires w == "functional"
    ensures !AnySearch(CODE_PATTERNS, w)
  {
    FunctionalLacksOtherCode(w);
    NotFoundAnywhere(Anywhere("```"), w);
    NotFoundAnywhere(Word("python"), w);
    NotFoundAnywhere(Word("java"), w);
    NotFoundAnywhere(Word("debug"), w);
    NotFoundInsideWord("function", w);
    NoneFound(CODE_PATTERNS, w);
  }

  lemma DatabaseLacksOtherData(w: string)
    requires w == "database"
    ensures !OccursFrom("csv", w, 0) && !OccursFrom("table", w, 0)
    ensures !OccursFrom("query", w, 0) && !OccursFrom("sql", w, 0)
  {
    assert !OccursFrom("csv", "database", 0) && !OccursFrom("table", "database", 0);
    assert !OccursFrom("query", "database", 0) && !OccursFrom("sql", "database", 0);
  }

  /** "data" begins "database" but is no whole word there. */
  lemma DatabaseHasNoData(w: string)
    requires w == "database"
    ensures !AnySearch(DATA_PATTERNS, w)
  {
    DatabaseLacksOtherData(w);
    NotFoundAnywhere(Word("csv"), w);
    NotFoundAnywhere(Word("table"), w);
    NotFoundAnywhere(Word("query"), w);
    NotFoundAnywhere(Word("sql"), w);
    NotFoundInsideWord("data", w);
    NoneFound(DATA_PATTERNS, w);
  }

  // The keyword groups each word of the examples is free of.

  lemma ProveHasNoCode(w: string)
    requires w == "prove"
    ensures !AnySearch(CODE_PATTERNS, w)
  {
    assert CodeFree("prove");
    CodeFreeWord(w);
  }

  lemma ProveHasNoData(w: string)
    requires w == "prove"
    ensures !AnySearch(DATA_PATTERNS, w)
  {
    assert DataFree("prove");
    DataFreeWord(w);
  }

  lemma ThisHasNoCode(w: string)
    requires w == "this"
    ensures !AnySearch(CODE_PATTERNS, w)
  {
    assert CodeFree("this");
    CodeFreeWord(w);
  }

  lemma ThisHasNoData(w: string)
    requires w == "this"
    ensures !AnySearch(DATA_PATTERNS, w)
  {
    assert DataFree("this");
    DataFreeWord(w);
  }

  lemma ThisHasNoReasoning(w: string)
    requires w == "this"
    ensures !AnySearch(REASONING_PATTERNS, w)
    ensures !Search(Word("step"), w)
  {
    assert ReasoningFree("this");
    ReasoningFreeWord(w);
  }

  lemma LogicHasNoCode(w: string)
    requires w == "logic"
    ensures !AnySearch(CODE_PATTERNS, w)
  {
    assert CodeFree("logic");
    CodeFreeWord(w);
  }

  lemma LogicHasNoData(w: string)
    requires w == "logic"
    ensures !AnySearch(DATA_PATTERNS, w)
  {
    assert DataFree("logic");
    DataFreeWord(w);
  }

  lemma StepHasNoCode(w: string)
    requires w == "step"
    ensures !AnySearch(CODE_PATTERNS, w)
  {
    assert CodeFree("step");
    CodeFreeWord(w);
  }

  lemma StepHasNoData(w: string)
    requires w == "step"
    ensures !AnySearch(DATA_PATTERNS, w)
  {
    assert DataFree("step");
    DataFreeWord(w);
  }

  lemma ByHasNoCode(w: string)
    requires w == "by"
    ensures !AnySearch(CODE_PATTERNS, w)
  {
    assert CodeFree("by");
    CodeFreeWord(w);
  }

  lemma ByHasNoData(w: string)
    requires w == "by"
    ensures !AnySearch(DATA_PATTERNS, w)
  {
    assert DataFree("by");
    DataFreeWord(w);
  }

  lemma RunHasNoCode(w: string)
    requires w == "run"
    ensures !AnySearch(CODE_PATTERNS, w)
  {
    assert CodeFree("run");
    CodeFreeWord(w);
  }

  lemma SqlHasNoCode(w: string)
    requires w == "sql"
    ensures !AnySearch(CODE_PATTERNS, w)
  {
    assert CodeFree("sql");
    CodeFreeWord(w);
  }

  lemma QueryHasNoCode(w: string)
    requires w == "query"
    ensures !AnySearch(CODE_PATTERNS, w)
  {
    assert CodeFree("query");
    CodeFreeWord(w);
  }

  lemma OnHasNoCode(w: string)
    requires w == "on"
    ensures !AnySearch(CODE_PATTERNS, w)
  {
    assert CodeFree("on");
    CodeFreeWord(w);
  }

  lemma TableHasNoCode(w: string)
    requires w == "table"
    ensures !AnySearch(CODE_PATTERNS, w)
  {
    assert CodeFree("table");
    CodeFreeWord(w);
  }

  lemma DataHasNoCode(w: string)
    requires w == "data"
    ensures !AnySearch(CODE_PATTERNS, w)
  {
    assert CodeFree("data");
    CodeFreeWord(w);
  }

  lemma RewriteHasNoCode(w: string)
    requires w == "rewrite"
    ensures !AnySearch(CODE_PATTERNS, w)
  {
    assert CodeFree("rewrite");
    CodeFreeWord(w);
  }

  lemma RewriteHasNoData(w: string)
    requires w == "rewrite"
    ensures !AnySearch(DATA_PATTERNS, w)
  {
    assert DataFree("rewrite");
    DataFreeWord(w);
  }

  lemma RewriteHasNoReasoning(w: string)
    requires w == "rewrite"
    ensures !AnySearch(REASONING_PATTERNS, w)
    ensures !Search(Word("step"), w)
  {
    assert ReasoningFree("rewrite");
    ReasoningFreeWord(w);
  }

  lemma EssayHasNoCode(w: string)
    requires w == "essay"
    ensures !AnySearch(CODE_PATTERNS, w)
  {
    assert CodeFree("essay");
    CodeFreeWord(w);
  }

  lemma EssayHasNoData(w: string)
    requires w == "essay"
    ensures !AnySearch(DATA_PATTERNS, w)
  {
    assert DataFree("essay");
    DataFreeWord(w);
  }

  lemma EssayHasNoReasoning(w: string)
    requires w == "essay"
    ensures !AnySearch(REASONING_PATTERNS, w)
    ensures !Search(Word("step"), w)
  {
    assert ReasoningFree("essay");
    ReasoningFreeWord(w);
  }

  lemma WithHasNoCode(w: string)
    requires w == "with"
    ensures !AnySearch(CODE_PATTERNS, w)
  {
    assert CodeFree("with");
    CodeFreeWord(w);
  }

  lemma WithHasNoData(w: string)
    requires w == "with"
    ensures !AnySearch(DATA_PATTERNS, w)
  {
    assert DataFree("with");
    DataFreeWord(w);
  }

  lemma WithHasNoReasoning(w: string)
    requires w == "with"
    ensures !AnySearch(REASONING_PATTERNS, w)
    ensures !Search(Word("step"), w)
  {
    assert ReasoningFree("with");
    ReasoningFreeWord(w);
  }

  lemma BetterHasNoCode(w: string)
    requires w == "better"
    ensures !AnySearch(CODE_PATTERNS, w)
  {
    assert CodeFree("better");
    CodeFreeWord(w);
  }

  lemma BetterHasNoData(w: string)
    requires w == "better"
    ensures !AnySearch(DATA_PATTERNS, w)
  {
    assert DataFree("better");
    DataFreeWord(w);
  }

  lemma BetterHasNoReasoning(w: string)
    requires w == "better"
    ensures !AnySearch(REASONING_PATTERNS, w)
    ensures !Search(Word("step"), w)
  {
    assert ReasoningFree("better");
    ReasoningFreeWord(w);
  }

  lemma ToneHasNoCode(w: string)
    requires w == "tone"
    ensures !AnySearch(CODE_PATTERNS, w)
  {
    assert CodeFree("tone");
    CodeFreeWord(w);
  }

  lemma ToneHasNoData(w: string)
    requires w == "tone"
    ensures !AnySearch(DATA_PATTERNS, w)
  {
    assert DataFree("tone");
    DataFreeWord(w);
  }

  lemma ToneHasNoReasoning(w: string)
    requires w == "tone"
    ensures !AnySearch(REASONING_PATTERNS, w)
    ensures !Search(Word("step"), w)
  {
    assert ReasoningFree("tone");
    ReasoningFreeWord(w);
  }

  lemma HelloHasNoCode(w: string)
    requires w == "hello"
    ensures !AnySearch(CODE_PATTERNS, w)
  {
    assert CodeFree("hello");
    CodeFreeWord(w);
  }

  lemma HelloHasNoData(w: string)
    requires w == "hello"
    ensures !AnySearch(DATA_PATTERNS, w)
  {
    assert DataFree("hello");
    DataFreeWord(w);
  }

  lemma HelloHasNoReasoning(w: string)
    requires w == "hello"
    ensures !AnySearch(REASONING_PATTERNS, w)
    ensures !Search(Word("step"), w)
  {
    assert ReasoningFree("hello");
    ReasoningFreeWord(w);
  }

  lemma HelloHasNoWriting(w: string)
    requires w == "hello"
    ensures !AnySearch(WRITING_PATTERNS, w)
  {
    assert WritingFree("hello");
    WritingFreeWord(w);
  }

  lemma ThereHasNoCode(w: string)
    requires w == "there"
    ensures !AnySearch(CODE_PATTERNS, w)
  {
    assert CodeFree("there");
    CodeFreeWord(w);
  }

  lemma ThereHasNoData(w: string)
    requires w == "there"
    ensures !AnySearch(DATA_PATTERNS, w)
  {
    assert DataFree("there");
    DataFreeWord(w);
  }

  lemma ThereHasNoReasoning(w: string)
    requires w == "there"
    ensures !AnySearch(REASONING_PATTERNS, w)
    ensures !Search(Word("step"), w)
  {
    assert ReasoningFree("there");
    ReasoningFreeWord(w);
  }

  lemma ThereHasNoWriting(w: string)
    requires w == "there"
    ensures !AnySearch(WRITING_PATTERNS, w)
  {
    assert WritingFree("there");
    WritingFreeWord(w);
  }

  lemma DescribeHasNoCode(w: string)
    requires w == "describe"
    ensures !AnySearch(CODE_PATTERNS, w)
  {
    assert CodeFree("describe");
    CodeFreeWord(w);
  }

  lemma DescribeHasNoData(w: string)
    requires w == "describe"
    ensures !AnySearch(DATA_PATTERNS, w)
  {
    assert DataFree("describe");
    DataFreeWord(w);
  }

  lemma DescribeHasNoReasoning(w: string)
    requires w == "describe"
    ensures !AnySearch(REASONING_PATTERNS, w)
    ensures !Search(Word("step"), w)
  {
    assert ReasoningFree("describe");
    ReasoningFreeWord(w);
  }

  lemma DescribeHasNoWriting(w: string)
    requires w == "describe"
    ensures !AnySearch(WRITING_PATTERNS, w)
  {
    assert WritingFree("describe");
    WritingFreeWord(w);
  }

  lemma TheHasNoCode(w: string)
    requires w == "the"
    ensures !AnySearch(CODE_PATTERNS, w)
  {
    assert CodeFree("the");
    CodeFreeWord(w);
  }

  lemma TheHasNoData(w: string)
    requires w == "the"
    ensures !AnySearch(DATA_PATTERNS, w)
  {
    assert DataFree("the");
    DataFreeWord(w);
  }

  lemma TheHasNoReasoning(w: string)
    requires w == "the"
    ensures !AnySearch(REASONING_PATTERNS, w)
    ensures !Search(Word("step"), w)
  {
    assert ReasoningFree("the");
    ReasoningFreeWord(w);
  }

  lemma TheHasNoWriting(w: string)
    requires w == "the"
    ensures !AnySearch(WRITING_PATTERNS, w)
  {
    assert WritingFree("the");
    WritingFreeWord(w);
  }

  lemma DatabaseHasNoCode(w: string)
    requires w == "database"
    ensures !AnySearch(CODE_PATTERNS, w)
  {
    assert CodeFree("database");
    CodeFreeWord(w);
  }

  lemma DatabaseHasNoReasoning(w: string)
    requires w == "database"
    ensures !AnySearch(REASONING_PATTERNS, w)
    ensures !Search(Word("step"), w)
  {
    assert ReasoningFree("database");
    ReasoningFreeWord(w);
  }

  lemma DatabaseHasNoWriting(w: string)
    requires w == "database"
    ensures !AnySearch(WRITING_PATTERNS, w)
  {
    assert WritingFree("database");
    WritingFreeWord(w);
  }

  lemma SchemaHasNoCode(w: string)
    requires w == "schema"
    ensures !AnySearch(CODE_PATTERNS, w)
  {
    assert CodeFree("schema");
    CodeFreeWord(w);
  }

  lemma SchemaHasNoData(w: string)
    requires w == "schema"
    ensures !AnySearch(DATA_PATTERNS, w)
  {
    assert DataFree("schema");
    DataFreeWord(w);
  }

  lemma SchemaHasNoReasoning(w: string)
    requires w == "schema"
    ensures !AnySearch(REASONING_PATTERNS, w)
    ensures !Search(Word("step"), w)
  {
    assert ReasoningFree("schema");
    ReasoningFreeWord(w);
  }

  lemma SchemaHasNoWriting(w: string)
    requires w == "schema"
    ensures !AnySearch(WRITING_PATTERNS, w)
  {
    assert WritingFree("schema");
    WritingFreeWord(w);
  }

  lemma ExplainHasNoCode(w: string)
    requires w == "explain"
    ensures !AnySearch(CODE_PATTERNS, w)
  {
    assert CodeFree("explain");
    CodeFreeWord(w);
  }

  lemma ExplainHasNoData(w: string)
    requires w == "explain"
    ensures !AnySearch(DATA_PATTERNS, w)
  {
    assert DataFree("explain");
    DataFreeWord(w);
  }

  lemma ExplainHasNoReasoning(w: string)
    requires w == "explain"
    ensures !AnySearch(REASONING_PATTERNS, w)
    ensures !Search(Word("step"), w)
  {
    assert ReasoningFree("explain");
    ReasoningFreeWord(w);
  }

  lemma ExplainHasNoWriting(w: string)
    requires w == "explain"
    ensures !AnySearch(WRITING_PATTERNS, w)
  {
    assert WritingFree("explain");
    WritingFreeWord(w);
  }

  lemma ProgrammingHasNoCode(w: string)
    requires w == "programming"
    ensures !AnySearch(CODE_PATTERNS, w)
  {
    assert !OccursFrom("```", "programming", 5);
    assert !OccursFrom("python", "programming", 5);
    assert !OccursFrom("java", "programming", 5);
    assert !OccursFrom("debug", "programming", 5);
    assert !OccursFrom("function", "programming", 5);
    assert CodeFree("programming");
    CodeFreeWord(w);
  }

  lemma ProgrammingHasNoData(w: string)
    requires w == "programming"
    ensures !AnySearch(DATA_PATTERNS, w)
  {
    assert !OccursFrom("csv", "programming", 5);
    assert !OccursFrom("table", "programming", 5);
    assert !OccursFrom("query", "programming", 5);
    assert !OccursFrom("sql", "programming", 5);
    assert !OccursFrom("data", "programming", 5);
    assert DataFree("programming");
    DataFreeWord(w);
  }

  lemma ProgrammingHasNoReasoning(w: string)
    requires w == "programming"
    ensures !AnySearch(REASONING_PATTERNS, w)
    ensures !Search(Word("step"), w)
  {
    assert !OccursFrom("why", "programming", 5);
    assert !OccursFrom("prove", "programming", 5);
    assert !OccursFrom("step by step", "programming", 5);
    assert !OccursFrom("logic", "programming", 5);
    assert !OccursFrom("step", "programming", 5);
    assert ReasoningFree("programming");
    ReasoningFreeWord(w);
  }

  lemma ProgrammingHasNoWriting(w: string)
    requires w == "programming"
    ensures !AnySearch(WRITING_PATTERNS, w)
  {
    assert !OccursFrom("blog", "programming", 5);
    assert !OccursFrom("essay", "programming", 5);
    assert !OccursFrom("rewrite", "programming", 5);
    assert !OccursFrom("tone", "programming", 5);
    assert !OccursFrom("summary", "programming", 5);
    assert WritingFree("programming");
    WritingFreeWord(w);
  }

  lemma FunctionalHasNoData(w: string)
    requires w == "functional"
    ensures !AnySearch(DATA_PATTERNS, w)
  {
    assert DataFree("functional");
    DataFreeWord(w);
  }

  lemma FunctionalHasNoReasoning(w: string)
    requires w == "functional"
    ensures !AnySearch(REASONING_PATTERNS, w)
    ensures !Search(Word("step"), w)
  {
    assert ReasoningFree("functional");
    ReasoningFreeWord(w);
  }

  lemma FunctionalHasNoWriting(w: string)
    requires w == "functional"
    ensures !AnySearch(WRITING_PATTERNS, w)
  {
    assert WritingFree("functional");
    WritingFreeWord(w);
  }

  // "Debug this python function"

  predicate DebugPythonFunctionWords(ws: seq<string>) {
    |ws| == 4 && ws[0] == "debug" && ws[1] == "this" && ws[2] == "python" && ws[3] == "function"
  }

  lemma DebugPythonFunctionJoins3(ws: seq<string>)
    requires DebugPythonFunctionWords(ws)
    ensures JoinWords(ws, 3) == "function"
  {}

  lemma DebugPythonFunctionJoins2(ws: seq<string>)
    requires DebugPythonFunctionWords(ws)
    ensures JoinWords(ws, 2) == "python function"
  { DebugPythonFunctionJoins3(ws); }

  lemma DebugPythonFunctionJoins1(ws: seq<string>)
    requires DebugPythonFunctionWords(ws)
    ensures JoinWords(ws, 1) == "this python function"
  { DebugPythonFunctionJoins2(ws); }

  lemma DebugPythonFunctionJoins0(ws: seq<string>)
    requires DebugPythonFunctionWords(ws)
    ensures JoinWords(ws, 0) == "debug this python function"
  { DebugPythonFunctionJoins1(ws); }

  lemma DebugPythonFunctionNormalizes()
    ensures Normalize("Debug this python function") == "debug this python function"
  {
    NormalizesTo("Debug this python function", "debug this python function");
  }

  lemma DebugPythonFunctionHasCode(ws: seq<string>)
    requires DebugPythonFunctionWords(ws)
    ensures AnySearch(CODE_PATTERNS, JoinWords(ws, 0))
  {
    assert Search(Word("debug"), "debug");
    FoundInWord(CODE_PATTERNS, 3, ws, 0);
  }

  /** A language keyword makes a code task. */
  lemma DebugPythonFunction()
    ensures Classify("Debug this python function") == CODE
  {
    var ws := ["debug", "this", "python", "function"];
    DebugPythonFunctionJoins0(ws);
    DebugPythonFunctionNormalizes();
    DebugPythonFunctionHasCode(ws);
    ClassifyVia("Debug this python function", "debug this python function");
  }

  // "Prove this logic step by step"

  predicate ProveLogicStepByStepWords(ws: seq<string>) {
    |ws| == 6 && ws[0] == "prove" && ws[1] == "this" && ws[2] == "logic" && ws[3] == "step" && ws[4] == "by" && ws[5] == "step"
  }

  lemma ProveLogicStepByStepJoins5(ws: seq<string>)
    requires ProveLogicStepByStepWords(ws)
    ensures JoinWords(ws, 5) == "step"
  {}

  lemma ProveLogicStepByStepJoins4(ws: seq<string>)
    requires ProveLogicStepByStepWords(ws)
    ensures JoinWords(ws, 4) == "by step"
  { ProveLogicStepByStepJoins5(ws); }

  lemma ProveLogicStepByStepJoins3(ws: seq<string>)
    requires ProveLogicStepByStepWords(ws)
    ensures JoinWords(ws, 3) == "step by step"
  { ProveLogicStepByStepJoins4(ws); }

  lemma ProveLogicStepByStepJoins2(ws: seq<string>)
    requires ProveLogicStepByStepWords(ws)
    ensures JoinWords(ws, 2) == "logic step by step"
  { ProveLogicStepByStepJoins3(ws); }

  lemma ProveLogicStepByStepJoins1(ws: seq<string>)
    requires ProveLogicStepByStepWords(ws)
    ensures JoinWords(ws, 1) == "this logic step by step"
  { ProveLogicStepByStepJoins2(ws); }

  lemma ProveLogicStepByStepJoins0(ws: seq<string>)
    requires ProveLogicStepByStepWords(ws)
    ensures JoinWords(ws, 0) == "prove this logic step by step"
  { ProveLogicStepByStepJoins1(ws); }

  lemma ProveLogicStepByStepNormalizes()
    ensures Normalize("Prove this logic step by step") == "prove this logic step by step"
  {
    NormalizesTo("Prove this logic step by step", "prove this logic step by step");
  }

  lemma ProveLogicStepByStepHasNoCode(ws: seq<string>)
    requires ProveLogicStepByStepWords(ws)
    ensures !AnySearch(CODE_PATTERNS, JoinWords(ws, 0))
  {
    ProveHasNoCode(ws[0]);
    ThisHasNoCode(ws[1]);
    LogicHasNoCode(ws[2]);
    StepHasNoCode(ws[3]);
    ByHasNoCode(ws[4]);
    StepHasNoCode(ws[5]);
    NoCodeInWords(ws);
  }

  lemma ProveLogicStepByStepHasNoData(ws: seq<string>)
    requires ProveLogicStepByStepWords(ws)
    ensures !AnySearch(DATA_PATTERNS, JoinWords(ws, 0))
  {
    ProveHasNoData(ws[0]);
    ThisHasNoData(ws[1]);
    LogicHasNoData(ws[2]);
    StepHasNoData(ws[3]);
    ByHasNoData(ws[4]);
    StepHasNoData(ws[5]);
    NoDataInWords(ws);
  }

  lemma ProveLogicStepByStepHasReasoning(ws: seq<string>)
    requires ProveLogicStepByStepWords(ws)
    ensures AnySearch(REASONING_PATTERNS, JoinWords(ws, 0))
  {
    assert Search(Word("prove"), "prove");
    FoundInWord(REASONING_PATTERNS, 1, ws, 0);
  }

  /** Reasoning keywords and no code or data keyword make a reasoning task. */
  lemma ProveLogicStepByStep()
    ensures Classify("Prove this logic step by step") == REASONING
  {
    var ws := ["prove", "this", "logic", "step", "by", "step"];
    ProveLogicStepByStepJoins0(ws);
    ProveLogicStepByStepNormalizes();
    ProveLogicStepByStepHasNoCode(ws);
    ProveLogicStepByStepHasNoData(ws);
    ProveLogicStepByStepHasReasoning(ws);
    ClassifyVia("Prove this logic step by step", "prove this logic step by step");
  }

  // "Run SQL query on table data"

  predicate RunSqlQueryWords(ws: seq<string>) {
    |ws| == 6 && ws[0] == "run" && ws[1] == "sql" && ws[2] == "query" && ws[3] == "on" && ws[4] == "table" && ws[5] == "data"
  }

  lemma RunSqlQueryJoins5(ws: seq<string>)
    requires RunSqlQueryWords(ws)
    ensures JoinWords(ws, 5) == "data"
  {}

  lemma RunSqlQueryJoins4(ws: seq<string>)
    requires RunSqlQueryWords(ws)
    ensures JoinWords(ws, 4) == "table data"
  { RunSqlQueryJoins5(ws); }

  lemma RunSqlQueryJoins3(ws: seq<string>)
    requires RunSqlQueryWords(ws)
    ensures JoinWords(ws, 3) == "on table data"
  { RunSqlQueryJoins4(ws); }

  lemma RunSqlQueryJoins2(ws: seq<string>)
    requires RunSqlQueryWords(ws)
    ensures JoinWords(ws, 2) == "query on table data"
  { RunSqlQueryJoins3(ws); }

  lemma RunSqlQueryJoins1(ws: seq<string>)
    requires RunSqlQueryWords(ws)
    ensures JoinWords(ws, 1) == "sql query on table data"
  { RunSqlQueryJoins2(ws); }

  lemma RunSqlQueryJoins0(ws: seq<string>)
    requires RunSqlQueryWords(ws)
    ensures JoinWords(ws, 0) == "run sql query on table data"
  { RunSqlQueryJoins1(ws); }

  lemma RunSqlQueryNormalizes()
    ensures Normalize("Run SQL query on table data") == "run sql query on table data"
  {
    NormalizesTo("Run SQL query on table data", "run sql query on table data");
  }

  lemma RunSqlQueryHasNoCode(ws: seq<string>)
    requires RunSqlQueryWords(ws)
    ensures !AnySearch(CODE_PATTERNS, JoinWords(ws, 0))
  {
    RunHasNoCode(ws[0]);
    SqlHasNoCode(ws[1]);
    QueryHasNoCode(ws[2]);
    OnHasNoCode(ws[3]);
    TableHasNoCode(ws[4]);
    DataHasNoCode(ws[5]);
    NoCodeInWords(ws);
  }

  lemma RunSqlQueryHasData(ws: seq<string>)
    requires RunSqlQueryWords(ws)
    ensures AnySearch(DATA_PATTERNS, JoinWords(ws, 0))
  {
    assert Search(Word("sql"), "sql");
    FoundInWord(DATA_PATTERNS, 3, ws, 1);
  }

  /** Data keywords and no code keyword make a data task. */
  lemma RunSqlQuery()
    ensures Classify("Run SQL query on table data") == DATA
  {
    var ws := ["run", "sql", "query", "on", "table", "data"];
    RunSqlQueryJoins0(ws);
    RunSqlQueryNormalizes();
    RunSqlQueryHasNoCode(ws);
    RunSqlQueryHasData(ws);
    ClassifyVia("Run SQL query on table data", "run sql query on table data");
  }

  // "Rewrite this essay with better tone"

  predicate RewriteEssayWords(ws: seq<string>) {
    |ws| == 6 && ws[0] == "rewrite" && ws[1] == "this" && ws[2] == "essay" && ws[3] == "with" && ws[4] == "better" && ws[5] == "tone"
  }

  lemma RewriteEssayJoins5(ws: seq<string>)
    requires RewriteEssayWords(ws)
    ensures JoinWords(ws, 5) == "tone"
  {}

  lemma RewriteEssayJoins4(ws: seq<string>)
    requires RewriteEssayWords(ws)
    ensures JoinWords(ws, 4) == "better tone"
  { RewriteEssayJoins5(ws); }

  lemma RewriteEssayJoins3(ws: seq<string>)
    requires RewriteEssayWords(ws)
    ensures JoinWords(ws, 3) == "with better tone"
  { RewriteEssayJoins4(ws); }

  lemma RewriteEssayJoins2(ws: seq<string>)
    requires RewriteEssayWords(ws)
    ensures JoinWords(ws, 2) == "essay with better tone"
  { RewriteEssayJoins3(ws); }

  lemma RewriteEssayJoins1(ws: seq<string>)
    requires RewriteEssayWords(ws)
    ensures JoinWords(ws, 1) == "this essay with better tone"
  { RewriteEssayJoins2(ws); }

  lemma RewriteEssayJoins0(ws: seq<string>)
    requires RewriteEssayWords(ws)
    ensures JoinWords(ws, 0) == "rewrite this essay with better tone"
  { RewriteEssayJoins1(ws); }

  lemma RewriteEssayNormalizes()
    ensures Normalize("Rewrite this essay with better tone") == "rewrite this essay with better tone"
  {
    NormalizesTo("Rewrite this essay with better tone", "rewrite this essay with better tone");
  }

  lemma RewriteEssayHasNoCode(ws: seq<string>)
    requires RewriteEssayWords(ws)
    ensures !AnySearch(CODE_PATTERNS, JoinWords(ws, 0))
  {
    RewriteHasNoCode(ws[0]);
    ThisHasNoCode(ws[1]);
    EssayHasNoCode(ws[2]);
    WithHasNoCode(ws[3]);
    BetterHasNoCode(ws[4]);
    ToneHasNoCode(ws[5]);
    NoCodeInWords(ws);
  }

  lemma RewriteEssayHasNoData(ws: seq<string>)
    requires RewriteEssayWords(ws)
    ensures !AnySearch(DATA_PATTERNS, JoinWords(ws, 0))
  {
    RewriteHasNoData(ws[0]);
    ThisHasNoData(ws[1]);
    EssayHasNoData(ws[2]);
    WithHasNoData(ws[3]);
    BetterHasNoData(ws[4]);
    ToneHasNoData(ws[5]);
    NoDataInWords(ws);
  }

  lemma RewriteEssayHasNoReasoning(ws: seq<string>)
    requires RewriteEssayWords(ws)
    ensures !AnySearch(REASONING_PATTERNS, JoinWords(ws, 0))
  {
    RewriteHasNoReasoning(ws[0]);
    ThisHasNoReasoning(ws[1]);
    EssayHasNoReasoning(ws[2]);
    WithHasNoReasoning(ws[3]);
    BetterHasNoReasoning(ws[4]);
    ToneHasNoReasoning(ws[5]);
    NoReasoningInWords(ws);
  }

  lemma RewriteEssayHasWriting(ws: seq<string>)
    requires RewriteEssayWords(ws)
    ensures AnySearch(WRITING_PATTERNS, JoinWords(ws, 0))
  {
    assert Search(Word("rewrite"), "rewrite");
    FoundInWord(WRITING_PATTERNS, 2, ws, 0);
  }

  /** Writing keywords alone make a writing task. */
  lemma RewriteEssay()
    ensures Classify("Rewrite this essay with better tone") == WRITING
  {
    var ws := ["rewrite", "this", "essay", "with", "better", "tone"];
    RewriteEssayJoins0(ws);
    RewriteEssayNormalizes();
    RewriteEssayHasNoCode(ws);
    RewriteEssayHasNoData(ws);
    RewriteEssayHasNoReasoning(ws);
    RewriteEssayHasWriting(ws);
    ClassifyVia("Rewrite this essay with better tone", "rewrite this essay with better tone");
  }

  // "Hello there"

  predicate HelloThereWords(ws: seq<string>) {
    |ws| == 2 && ws[0] == "hello" && ws[1] == "there"
  }

  lemma HelloThereJoins1(ws: seq<string>)
    requires HelloThereWords(ws)
    ensures JoinWords(ws, 1) == "there"
  {}

  lemma HelloThereJoins0(ws: seq<string>)
    requires HelloThereWords(ws)
    ensures JoinWords(ws, 0) == "hello there"
  { HelloThereJoins1(ws); }

  lemma HelloThereNormalizes()
    ensures Normalize("Hello there") == "hello there"
  {
    NormalizesTo("Hello there", "hello there");
  }

  lemma HelloThereHasNoCode(ws: seq<string>)
    requires HelloThereWords(ws)
    ensures !AnySearch(CODE_PATTERNS, JoinWords(ws, 0))
  {
    HelloHasNoCode(ws[0]);
    ThereHasNoCode(ws[1]);
    NoCodeInWords(ws);
  }

  lemma HelloThereHasNoData(ws: seq<string>)
    requires HelloThereWords(ws)
    ensures !AnySearch(DATA_PATTERNS, JoinWords(ws, 0))
  {
    HelloHasNoData(ws[0]);
    ThereHasNoData(ws[1]);
    NoDataInWords(ws);
  }

  lemma HelloThereHasNoReasoning(ws: seq<string>)
    requires HelloThereWords(ws)
    ensures !AnySearch(REASONING_PATTERNS, JoinWords(ws, 0))
  {
    HelloHasNoReasoning(ws[0]);
    ThereHasNoReasoning(ws[1]);
    NoReasoningInWords(ws);
  }

  lemma HelloThereHasNoWriting(ws: seq<string>)
    requires HelloThereWords(ws)
    ensures !AnySearch(WRITING_PATTERNS, JoinWords(ws, 0))
  {
    HelloHasNoWriting(ws[0]);
    ThereHasNoWriting(ws[1]);
    NoWritingInWords(ws);
  }

  /** No keyword at all is general chat. */
  lemma HelloThere()
    ensures Classify("Hello there") == GENERAL
  {
    var ws := ["hello", "there"];
    HelloThereJoins0(ws);
    HelloThereNormalizes();
    HelloThereHasNoCode(ws);
    HelloThereHasNoData(ws);
    HelloThereHasNoReasoning(ws);
    HelloThereHasNoWriting(ws);
    ClassifyVia("Hello there", "hello there");
  }

  // "Describe the database schema"

  predicate DatabaseSchemaWords(ws: seq<string>) {
    |ws| == 4 && ws[0] == "describe" && ws[1] == "the" && ws[2] == "database" && ws[3] == "schema"
  }

  lemma DatabaseSchemaJoins3(ws: seq<string>)
    requires DatabaseSchemaWords(ws)
    ensures JoinWords(ws, 3) == "schema"
  {}

  lemma DatabaseSchemaJoins2(ws: seq<string>)
    requires DatabaseSchemaWords(ws)
    ensures JoinWords(ws, 2) == "database schema"
  { DatabaseSchemaJoins3(ws); }

  lemma DatabaseSchemaJoins1(ws: seq<string>)
    requires DatabaseSchemaWords(ws)
    ensures JoinWords(ws, 1) == "the database schema"
  { DatabaseSchemaJoins2(ws); }

  lemma DatabaseSchemaJoins0(ws: seq<string>)
    requires DatabaseSchemaWords(ws)
    ensures JoinWords(ws, 0) == "describe the database schema"
  { DatabaseSchemaJoins1(ws); }

  lemma DatabaseSchemaNormalizes()
    ensures Normalize("Describe the database schema") == "describe the database schema"
  {
    NormalizesTo("Describe the database schema", "describe the database schema");
  }

  lemma DatabaseSchemaHasNoCode(ws: seq<string>)
    requires DatabaseSchemaWords(ws)
    ensures !AnySearch(CODE_PATTERNS, JoinWords(ws, 0))
  {
    DescribeHasNoCode(ws[0]);
    TheHasNoCode(ws[1]);
    DatabaseHasNoCode(ws[2]);
    SchemaHasNoCode(ws[3]);
    NoCodeInWords(ws);
  }

  lemma DatabaseSchemaHasNoData(ws: seq<string>)
    requires DatabaseSchemaWords(ws)
    ensures !AnySearch(DATA_PATTERNS, JoinWords(ws, 0))
  {
    DescribeHasNoData(ws[0]);
    TheHasNoData(ws[1]);
    DatabaseHasNoData(ws[2]);
    SchemaHasNoData(ws[3]);
    NoDataInWords(ws);
  }

  lemma DatabaseSchemaHasNoReasoning(ws: seq<string>)
    requires DatabaseSchemaWords(ws)
    ensures !AnySearch(REASONING_PATTERNS, JoinWords(ws, 0))
  {
    DescribeHasNoReasoning(ws[0]);
    TheHasNoReasoning(ws[1]);
    DatabaseHasNoReasoning(ws[2]);
    SchemaHasNoReasoning(ws[3]);
    NoReasoningInWords(ws);
  }

  lemma DatabaseSchemaHasNoWriting(ws: seq<string>)
    requires DatabaseSchemaWords(ws)
    ensures !AnySearch(WRITING_PATTERNS, JoinWords(ws, 0))
  {
    DescribeHasNoWriting(ws[0]);
    TheHasNoWriting(ws[1]);
    DatabaseHasNoWriting(ws[2]);
    SchemaHasNoWriting(ws[3]);
    NoWritingInWords(ws);
  }

  /** "data" inside "database" is not a whole word, so this is no data task. */
  lemma DatabaseSchema()
    ensures Classify("Describe the database schema") == GENERAL
  {
    var ws := ["describe", "the", "database", "schema"];
    DatabaseSchemaJoins0(ws);
    DatabaseSchemaNormalizes();
    DatabaseSchemaHasNoCode(ws);
    DatabaseSchemaHasNoData(ws);
    DatabaseSchemaHasNoReasoning(ws);
    DatabaseSchemaHasNoWriting(ws);
    ClassifyVia("Describe the database schema", "describe the database schema");
  }

  // "Explain functional programming"

  predicate FunctionalProgrammingWords(ws: seq<string>) {
    |ws| == 3 && ws[0] == "explain" && ws[1] == "functional" && ws[2] == "programming"
  }

  lemma FunctionalProgrammingJoins2(ws: seq<string>)
    requires FunctionalProgrammingWords(ws)
    ensures JoinWords(ws, 2) == "programming"
  {}

  lemma FunctionalProgrammingJoins1(ws: seq<string>)
    requires FunctionalProgrammingWords(ws)
    ensures JoinWords(ws, 1) == "functional programming"
  { FunctionalProgrammingJoins2(ws); }

  lemma FunctionalProgrammingJoins0(ws: seq<string>)
    requires FunctionalProgrammingWords(ws)
    ensures JoinWords(ws, 0) == "explain functional programming"
  { FunctionalProgrammingJoins1(ws); }

  lemma FunctionalProgrammingNormalizes()
    ensures Normalize("Explain functional programming") == "explain functional programming"
  {
    NormalizesTo("Explain functional programming", "explain functional programming");
  }

  lemma FunctionalProgrammingHasNoCode(ws: seq<string>)
    requires FunctionalProgrammingWords(ws)
    ensures !AnySearch(CODE_PATTERNS, JoinWords(ws, 0))
  {
    ExplainHasNoCode(ws[0]);
    FunctionalHasNoCode(ws[1]);
    ProgrammingHasNoCode(ws[2]);
    NoCodeInWords(ws);
  }

  lemma FunctionalProgrammingHasNoData(ws: seq<string>)
    requires FunctionalProgrammingWords(ws)
    ensures !AnySearch(DATA_PATTERNS, JoinWords(ws, 0))
  {
    ExplainHasNoData(ws[0]);
    FunctionalHasNoData(ws[1]);
    ProgrammingHasNoData(ws[2]);
    NoDataInWords(ws);
  }

  lemma FunctionalProgrammingHasNoReasoning(ws: seq<string>)
    requires FunctionalProgrammingWords(ws)
    ensures !AnySearch(REASONING_PATTERNS, JoinWords(ws, 0))
  {
    ExplainHasNoReasoning(ws[0]);
    FunctionalHasNoReasoning(ws[1]);
    ProgrammingHasNoReasoning(ws[2]);
    NoReasoningInWords(ws);
  }

  lemma FunctionalProgrammingHasNoWriting(ws: seq<string>)
    requires FunctionalProgrammingWords(ws)
    ensures !AnySearch(WRITING_PATTERNS, JoinWords(ws, 0))
  {
    ExplainHasNoWriting(ws[0]);
    FunctionalHasNoWriting(ws[1]);
    ProgrammingHasNoWriting(ws[2]);
    NoWritingInWords(ws);
  }

  /** "function" inside "functional" is not a whole word, so this is no code task. */
  lemma FunctionalProgramming()
    ensures Classify("Explain functional programming") == GENERAL
  {
    var ws := ["explain", "functional", "programming"];
    FunctionalProgrammingJoins0(ws);
    FunctionalProgrammingNormalizes();
    FunctionalProgrammingHasNoCode(ws);
    FunctionalProgrammingHasNoData(ws);
    FunctionalProgrammingHasNoReasoning(ws);
    FunctionalProgrammingHasNoWriting(ws);
    ClassifyVia("Explain functional programming", "explain functional programming");
  }

  // "```SQL```"

  predicate FencedSqlWords(ws: seq<string>) {
    |ws| == 1 && ws[0] == "```sql```"
  }

  lemma FencedSqlJoins0(ws: seq<string>)
    requires FencedSqlWords(ws)
    ensures JoinWords(ws, 0) == "```sql```"
  {}

  lemma FencedSqlNormalizes()
    ensures Normalize("```SQL```") == "```sql```"
  {
    NormalizesTo("```SQL```", "```sql```");
  }

  lemma FencedSqlHasCode(ws: seq<string>)
    requires FencedSqlWords(ws)
    ensures AnySearch(CODE_PATTERNS, JoinWords(ws, 0))
  {
    assert Search(Anywhere("```"), "```sql```");
    FoundInWord(CODE_PATTERNS, 0, ws, 0);
  }

  /** The fence's backticks are no word characters, so "sql" is a whole word. */
  lemma FencedSqlHasData(ws: seq<string>)
    requires FencedSqlWords(ws)
    ensures Search(Word("sql"), "```sql```")
    ensures AnySearch(DATA_PATTERNS, JoinWords(ws, 0))
  {
    SearchFindsMatch(Word("sql"), "```sql```");
    assert MatchAt(Word("sql"), "```sql```", 3);
    AnySearchFindsOne(DATA_PATTERNS, "```sql```");
    assert DATA_PATTERNS[3] == Word("sql");
  }

  /** The code fence matches anywhere and outranks the whole word "sql" it
      encloses: the data group matches the prompt too, yet the label is code. */
  lemma FencedSql()
    ensures AnySearch(DATA_PATTERNS, Normalize("```SQL```"))
    ensures Classify("```SQL```") == CODE
  {
    var ws := ["```sql```"];
    FencedSqlJoins0(ws);
    FencedSqlNormalizes();
    FencedSqlHasCode(ws);
    FencedSqlHasData(ws);
    ClassifyVia("```SQL```", "```sql```");
  }
}
