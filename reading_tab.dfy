/**
 * The reading tab of the exam editor
 * (`src/pages/Admin/ExamEditor/tabs/ReadingTab.jsx`): which sections it
 * lists, which questions each passage shows, the question badge and the
 * passage word count `content ? content.trim().split(/\s+/).length : 0`.
 */
module ReadingTab {
  import opened JsValues
  import opened JsStrings
  import opened ExamEditor

  /** `sections.filter(s => s.module_type === 'reading')`. */
  function ReadingSections(sections: seq<Record>): (r: seq<Record>)
    ensures forall i :: 0 <= i < |r| ==> IsModule(r[i], "reading") && r[i] in sections
    ensures forall i :: 0 <= i < |sections| && IsModule(sections[i], "reading") ==> sections[i] in r
  {
    ModuleSections(sections, "reading")
  }

  /** `questions.filter(q => q.section_id === section.id)`. */
  function SectionQuestions(questions: seq<Record>, section: Record): (r: seq<Record>)
    ensures forall i :: 0 <= i < |r| ==> Get(r[i], "section_id") == Get(section, "id") && r[i] in questions
    ensures forall i :: 0 <= i < |questions| && Get(questions[i], "section_id") == Get(section, "id") ==> questions[i] in r
    ensures |r| == QuestionCount(questions, section)
  {
    var id := Get(section, "id");
    Filter(questions, (q: Record) => Get(q, "section_id") == id)
  }

  /** A passage's questions keep their relative order: adding questions after the list adds theirs after the passage's. */
  lemma SectionQuestionsOfAppend(questions: seq<Record>, added: seq<Record>, section: Record)
    ensures SectionQuestions(questions + added, section) == SectionQuestions(questions, section) + SectionQuestions(added, section)
  {
    var id := Get(section, "id");
    FilterAppend(questions, added, (q: Record) => Get(q, "section_id") == id);
  }

  datatype BadgeColour = Green | Yellow

  /** The question badge: green iff the passage has at least one question. */
  function Badge(questions: seq<Record>, section: Record): (b: BadgeColour)
    ensures b == Green <==> exists i :: 0 <= i < |questions| && Get(questions[i], "section_id") == Get(section, "id")
  {
    var r := SectionQuestions(questions, section);
    if |r| > 0 then
      assert r[0] in questions;
      Green
    else
      Yellow
  }

  /**
   * `t.split(/\s+/)`: the pieces between maximal whitespace runs, `cur`
   * being the piece read so far; `\s` is the whitespace `trim` removes.
   */
  function SplitFrom(t: string, cur: string): (r: seq<string>)
    ensures |r| >= 1
    decreases |t|
  {
    if t == [] then [cur]
    else if IsSpace(t[0]) then [cur] + SplitFrom(TrimStart(t[1..]), "")
    else SplitFrom(t[1..], cur + [t[0]])
  }

  function Split(t: string): seq<string> {
    SplitFrom(t, "")
  }

  /**
   * The passage word count, for string or falsy content. The page calls
   * `trim` on any truthy content, which throws for a number, an array or an
   * object; that case is excluded here rather than modelled.
   */
  function WordCount(content: Value): nat
    requires content.Str? || !Truthy(content)
  {
    if Truthy(content) then |Split(Trim(content.s))| else 0
  }

  /** The number of maximal whitespace runs in `t`, `prevSpace` saying whether the character before `t` was whitespace. */
  function SpaceRunsFrom(t: string, prevSpace: bool): nat {
    if t == [] then 0
    else (if IsSpace(t[0]) && !prevSpace then 1 else 0) + SpaceRunsFrom(t[1..], IsSpace(t[0]))
  }

  /** The number of maximal non-whitespace runs in `t`, `prevSpace` as above. */
  function RunsFrom(t: string, prevSpace: bool): nat {
    if t == [] then 0
    else (if !IsSpace(t[0]) && prevSpace then 1 else 0) + RunsFrom(t[1..], IsSpace(t[0]))
  }

  /** The words of `s`: its maximal runs of non-whitespace characters. */
  function Words(s: string): nat {
    RunsFrom(s, true)
  }

  /** Leading whitespace after whitespace starts no run of either kind. */
  lemma {:induction false} SpaceRunsAfterSpace(t: string)
    ensures SpaceRunsFrom(t, true) == SpaceRunsFrom(TrimStart(t), false)
  {
    if t != [] {
      if IsSpace(t[0]) {
        SpaceRunsAfterSpace(t[1..]);
      }
    }
  }

  /** `split` yields one piece more than there are whitespace runs. */
  lemma {:induction false} SplitCount(t: string, cur: string)
    ensures |SplitFrom(t, cur)| == 1 + SpaceRunsFrom(t, false)
    decreases |t|
  {
    if t != [] {
      if IsSpace(t[0]) {
        SplitCount(TrimStart(t[1..]), "");
        SpaceRunsAfterSpace(t[1..]);
      } else {
        SplitCount(t[1..], cur + [t[0]]);
      }
    }
  }

  /** In a string that ends in a non-space, the two kinds of run alternate. */
  lemma {:induction false} RunsAlternate(t: string, p: bool)
    requires t != [] && !IsSpace(t[|t| - 1])
    ensures RunsFrom(t, p) == SpaceRunsFrom(t, p) + (if p then 1 else 0)
  {
    if |t| > 1 {
      RunsAlternate(t[1..], IsSpace(t[0]));
    }
  }

  /** Leading whitespace does not change the word count. */
  lemma {:induction false} WordsIgnoreLeadingSpace(s: string)
    ensures Words(TrimStart(s)) == Words(s)
  {
    if s != [] && IsSpace(s[0]) {
      WordsIgnoreLeadingSpace(s[1..]);
    }
  }

  /** Trailing whitespace does not change the run count. */
  lemma {:induction false} RunsIgnoreTrailingSpace(a: string, w: string, p: bool)
    requires forall i :: 0 <= i < |w| ==> IsSpace(w[i])
    ensures RunsFrom(a + w, p) == RunsFrom(a, p)
    decreases |a| + |w|
  {
    if a == [] {
      if w != [] {
        assert (a + w)[1..] == [] + w[1..];
        RunsIgnoreTrailingSpace([], w[1..], IsSpace(w[0]));
      }
    } else {
      assert (a + w)[1..] == a[1..] + w;
      RunsIgnoreTrailingSpace(a[1..], w, IsSpace(a[0]));
    }
  }

  /** Trailing whitespace does not change the word count. */
  lemma WordsIgnoreTrailingSpace(t: string)
    ensures Words(TrimEnd(t)) == Words(t)
  {
    var e := TrimEnd(t);
    var w := t[|e|..];
    assert t == e + w;
    RunsIgnoreTrailingSpace(e, w, true);
  }

  /** Surrounding whitespace does not change the word count. */
  lemma WordsIgnoreTrim(s: string)
    ensures Words(Trim(s)) == Words(s)
  {
    WordsIgnoreLeadingSpace(s);
    WordsIgnoreTrailingSpace(TrimStart(s));
  }

  /** A trimmed non-empty string starts and ends with a non-space. */
  lemma TrimmedEnds(s: string)
    requires Trim(s) != []
    ensures !IsSpace(Trim(s)[0]) && !IsSpace(Trim(s)[|Trim(s)| - 1])
  {
    var t := TrimStart(s);
    assert Trim(s)[0] == t[0];
  }

  /** `trim` leaves nothing exactly when the string is all whitespace. */
  lemma TrimEmptyIffAllSpace(s: string)
    ensures Trim(s) == [] <==> forall i :: 0 <= i < |s| ==> IsSpace(s[i])
  {
    var t := TrimStart(s);
    if Trim(s) == [] {
      assert |t| == 0;
    }
  }

  /**
   * The word count: 0 for missing or empty content, 1 for non-empty
   * whitespace-only content (the trimmed empty string splits into one empty
   * piece), and otherwise the number of maximal non-whitespace runs.
   */
  lemma WordCountMeaning(content: Value)
    requires content.Str? || !Truthy(content)
    ensures !Truthy(content) ==> WordCount(content) == 0
    ensures content == Str("") ==> WordCount(content) == 0
    ensures content.Str? && content.s != "" && (forall i :: 0 <= i < |content.s| ==> IsSpace(content.s[i])) ==> WordCount(content) == 1
    ensures content.Str? && (exists i :: 0 <= i < |content.s| && !IsSpace(content.s[i])) ==> WordCount(content) == Words(content.s)
  {
    if content.Str? && content.s != "" {
      var s := content.s;
      TrimEmptyIffAllSpace(s);
      if Trim(s) == [] {
        SplitCount([], "");
      } else {
        WordCountOfWords(s);
      }
    }
  }

  /** Content with a non-space character counts its words. */
  lemma WordCountOfWords(s: string)
    requires Trim(s) != []
    ensures |Split(Trim(s))| == Words(s)
  {
    var t := Trim(s);
    SplitCount(t, "");
    TrimmedEnds(s);
    RunsAlternate(t, true);
    RunsAlternate(t, false);
    WordsIgnoreTrim(s);
  }
}
