/**
 * The exam editor's store (`src/pages/Admin/ExamEditor/ExamEditorContext.jsx`):
 * the exam object, the section and question lists, the ids of deleted
 * persisted questions and the validation errors, with the transforms the
 * editor tabs apply to them.
 *
 * Sections, questions and the exam are plain JavaScript objects
 * (`JsValues.Record`); `{ ...a, ...b }` is `Spread(a, b)`.
 */
module ExamEditor {
  import opened Wrappers
  import opened JsValues
  import opened JsStrings

  /** The exam an editor opened without initial data starts from. */
  function DefaultExam(): Record {
    map[
      "title" := Str(""),
      "type" := Str("academic"),
      "code" := Str(""),
      "status" := Str("draft"),
      "modules_config" := Obj(map[
        "listening" := Obj(map["enabled" := Bool(true), "duration" := Num(30)]),
        "reading" := Obj(map["enabled" := Bool(true), "duration" := Num(60)]),
        "writing" := Obj(map["enabled" := Bool(true), "duration" := Num(60)]),
        "autoSubmit" := Bool(true),
        "fullscreen" := Bool(false),
        "autosaveInterval" := Num(300)
      ]),
      "security_settings" := Obj(map[
        "visibility_scope" := Str("all"),
        "assigned_classrooms" := Arr([]),
        "security_mode" := Str("log_only"),
        "max_violations" := Num(3)
      ])
    ]
  }

  /** `s.module_type === m`. */
  predicate IsModule(s: Record, m: string) {
    Get(s, "module_type") == Str(m)
  }

  /** `x.id === id`. */
  predicate HasId(x: Record, id: string) {
    Get(x, "id") == Str(id)
  }

  /**
   * The seeded sections of one module: ids `<prefix>1..`, `section_order`
   * 1..n, titles `<title> 1..`, empty content, and an empty `audio_url` for
   * listening.
   */
  function Seeds(prefix: string, moduleType: string, title: string, n: nat, withAudio: bool): (r: seq<Record>)
    ensures |r| == n
    ensures forall i :: 0 <= i < n ==> IsModule(r[i], moduleType) && Get(r[i], "section_order") == Num(i + 1)
  {
    seq(n, i requires 0 <= i < n =>
      var fields := map[
        "id" := Str(prefix + DecimalString(i + 1)),
        "module_type" := Str(moduleType),
        "section_order" := Num(i + 1),
        "title" := Str(title + " " + DecimalString(i + 1)),
        "content" := Str("")
      ];
      if withAudio then fields["audio_url" := Str("")] else fields)
  }

  /** The nine sections the editor seeds: four listening sections, three reading passages, two writing tasks. */
  function InitialSections(): seq<Record> {
    Seeds("l", "listening", "Listening Section", 4, true)
    + Seeds("r", "reading", "Reading Passage", 3, false)
    + Seeds("w", "writing", "Writing Task", 2, false)
  }

  /** The mount effect: seed the structure only when there are no sections. */
  function SeedIfEmpty(sections: seq<Record>): (r: seq<Record>)
    ensures sections != [] ==> r == sections
    ensures sections == [] ==> r == InitialSections()
  {
    if |sections| == 0 then InitialSections() else sections
  }

  /** The sections of module `m`, as `sections.filter(s => s.module_type === m)` gives them. */
  function ModuleSections(sections: seq<Record>, m: string): seq<Record> {
    Filter(sections, (s: Record) => IsModule(s, m))
  }

  lemma {:induction false} FilterKeepsNone<T>(s: seq<T>, keep: T -> bool)
    requires forall i :: 0 <= i < |s| ==> !keep(s[i])
    ensures Filter(s, keep) == []
  {
    if s != [] {
      FilterKeepsNone(s[1..], keep);
    }
  }

  /** A filter over three blocks that keeps all of the first and none of the others returns the first. */
  lemma {:induction false} FilterFirstBlock(a: seq<Record>, b: seq<Record>, c: seq<Record>, keep: Record -> bool)
    requires forall i :: 0 <= i < |a| ==> keep(a[i])
    requires forall i :: 0 <= i < |b| ==> !keep(b[i])
    requires forall i :: 0 <= i < |c| ==> !keep(c[i])
    ensures Filter(a + b + c, keep) == a
  {
    FilterAppend(a + b, c, keep);
    FilterAppend(a, b, keep);
    FilterKeepsAll(a, keep);
    FilterKeepsNone(b, keep);
    FilterKeepsNone(c, keep);
  }

  /** A filter over three blocks that keeps none of the first and third and all of the second returns the second. */
  lemma {:induction false} FilterMiddleBlock(a: seq<Record>, b: seq<Record>, c: seq<Record>, keep: Record -> bool)
    requires forall i :: 0 <= i < |a| ==> !keep(a[i])
    requires forall i :: 0 <= i < |b| ==> keep(b[i])
    requires forall i :: 0 <= i < |c| ==> !keep(c[i])
    ensures Filter(a + b + c, keep) == b
  {
    FilterAppend(a + b, c, keep);
    FilterAppend(a, b, keep);
    FilterKeepsNone(a, keep);
    FilterKeepsAll(b, keep);
    FilterKeepsNone(c, keep);
  }

  /** A filter over three blocks that keeps only the third returns the third. */
  lemma {:induction false} FilterLastBlock(a: seq<Record>, b: seq<Record>, c: seq<Record>, keep: Record -> bool)
    requires forall i :: 0 <= i < |a| ==> !keep(a[i])
    requires forall i :: 0 <= i < |b| ==> !keep(b[i])
    requires forall i :: 0 <= i < |c| ==> keep(c[i])
    ensures Filter(a + b + c, keep) == c
  {
    FilterAppend(a + b, c, keep);
    FilterAppend(a, b, keep);
    FilterKeepsNone(a, keep);
    FilterKeepsNone(b, keep);
    FilterKeepsAll(c, keep);
  }

  /** Seeded sections belong to their own module and to no other. */
  lemma SeedsModule(prefix: string, moduleType: string, title: string, n: nat, withAudio: bool, other: string)
    requires other != moduleType
    ensures forall i :: 0 <= i < n ==> !IsModule(Seeds(prefix, moduleType, title, n, withAudio)[i], other)
  {
  }

  /** The listening part of the seed: four sections numbered 1..4. */
  lemma InitialListening()
    ensures var l := ModuleSections(InitialSections(), "listening");
      |l| == 4 && forall i :: 0 <= i < 4 ==> Get(l[i], "section_order") == Num(i + 1)
  {
    var ls := Seeds("l", "listening", "Listening Section", 4, true);
    var rs := Seeds("r", "reading", "Reading Passage", 3, false);
    var ws := Seeds("w", "writing", "Writing Task", 2, false);
    SeedsModule("r", "reading", "Reading Passage", 3, false, "listening");
    SeedsModule("w", "writing", "Writing Task", 2, false, "listening");
    FilterFirstBlock(ls, rs, ws, (s: Record) => IsModule(s, "listening"));
  }

  /** The reading part of the seed: three passages numbered 1..3. */
  lemma InitialReading()
    ensures var r := ModuleSections(InitialSections(), "reading");
      |r| == 3 && forall i :: 0 <= i < 3 ==> Get(r[i], "section_order") == Num(i + 1)
  {
    var ls := Seeds("l", "listening", "Listening Section", 4, true);
    var rs := Seeds("r", "reading", "Reading Passage", 3, false);
    var ws := Seeds("w", "writing", "Writing Task", 2, false);
    SeedsModule("l", "listening", "Listening Section", 4, true, "reading");
    SeedsModule("w", "writing", "Writing Task", 2, false, "reading");
    FilterMiddleBlock(ls, rs, ws, (s: Record) => IsModule(s, "reading"));
  }

  /** The writing part of the seed: two tasks numbered 1..2. */
  lemma InitialWriting()
    ensures var w := ModuleSections(InitialSections(), "writing");
      |w| == 2 && forall i :: 0 <= i < 2 ==> Get(w[i], "section_order") == Num(i + 1)
  {
    var ls := Seeds("l", "listening", "Listening Section", 4, true);
    var rs := Seeds("r", "reading", "Reading Passage", 3, false);
    var ws := Seeds("w", "writing", "Writing Task", 2, false);
    SeedsModule("l", "listening", "Listening Section", 4, true, "writing");
    SeedsModule("r", "reading", "Reading Passage", 3, false, "writing");
    FilterLastBlock(ls, rs, ws, (s: Record) => IsModule(s, "writing"));
  }

  /** `updateExam(updates)`: `{ ...prev, ...updates }`. */
  function ApplyExamUpdate(exam: Record, updates: Record): (r: Record)
    ensures r.Keys == exam.Keys + updates.Keys
    ensures forall k :: k in updates ==> r[k] == updates[k]
    ensures forall k :: k in exam && k !in updates ==> r[k] == exam[k]
  {
    Spread(exam, updates)
  }

  /**
   * `items.map(x => x.id === id ? { ...x, ...updates } : x)`, the body of
   * `updateSection` and `updateQuestion`: same length and order, the
   * matching items merged with `updates`, every other item unchanged.
   */
  function UpdateById(items: seq<Record>, id: string, updates: Record): (r: seq<Record>)
    ensures |r| == |items|
    ensures forall i :: 0 <= i < |items| && HasId(items[i], id) ==> r[i] == Spread(items[i], updates)
    ensures forall i :: 0 <= i < |items| && !HasId(items[i], id) ==> r[i] == items[i]
  {
    if items == [] then []
    else
      var head := if HasId(items[0], id) then Spread(items[0], updates) else items[0];
      var rest := UpdateById(items[1..], id, updates);
      assert forall i :: 1 <= i < |items| ==> items[i] == items[1..][i - 1];
      [head] + rest
  }

  /** An update for an id no item carries changes nothing. */
  lemma UpdateMissingIdIsIdentity(items: seq<Record>, id: string, updates: Record)
    requires forall i :: 0 <= i < |items| ==> !HasId(items[i], id)
    ensures UpdateById(items, id, updates) == items
  {
  }

  /** The id `addQuestion` gives a new question: `temp_` and the clock's milliseconds. */
  function TempId(now: nat): string {
    "temp_" + DecimalString(now)
  }

  /** `{ id: \`temp_${Date.now()}\`, section_id: sectionId, ...questionData }`: the data's own keys win. */
  function NewQuestion(sectionId: string, data: Record, now: nat): (q: Record)
    ensures "id" !in data ==> Get(q, "id") == Str(TempId(now))
    ensures "section_id" !in data ==> Get(q, "section_id") == Str(sectionId)
    ensures forall k :: k in data ==> k in q && q[k] == data[k]
    ensures q.Keys == data.Keys + {"id", "section_id"}
  {
    Spread(map["id" := Str(TempId(now)), "section_id" := Str(sectionId)], data)
  }

  /** `addQuestion`: exactly one new question, at the end. */
  function AppendQuestion(questions: seq<Record>, sectionId: string, data: Record, now: nat): (r: seq<Record>)
    ensures |r| == |questions| + 1 && r[..|questions|] == questions
    ensures r[|questions|] == NewQuestion(sectionId, data, now)
  {
    questions + [NewQuestion(sectionId, data, now)]
  }

  predicate IsHexDigit(c: char) {
    ('0' <= c <= '9') || ('a' <= c <= 'f') || ('A' <= c <= 'F')
  }

  /** The positions of the hyphens in an 8-4-4-4-12 UUID. */
  predicate HyphenAt(i: int) {
    i == 8 || i == 13 || i == 18 || i == 23
  }

  /** `/^[0-9a-f]{8}-[0-9a-f]{4}-[0-9a-f]{4}-[0-9a-f]{4}-[0-9a-f]{12}$/i.test(id)`. */
  predicate IsUuid(id: string) {
    |id| == 36 && forall i :: 0 <= i < 36 ==> if HyphenAt(i) then id[i] == '-' else IsHexDigit(id[i])
  }

  /** A question created in the editor is never taken for a persisted one. */
  lemma TempIdIsNotUuid(now: nat)
    ensures !IsUuid(TempId(now))
  {
    assert TempId(now)[0] == 't';
  }

  /** The ids to soft-delete after `deleteQuestion(id)`: the id is appended when it is a UUID. */
  function TrackDeleted(deleted: seq<string>, id: string): (r: seq<string>)
    ensures IsUuid(id) ==> r == deleted + [id]
    ensures !IsUuid(id) ==> r == deleted
  {
    if IsUuid(id) then deleted + [id] else deleted
  }

  /** `q => q.id !== id`. */
  function WithoutId(id: string): Record -> bool {
    (q: Record) => !HasId(q, id)
  }

  /**
   * `questions.filter(q => q.id !== id)`: every question with that id is
   * gone, and the others are kept in order, each exactly once.
   */
  function RemoveById(questions: seq<Record>, id: string): (r: seq<Record>)
    ensures forall i :: 0 <= i < |r| ==> !HasId(r[i], id) && r[i] in questions
    ensures forall i :: 0 <= i < |questions| && !HasId(questions[i], id) ==> questions[i] in r
    ensures SubseqAt(r, questions, KeptPositions(questions, WithoutId(id)))
  {
    FilterAtKeptPositions(questions, WithoutId(id));
    Filter(questions, WithoutId(id))
  }

  /** The id mapping a save returns; either part may be missing. */
  datatype IdMapping = IdMapping(sections: Option<map<string, Value>>, questions: Option<map<string, Value>>)

  /** `m && m[id]`: the new id for `id`, or a falsy value. */
  function NewId(m: Option<map<string, Value>>, id: Value): Value {
    if m.Some? && id.Str? && id.s in m.value then m.value[id.s] else Undefined
  }

  /** `newId ? { ...x, [field]: newId } : x`: only `field` may change, and only to a truthy new id. */
  function RemapField(x: Record, field: string, m: Option<map<string, Value>>): (r: Record)
    ensures Truthy(NewId(m, Get(x, field))) ==> r == x[field := NewId(m, Get(x, field))]
    ensures !Truthy(NewId(m, Get(x, field))) ==> r == x
  {
    var n := NewId(m, Get(x, field));
    if Truthy(n) then x[field := n] else x
  }

  /** `items.map(x => remap x[field])`: same length and order, each item remapped on its own. */
  function RemapAll(items: seq<Record>, field: string, m: Option<map<string, Value>>): (r: seq<Record>)
    ensures |r| == |items|
    ensures forall i :: 0 <= i < |items| ==> r[i] == RemapField(items[i], field, m)
  {
    if items == [] then [] else [RemapField(items[0], field, m)] + RemapAll(items[1..], field, m)
  }

  /**
   * The sections after `updateIds(mapping)`: the remap is queued once under
   * `if (mapping.sections)` and once more unconditionally, so a present
   * section mapping is applied twice.
   */
  function RemapSections(sections: seq<Record>, mapping: IdMapping): (r: seq<Record>)
    ensures |r| == |sections|
    ensures forall i :: 0 <= i < |sections| ==>
      r[i] == if mapping.sections.Some? then RemapField(RemapField(sections[i], "id", mapping.sections), "id", mapping.sections)
              else RemapField(sections[i], "id", mapping.sections)
  {
    if mapping.sections.Some? then RemapAll(RemapAll(sections, "id", mapping.sections), "id", mapping.sections)
    else RemapAll(sections, "id", mapping.sections)
  }

  /** The questions after `updateIds(mapping)`: `section_id` remapped through the section mapping first, then `id` through the question mapping. */
  function RemapQuestions(questions: seq<Record>, mapping: IdMapping): (r: seq<Record>)
    ensures |r| == |questions|
    ensures forall i :: 0 <= i < |questions| ==>
      r[i] == RemapField(RemapField(questions[i], "section_id", mapping.sections), "id", mapping.questions)
  {
    RemapAll(RemapAll(questions, "section_id", mapping.sections), "id", mapping.questions)
  }

  /** No new id leads on to a different id: looked up again it is unmapped, or mapped to itself. */
  predicate ChainFree(m: map<string, Value>) {
    forall k :: k in m && Truthy(m[k]) ==>
      var next := NewId(Some(m), m[k]);
      !Truthy(next) || next == m[k]
  }

  /** Without chains, remapping twice is remapping once. */
  lemma {:induction false} RemapTwiceIsOnce(items: seq<Record>, field: string, m: map<string, Value>)
    requires ChainFree(m)
    ensures RemapAll(RemapAll(items, field, Some(m)), field, Some(m)) == RemapAll(items, field, Some(m))
  {
    var once := RemapAll(items, field, Some(m));
    var twice := RemapAll(once, field, Some(m));
    forall i | 0 <= i < |items| ensures twice[i] == once[i] {
      var x := items[i];
      var n := NewId(Some(m), Get(x, field));
      if Truthy(n) {
        assert Get(once[i], field) == n;
        assert Get(x, field).s in m;
        assert once[i][field := n] == once[i];
      }
    }
  }

  /** Without chains, the section ids after `updateIds` are those of a single remap. */
  lemma RemapSectionsOnceWhenChainFree(sections: seq<Record>, m: map<string, Value>, q: Option<map<string, Value>>)
    requires ChainFree(m)
    ensures RemapSections(sections, IdMapping(Some(m), q)) == RemapAll(sections, "id", Some(m))
  {
    RemapTwiceIsOnce(sections, "id", m);
  }

  /** With a chain `a -> b -> c`, the double remap carries section `a` on to `c`, where one remap gives `b`. */
  lemma DoubleRemapFollowsChains()
    ensures var m := map["a" := Str("b"), "b" := Str("c")];
      var sections := [map["id" := Str("a")]];
      && Get(RemapAll(sections, "id", Some(m))[0], "id") == Str("b")
      && Get(RemapSections(sections, IdMapping(Some(m), None))[0], "id") == Str("c")
  {
    var m := map["a" := Str("b"), "b" := Str("c")];
    var sections := [map["id" := Str("a")]];
    var once := RemapAll(sections, "id", Some(m));
    assert once[0] == map["id" := Str("b")];
    assert RemapAll(once, "id", Some(m))[0] == map["id" := Str("c")];
  }

  datatype Mode = Draft | Strict

  /** `validate(mode = 'draft')`: only `'strict'` selects the strict checks. */
  function ModeOf(name: string): Mode {
    if name == "strict" then Strict else Draft
  }

  /** The messages `validate` pushes, by kind; each carries the section's `title`. */
  datatype ValidationError =
    | TitleRequired
    | WrongQuestionCount(title: Value, count: nat)
    | MissingAudio(title: Value)
    | MissingTranscript(title: Value)
    | PassageTooShort(title: Value)

  /** `questions.filter(q => q.section_id === s.id).length`. */
  function QuestionCount(questions: seq<Record>, s: Record): nat {
    var id := Get(s, "id");
    |Filter(questions, (q: Record) => Get(q, "section_id") == id)|
  }

  /** `!s.content || s.content.length < 50`; a value without `length` is never shorter. */
  predicate TooShort(content: Value) {
    || !Truthy(content)
    || (content.Str? && |content.s| < 50)
    || (content.Arr? && |content.items| < 50)
  }

  /** The strict errors of one listening section, in push order. */
  function ListeningErrors(s: Record, questions: seq<Record>): seq<ValidationError> {
    var n := QuestionCount(questions, s);
    (if n != 10 then [WrongQuestionCount(Get(s, "title"), n)] else [])
    + (if !Truthy(Get(s, "audio_url")) then [MissingAudio(Get(s, "title"))] else [])
    + (if !Truthy(Get(s, "content")) then [MissingTranscript(Get(s, "title"))] else [])
  }

  /** The strict error of one reading section. */
  function ReadingErrors(s: Record): seq<ValidationError> {
    if TooShort(Get(s, "content")) then [PassageTooShort(Get(s, "title"))] else []
  }

  /** What the listening `forEach` pushes for one section. */
  function SectionErrors(s: Record, questions: seq<Record>, mode: Mode): seq<ValidationError> {
    if IsModule(s, "listening") && mode == Strict then ListeningErrors(s, questions) else []
  }

  /** The errors the listening `forEach` pushes over `sections` in order. */
  function AllListeningErrors(sections: seq<Record>, questions: seq<Record>, mode: Mode): (r: seq<ValidationError>)
    ensures forall i :: 0 <= i < |r| ==> !r[i].TitleRequired?
  {
    if sections == [] then []
    else AllListeningErrors(sections[..|sections| - 1], questions, mode) + SectionErrors(sections[|sections| - 1], questions, mode)
  }

  /** The errors the reading `forEach` pushes over `sections` in order. */
  function AllReadingErrors(sections: seq<Record>, mode: Mode): (r: seq<ValidationError>)
    ensures forall i :: 0 <= i < |r| ==> !r[i].TitleRequired?
  {
    if sections == [] then []
    else
      var last := sections[|sections| - 1];
      AllReadingErrors(sections[..|sections| - 1], mode)
      + (if IsModule(last, "reading") && mode == Strict then ReadingErrors(last) else [])
  }

  /** The error list `validate` stores: the title check, then every listening section's, then every reading section's. */
  function ValidationErrors(exam: Record, sections: seq<Record>, questions: seq<Record>, mode: Mode): (r: seq<ValidationError>)
    ensures !Truthy(Get(exam, "title")) <==> |r| > 0 && r[0] == TitleRequired
  {
    (if !Truthy(Get(exam, "title")) then [TitleRequired] else [])
    + AllListeningErrors(sections, questions, mode)
    + AllReadingErrors(sections, mode)
  }

  /** A listening section that passes the strict checks. */
  predicate ListeningComplete(s: Record, questions: seq<Record>) {
    QuestionCount(questions, s) == 10 && Truthy(Get(s, "audio_url")) && Truthy(Get(s, "content"))
  }

  lemma {:induction false} DraftSectionErrors(sections: seq<Record>, questions: seq<Record>)
    ensures AllListeningErrors(sections, questions, Draft) == []
    ensures AllReadingErrors(sections, Draft) == []
  {
    if sections != [] {
      DraftSectionErrors(sections[..|sections| - 1], questions);
    }
  }

  /** In draft mode the only possible error is a missing title. */
  lemma DraftChecksOnlyTitle(exam: Record, sections: seq<Record>, questions: seq<Record>)
    ensures ValidationErrors(exam, sections, questions, Draft) == if Truthy(Get(exam, "title")) then [] else [TitleRequired]
  {
    DraftSectionErrors(sections, questions);
  }

  lemma {:induction false} StrictListeningErrorsEmpty(sections: seq<Record>, questions: seq<Record>)
    ensures AllListeningErrors(sections, questions, Strict) == [] <==>
      forall i :: 0 <= i < |sections| && IsModule(sections[i], "listening") ==> ListeningComplete(sections[i], questions)
  {
    if sections != [] {
      var init := sections[..|sections| - 1];
      var last := sections[|sections| - 1];
      StrictListeningErrorsEmpty(init, questions);
      SectionErrorsEmpty(last, questions);
      ConcatEmpty(AllListeningErrors(init, questions, Strict), SectionErrors(last, questions, Strict));
      ListeningCompleteSnoc(sections, init, questions);
    }
  }

  lemma ConcatEmpty<T>(a: seq<T>, b: seq<T>)
    ensures a + b == [] <==> a == [] && b == []
  {
    assert |a + b| == |a| + |b|;
  }

  /** Every listening section is complete iff those before the last are and the last one is. */
  lemma ListeningCompleteSnoc(sections: seq<Record>, init: seq<Record>, questions: seq<Record>)
    requires sections != [] && init == sections[..|sections| - 1]
    ensures (forall i :: 0 <= i < |sections| && IsModule(sections[i], "listening") ==> ListeningComplete(sections[i], questions)) <==>
      && (forall i :: 0 <= i < |init| && IsModule(init[i], "listening") ==> ListeningComplete(init[i], questions))
      && (IsModule(sections[|sections| - 1], "listening") ==> ListeningComplete(sections[|sections| - 1], questions))
  {
    assert forall i :: 0 <= i < |init| ==> init[i] == sections[i];
  }

  /** One section pushes nothing in strict mode exactly when it is not listening or is complete. */
  lemma SectionErrorsEmpty(s: Record, questions: seq<Record>)
    ensures SectionErrors(s, questions, Strict) == [] <==> (IsModule(s, "listening") ==> ListeningComplete(s, questions))
  {
  }

  lemma {:induction false} StrictReadingErrorsEmpty(sections: seq<Record>)
    ensures AllReadingErrors(sections, Strict) == [] <==>
      forall i :: 0 <= i < |sections| && IsModule(sections[i], "reading") ==> !TooShort(Get(sections[i], "content"))
  {
    if sections != [] {
      var init := sections[..|sections| - 1];
      StrictReadingErrorsEmpty(init);
      assert forall i :: 0 <= i < |init| ==> init[i] == sections[i];
    }
  }

  /**
   * Strict mode passes exactly when the title is set, every listening
   * section has exactly 10 questions, an audio file and a transcript, and
   * every reading passage has content of at least 50 characters.
   */
  lemma StrictValidIff(exam: Record, sections: seq<Record>, questions: seq<Record>)
    ensures ValidationErrors(exam, sections, questions, Strict) == [] <==>
      && Truthy(Get(exam, "title"))
      && (forall i :: 0 <= i < |sections| && IsModule(sections[i], "listening") ==> ListeningComplete(sections[i], questions))
      && (forall i :: 0 <= i < |sections| && IsModule(sections[i], "reading") ==> !TooShort(Get(sections[i], "content")))
  {
    StrictListeningErrorsEmpty(sections, questions);
    StrictReadingErrorsEmpty(sections);
  }

  lemma ListeningErrorsStep(sections: seq<Record>, questions: seq<Record>, mode: Mode, i: nat)
    requires i < |sections|
    ensures AllListeningErrors(sections[..i + 1], questions, mode) == AllListeningErrors(sections[..i], questions, mode)
      + SectionErrors(sections[i], questions, mode)
  {
    assert sections[..i + 1][..i] == sections[..i];
  }

  lemma ReadingErrorsStep(sections: seq<Record>, mode: Mode, i: nat)
    requires i < |sections|
    ensures AllReadingErrors(sections[..i + 1], mode) == AllReadingErrors(sections[..i], mode)
      + (if IsModule(sections[i], "reading") && mode == Strict then ReadingErrors(sections[i]) else [])
  {
    assert sections[..i + 1][..i] == sections[..i];
  }

  lemma PushedAfter<T>(errors: seq<T>, done: seq<T>, pushed: seq<T>, next: seq<T>)
    requires next == done + pushed
    ensures errors + done + pushed == errors + next
  {
  }

  /** The body of the listening `forEach` for one section: the strict checks, in push order. */
  method PushSectionErrors(s: Record, questions: seq<Record>, mode: Mode)
    returns (pushed: seq<ValidationError>)
    ensures pushed == SectionErrors(s, questions, mode)
  {
    pushed := [];
    if IsModule(s, "listening") && mode == Strict {
      var n := QuestionCount(questions, s);
      if n != 10 {
        pushed := pushed + [WrongQuestionCount(Get(s, "title"), n)];
      }
      if !Truthy(Get(s, "audio_url")) {
        pushed := pushed + [MissingAudio(Get(s, "title"))];
      }
      if !Truthy(Get(s, "content")) {
        pushed := pushed + [MissingTranscript(Get(s, "title"))];
      }
    }
  }

  /** The listening `forEach`: pushes each listening section's errors after `errors`. */
  method PushListeningErrors(errors: seq<ValidationError>, sections: seq<Record>, questions: seq<Record>, mode: Mode)
    returns (out: seq<ValidationError>)
    ensures out == errors + AllListeningErrors(sections, questions, mode)
  {
    out := errors;
    for i := 0 to |sections|
      invariant out == errors + AllListeningErrors(sections[..i], questions, mode)
    {
      var pushed := PushSectionErrors(sections[i], questions, mode);
      ListeningErrorsStep(sections, questions, mode, i);
      PushedAfter(errors, AllListeningErrors(sections[..i], questions, mode), pushed, AllListeningErrors(sections[..i + 1], questions, mode));
      out := out + pushed;
    }
    assert sections[..|sections|] == sections;
  }

  /** The reading `forEach`: pushes each short reading passage's error after `errors`. */
  method PushReadingErrors(errors: seq<ValidationError>, sections: seq<Record>, mode: Mode)
    returns (out: seq<ValidationError>)
    ensures out == errors + AllReadingErrors(sections, mode)
  {
    out := errors;
    for i := 0 to |sections|
      invariant out == errors + AllReadingErrors(sections[..i], mode)
    {
      var s := sections[i];
      var pushed: seq<ValidationError> := [];
      if IsModule(s, "reading") && mode == Strict && TooShort(Get(s, "content")) {
        pushed := [PassageTooShort(Get(s, "title"))];
      }
      ReadingErrorsStep(sections, mode, i);
      PushedAfter(errors, AllReadingErrors(sections[..i], mode), pushed, AllReadingErrors(sections[..i + 1], mode));
      out := out + pushed;
    }
    assert sections[..|sections|] == sections;
  }

  /** `validate`'s accumulation: the title check, then the two `forEach` loops pushing into `errors`. */
  method CollectErrors(exam: Record, sections: seq<Record>, questions: seq<Record>, mode: Mode)
    returns (errors: seq<ValidationError>)
    ensures errors == ValidationErrors(exam, sections, questions, mode)
  {
    errors := [];
    if !Truthy(Get(exam, "title")) {
      errors := errors + [TitleRequired];
    }
    errors := PushListeningErrors(errors, sections, questions, mode);
    errors := PushReadingErrors(errors, sections, mode);
  }

  class EditorStore {
    var exam: Record
    var sections: seq<Record>
    var questions: seq<Record>
    var deletedQuestionIds: seq<string>
    var validationErrors: seq<ValidationError>

    /** Mounting the provider: the given exam or the default one, and the seeded sections. */
    constructor (initialData: Option<Record>)
      ensures exam == initialData.GetOr(DefaultExam())
      ensures sections == InitialSections()
      ensures questions == [] && deletedQuestionIds == [] && validationErrors == []
    {
      exam := initialData.GetOr(DefaultExam());
      sections := SeedIfEmpty([]);
      questions := [];
      deletedQuestionIds := [];
      validationErrors := [];
    }

    method UpdateExam(updates: Record)
      modifies this`exam
      ensures exam == ApplyExamUpdate(old(exam), updates)
    {
      exam := ApplyExamUpdate(exam, updates);
    }

    method UpdateSection(id: string, updates: Record)
      modifies this`sections
      ensures sections == UpdateById(old(sections), id, updates)
    {
      sections := UpdateById(sections, id, updates);
    }

    /** `addQuestion`, with `Date.now()` passed in as `now`. */
    method AddQuestion(sectionId: string, data: Record, now: nat)
      modifies this`questions
      ensures questions == AppendQuestion(old(questions), sectionId, data, now)
    {
      questions := AppendQuestion(questions, sectionId, data, now);
    }

    method UpdateQuestion(id: string, updates: Record)
      modifies this`questions
      ensures questions == UpdateById(old(questions), id, updates)
    {
      questions := UpdateById(questions, id, updates);
    }

    method DeleteQuestion(id: string)
      modifies this`questions, this`deletedQuestionIds
      ensures deletedQuestionIds == TrackDeleted(old(deletedQuestionIds), id)
      ensures questions == RemoveById(old(questions), id)
    {
      deletedQuestionIds := TrackDeleted(deletedQuestionIds, id);
      questions := RemoveById(questions, id);
    }

    method ClearDeletedQuestionIds()
      modifies this`deletedQuestionIds
      ensures deletedQuestionIds == []
    {
      deletedQuestionIds := [];
    }

    /** `updateIds(mapping)`; `None` is a missing mapping, which changes nothing. */
    method UpdateIds(mapping: Option<IdMapping>)
      modifies this`sections, this`questions
      ensures mapping.None? ==> sections == old(sections) && questions == old(questions)
      ensures mapping.Some? ==> sections == RemapSections(old(sections), mapping.value)
      ensures mapping.Some? ==> questions == RemapQuestions(old(questions), mapping.value)
    {
      if mapping.None? {
        return;
      }
      var m := mapping.value;
      if m.sections.Some? {
        sections := RemapAll(sections, "id", m.sections);
      }
      sections := RemapAll(sections, "id", m.sections);
      questions := RemapQuestions(questions, m);
    }

    /** `validate(mode)`: stores the error list and reports whether it is empty. */
    method Validate(modeName: string) returns (ok: bool)
      modifies this`validationErrors
      ensures validationErrors == ValidationErrors(exam, sections, questions, ModeOf(modeName))
      ensures ok <==> validationErrors == []
    {
      var errors := CollectErrors(exam, sections, questions, ModeOf(modeName));
      validationErrors := errors;
      ok := |errors| == 0;
    }
  }
}
