/**
 * The mock-test sequencer (`src/pages/MockTestPlayerPage.js`): four timed
 * sections in the fixed order reading, listening, speaking, writing; the
 * assignments of each section loaded in the order of its id list;
 * sections without assignments skipped; an assignment index inside the
 * current section; and a countdown floored at zero.
 */
module MockTestPlayer {
  import opened Wrappers
  import opened JsValues
  import opened JsStrings

  datatype Section = Reading | Listening | Speaking | Writing

  /** `SECTION_ORDER`. */
  const SectionOrder: seq<Section> := [Reading, Listening, Speaking, Writing]

  /** `SECTION_TIMES`, in seconds. */
  function SectionSeconds(s: Section): nat {
    match s
    case Reading => 35 * 60
    case Listening => 36 * 60
    case Speaking => 16 * 60
    case Writing => 29 * 60
  }

  /** `SECTION_ORDER.indexOf(s)`. */
  function Index(s: Section): (i: nat)
    ensures i < |SectionOrder| && SectionOrder[i] == s
  {
    match s
    case Reading => 0
    case Listening => 1
    case Speaking => 2
    case Writing => 3
  }

  /** Positions in `SectionOrder` and `Index` are inverse to each other. */
  lemma IndexOfPosition(i: nat)
    requires i < |SectionOrder|
    ensures Index(SectionOrder[i]) == i
  {
  }

  /** A loaded assignment; the player reads only its id. */
  datatype Assignment = Assignment(id: string)

  /** The mock test record: its title and, per section, the `<section>Ids` list (absent when missing). */
  datatype MockTest = MockTest(title: string, ids: map<Section, seq<string>>)

  /** `mt[\`${sec}Ids\`] || []`. */
  function IdsOf(mt: MockTest, s: Section): seq<string> {
    if s in mt.ids then mt.ids[s] else []
  }

  /** The loaded assignments per section (`secData`, `sectionAssignments`). */
  type SectionData = map<Section, seq<Assignment>>

  /** `sectionAssignments[sec] || []`. */
  function Assignments(d: SectionData, s: Section): seq<Assignment> {
    if s in d then d[s] else []
  }

  /** `sectionAssignments[sec] && sectionAssignments[sec].length > 0`. */
  predicate HasAssignments(d: SectionData, s: Section) {
    |Assignments(d, s)| > 0
  }

  /** The state before loading: every section present and empty. */
  const EmptyData: SectionData := map[Reading := [], Listening := [], Speaking := [], Writing := []]

  /** Every section is a key of the empty data. */
  lemma EmptyDataHasEverySection()
    ensures forall s :: s in EmptyData
  {
    forall s: Section ensures s in EmptyData {
      match s
      case Reading =>
      case Listening =>
      case Speaking =>
      case Writing =>
    }
  }

  /** The position `order.find(sec => has(sec))` stops at: the first section with assignments, or `|order|`. */
  function FirstNonEmptyIndex(order: seq<Section>, d: SectionData): (i: nat)
    ensures i <= |order|
    ensures forall j :: 0 <= j < i ==> !HasAssignments(d, order[j])
    ensures i < |order| ==> HasAssignments(d, order[i])
  {
    if order == [] then 0
    else if HasAssignments(d, order[0]) then 0
    else 1 + FirstNonEmptyIndex(order[1..], d)
  }

  /** `order.find(sec => has(sec))`. */
  function FindNonEmpty(order: seq<Section>, d: SectionData): Option<Section> {
    var i := FirstNonEmptyIndex(order, d);
    if i < |order| then Some(order[i]) else None
  }

  /** The section `load` starts with: the first of `SectionOrder` with assignments, else reading. */
  function FirstAvailable(d: SectionData): (s: Section)
    ensures HasAssignments(d, s) ==> forall t :: Index(t) < Index(s) ==> !HasAssignments(d, t)
    ensures !HasAssignments(d, s) ==> s == Reading && forall t :: !HasAssignments(d, t)
  {
    var i := FirstNonEmptyIndex(SectionOrder, d);
    if i < |SectionOrder| then
      assert forall t :: Index(t) < i ==> !HasAssignments(d, SectionOrder[Index(t)]);
      SectionOrder[i]
    else
      assert forall t :: !HasAssignments(d, t) by {
        forall t ensures !HasAssignments(d, t) {
          assert SectionOrder[Index(t)] == t;
        }
      }
      Reading
  }

  /**
   * `SECTION_ORDER.slice(idx + 1).find(has)`: the first section after
   * `current` with assignments; empty sections in between are skipped and
   * no earlier section is ever chosen.
   */
  function NextSection(current: Section, d: SectionData): (r: Option<Section>)
    ensures r.Some? ==> Index(r.value) > Index(current) && HasAssignments(d, r.value)
    ensures r.Some? ==> forall t :: Index(current) < Index(t) < Index(r.value) ==> !HasAssignments(d, t)
    ensures r.None? <==> forall t :: Index(t) > Index(current) ==> !HasAssignments(d, t)
  {
    var k := Index(current) + 1;
    var later := SectionOrder[k..];
    var i := FirstNonEmptyIndex(later, d);
    assert forall t :: Index(t) >= k ==> later[Index(t) - k] == t;
    FindNonEmpty(later, d)
  }

  /** After writing, the last section, there is never a next section. */
  lemma {:induction false} NoNextAfterWriting(d: SectionData)
    ensures NextSection(Writing, d).None?
  {
    assert SectionOrder[Index(Writing) + 1..] == [];
  }

  /** Every id of every section's list can be fetched. */
  predicate AllFetchable(mt: MockTest, fetch: string -> Option<Assignment>) {
    forall s, i :: 0 <= i < |IdsOf(mt, s)| ==> fetch(IdsOf(mt, s)[i]).Some?
  }

  /** `d` holds, for every section, the fetched assignments of its id list in list order. */
  predicate FetchedInOrder(mt: MockTest, fetch: string -> Option<Assignment>, d: SectionData) {
    && (forall s :: s in d && |d[s]| == |IdsOf(mt, s)|)
    && (forall s, i :: 0 <= i < |IdsOf(mt, s)| ==> fetch(IdsOf(mt, s)[i]) == Some(d[s][i]))
  }

  /**
   * `load`'s nested loops: for each section in order, fetch each id of its
   * list in order and collect the results; any failed fetch abandons the
   * whole load.
   */
  method FetchSections(mt: MockTest, fetch: string -> Option<Assignment>) returns (r: Option<SectionData>)
    ensures r.Some? <==> AllFetchable(mt, fetch)
    ensures r.Some? ==> FetchedInOrder(mt, fetch, r.value)
  {
    var secData := EmptyData;
    EmptyDataHasEverySection();
    for k := 0 to |SectionOrder|
      invariant forall s :: s in secData
      invariant forall s :: Index(s) < k ==> |secData[s]| == |IdsOf(mt, s)|
      invariant forall s, i :: Index(s) < k && 0 <= i < |IdsOf(mt, s)| ==>
        fetch(IdsOf(mt, s)[i]) == Some(secData[s][i])
    {
      var sec := SectionOrder[k];
      IndexOfPosition(k);
      var ids := IdsOf(mt, sec);
      var loaded: seq<Assignment> := [];
      for j := 0 to |ids|
        invariant |loaded| == j
        invariant forall i :: 0 <= i < j ==> fetch(ids[i]) == Some(loaded[i])
      {
        var a := fetch(ids[j]);
        if a.None? {
          return None;
        }
        loaded := loaded + [a.value];
      }
      secData := secData[sec := loaded];
    }
    r := Some(secData);
  }

  /** The three faces of the page. */
  datatype PlayerView = StudentsOnly | LoadingOrError | Running

  /**
   * The value `AuthProvider` puts in the context: the signed-in user, the
   * token, `login`, `logout` and `isAuthenticated`. The two actions are
   * functions; they stand here as objects without properties, since the
   * page reads none of them.
   */
  function AuthValue(user: Value, token: Value): (ctx: Record)
    ensures "currentUser" !in ctx
    ensures Get(ctx, "user") == user && Get(ctx, "token") == token
  {
    map["user" := user, "token" := token, "login" := Obj(map[]), "logout" := Obj(map[]),
        "isAuthenticated" := Bool(Truthy(user))]
  }

  /** `currentUser && currentUser.role === "student"`. */
  predicate IsStudent(u: Value) {
    Truthy(u) && Get(Fields(u), "role") == Str("student")
  }

  class Player {
    /** Whether the page was given an `onExit` callback. */
    const hasOnExit: bool
    var mockTest: Option<MockTest>
    var sectionAssignments: SectionData
    var loading: bool
    var error: string
    var activeSection: Section
    var activeAssignmentIndex: nat
    var timeLeft: int
    /** How many times `onExit` has been called. */
    var exitCalls: nat

    ghost predicate Valid()
      reads this
    {
      && 0 <= timeLeft < 100 * 60
      && (forall s :: s in sectionAssignments)
      && (activeAssignmentIndex == 0 || activeAssignmentIndex < |Assignments(sectionAssignments, activeSection)|)
    }

    /** `currentAssignments`. */
    function CurrentAssignments(): seq<Assignment>
      reads this
    {
      Assignments(sectionAssignments, activeSection)
    }

    /** `currentAssignments[activeAssignmentIndex] || null`. */
    function ActiveAssignment(): (r: Option<Assignment>)
      reads this
      ensures r.None? <==> activeAssignmentIndex >= |CurrentAssignments()|
      ensures r.Some? ==> r.value == CurrentAssignments()[activeAssignmentIndex]
    {
      var current := CurrentAssignments();
      if activeAssignmentIndex < |current| then Some(current[activeAssignmentIndex]) else None
    }

    /**
     * The page after mounting: nothing loaded, reading active, index 0; the
     * effect on `activeSection` has already set the clock to reading's time.
     */
    constructor (hasOnExit: bool)
      ensures Valid() && this.hasOnExit == hasOnExit
      ensures mockTest.None? && sectionAssignments == EmptyData && error == ""
      ensures activeSection == Reading && activeAssignmentIndex == 0
      ensures timeLeft == SectionSeconds(Reading) && exitCalls == 0 && !loading
    {
      this.hasOnExit := hasOnExit;
      EmptyDataHasEverySection();
      mockTest := None;
      sectionAssignments := EmptyData;
      loading := false;
      error := "";
      activeSection := Reading;
      activeAssignmentIndex := 0;
      timeLeft := SectionSeconds(Reading);
      exitCalls := 0;
    }

    /**
     * `load`, run when a token and a mock-test id are present: the mock test
     * (`None` when its fetch failed) and then every assignment. On success
     * the first available section becomes active with index 0 and its full
     * time; on any failure only the error is set and everything loaded
     * before stays.
     */
    method Load(mt: Option<MockTest>, fetch: string -> Option<Assignment>, failureMessage: string) returns (ok: bool)
      requires Valid()
      modifies this
      ensures Valid() && !loading
      ensures ok <==> mt.Some? && AllFetchable(mt.value, fetch)
      ensures ok ==>
        && mockTest == mt && error == ""
        && FetchedInOrder(mt.value, fetch, sectionAssignments)
        && activeSection == FirstAvailable(sectionAssignments)
        && activeAssignmentIndex == 0 && timeLeft == SectionSeconds(activeSection)
      ensures !ok ==>
        && mockTest == old(mockTest)
        && sectionAssignments == old(sectionAssignments) && activeSection == old(activeSection)
        && activeAssignmentIndex == old(activeAssignmentIndex) && timeLeft == old(timeLeft)
        && error == (if failureMessage != "" then failureMessage else "Failed to load mock test")
      ensures exitCalls == old(exitCalls)
    {
      loading := true;
      error := "";
      var data: Option<SectionData> := None;
      if mt.Some? {
        data := FetchSections(mt.value, fetch);
      }
      ok := data.Some?;
      if ok {
        mockTest := mt;
        sectionAssignments := data.value;
        activeSection := FirstAvailable(data.value);
        activeAssignmentIndex := 0;
        timeLeft := SectionSeconds(activeSection);
      } else {
        error := if failureMessage != "" then failureMessage else "Failed to load mock test";
      }
      loading := false;
    }

    /** One firing of the interval, which exists only while `timeLeft` is non-zero; reaching zero changes nothing else. */
    method Tick()
      requires Valid() && timeLeft != 0
      modifies this`timeLeft
      ensures Valid()
      ensures timeLeft == TickUpdate(old(timeLeft)) && timeLeft == old(timeLeft) - 1
    {
      timeLeft := TickUpdate(timeLeft);
    }

    /**
     * `handleSectionComplete`: the next later section with assignments
     * becomes active with index 0 and its full time; when there is none,
     * `onExit` is called (if given) and the section stays.
     */
    method CompleteSection()
      requires Valid()
      modifies this
      ensures Valid()
      ensures var next := NextSection(old(activeSection), old(sectionAssignments));
        && (next.Some? ==>
              activeSection == next.value && activeAssignmentIndex == 0 && timeLeft == SectionSeconds(next.value)
              && exitCalls == old(exitCalls))
        && (next.None? ==>
              activeSection == old(activeSection) && activeAssignmentIndex == old(activeAssignmentIndex)
              && timeLeft == old(timeLeft) && exitCalls == old(exitCalls) + (if hasOnExit then 1 else 0))
      ensures Index(activeSection) >= Index(old(activeSection))
      ensures sectionAssignments == old(sectionAssignments) && mockTest == old(mockTest) && error == old(error)
      ensures loading == old(loading)
    {
      var next := NextSection(activeSection, sectionAssignments);
      if next.Some? {
        activeSection := next.value;
        activeAssignmentIndex := 0;
        timeLeft := SectionSeconds(next.value);
      } else if hasOnExit {
        exitCalls := exitCalls + 1;
      }
    }

    /**
     * `handleAssignmentFinished`, the `onExit` of the active assignment's
     * player: step to the next assignment of the section, or complete the
     * section after its last one.
     */
    method AssignmentFinished()
      requires Valid() && ActiveAssignment().Some?
      modifies this
      ensures Valid()
      ensures old(activeAssignmentIndex) + 1 < |old(CurrentAssignments())| ==>
        && activeSection == old(activeSection) && activeAssignmentIndex == old(activeAssignmentIndex) + 1
        && timeLeft == old(timeLeft) && exitCalls == old(exitCalls)
      ensures old(activeAssignmentIndex) + 1 >= |old(CurrentAssignments())| ==>
        var next := NextSection(old(activeSection), old(sectionAssignments));
        && (next.Some? ==>
              activeSection == next.value && activeAssignmentIndex == 0 && timeLeft == SectionSeconds(next.value)
              && exitCalls == old(exitCalls))
        && (next.None? ==>
              activeSection == old(activeSection) && activeAssignmentIndex == old(activeAssignmentIndex)
              && timeLeft == old(timeLeft) && exitCalls == old(exitCalls) + (if hasOnExit then 1 else 0))
      ensures Index(activeSection) >= Index(old(activeSection))
      ensures activeSection != old(activeSection) ==> timeLeft == SectionSeconds(activeSection)
      ensures sectionAssignments == old(sectionAssignments) && mockTest == old(mockTest)
      ensures error == old(error) && loading == old(loading)
    {
      var nextIndex := activeAssignmentIndex + 1;
      if nextIndex < |CurrentAssignments()| {
        activeAssignmentIndex := nextIndex;
      } else {
        CompleteSection();
      }
    }

    /**
     * What the page renders when it takes `currentUser` to be the signed-in
     * user: a refusal to anyone but a student, the loading/error card until
     * a mock test is loaded, and the running test otherwise.
     */
    function View(currentUser: Value): (v: PlayerView)
      reads this
      ensures v == StudentsOnly <==> !IsStudent(currentUser)
      ensures v == Running <==> IsStudent(currentUser) && !loading && mockTest.Some?
    {
      if !IsStudent(currentUser) then StudentsOnly
      else if loading || mockTest.None? then LoadingOrError
      else Running
    }

    /** As written: the user is taken from the context's `currentUser`. */
    function ScreenAsWritten(ctx: Record): (v: PlayerView)
      reads this
      ensures v == StudentsOnly <==> !IsStudent(Get(ctx, "currentUser"))
    {
      View(Get(ctx, "currentUser"))
    }

    /** Corrected: the user is taken from the context's `user`. */
    function Screen(ctx: Record): (v: PlayerView)
      reads this
      ensures v == StudentsOnly <==> !IsStudent(Get(ctx, "user"))
      ensures v == Running <==> IsStudent(Get(ctx, "user")) && !loading && mockTest.Some?
    {
      View(Get(ctx, "user"))
    }

    /** The clock: `mins.toString().padStart(2, "0") + ":" + secs.toString().padStart(2, "0")`. */
    function Clock(): (c: string)
      reads this
      requires Valid()
      ensures |c| == 5 && ReadClock(c) == Some(timeLeft)
    {
      ClockTextReadsBack(timeLeft);
      ClockText(timeLeft)
    }
  }

  /**
   * As written, the page refuses every visitor: the context has no
   * `currentUser`, so the page sees none, whoever is signed in and
   * whatever has loaded.
   */
  lemma NobodyEntersAsWritten(p: Player, user: Value, token: Value)
    ensures p.ScreenAsWritten(AuthValue(user, token)) == StudentsOnly
  {
  }

  /** Reading the context's `user`, a signed-in student gets past the refusal, and only a student does. */
  lemma StudentEntersWhenCorrected(p: Player, user: Value, token: Value)
    ensures p.Screen(AuthValue(user, token)) == StudentsOnly <==> !IsStudent(user)
    ensures p.Screen(AuthValue(user, token)) == Running <==> IsStudent(user) && !p.loading && p.mockTest.Some?
  {
  }

  /** The interval's updater: one second less, never below zero. */
  function TickUpdate(prev: int): (r: int)
    ensures r >= 0
    ensures prev > 0 ==> r == prev - 1
    ensures prev <= 0 ==> r == 0
  {
    if prev > 0 then prev - 1 else 0
  }

  /** Minutes and seconds, each padded to two digits. */
  function ClockText(t: nat): string {
    PadStart(DecimalString(t / 60), 2) + ":" + PadStart(DecimalString(t % 60), 2)
  }

  /** Every section's time fits the clock: it shows two minute digits, two second digits, and reads back as `t`. */
  lemma ClockTextReadsBack(t: nat)
    requires t < 100 * 60
    ensures |ClockText(t)| == 5 && ReadClock(ClockText(t)) == Some(t)
  {
    var m, s := t / 60, t % 60;
    var pm, ps := PadStart(DecimalString(m), 2), PadStart(DecimalString(s), 2);
    PadTwoDigits(m);
    PadTwoDigits(s);
    assert ClockText(t) == pm + ":" + ps;
    ReadClockOfParts(pm, ps);
    assert 60 * m + s == t;
  }
}
