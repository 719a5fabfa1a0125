/**
 * The triage state machine of `TriageFlow` as values: the flow state, the
 * three transitions (a selection, the `back` and `restart` navigation
 * actions, and the reset the modal's open/close events trigger), the lookup
 * of the chosen resource, and the two projections the view reads (progress
 * and the Back button).
 *
 * Selections are arbitrary strings, as in the source, which never checks the
 * value an option button hands it; the options each question offers appear
 * only as the hypothesis of the lemmas about runs through the offered options.
 */
module Flow {
  import opened Optional
  import opened Catalog

  /** Question 1, 2, 3, or the terminal `'results'` step. */
  datatype Step = Q1 | Q2 | Q3 | Results

  /** The answers collected so far; `None` is `null`. */
  datatype Selections = Selections(
    resourceType: Option<string>,
    concern: Option<string>,
    contactMethod: Option<string>)

  const NoSelections := Selections(None, None, None)

  /** A history entry: the step and a copy of the selections before a selection. */
  datatype Snapshot = Snapshot(step: Step, selections: Selections)

  datatype FlowState = FlowState(currentStep: Step, selections: Selections, history: seq<Snapshot>)

  /** The state the constructor and `resetFlow` install. */
  const Initial := FlowState(Q1, NoSelections, [])

  function SnapshotOf(s: FlowState): Snapshot {
    Snapshot(s.currentStep, s.selections)
  }

  // ---------------------------------------------------------------------------
  // Transitions
  // ---------------------------------------------------------------------------

  /** `handleSelection(value)`: push a snapshot, then record the answer and advance. */
  function Select(s: FlowState, value: string): FlowState {
    var history := s.history + [SnapshotOf(s)];
    var sel := s.selections;
    match s.currentStep
    case Q1 =>
      if value == "national" then
        FlowState(Results, sel.(resourceType := Some(value), concern := Some("national")), history)
      else
        FlowState(Q2, sel.(resourceType := Some(value)), history)
    case Q2 => FlowState(Q3, sel.(concern := Some(value)), history)
    case Q3 => FlowState(Results, sel.(contactMethod := Some(value)), history)
    case Results => s.(history := history)
  }

  /** The `back` action: pop and restore a snapshot, or fall back from results to question 3. */
  function Back(s: FlowState): FlowState {
    if |s.history| > 0 then
      var previous := s.history[|s.history| - 1];
      FlowState(previous.step, previous.selections, s.history[..|s.history| - 1])
    else if s.currentStep == Results then
      s.(currentStep := Q3)
    else
      s
  }

  /** `handleNavigation(action)`; an action other than `back` or `restart` does nothing. */
  function Navigate(s: FlowState, action: string): FlowState {
    if action == "back" then Back(s)
    else if action == "restart" then Initial
    else s
  }

  // ---------------------------------------------------------------------------
  // Properties of single transitions
  // ---------------------------------------------------------------------------

  /**
   * Every selection pushes exactly one entry, the copy of the state it started
   * from, whatever the step and whatever the value.
   */
  lemma SelectPushesSnapshot(s: FlowState, value: string)
    ensures Select(s, value).history == s.history + [Snapshot(s.currentStep, s.selections)]
    ensures |Select(s, value).history| == |s.history| + 1
  {
  }

  /**
   * At question 1, `national` records the type and the `national` concern
   * sentinel and goes straight to results; any other value records the type
   * and goes to question 2. The contact method is never touched.
   */
  lemma SelectAtQuestion1(s: FlowState, value: string)
    requires s.currentStep == Q1
    ensures Select(s, value).selections.resourceType == Some(value)
    ensures Select(s, value).selections.contactMethod == s.selections.contactMethod
    ensures value == "national" ==>
      Select(s, value).currentStep == Results && Select(s, value).selections.concern == Some("national")
    ensures value != "national" ==>
      Select(s, value).currentStep == Q2 && Select(s, value).selections.concern == s.selections.concern
  {
  }

  /** At question 2 only the concern changes, and the flow moves to question 3. */
  lemma SelectAtQuestion2(s: FlowState, value: string)
    requires s.currentStep == Q2
    ensures Select(s, value).currentStep == Q3
    ensures Select(s, value).selections == s.selections.(concern := Some(value))
  {
  }

  /** At question 3 only the contact method changes, and the flow reaches results. */
  lemma SelectAtQuestion3(s: FlowState, value: string)
    requires s.currentStep == Q3
    ensures Select(s, value).currentStep == Results
    ensures Select(s, value).selections == s.selections.(contactMethod := Some(value))
  {
  }

  /** At results a selection still pushes, but step and selections stay as they are. */
  lemma SelectAtResults(s: FlowState, value: string)
    requires s.currentStep == Results
    ensures Select(s, value).currentStep == Results
    ensures Select(s, value).selections == s.selections
  {
  }

  /** Back undoes exactly one selection: step, selections and history come back. */
  lemma BackUndoesSelect(s: FlowState, value: string)
    ensures Navigate(Select(s, value), "back") == s
  {
  }

  /** Back with an empty history: at results it returns to question 3; elsewhere it does nothing. */
  lemma BackWithEmptyHistory(s: FlowState)
    requires s.history == []
    ensures s.currentStep == Results ==> Navigate(s, "back") == s.(currentStep := Q3)
    ensures s.currentStep != Results ==> Navigate(s, "back") == s
  {
  }

  /** Restart yields the initial state from any state, so doing it twice is doing it once. */
  lemma RestartIdempotent(s: FlowState)
    ensures Navigate(s, "restart") == Initial
    ensures Navigate(Navigate(s, "restart"), "restart") == Navigate(s, "restart")
  {
  }

  // ---------------------------------------------------------------------------
  // Undoing several selections
  // ---------------------------------------------------------------------------

  /** The state after answering `values` in order, starting from `s`. */
  function SelectAll(s: FlowState, values: seq<string>): FlowState
    decreases |values|
  {
    if values == [] then s else Select(SelectAll(s, values[..|values| - 1]), values[|values| - 1])
  }

  /** `n` presses of Back. */
  function BackTimes(s: FlowState, n: nat): FlowState
    decreases n
  {
    if n == 0 then s else BackTimes(Back(s), n - 1)
  }

  /** Pressing Back once per selection made restores the state the selections started from. */
  lemma {:induction false} BackUndoesSelections(s: FlowState, values: seq<string>)
    ensures BackTimes(SelectAll(s, values), |values|) == s
    decreases |values|
  {
    if values != [] {
      var prefix := values[..|values| - 1];
      BackUndoesSelect(SelectAll(s, prefix), values[|values| - 1]);
      BackUndoesSelections(s, prefix);
    }
  }

  /**
   * Answering local, burnout, text reaches results; Back then returns to
   * question 3 with the concern kept and no contact method, and Back again
   * returns to question 2 with no concern.
   */
  lemma ChangeSelectionsExample()
    ensures var done := SelectAll(Initial, ["local", "burnout", "text"]);
      && done.currentStep == Results
      && Back(done).currentStep == Q3
      && Back(done).selections == Selections(Some("local"), Some("burnout"), None)
      && Back(Back(done)).currentStep == Q2
      && Back(Back(done)).selections == Selections(Some("local"), None, None)
  {
    var s1 := Select(Initial, "local");
    var s2 := Select(s1, "burnout");
    assert SelectAll(Initial, ["local", "burnout", "text"]) == Select(s2, "text") by {
      assert ["local", "burnout", "text"][..2] == ["local", "burnout"];
      assert ["local", "burnout"][..1] == ["local"];
      assert ["local"][..0] == [];
    }
    BackUndoesSelect(s2, "text");
    BackUndoesSelect(s1, "burnout");
  }

  // ---------------------------------------------------------------------------
  // Runs: sequences of events handled by the flow
  // ---------------------------------------------------------------------------

  /**
   * The inputs the flow reacts to: an option button, a navigation button, and
   * the modal's `modal:opened`/`modal:closed` events (both reset the flow).
   */
  datatype Event = Choose(value: string) | Act(action: string) | ModalToggled

  function Apply(s: FlowState, e: Event): FlowState {
    match e
    case Choose(v) => Select(s, v)
    case Act(a) => Navigate(s, a)
    case ModalToggled => Initial
  }

  function Run(s: FlowState, events: seq<Event>): FlowState
    decreases |events|
  {
    if events == [] then s else Run(Apply(s, events[0]), events[1..])
  }

  /**
   * The anchoring invariant: a state with no history is the initial one, and
   * the oldest history entry is the initial snapshot. In particular the flow
   * is never at results with an empty history.
   */
  ghost predicate Anchored(s: FlowState) {
    && (s.history == [] ==> s.currentStep == Q1 && s.selections == NoSelections)
    && (s.history != [] ==> s.history[0] == Snapshot(Q1, NoSelections))
  }

  /** A contact method is only ever recorded at results, now and in every snapshot. */
  ghost predicate ContactOnlyAtResults(s: FlowState) {
    && (s.selections.contactMethod.Some? ==> s.currentStep == Results)
    && forall i :: 0 <= i < |s.history| ==>
         (s.history[i].selections.contactMethod.Some? ==> s.history[i].step == Results)
  }

  ghost predicate Sound(s: FlowState) {
    Anchored(s) && ContactOnlyAtResults(s)
  }

  lemma SoundStep(s: FlowState, e: Event)
    requires Sound(s)
    ensures Sound(Apply(s, e))
  {
  }

  lemma {:induction false} SoundRun(s: FlowState, events: seq<Event>)
    requires Sound(s)
    ensures Sound(Run(s, events))
    decreases |events|
  {
    if events != [] {
      SoundStep(s, events[0]);
      SoundRun(Apply(s, events[0]), events[1..]);
    }
  }

  /**
   * Whatever values and actions reach the flow, a state reached from the
   * initial one is anchored and records a contact method only at results;
   * so Back at results always pops a snapshot and the fallback to question 3
   * is never taken.
   */
  lemma ReachableIsSound(events: seq<Event>)
    ensures Sound(Run(Initial, events))
    ensures Run(Initial, events).currentStep == Results ==>
      Run(Initial, events).history != [] &&
      Back(Run(Initial, events)).history == Run(Initial, events).history[..|Run(Initial, events).history| - 1]
  {
    SoundRun(Initial, events);
  }

  // ---------------------------------------------------------------------------
  // Runs through the offered options only
  // ---------------------------------------------------------------------------

  /** The option values each question offers (none at results). */
  function Options(step: Step): set<string> {
    match step
    case Q1 => {"national", "local"}
    case Q2 => Concerns
    case Q3 => ContactMethods
    case Results => {}
  }

  /**
   * An event the page can produce: any navigation, an option the current
   * question offers, or, at results, any option at all. The results view can
   * fail to render (the national shortcut, see `NationalShortcutMisses`) and
   * leave the previous question's buttons on screen and bound.
   */
  predicate Offered(s: FlowState, e: Event) {
    e.Choose? ==> s.currentStep == Results || e.value in Options(s.currentStep)
  }

  predicate OfferedRun(s: FlowState, events: seq<Event>)
    decreases |events|
  {
    events == [] || (Offered(s, events[0]) && OfferedRun(Apply(s, events[0]), events[1..]))
  }

  /** The selections a step can carry when every answer was an offered option. */
  ghost predicate Consistent(step: Step, sel: Selections) {
    match step
    case Q1 => sel == NoSelections
    case Q2 => sel == Selections(Some("local"), None, None)
    case Q3 => sel.resourceType == Some("local") && sel.concern.Some? && sel.concern.value in Concerns
               && sel.contactMethod == None
    case Results =>
      || sel == Selections(Some("national"), Some("national"), None)
      || (&& sel.resourceType == Some("local")
          && sel.concern.Some? && sel.concern.value in Concerns
          && sel.contactMethod.Some? && sel.contactMethod.value in ContactMethods)
  }

  ghost predicate WellFormed(s: FlowState) {
    && Anchored(s)
    && Consistent(s.currentStep, s.selections)
    && forall i :: 0 <= i < |s.history| ==> Consistent(s.history[i].step, s.history[i].selections)
  }

  lemma WellFormedStep(s: FlowState, e: Event)
    requires WellFormed(s) && Offered(s, e)
    ensures WellFormed(Apply(s, e))
  {
  }

  lemma {:induction false} WellFormedRun(s: FlowState, events: seq<Event>)
    requires WellFormed(s) && OfferedRun(s, events)
    ensures WellFormed(Run(s, events))
    decreases |events|
  {
    if events != [] {
      WellFormedStep(s, events[0]);
      WellFormedRun(Apply(s, events[0]), events[1..]);
    }
  }

  // ---------------------------------------------------------------------------
  // Resolving the results
  // ---------------------------------------------------------------------------

  /**
   * The one element of the array `getResults` returns: a catalog record, the
   * `undefined` of a missing key, or the `TypeError` thrown when the local
   * table has no entry for the concern and that `undefined` is then indexed.
   */
  datatype Lookup = Found(record: Resource) | Undefined | TypeError

  /** The property key a value becomes when it indexes an object: `null` becomes `"null"`. */
  function Key(v: Option<string>): string {
    match v
    case None => "null"
    case Some(x) => x
  }

  /** `getResults`: the national table by contact method, or the local table by concern then method. */
  function GetResults(sel: Selections): (r: Lookup)
    ensures r.Found? ==> r.record in AllRecords
    ensures r.TypeError? ==> sel.resourceType != Some("national") && Key(sel.concern) !in Local
  {
    CatalogShape();
    if sel.resourceType == Some("national") then
      if Key(sel.contactMethod) in National then Found(National[Key(sel.contactMethod)]) else Undefined
    else if Key(sel.concern) in Local then
      var byMethod := Local[Key(sel.concern)];
      if Key(sel.contactMethod) in byMethod then Found(byMethod[Key(sel.contactMethod)]) else Undefined
    else
      TypeError
  }

  /**
   * The local path finds exactly the record at `local[concern][contactMethod]`
   * for each of the three concerns and two contact methods, and a different
   * record for each pair.
   */
  lemma LocalLookupTotal(concern: string, contact: string)
    requires concern in Concerns && contact in ContactMethods
    ensures GetResults(Selections(Some("local"), Some(concern), Some(contact))) == Found(Local[concern][contact])
    ensures forall c, m :: c in Concerns && m in ContactMethods && (c, m) != (concern, contact) ==>
      Local[c][m] != Local[concern][contact]
  {
  }

  /** The national path finds `national[contactMethod]`, and misses while the method is unset. */
  lemma NationalLookup(sel: Selections)
    requires sel.resourceType == Some("national")
    ensures sel.contactMethod == Some("phone") ==> GetResults(sel) == Found(NationalPhone)
    ensures sel.contactMethod == Some("text") ==> GetResults(sel) == Found(NationalText)
    ensures sel.contactMethod == None ==> GetResults(sel) == Undefined
  {
  }

  /** Local burnout by text is the "BURNOUT" record, to be texted to 741741. */
  lemma BurnoutTextExample()
    ensures var r := GetResults(Selections(Some("local"), Some("burnout"), Some("text")));
      r.Found? && r.record.number == "BURNOUT" && r.record.instruction == Some("Text to 741741")
      && r.record.name == "Burnout Text Support"
  {
  }

  /**
   * At results, after any run through the offered options, the lookup finds a
   * record exactly when the local path was taken; the national shortcut always
   * ends in `undefined`, because it never asks for a contact method.
   */
  lemma OfferedResultsLookup(events: seq<Event>)
    requires OfferedRun(Initial, events)
    requires Run(Initial, events).currentStep == Results
    ensures var sel := Run(Initial, events).selections;
      (GetResults(sel).Found? <==> sel.resourceType == Some("local"))
      && (sel.resourceType == Some("national") ==> GetResults(sel) == Undefined)
      && !GetResults(sel).TypeError?
  {
    WellFormedRun(Initial, events);
  }

  /**
   * The national option alone reaches results with nothing to show; the
   * question-1 buttons left on screen can still be pressed there, and the
   * run stays one the page can produce.
   */
  lemma NationalShortcutMisses()
    ensures OfferedRun(Initial, [Choose("national"), Choose("local")])
    ensures Run(Initial, [Choose("national")]).currentStep == Results
    ensures GetResults(Run(Initial, [Choose("national")]).selections) == Undefined
  {
  }

  /**
   * The results list as evidently intended: the national shortcut, which asks
   * no contact method, shows both national records; otherwise the record the
   * lookup finds, if any.
   */
  function IntendedResults(sel: Selections): (rs: seq<Resource>)
    ensures forall i :: 0 <= i < |rs| ==> rs[i] in AllRecords
    ensures sel.resourceType == Some("national") && sel.contactMethod == None ==>
      |rs| == 2 && forall m :: m in National ==> National[m] in rs
    ensures GetResults(sel).Found? ==> rs == [GetResults(sel).record]
  {
    if sel.resourceType == Some("national") && sel.contactMethod == None then
      [NationalPhone, NationalText]
    else
      match GetResults(sel)
      case Found(r) => [r]
      case _ => []
  }

  /** With the intended lookup every run through the offered options ends with something to show. */
  lemma OfferedResultsNeverEmpty(events: seq<Event>)
    requires OfferedRun(Initial, events)
    requires Run(Initial, events).currentStep == Results
    ensures |IntendedResults(Run(Initial, events).selections)| >= 1
  {
    WellFormedRun(Initial, events);
  }

  // ---------------------------------------------------------------------------
  // What the view shows
  // ---------------------------------------------------------------------------

  /**
   * Whether a Back button is rendered: the results view always has one
   * ("Change Selections"); a question view has one when the history is non-empty.
   */
  function OffersBack(s: FlowState): bool {
    s.currentStep == Results || |s.history| > 0
  }

  /** The Back button is offered exactly when pressing Back would change the state. */
  lemma OffersBackIffBackActs(s: FlowState)
    ensures OffersBack(s) <==> Back(s) != s
  {
  }

  /** The step label and the filled share of the progress bar, in thirds. */
  datatype Progress = Progress(stepText: string, thirds: nat)

  /** `updateProgress`: "Complete" and a full bar at results, "k" and k thirds at question k. */
  function ProgressOf(step: Step): (p: Progress)
    ensures 1 <= p.thirds <= 3
    ensures p.stepText == "Complete" <==> step == Results
    ensures step == Results ==> p.thirds == 3
  {
    match step
    case Q1 => Progress("1", 1)
    case Q2 => Progress("2", 2)
    case Q3 => Progress("3", 3)
    case Results => Progress("Complete", 3)
  }

  /** The bar's width in percent, computed exactly. */
  function WidthPercent(step: Step): (w: real)
    ensures 0.0 <= w <= 100.0
    ensures step == Results ==> w == 100.0
  {
    ProgressOf(step).thirds as real * 100.0 / 3.0
  }

  /** Position in the forward order question 1, 2, 3, results. */
  function Rank(step: Step): nat {
    match step
    case Q1 => 1
    case Q2 => 2
    case Q3 => 3
    case Results => 4
  }

  /** A selection never moves the flow backwards, so progress never drops along it. */
  lemma SelectNeverRegresses(s: FlowState, value: string)
    ensures Rank(Select(s, value).currentStep) >= Rank(s.currentStep)
    ensures ProgressOf(Select(s, value).currentStep).thirds >= ProgressOf(s.currentStep).thirds
  {
  }

  /** Progress is monotone in the forward order of the steps. */
  lemma ProgressMonotone(a: Step, b: Step)
    requires Rank(a) <= Rank(b)
    ensures ProgressOf(a).thirds <= ProgressOf(b).thirds
    ensures WidthPercent(a) <= WidthPercent(b)
  {
  }
}
