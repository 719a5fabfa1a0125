/**
 * The `TriageFlow` object: its `state` fields, updated in place by the
 * constructor, `resetFlow`, `handleSelection` and `handleNavigation`. Each
 * method states the new value of every field and ties it to the transition
 * function of the `Flow` module, whose lemmas carry the laws of the flow.
 */
module Triage {
  import opened Optional
  import opened Flow

  class TriageFlow {
    var currentStep: Step
    var selections: Selections
    var history: seq<Snapshot>

    /** The object's state as a value. */
    function State(): FlowState
      reads this
    {
      FlowState(currentStep, selections, history)
    }

    /** A new flow starts at question 1 with nothing selected and no history. */
    constructor ()
      ensures currentStep == Q1 && selections == NoSelections && history == []
      ensures State() == Initial
    {
      currentStep := Q1;
      selections := NoSelections;
      history := [];
    }

    /** `resetFlow`: back to the initial state, whatever the state was. */
    method ResetFlow()
      modifies this
      ensures currentStep == Q1 && selections == NoSelections && history == []
      ensures State() == Initial
    {
      currentStep := Q1;
      selections := NoSelections;
      history := [];
    }

    /**
     * `handleSelection(value)`: push a copy of the current step and selections,
     * then record `value` as the answer to the current question and advance.
     */
    method HandleSelection(value: string)
      modifies this
      ensures history == old(history) + [Snapshot(old(currentStep), old(selections))]
      ensures State() == Select(old(State()), value)
      ensures old(Sound(State())) ==> Sound(State())
    {
      ghost var before := State();
      history := history + [Snapshot(currentStep, selections)];
      match currentStep {
        case Q1 =>
          selections := selections.(resourceType := Some(value));
          if value == "national" {
            selections := selections.(concern := Some("national"));
            currentStep := Results;
          } else {
            currentStep := Q2;
          }
        case Q2 =>
          selections := selections.(concern := Some(value));
          currentStep := Q3;
        case Q3 =>
          selections := selections.(contactMethod := Some(value));
          currentStep := Results;
        case Results =>
      }
      if Sound(before) {
        SoundStep(before, Choose(value));
      }
    }

    /**
     * `handleNavigation(action)`: `back` restores the most recent snapshot and
     * drops it from the history, or with no history moves from results to
     * question 3; `restart` resets; any other action does nothing.
     */
    method HandleNavigation(action: string)
      modifies this
      ensures action == "back" && |old(history)| > 0 ==>
        && history == old(history)[..|old(history)| - 1]
        && currentStep == old(history)[|old(history)| - 1].step
        && selections == old(history)[|old(history)| - 1].selections
      ensures action == "back" && old(history) == [] ==>
        && history == []
        && selections == old(selections)
        && currentStep == (if old(currentStep) == Results then Q3 else old(currentStep))
      ensures action == "restart" ==> State() == Initial
      ensures action != "back" && action != "restart" ==> State() == old(State())
      ensures State() == Navigate(old(State()), action)
      ensures old(Sound(State())) ==> Sound(State())
    {
      ghost var before := State();
      if action == "back" {
        if |history| > 0 {
          var previous := history[|history| - 1];
          history := history[..|history| - 1];
          currentStep := previous.step;
          selections := previous.selections;
        } else if currentStep == Results {
          currentStep := Q3;
        }
      } else if action == "restart" {
        ResetFlow();
      }
      if Sound(before) {
        SoundStep(before, Act(action));
      }
    }
  }
}
