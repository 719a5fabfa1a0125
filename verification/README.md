# Triage flow state machine

A model of the `TriageFlow` component of a crisis-counselling triage modal. The component asks up to three questions:
- support type: national or local
- concern: crisis, burnout or general
- contact method: phone or text

From the answers it looks up one support resource in a static catalog. The flow state is the current step (question 1, 2, 3 or results), the three selections (each possibly `null`) and a history stack of snapshots that Back pops.

The project has four modules:

- `Optional` (`optional.dfy`) defines `Option`, the model of a value that may be `null`.
- `Catalog` (`catalog.dfy`) holds the static resource table: two national records keyed by contact method, and six local records keyed by concern and then contact method.
- `Flow` (`flow.dfy`) is the state machine as values. It covers the selection transition, the `back` and `restart` actions, the reset that the modal's open and close events trigger, and the `getResults` lookup. It also covers the progress indicator and the Back-button test. Lemmas state the laws of single transitions and the multi-step undo law. Other lemmas state invariants of every reachable state and what the lookup yields at results.
- `Triage` (`triage.dfy`) is the `TriageFlow` class. Its fields are `currentStep`, `selections` and `history`. Its methods update them in place. Each method states the new value of every field and equals the `Flow` transition on the old state.

Selections are arbitrary strings, because the source never checks the value an option button hands it. The options each question offers appear only as the hypothesis of the lemmas about runs the page can produce (`Flow.OfferedRun`). At results any option is admitted there, because a results view that fails to render leaves the previous question's buttons on screen and bound. Inputs are never restricted by a `requires`.

The model follows the code as written, including where it does not guard its inputs:
- Selecting a value the current question does not offer is accepted and stored.
- A selection made while at results pushes a snapshot and changes nothing else.
- The national shortcut reaches results with no contact method, so the lookup misses (see Findings).

## Model

| member | source | states |
|---|---|---|
| Catalog.CatalogShape | js/triage-flow.js:26-89 | The national table and every local sub-table are keyed by exactly phone and text. The local table is keyed by exactly burnout, crisis and general. Every entry is one of the eight catalog records. |
| Flow.SelectPushesSnapshot | js/triage-flow.js:339-344 | Every selection, at any step and with any value, pushes exactly one history entry. That entry equals the pre-call step and selections. |
| Flow.SelectAtQuestion1 | js/triage-flow.js:347-357 | At question 1 the resource type becomes the value and the contact method is untouched. `national` also sets the `national` concern sentinel and goes to results. Any other value leaves the concern and goes to question 2. |
| Flow.SelectAtQuestion2 | js/triage-flow.js:358-361 | At question 2 only the concern changes, and the step becomes question 3. |
| Flow.SelectAtQuestion3 | js/triage-flow.js:362-365 | At question 3 only the contact method changes, and the step becomes results. |
| Flow.SelectAtResults | js/triage-flow.js:347-366 | At results a selection leaves the step and selections unchanged, since the switch has no case for results. |
| Flow.BackUndoesSelect | js/triage-flow.js:339-378 | For every state and value, Back after a selection restores the exact prior state: step, selections and history. |
| Flow.BackWithEmptyHistory | js/triage-flow.js:379-383 | With an empty history, Back at results moves to question 3 and keeps the selections. At a question step it changes nothing. |
| Flow.RestartIdempotent | js/triage-flow.js:171-182 | Restart from any state gives question 1, all selections `null` and an empty history. Restarting twice equals restarting once. |
| Flow.BackUndoesSelections | js/triage-flow.js:371-378 | After any sequence of selections, pressing Back once per selection restores the starting state. |
| Flow.ChangeSelectionsExample | js/triage-flow.js:339-378 | After local, burnout, text the flow is at results. Back returns to question 3 with concern burnout and no contact method. A second Back returns to question 2 with no concern. |
| Flow.SoundStep | js/triage-flow.js:339-390 | Every event preserves two invariants: anchoring and contact-only-at-results. Anchoring means an empty history implies the initial state, and the oldest entry is the initial snapshot. Contact-only-at-results means a contact method is recorded only at results. |
| Flow.SoundRun | js/triage-flow.js:339-390 | Any sequence of events preserves those two invariants. |
| Flow.ReachableIsSound | js/triage-flow.js:371-383 | Every state reached from the initial one, with any values and actions, is anchored. In it a contact method is only set at results. At results the history is non-empty, so Back pops and the fallback to question 3 is never taken. |
| Flow.WellFormedStep | js/triage-flow.js:92-153 | An event the page can produce keeps each step's selections to the offered option values, in the current state and in every snapshot. Such an event is any navigation, an offered option, or any option at results, where stale question buttons can remain after a failed render. |
| Flow.WellFormedRun | js/triage-flow.js:339-390 | The same holds after any run through the offered options. |
| Flow.GetResults | js/triage-flow.js:290-298 | A found result is one of the catalog records. A thrown `TypeError` only happens on the local path with a concern the local table lacks. A `null` key is the property name "null". |
| Flow.LocalLookupTotal | js/triage-flow.js:42-87 | For each concern in burnout, crisis, general and each method in phone, text, the local path finds exactly `local[concern][method]`. Each pair gives a different record. |
| Flow.NationalLookup | js/triage-flow.js:27-40 | The national path finds the national phone or text record by contact method, and is `undefined` while the contact method is `null`. |
| Flow.BurnoutTextExample | js/triage-flow.js:50-56 | Local, burnout, text resolves to number "BURNOUT", instruction "Text to 741741", label "Burnout Text Support". |
| Flow.OfferedResultsLookup | js/triage-flow.js:290-298 | At results after any run through the offered options, the lookup never throws. It finds a record exactly when the resource type is local. The national path always yields `undefined`. |
| Flow.NationalShortcutMisses | js/triage-flow.js:348-353 | Choosing national at question 1 reaches results, and the lookup there is `undefined`. Pressing a question-1 button still on screen afterwards is a run the page can produce. |
| Flow.IntendedResults | js/triage-flow.js:240-252 | Corrected results list: the national shortcut lists exactly two records, the national phone and text records; otherwise it lists the found record. Every entry is a catalog record. |
| Flow.OfferedResultsNeverEmpty | js/triage-flow.js:290-298 | With the corrected list, every run through the offered options that reaches results has at least one record to show. |
| Flow.OffersBackIffBackActs | js/triage-flow.js:223-256 | A Back button is offered (always at results, otherwise iff the history is non-empty) exactly when Back would change the state. |
| Flow.ProgressOf | js/triage-flow.js:392-400 | Progress is between one and three thirds. The step text is "Complete" exactly at results, where the bar is full. |
| Flow.WidthPercent | js/triage-flow.js:392-400 | The bar width lies in [0, 100] percent and is 100 at results. |
| Flow.SelectNeverRegresses | js/triage-flow.js:347-366 | No selection moves the flow backwards in the order 1, 2, 3, results. So progress never drops on a selection. |
| Flow.ProgressMonotone | js/triage-flow.js:392-400 | Progress and bar width are monotone along the forward order of the steps. |
| Triage.TriageFlow.constructor | js/triage-flow.js:7-17 | A new flow is at question 1 with all selections `null` and an empty history. |
| Triage.TriageFlow.ResetFlow | js/triage-flow.js:171-182 | Resets every field to the initial state. |
| Triage.TriageFlow.HandleSelection | js/triage-flow.js:339-369 | Appends the pre-call snapshot to the history. The new state is the `Flow.Select` transition of the old one. The anchoring and contact-only-at-results invariants are preserved. |
| Triage.TriageFlow.HandleNavigation | js/triage-flow.js:371-390 | `back` pops and restores the last snapshot, or with no history moves results to question 3. `restart` resets, and other actions change nothing. The new state is `Flow.Navigate` of the old one, and the invariants are preserved. |

## Findings

| source | as written | input that shows it | evidently intended | confidence | as-written member | corrected member |
|---|---|---|---|---|---|---|
| js/triage-flow.js:350-353 | The national shortcut goes to results with `contactMethod` still `null`, so `getResults` indexes `national[null]` and returns `[undefined]`. `renderResource` then reads `.label` of `undefined`. | Choose "National Hotline" at question 1. | The results for the national shortcut list the national resources. | High that the lookup misses; medium on which records were meant; not executed | Flow.NationalShortcutMisses | Flow.IntendedResults |

## Left out

- `js/modal-core.js` is not part of this model. It holds focus trapping, the mutation observer, animation-frame and timer-driven hiding, ARIA attributes and event dispatch, which are all browser plumbing.
- HTML generation and event binding are not modelled: `renderCurrentStep`, `renderQuestion`, `renderResults`, `renderResource`, `bindQuestionEvents` and `bindResultsEvents`. The re-render each transition performs is therefore absent, and so is the exception `renderResource` raises on the national shortcut (recorded under Findings).
- The document listeners `init` installs are modelled only as the `ModalToggled` event, which resets the flow. The render after `modal:opened` is left out.
- `copyToClipboard` is left out. It relies on the asynchronous clipboard API, `document.execCommand` and a two-second label revert, which are all foreign calls and timing. It never touches the flow state.
- `announceToScreenReader` is left out. It is DOM insertion plus a timer.
- `updateProgress`'s DOM writes are not modelled, and neither is its floating-point percentage string (33.333…%). Progress is modelled exactly, in thirds and as a real.
- The question, option title, icon and description strings are left out. Only the option values each question offers are kept, in `Flow.Options`.
- Flow.OffersBack: the Back-button function describes the view only when it renders successfully. After the national shortcut, `renderResults` throws before the page is replaced. The page then still shows question 1, rendered with an empty history, so no Back button is shown, although `OffersBack` holds at results.
- Flow.ProgressOf: like `OffersBack`, it describes the progress a successful render writes. After the national shortcut the throw comes before `updateProgress`, so the page keeps "1" and a third of the bar rather than "Complete".
- Flow.Offered: clicks on the previous view while the modal fades out after `modal:closed` are not modelled. The flow is reset at once, but the old buttons may stay clickable for the hide delay in `js/modal-core.js`; whether they accept clicks depends on a stylesheet that is not part of this model. Such a click (question 3's "phone" right after a reset) would store "phone" as the resource type and break the well-formedness invariant. `Flow.ReachableIsSound` still covers such runs, because it admits any value.
- Flow.GetResults: a key that names an inherited object property (such as "toString") is treated as missing. In JavaScript it would find the inherited member.
- History snapshots and restored selections are values. The source copies the selections into each snapshot and adopts the popped copy, so no aliasing is observable there.
