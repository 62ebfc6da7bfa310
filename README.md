# Full-stack flow simulator: playback controller and diagram, in Dafny

The simulator is a small React teaching app. It walks a learner through two scripted
client/server/database flows: a login that obtains a token, and an
authenticated data fetch. Each flow is a fixed list of steps. A playback
controller picks the scenario, the step shown, and whether autoplay is on. A
diagram highlights the entities and the connector of the current step. The
user can also ask an AI service to explain the step, and the question and its
answer go into a chat transcript.

This project models the parts with behaviour:

- `types.dfy` (module `Types`): the record and union types of `types.ts` as datatypes.
- `catalogue.dfy` (module `Catalogue`): the two step catalogues of `constants.ts` as
  constant sequences, plus the structural facts they satisfy. These facts are:
  ids equal positions, consecutive steps chain end to start, the payload kind
  fits the direction, each flow opens with client→server and closes inside the
  client, and the client never talks to the database directly.
- `diagram.dfy` (module `Diagram`): the activation logic of
  `components/SimulationDiagram.tsx` as one pure function `Render`. It keeps
  the booleans that choose the styles: active entities, packets, flow flags,
  the server sub-panel, and highlighted rows and badges.
- `playback.dfy` (module `Playback`): the controller of `App.tsx`. It has two parts:
  - a pure specification. `State` holds the five state hooks, `Event` the user and timer
    inputs, `Apply` one transition and `Run` a sequence of them. Lemmas about event
    sequences are proved over these.
  - the class `Playback.Controller`. It has the same five fields and one method per handler.
    Each method states its new fields explicitly and is proved equal to `Apply`.
    The invariant `0 <= currentStepIndex < |steps|` holds before and after every method.

Behaviours of the source that the model keeps on purpose:

- **Re-selecting the current scenario does nothing.** The reset at App.tsx:22-26 is an
  effect keyed on `scenario`. Setting it to the value it already has does not re-run
  the effect. So clicking the button of the scenario already shown does not rewind,
  pause or clear the chat. One might expect every selection to reset; the code does
  not, and the model follows the code (`Apply`, `Controller.SelectScenario`).
- **Scenario switch is atomic here, not in the view.** In the view, the reset is an
  effect, so the render right after the switch still pairs the new catalogue with the
  old index (App.tsx:18-19). From login step 6 (the seventh step), switching to the
  six-step data fetch makes `FETCH_STEPS[6]` undefined, and reading its title at
  App.tsx:137 throws during that render. A render that throws is never committed, so
  the reset effect never runs. App has no error boundary of its own, so unless one
  exists above it, React removes the whole view. The model performs the switch and its
  reset together. `SwitchBeforeResetInRange` states exactly when the render before the
  reset indexes validly; see "## Findings".
- **AI state survives a scenario switch.** A switch clears the transcript but not
  `isAiLoading`. A pending answer is still appended (App.tsx:66 uses a functional
  update). `StaleAnswerAfterSwitch` shows the consequence: the transcript of the new
  scenario can open with an answer to a question it does not contain.
  `RunKeepsPaired` proves the question/answer pairing for every run that does not
  switch scenario while a request is out.
- **The flow flags are computed but not used.** `isFlowingRight` and `isFlowingLeft`
  (components/SimulationDiagram.tsx:30-36) are never read when the diagram is drawn.
  The packets use their own conditions. `Render` keeps both and proves that they agree.

## Model

| member | source | states |
|---|---|---|
| `Catalogue.ChainedLink` | constants.ts:3-238 | in a chained catalogue, step i ends at the entity where step i+1 starts |
| `Catalogue.ChainedFromLinks` | constants.ts:3-238 | a catalogue whose every adjacent pair links end to start is chained |
| `Catalogue.LoginStepsWellFormed` | constants.ts:3-129 | the login catalogue has 7 steps with ids 0..6; it is chained; it opens client→server and closes client→client; Internal steps stay in one entity; Query steps go server→database; Request steps go client→server; no step joins client and database |
| `Catalogue.FetchStepsWellFormed` | constants.ts:131-238 | the same facts for the data-fetch catalogue, which has 6 steps with ids 0..5 |
| `Catalogue.CatalogueSpotChecks` | constants.ts:44-57 | login step 2 is server→database, Query, component "mapper"; data-fetch step 0 (constants.ts:132-152) is client→server, Request, component "axios" |
| `Diagram.Render` | components/SimulationDiagram.tsx:10-109 | active entities are exactly {source, target}; a packet is shown iff it runs from source to target; so at most one packet, and none for a step inside one entity; each flow flag is the disjunction of its two packet conditions, and the flags never hold together; the server panel shows iff the server is active; at most one server row and one client badge is lit; no row is lit while the panel is hidden |
| `Diagram.RenderIgnoresPrevStep` | components/SimulationDiagram.tsx:5-10 | the diagram is the same whatever the previous step is |
| `Diagram.HighlightsByLabel` | components/SimulationDiagram.tsx:57-97 | with the panel shown, Security Filter is lit iff the component is "filter" or "jwt", Controller iff "controller", Service/MyBatis iff "mapper"; Storage is lit iff "storage" and DOM iff "render", panel or not |
| `Diagram.ClientToServerStep` | components/SimulationDiagram.tsx:14-75 | a client→server step lights client and server but not the database, shows only the client→server packet, and flows right and not left |
| `Diagram.InternalServerStep` | components/SimulationDiagram.tsx:14-109 | a server→server step lights only the server, shows no packet and no flow, shows the panel, and lights exactly the row its component names |
| `Playback.Steps` | App.tsx:18 | the selected catalogue has 7 steps for login and 6 for data fetch, so index 0 is always valid |
| `Playback.StepsWellFormed` | App.tsx:18 | whichever scenario is selected, its catalogue is well formed |
| `Playback.CurrentStep` | App.tsx:19 | the step shown is in the selected catalogue, and its id is the current index |
| `Playback.PrevStep` | App.tsx:20 | the previous step is absent iff the index is 0; otherwise it is the catalogue's step at index-1, whose id is index-1 and which ends where the current step starts |
| `Playback.CodeLangLabel` | App.tsx:175 | the heading is one of "Java Backend", "Vue Client", "MySQL Query", "HTTP"; the fallback "HTTP" is used exactly for JSON |
| `Playback.CodeLangLabelInjective` | App.tsx:175 | the code-panel headings of distinct languages are distinct |
| `Playback.AskText` | App.tsx:61 | the question is the fixed opening, then the concept unchanged, then the fixed closing, each at its own position |
| `Playback.AskTextRoundTrip` | App.tsx:61 | the user's question embeds the step title unchanged; reading it back out returns the title |
| `Playback.RequestContext` | App.tsx:59 | the request context is the description, then " 代码: ", then the code, each at its own position |
| `Playback.Apply` | App.tsx:22-127 | every transition keeps the index inside the selected catalogue |
| `Playback.Enabled` | App.tsx:28-43 | a tick arrives only while playing, because the interval exists only then; an ask begins only while not busy, because the button is disabled while busy (App.tsx:217); an answer arrives only while busy; every other control is always live |
| `Playback.Run` | App.tsx:9-127 | every sequence of transitions keeps the index inside the selected catalogue |
| `Playback.SwitchBeforeResetInRange` | App.tsx:18-26 | the render between a scenario click and its reset indexes the new catalogue validly iff the old index fits into it; it does not from login index 6 to data fetch |
| `Playback.SelectScenarioEffect` | App.tsx:22-26 | a switch to another scenario gives index 0, paused and an empty transcript, and keeps the busy flag; re-selecting the shown scenario changes nothing; selecting twice is the same as selecting once |
| `Playback.ResetEffect` | App.tsx:127 | reset gives index 0 and paused, keeps scenario, transcript and busy flag, and is idempotent |
| `Playback.NextPrevUndo` | App.tsx:49-55 | where next moves, prev undoes it, and the reverse also holds; next at the final step and prev at step 0 change nothing |
| `Playback.PlayAtLastStepStopsOnNextTick` | App.tsx:32-38 | turning play on at the final step is allowed; the next tick turns it off without moving, and later ticks change nothing |
| `Playback.TicksSaturate` | App.tsx:32-38 | after k ticks the index is min(index+k, last); playing holds iff it held before and index+k <= last; nothing else changes, so autoplay never wraps or overruns |
| `Playback.AskAddsOnePair` | App.tsx:57-68 | an ask enabled by the free button, followed by its answer, appends exactly the user question about the current step and the model answer, and clears the busy flag; the rest is unchanged |
| `Playback.ApplyKeepsPaired` | App.tsx:57-68 | an enabled event that does not switch scenario while a request is out keeps the transcript alternating user/model; the transcript has odd length iff a request is out |
| `Playback.RunKeepsPaired` | App.tsx:57-68 | the same holds for every run of such events |
| `Playback.StaleAnswerAfterSwitch` | App.tsx:22-67 | the run ask, switch to data fetch, answer is feasible and leaves a transcript made of the lone model answer, which is not paired |
| `Playback.EveryMoveIsAnimated` | components/SimulationDiagram.tsx:70-109 | for every step of either catalogue, a packet is shown iff the step moves between two entities |
| `Playback.Controller.constructor` | App.tsx:9-13 | the first state is login, index 0, paused, empty transcript, not busy |
| `Playback.Controller.SelectScenario` | App.tsx:22-26 | the scenario becomes s; a different s gives index 0, paused and an empty transcript; the same s changes nothing; the busy flag is kept; the index stays valid |
| `Playback.Controller.TogglePlay` | App.tsx:121 | only the playing flag flips, at any index |
| `Playback.Controller.Reset` | App.tsx:127 | the index becomes 0 and playing false; scenario, transcript and busy flag are unchanged |
| `Playback.Controller.Tick` | App.tsx:32-38 | below the final step, the index goes up by 1 and playing is kept; at the final step, the index is kept and playing becomes false; nothing else changes |
| `Playback.Controller.Next` | App.tsx:49-51 | the index goes up by 1 below the final step and is kept at it; playing and transcript are unchanged |
| `Playback.Controller.Prev` | App.tsx:53-55 | the index goes down by 1 above 0 and is kept at 0; playing and transcript are unchanged |
| `Playback.Controller.BeginAsk` | App.tsx:57-62 | returns the current step's title and its request context; appends exactly one user message embedding the title; sets busy; scenario, index and playing are unchanged |
| `Playback.Controller.CompleteAsk` | App.tsx:66-67 | appends exactly one model message with the given answer, whatever happened meanwhile; clears busy; scenario, index and playing are unchanged |

## Findings

| source | as written | input that shows it | evidently intended | confidence | as-written member | corrected member |
|---|---|---|---|---|---|---|
| App.tsx:18-26 | the index is reset by an effect that runs after the render with the new catalogue | at login step 6 (the seventh step), click the data-fetch button: `FETCH_STEPS[6]` is undefined and App.tsx:137 throws | switching scenario restarts the new flow at step 0 | not executed | `Playback.SwitchBeforeResetInRange` | `Playback.SelectScenarioEffect` |

## Left out

- The explanation service (services/geminiService.ts) is not modelled. It wraps an external
  text-generation client. Its answer reaches `Controller.CompleteAsk` as an arbitrary string.
  Its fallback on failure (services/geminiService.ts:28) is a constant string. Its successful
  result (`response.text`) is not guaranteed to be non-empty, so nothing is assumed about it.
- The autoplay interval's lifecycle and its 3000 ms period (App.tsx:28-43) are left out.
  This is timer scheduling. Only the interval body is modelled (`Controller.Tick`).
  `Playback.Enabled` allows a tick only while playing, because the interval exists only then.
- React's render and effect ordering is not modelled. Each handler is one atomic transition.
  The render between a scenario click and its reset is modelled only as the value
  `SwitchBeforeReset`. The crash that render causes from login step 6 is not modelled
  (see above and "## Findings").
- Only one request can be pending, because the ask button is disabled while busy (App.tsx:217).
  The model expresses this as `Playback.Enabled`: an ask needs not-busy, and an answer needs busy.
  `Controller.BeginAsk` has no precondition of its own, because `handleAskAI` itself has no guard.
- Styling is left out: class strings, icons, the keyframe CSS (components/SimulationDiagram.tsx:121-134)
  and the chat auto-scroll (App.tsx:45-47).
- The progress-bar width (App.tsx:142) is left out. It is floating-point percentage arithmetic.
- The markup rewrite of model messages (App.tsx:247) is left out. It is regex-based presentation
  fed to HTML injection, not controller logic.
- Titles, descriptions, code and payload bodies are carried as the catalogue's own strings.
  No property is stated about their contents.
