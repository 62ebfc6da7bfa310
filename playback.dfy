/**
 * The playback controller of the main view (App.tsx): which scenario is
 * shown, which step of it, whether autoplay is on, and the AI chat
 * transcript with its busy flag.
 *
 * The transitions are given twice, on purpose: `Apply` is the pure
 * specification over a `State` value, used by the lemmas about whole event
 * sequences; the class `Controller` holds the same five fields as mutable
 * state, and each of its methods is proved to move its fields exactly as
 * `Apply` does.
 */
module Playback {
  import opened Types
  import opened Catalogue
  import Diagram

  /** `steps` (App.tsx:18): the catalogue of the selected scenario. */
  function Steps(scenario: Scenario): (r: seq<Step>)
    ensures |r| == if scenario == Login then 7 else 6
  {
    LoginStepsWellFormed();
    FetchStepsWellFormed();
    if scenario == Login then LoginSteps else FetchSteps
  }

  /** Whichever scenario is selected, its catalogue is well formed. */
  lemma StepsWellFormed(scenario: Scenario)
    ensures WellFormed(Steps(scenario))
  {
    LoginStepsWellFormed();
    FetchStepsWellFormed();
  }

  /** The index of the final step of a scenario. */
  function LastIndex(scenario: Scenario): nat {
    |Steps(scenario)| - 1
  }

  /** `currentStep` (App.tsx:19): the step shown; its id is the index. */
  function CurrentStep(scenario: Scenario, index: nat): (r: Step)
    requires index < |Steps(scenario)|
    ensures r in Steps(scenario)
    ensures r.id == index
  {
    StepsWellFormed(scenario);
    Steps(scenario)[index]
  }

  /**
   * `prevStep` (App.tsx:20): the step before the current one, absent at the
   * first step; it ends where the current step begins.
   */
  function PrevStep(scenario: Scenario, index: nat): (r: Option<Step>)
    requires index < |Steps(scenario)|
    ensures r.None? <==> index == 0
    ensures r.Some? ==> r.value.id == index - 1
    ensures index > 0 ==> r == Some(CurrentStep(scenario, index - 1))
    ensures r.Some? ==> r.value.target == CurrentStep(scenario, index).source
  {
    StepsWellFormed(scenario);
    if index > 0 then
      ChainedLink(Steps(scenario), index - 1);
      Some(Steps(scenario)[index - 1])
    else
      None
  }

  /**
   * The heading of the code panel (App.tsx:175): one of four fixed headings,
   * with the fallback "HTTP" reached by JSON and by nothing else.
   */
  function CodeLangLabel(lang: CodeLang): (r: string)
    ensures r in {"Java Backend", "Vue Client", "MySQL Query", "HTTP"}
    ensures r == "HTTP" <==> lang == Json
  {
    if lang == Java then "Java Backend"
    else if lang == JavaScript then "Vue Client"
    else if lang == Sql then "MySQL Query"
    else assert lang == Json; "HTTP"
  }

  /** Each language gets a heading of its own. */
  lemma CodeLangLabelInjective(a: CodeLang, b: CodeLang)
    ensures CodeLangLabel(a) == CodeLangLabel(b) ==> a == b
  {
  }

  /** The fixed text around the concept in the user's chat question (App.tsx:61). */
  const AskOpening: string := "能解释一下\""
  const AskClosing: string := "\"的原理吗？"

  /** The user's chat question about a concept (App.tsx:61). */
  function AskText(concept: string): (r: string)
    ensures |r| == |AskOpening| + |concept| + |AskClosing|
    ensures r[..|AskOpening|] == AskOpening
    ensures r[|AskOpening|..|AskOpening| + |concept|] == concept
    ensures r[|r| - |AskClosing|..] == AskClosing
  {
    AskOpening + concept + AskClosing
  }

  /** Reads the concept back out of a chat question, if the text is one. */
  function ConceptOf(text: string): Option<string> {
    if |AskOpening| + |AskClosing| <= |text|
       && text[..|AskOpening|] == AskOpening
       && text[|text| - |AskClosing|..] == AskClosing
    then Some(text[|AskOpening|..|text| - |AskClosing|])
    else None
  }

  /** The question embeds the concept unchanged: it can be read back out. */
  lemma AskTextRoundTrip(concept: string)
    ensures ConceptOf(AskText(concept)) == Some(concept)
  {
    var t := AskText(concept);
    assert t[..|AskOpening|] == AskOpening;
    assert t[|t| - |AskClosing|..] == AskClosing;
    assert t[|AskOpening|..|t| - |AskClosing|] == concept;
  }

  /** The separator between description and code in the request context (App.tsx:59). */
  const ContextSeparator: string := " 代码: "

  /**
   * The context sent with a question (App.tsx:59): the step's description,
   * the separator, then its code.
   */
  function RequestContext(step: Step): (r: string)
    ensures |r| == |step.description| + |ContextSeparator| + |step.codeContent|
    ensures r[..|step.description|] == step.description
    ensures r[|step.description|..|step.description| + |ContextSeparator|] == ContextSeparator
    ensures r[|r| - |step.codeContent|..] == step.codeContent
  {
    step.description + ContextSeparator + step.codeContent
  }

  /** The controller's state as a value: the five state hooks of App.tsx:9-13. */
  datatype State = State(
    scenario: Scenario,
    index: nat,
    playing: bool,
    messages: seq<ChatMessage>,
    aiLoading: bool)

  /** The controller's invariant: the index points into the selected catalogue. */
  predicate Inv(st: State) {
    st.index < |Steps(st.scenario)|
  }

  /** The state on first render (App.tsx:9-13). */
  const Initial: State := State(Login, 0, false, [], false)

  /** Everything that can change the controller's state. */
  datatype Event =
    | Select(chosen: Scenario)      // a scenario button (App.tsx:89, 99) and the effect it triggers
    | TogglePlay                    // play/pause (App.tsx:121)
    | Reset                         // App.tsx:127
    | Tick                          // one firing of the autoplay interval (App.tsx:32-38)
    | Next                          // App.tsx:49-51
    | Prev                          // App.tsx:53-55
    | BeginAsk                      // handleAskAI up to its await (App.tsx:58-62)
    | CompleteAsk(answer: string)   // handleAskAI after its await (App.tsx:66-67)

  /**
   * The effect of one event. Selecting the scenario already shown changes
   * nothing, because the reset at App.tsx:22-26 is an effect keyed on the
   * scenario and does not rerun when it is set to the same value.
   */
  function Apply(st: State, e: Event): (r: State)
    requires Inv(st)
    ensures Inv(r)
  {
    match e
    case Select(s) =>
      if s == st.scenario then st else State(s, 0, false, [], st.aiLoading)
    case TogglePlay =>
      st.(playing := !st.playing)
    case Reset =>
      st.(index := 0, playing := false)
    case Tick =>
      if st.index < LastIndex(st.scenario) then st.(index := st.index + 1) else st.(playing := false)
    case Next =>
      if st.index < LastIndex(st.scenario) then st.(index := st.index + 1) else st
    case Prev =>
      if st.index > 0 then st.(index := st.index - 1) else st
    case BeginAsk =>
      var question := ChatMessage(User, AskText(CurrentStep(st.scenario, st.index).title));
      st.(messages := st.messages + [question], aiLoading := true)
    case CompleteAsk(answer) =>
      st.(messages := st.messages + [ChatMessage(Model, answer)], aiLoading := false)
  }

  /**
   * Whether the view can deliver an event: the interval only exists while
   * playing (App.tsx:28-43), the ask button is disabled while a request is
   * out (App.tsx:217), and an answer arrives only for a pending request.
   * The other controls are always live; the disabled next/prev buttons at
   * the ends (App.tsx:150, 157) only hide handlers that would do nothing.
   */
  function Enabled(st: State, e: Event): (r: bool)
    ensures r && e.Tick? ==> st.playing
    ensures r && e.BeginAsk? ==> !st.aiLoading
    ensures r && e.CompleteAsk? ==> st.aiLoading
    ensures !(e.Tick? || e.BeginAsk? || e.CompleteAsk?) ==> r
  {
    match e
    case Tick => st.playing
    case BeginAsk => !st.aiLoading
    case CompleteAsk(_) => st.aiLoading
    case _ => true
  }

  /** The state after a sequence of events. */
  function Run(st: State, es: seq<Event>): (r: State)
    requires Inv(st)
    ensures Inv(r)
    decreases |es|
  {
    if es == [] then st else Run(Apply(st, es[0]), es[1..])
  }

  /** Every event of the sequence is enabled when it happens. */
  predicate Feasible(st: State, es: seq<Event>)
    requires Inv(st)
    decreases |es|
  {
    es == [] || (Enabled(st, es[0]) && Feasible(Apply(st, es[0]), es[1..]))
  }

  /**
   * The state the view renders right after a scenario button is clicked,
   * before the reset effect of App.tsx:22-26 has run: the new scenario
   * with everything else as it was (App.tsx:89, 99, 18-19).
   */
  function SwitchBeforeReset(st: State, s: Scenario): State {
    st.(scenario := s)
  }

  /**
   * That render indexes the new catalogue validly exactly when the old index
   * fits into it. It does not after login step 6 (the seventh step): the
   * data-fetch flow has six steps, so `currentStep` is undefined and reading
   * its title at App.tsx:137 throws before the reset can run.
   */
  lemma SwitchBeforeResetInRange(st: State, s: Scenario)
    requires Inv(st)
    ensures Inv(SwitchBeforeReset(st, s)) <==> st.index < |Steps(s)|
    ensures st.scenario == Login && st.index == 6 && s == FetchData ==> !Inv(SwitchBeforeReset(st, s))
  {
  }

  /** Selecting a scenario: a different one restarts it with an empty transcript. */
  lemma SelectScenarioEffect(st: State, s: Scenario)
    requires Inv(st)
    ensures Apply(st, Select(s)).scenario == s
    ensures s != st.scenario ==> Apply(st, Select(s)) == State(s, 0, false, [], st.aiLoading)
    ensures s == st.scenario ==> Apply(st, Select(s)) == st
    ensures Apply(Apply(st, Select(s)), Select(s)) == Apply(st, Select(s))
  {
  }

  /** Reset rewinds and pauses, keeps the transcript, and a second reset does nothing. */
  lemma ResetEffect(st: State)
    requires Inv(st)
    ensures Apply(st, Reset) == st.(index := 0, playing := false)
    ensures Apply(Apply(st, Reset), Reset) == Apply(st, Reset)
  {
  }

  /** Next and Prev undo each other wherever they move. */
  lemma NextPrevUndo(st: State)
    requires Inv(st)
    ensures st.index < LastIndex(st.scenario) ==> Apply(Apply(st, Next), Prev) == st
    ensures st.index > 0 ==> Apply(Apply(st, Prev), Next) == st
    ensures st.index == LastIndex(st.scenario) ==> Apply(st, Next) == st
    ensures st.index == 0 ==> Apply(st, Prev) == st
  {
  }

  /**
   * Autoplay at the final step: turning it on is allowed, and the next tick
   * turns it off again without moving; further ticks change nothing.
   */
  lemma PlayAtLastStepStopsOnNextTick(st: State)
    requires Inv(st) && st.index == LastIndex(st.scenario) && !st.playing
    ensures Enabled(Apply(st, TogglePlay), Tick)
    ensures Apply(Apply(st, TogglePlay), Tick) == st
    ensures Apply(Apply(Apply(st, TogglePlay), Tick), Tick) == st
  {
  }

  /**
   * k ticks from any state: the index advances by k but stops at the final
   * step, and autoplay stays as it was until a tick finds the index already
   * at the final step. So autoplay never wraps round or runs past the end.
   */
  lemma {:induction false} TicksSaturate(st: State, es: seq<Event>)
    requires Inv(st)
    requires forall i :: 0 <= i < |es| ==> es[i] == Tick
    ensures var r := Run(st, es); var last := LastIndex(st.scenario);
      && r.index == (if st.index + |es| <= last then st.index + |es| else last)
      && r.playing == (st.playing && st.index + |es| <= last)
      && r.scenario == st.scenario && r.messages == st.messages && r.aiLoading == st.aiLoading
    decreases |es|
  {
    if es != [] {
      var next := Apply(st, Tick);
      assert es[0] == Tick;
      assert next.scenario == st.scenario;
      TicksSaturate(next, es[1..]);
    }
  }

  /** One question and its answer add exactly that pair to the transcript. */
  lemma AskAddsOnePair(st: State, answer: string)
    requires Inv(st) && Enabled(st, BeginAsk)
    ensures var asked := Apply(st, BeginAsk);
      && asked.aiLoading && Enabled(asked, CompleteAsk(answer))
      && Apply(asked, CompleteAsk(answer)) == st.(messages := st.messages +
           [ChatMessage(User, AskText(CurrentStep(st.scenario, st.index).title)), ChatMessage(Model, answer)])
  {
  }

  /**
   * The transcript alternates question, answer, question, ... from the start,
   * and it ends on an unanswered question exactly while a request is out.
   */
  predicate Paired(st: State) {
    && (forall i :: 0 <= i < |st.messages| ==> st.messages[i].role == (if i % 2 == 0 then User else Model))
    && (|st.messages| % 2 == 1 <==> st.aiLoading)
  }

  /** An enabled event that is not a switch of scenario while a request is out. */
  predicate Undisturbed(st: State, e: Event) {
    Enabled(st, e) && !(e.Select? && e.chosen != st.scenario && st.aiLoading)
  }

  /** Every event of the sequence is undisturbed when it happens. */
  predicate UndisturbedRun(st: State, es: seq<Event>)
    requires Inv(st)
    decreases |es|
  {
    es == [] || (Undisturbed(st, es[0]) && UndisturbedRun(Apply(st, es[0]), es[1..]))
  }

  /** One undisturbed event keeps the transcript paired. */
  lemma ApplyKeepsPaired(st: State, e: Event)
    requires Inv(st) && Paired(st) && Undisturbed(st, e)
    ensures Paired(Apply(st, e))
  {
    var r := Apply(st, e);
    if e.BeginAsk? || e.CompleteAsk? {
      assert r.messages[..|st.messages|] == st.messages;
      forall i | 0 <= i < |r.messages|
        ensures r.messages[i].role == (if i % 2 == 0 then User else Model)
      {
        if i < |st.messages| {
          assert r.messages[i] == st.messages[i];
        }
      }
    }
  }

  /** Any undisturbed run keeps the transcript paired. */
  lemma {:induction false} RunKeepsPaired(st: State, es: seq<Event>)
    requires Inv(st) && Paired(st) && UndisturbedRun(st, es)
    ensures Paired(Run(st, es))
    decreases |es|
  {
    if es != [] {
      ApplyKeepsPaired(st, es[0]);
      RunKeepsPaired(Apply(st, es[0]), es[1..]);
    }
  }

  /**
   * Switching scenario while a request is out breaks the pairing: the
   * transcript is cleared but the busy flag is not (App.tsx:22-26), and the
   * late answer is still appended (App.tsx:66), so the new scenario's
   * transcript opens with an answer to a question it does not show.
   */
  lemma StaleAnswerAfterSwitch(answer: string)
    ensures var es := [BeginAsk, Select(FetchData), CompleteAsk(answer)];
      && Feasible(Initial, es)
      && Run(Initial, es).scenario == FetchData
      && Run(Initial, es).messages == [ChatMessage(Model, answer)]
      && !Paired(Run(Initial, es))
  {
    var es := [BeginAsk, Select(FetchData), CompleteAsk(answer)];
    var s1 := Apply(Initial, BeginAsk);
    var s2 := Apply(s1, Select(FetchData));
    var s3 := Apply(s2, CompleteAsk(answer));
    assert s1.aiLoading && s1.scenario == Login;
    assert s2 == State(FetchData, 0, false, [], true);
    assert s3 == State(FetchData, 0, false, [ChatMessage(Model, answer)], false);
    assert es[1..] == [Select(FetchData), CompleteAsk(answer)];
    assert es[1..][1..] == [CompleteAsk(answer)];
    assert es[1..][1..][1..] == [];
    assert Run(s2, es[1..][1..]) == s3 by {
      assert Run(s3, es[1..][1..][1..]) == s3;
    }
    assert Run(Initial, es) == s3 by {
      assert Run(s1, es[1..]) == Run(s2, es[1..][1..]);
    }
    assert Feasible(Initial, es) by {
      assert Feasible(s3, es[1..][1..][1..]);
      assert Feasible(s2, es[1..][1..]);
      assert Feasible(s1, es[1..]);
    }
    assert s3.messages[0].role == Model;
  }

  /**
   * Every step of either catalogue that moves between two entities is
   * animated by a packet on the diagram, and one that stays inside an
   * entity is not.
   */
  lemma EveryMoveIsAnimated(scenario: Scenario, index: nat)
    requires index < |Steps(scenario)|
    ensures var step := CurrentStep(scenario, index);
      var v := Diagram.Render(step, PrevStep(scenario, index));
      step.source != step.target <==> v.packets != {}
  {
    var step := CurrentStep(scenario, index);
    var v := Diagram.Render(step, PrevStep(scenario, index));
    StepsWellFormed(scenario);
    assert NeighbouringTiers(step);
    if step.source != step.target {
      var p: Diagram.Packet :=
        if step.source == Client then Diagram.ClientToServer
        else if step.source == Database then Diagram.DatabaseToServer
        else if step.target == Client then Diagram.ServerToClient
        else Diagram.ServerToDatabase;
      assert p in v.packets;
    }
  }

  /**
   * The controller as the view holds it: the five state hooks of
   * App.tsx:9-13, updated in place by the handlers.
   */
  class Controller {
    var scenario: Scenario
    var currentStepIndex: nat
    var isPlaying: bool
    var messages: seq<ChatMessage>
    var isAiLoading: bool

    /** The index points into the selected catalogue. */
    predicate Valid()
      reads this
    {
      currentStepIndex < |Steps(scenario)|
    }

    /** The fields as a value of the pure model. */
    function Snapshot(): State
      reads this
    {
      State(scenario, currentStepIndex, isPlaying, messages, isAiLoading)
    }

    /** First render: the login scenario at its first step, paused, no chat (App.tsx:9-13). */
    constructor ()
      ensures Valid()
      ensures Snapshot() == Initial
    {
      scenario := Login;
      currentStepIndex := 0;
      isPlaying := false;
      messages := [];
      isAiLoading := false;
    }

    /**
     * A scenario button (App.tsx:89, 99) with the reset effect it triggers
     * (App.tsx:22-26). Here the switch and its reset happen together. In the
     * view the reset is an effect, so the render after the switch still uses
     * the old index with the new catalogue; from login step 6 that render reads
     * a data-fetch step that does not exist and throws (App.tsx:19, 137), and
     * the reset never runs (see `SwitchBeforeResetInRange`).
     */
    method SelectScenario(s: Scenario)
      requires Valid()
      modifies this
      ensures Valid()
      ensures Snapshot() == Apply(old(Snapshot()), Select(s))
      ensures scenario == s
      ensures s != old(scenario) ==> currentStepIndex == 0 && !isPlaying && messages == []
      ensures s == old(scenario) ==>
        currentStepIndex == old(currentStepIndex) && isPlaying == old(isPlaying) && messages == old(messages)
      ensures isAiLoading == old(isAiLoading)
    {
      if s != scenario {
        scenario := s;
        currentStepIndex := 0;
        isPlaying := false;
        messages := [];
      }
    }

    /** The play/pause button (App.tsx:121); allowed at any step. */
    method TogglePlay()
      requires Valid()
      modifies this
      ensures Valid()
      ensures Snapshot() == Apply(old(Snapshot()), Event.TogglePlay)
      ensures isPlaying == !old(isPlaying)
      ensures scenario == old(scenario) && currentStepIndex == old(currentStepIndex)
      ensures messages == old(messages) && isAiLoading == old(isAiLoading)
    {
      isPlaying := !isPlaying;
    }

    /** The reset button (App.tsx:127): rewinds and pauses, keeps the chat. */
    method Reset()
      requires Valid()
      modifies this
      ensures Valid()
      ensures Snapshot() == Apply(old(Snapshot()), Event.Reset)
      ensures currentStepIndex == 0 && !isPlaying
      ensures scenario == old(scenario) && messages == old(messages) && isAiLoading == old(isAiLoading)
    {
      currentStepIndex := 0;
      isPlaying := false;
    }

    /**
     * One firing of the autoplay interval (App.tsx:32-38): advance, or at the
     * final step stay put and stop playing.
     */
    method Tick()
      requires Valid()
      modifies this
      ensures Valid()
      ensures Snapshot() == Apply(old(Snapshot()), Event.Tick)
      ensures old(currentStepIndex) < LastIndex(scenario) ==>
        currentStepIndex == old(currentStepIndex) + 1 && isPlaying == old(isPlaying)
      ensures old(currentStepIndex) == LastIndex(scenario) ==>
        currentStepIndex == old(currentStepIndex) && !isPlaying
      ensures scenario == old(scenario) && messages == old(messages) && isAiLoading == old(isAiLoading)
    {
      if currentStepIndex < |Steps(scenario)| - 1 {
        currentStepIndex := currentStepIndex + 1;
      } else {
        isPlaying := false;
      }
    }

    /** handleNext (App.tsx:49-51): one step on, unless at the final step. */
    method Next()
      requires Valid()
      modifies this
      ensures Valid()
      ensures Snapshot() == Apply(old(Snapshot()), Event.Next)
      ensures old(currentStepIndex) < LastIndex(scenario) ==> currentStepIndex == old(currentStepIndex) + 1
      ensures old(currentStepIndex) == LastIndex(scenario) ==> currentStepIndex == old(currentStepIndex)
      ensures scenario == old(scenario) && isPlaying == old(isPlaying)
      ensures messages == old(messages) && isAiLoading == old(isAiLoading)
    {
      if currentStepIndex < |Steps(scenario)| - 1 {
        currentStepIndex := currentStepIndex + 1;
      }
    }

    /** handlePrev (App.tsx:53-55): one step back, unless at the first step. */
    method Prev()
      requires Valid()
      modifies this
      ensures Valid()
      ensures Snapshot() == Apply(old(Snapshot()), Event.Prev)
      ensures old(currentStepIndex) > 0 ==> currentStepIndex == old(currentStepIndex) - 1
      ensures old(currentStepIndex) == 0 ==> currentStepIndex == 0
      ensures scenario == old(scenario) && isPlaying == old(isPlaying)
      ensures messages == old(messages) && isAiLoading == old(isAiLoading)
    {
      if currentStepIndex > 0 {
        currentStepIndex := currentStepIndex - 1;
      }
    }

    /**
     * handleAskAI up to its await (App.tsx:58-62): appends the question about
     * the current step and raises the busy flag; returns the concept and
     * context that are sent to the explanation service.
     */
    method BeginAsk() returns (concept: string, context: string)
      requires Valid()
      modifies this
      ensures Valid()
      ensures Snapshot() == Apply(old(Snapshot()), Event.BeginAsk)
      ensures concept == CurrentStep(scenario, currentStepIndex).title
      ensures context == RequestContext(CurrentStep(scenario, currentStepIndex))
      ensures messages == old(messages) + [ChatMessage(User, AskText(concept))]
      ensures isAiLoading
      ensures scenario == old(scenario) && currentStepIndex == old(currentStepIndex) && isPlaying == old(isPlaying)
    {
      var step := CurrentStep(scenario, currentStepIndex);
      concept := step.title;
      context := RequestContext(step);
      messages := messages + [ChatMessage(User, AskText(concept))];
      isAiLoading := true;
    }

    /**
     * handleAskAI after its await (App.tsx:66-67): appends the answer, whatever
     * happened meanwhile, and clears the busy flag.
     */
    method CompleteAsk(answer: string)
      requires Valid()
      modifies this
      ensures Valid()
      ensures Snapshot() == Apply(old(Snapshot()), Event.CompleteAsk(answer))
      ensures messages == old(messages) + [ChatMessage(Model, answer)]
      ensures !isAiLoading
      ensures scenario == old(scenario) && currentStepIndex == old(currentStepIndex) && isPlaying == old(isPlaying)
    {
      messages := messages + [ChatMessage(Model, answer)];
      isAiLoading := false;
    }
  }
}
