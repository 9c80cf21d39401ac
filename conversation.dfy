/**
 * The lifecycle-objective conversation of `StrategyConversationInterface`
 * in client/src/components/strategy/StrategyConversationInterface.tsx: the
 * agent walks the five customer-lifecycle stages in a fixed order, stores
 * the user's answer as each stage's objective, summarises them, and hands
 * over to the ingestion step when the user answers "yes".
 *
 * The component's state variables are the fields of a class. The effect
 * that recomputes `allObjectivesDefined` is applied at once by every
 * method that changes the objectives, and the delayed agent dispatch is
 * one synchronous method.
 */
module Conversation {
  import opened Text

  datatype Stage = Prospecting | Ownership | Inlife | Risky | Churn

  /** Position of a stage in the order of `Object.keys(lifecycleStages)`. */
  function StageIndex(s: Stage): nat {
    match s
    case Prospecting => 0
    case Ownership => 1
    case Inlife => 2
    case Risky => 3
    case Churn => 4
  }

  /** The stages in the order the agent asks about them. */
  function Stages(): (stages: seq<Stage>)
    ensures |stages| == 5
    ensures forall i :: 0 <= i < |stages| ==> StageIndex(stages[i]) == i
  {
    [Prospecting, Ownership, Inlife, Risky, Churn]
  }

  /** The key of a stage in `lifecycleStages` and in `objectives`. */
  function StageKey(s: Stage): string {
    match s
    case Prospecting => "prospecting"
    case Ownership => "ownership"
    case Inlife => "inlife"
    case Risky => "risky"
    case Churn => "churn"
  }

  // The longer texts are written as concatenations of short literals.
  // The value is the same text; the pieces are only easier for the prover.

  function StageDescription(s: Stage): string {
    match s
    case Prospecting => ("Attracting and " + "engaging potential " + "customers who " +
      "aren't yet customers")
    case Ownership => ("Initial customer " + "onboarding and " + "early relationship " + "building")
    case Inlife => ("Deepening " + "relationships with " + "active and " + "satisfied customers")
    case Risky => ("Addressing " + "customers showing " + "signs of " + "dissatisfaction or " +
      "decreased engagement")
    case Churn => ("Re-engaging " + "customers who have " + "left or are about " + "to leave")
  }

  /** `stages[currentIndex + 1]`: the stage right after `s`. */
  function NextStage(s: Stage): (n: Stage)
    requires s != Churn
    ensures StageIndex(n) == StageIndex(s) + 1
  {
    match s
    case Prospecting => Ownership
    case Ownership => Inlife
    case Inlife => Risky
    case Risky => Churn
  }

  /** One objective per stage, in the declaration order of the state. */
  datatype Objectives = Objectives(prospecting: string, ownership: string, inlife: string,
                                   risky: string, churn: string)

  const NoObjectives := Objectives("", "", "", "", "")

  /** `objectives[stage]`. */
  function Get(o: Objectives, s: Stage): string {
    match s
    case Prospecting => o.prospecting
    case Ownership => o.ownership
    case Inlife => o.inlife
    case Risky => o.risky
    case Churn => o.churn
  }

  /** `{ ...objectives, [stage]: value }`: that stage's objective is
      replaced and no other. */
  function Set(o: Objectives, s: Stage, value: string): (r: Objectives)
    ensures Get(r, s) == value
    ensures forall t :: t != s ==> Get(r, t) == Get(o, t)
  {
    match s
    case Prospecting => o.(prospecting := value)
    case Ownership => o.(ownership := value)
    case Inlife => o.(inlife := value)
    case Risky => o.(risky := value)
    case Churn => o.(churn := value)
  }

  /** `Object.values(objectives).every(value => value !== '')`. */
  function AllDefined(o: Objectives): (b: bool)
    ensures b <==> forall s :: Get(o, s) != ""
  {
    assert Get(o, Prospecting) == o.prospecting && Get(o, Ownership) == o.ownership
      && Get(o, Inlife) == o.inlife && Get(o, Risky) == o.risky && Get(o, Churn) == o.churn;
    o.prospecting != "" && o.ownership != "" && o.inlife != "" && o.risky != "" && o.churn != ""
  }

  const SummaryHeader: string := ("**Campaign " + "Objectives " + "Summary:**\n\n")

  /** The summary line of one stage: its title in bold, then the
      objective. `CapitalizedKey` shows the title is the key with its first
      letter upper-cased, as the code formats it. */
  function SummaryLine(s: Stage, objective: string): string {
    "**" + StageTitle(s) + " Stage:** " + objective + "\n\n"
  }

  /** The summary after the lines of `stages`: the header, then one line
      per stage, in order. */
  function SummaryOf(o: Objectives, stages: seq<Stage>): (summary: string)
    ensures SummaryHeader <= summary
  {
    if stages == [] then SummaryHeader
    else SummaryOf(o, stages[..|stages| - 1]) + SummaryLine(stages[|stages| - 1], Get(o, stages[|stages| - 1]))
  }

  /** Adding a stage adds its line at the end. */
  lemma SummaryOfSnoc(o: Objectives, stages: seq<Stage>, i: nat)
    requires i < |stages|
    ensures SummaryOf(o, stages[..i + 1]) == SummaryOf(o, stages[..i]) + SummaryLine(stages[i], Get(o, stages[i]))
  {
    assert stages[..i + 1][..i] == stages[..i];
  }

  /** What `summarizeObjectives` returns. */
  function Summary(o: Objectives): string {
    SummaryOf(o, Stages())
  }

  /** The stage names as the summary shows them. */
  function StageTitle(s: Stage): string {
    match s
    case Prospecting => "Prospecting"
    case Ownership => "Ownership"
    case Inlife => "Inlife"
    case Risky => "Risky"
    case Churn => "Churn"
  }

  /** `charAt(0).toUpperCase() + slice(1)` turns each key into its title. */
  lemma CapitalizedKey(s: Stage)
    ensures Capitalize(StageKey(s)) == StageTitle(s)
  {
    match s
    case Prospecting => assert Capitalize("prospecting") == "Prospecting";
    case Ownership => assert Capitalize("ownership") == "Ownership";
    case Inlife => assert Capitalize("inlife") == "Inlife";
    case Risky => assert Capitalize("risky") == "Risky";
    case Churn => assert Capitalize("churn") == "Churn";
  }

  /** The summary written out: the header, then one line per stage in the
      fixed order, with its objective. */
  lemma SummaryWrittenOut(o: Objectives)
    ensures Summary(o) == SummaryHeader
      + SummaryLine(Prospecting, o.prospecting) + SummaryLine(Ownership, o.ownership)
      + SummaryLine(Inlife, o.inlife) + SummaryLine(Risky, o.risky) + SummaryLine(Churn, o.churn)
  {
    var st := Stages();
    assert st[..0] == [];
    var h := SummaryHeader;
    SummaryOfSnoc(o, st, 0);
    var l0 := SummaryLine(Prospecting, o.prospecting);
    assert SummaryOf(o, st[..1]) == h + l0;
    SummaryOfSnoc(o, st, 1);
    var l1 := SummaryLine(Ownership, o.ownership);
    assert SummaryOf(o, st[..2]) == h + l0 + l1;
    SummaryOfSnoc(o, st, 2);
    var l2 := SummaryLine(Inlife, o.inlife);
    assert SummaryOf(o, st[..3]) == h + l0 + l1 + l2;
    SummaryOfSnoc(o, st, 3);
    var l3 := SummaryLine(Risky, o.risky);
    assert SummaryOf(o, st[..4]) == h + l0 + l1 + l2 + l3;
    SummaryOfSnoc(o, st, 4);
    assert st[..5] == st;
  }

  /** The summary grows with each stage: the summary of the first `k`
      stages is a prefix of it. */
  lemma {:induction false} SummaryOfPrefix(o: Objectives, stages: seq<Stage>, k: nat)
    requires k <= |stages|
    ensures SummaryOf(o, stages[..k]) <= SummaryOf(o, stages)
    decreases |stages|
  {
    if k < |stages| {
      assert stages[..|stages| - 1][..k] == stages[..k];
      SummaryOfPrefix(o, stages[..|stages| - 1], k);
    } else {
      assert stages[..k] == stages;
    }
  }

  datatype Sender = Agent | User | IngestionAgent

  datatype Message = Message(sender: Sender, content: string)

  datatype ActiveStep = StrategyStep | IngestionStep

  /** What the delayed effect does after the message list changes. */
  datatype Dispatch = RecordObjective | CompleteStrategy | NoAction

  /** The rule of the effect on `messages`: only a last message from the
      user triggers anything; while an objective is missing it is recorded,
      and once all are defined a "yes" during the strategy step completes
      the strategy. */
  function DispatchFor(messages: seq<Message>, allDefined: bool, step: ActiveStep): (d: Dispatch)
    ensures d == RecordObjective <==> messages != [] && messages[|messages| - 1].sender == User && !allDefined
    ensures d == CompleteStrategy <==>
      && messages != [] && messages[|messages| - 1].sender == User && allDefined
      && step == StrategyStep && Includes(ToLower(messages[|messages| - 1].content), "yes")
  {
    if messages != [] && messages[|messages| - 1].sender == User then
      if !allDefined then RecordObjective
      else if step == StrategyStep && Includes(ToLower(messages[|messages| - 1].content), "yes") then CompleteStrategy
      else NoAction
    else NoAction
  }

  const Welcome: string :=
    ("Hi there! I'm your " + "Strategy Agent. " + "Let's start by " + "defining your " +
      "campaign objectives " + "across the customer " + "lifecycle. What are " +
      "your main goals for " + "each stage?")
  const CollectedAll: string :=
    ("Great! I've " + "collected " + "objectives for all " + "customer lifecycle " +
      "stages. Let me " + "summarize what " + "we've discussed:")
  const ConfirmQuestion: string :=
    ("Does this " + "accurately capture " + "your campaign " + "objectives across " +
      "the customer " + "lifecycle? Type " + "'yes' to proceed to " + "data ingestion, or " +
      "clarify if you'd " + "like to make any " + "changes.")
  const Handover: string :=
    ("Perfect! I'm now " + "handing you over to " + "the Ingestion Agent " + "who will help you " +
      "upload the data " + "needed to meet " + "these objectives.")
  const IngestionHello: string :=
    ("Hello, I'm your " + "Ingestion Agent! " + "Based on your " + "campaign " +
      "objectives, we'll " + "need customer data " + "across various " + "lifecycle stages. " +
      "Please upload your " + "customer data files " + "(CSV, Excel, or " + "JSON).")

  /** The agent's question about the stage it moves on to. */
  function NextStageQuestion(s: Stage): string {
    ("Thanks! Now let's " + "talk about the ") + StageKey(s) + " stage: " + StageDescription(s) +
      (". What are your " + "objectives for this " + "stage?")
  }

  /** The agent's closing messages at the last stage: the announcement,
      the summary, and the confirmation question. */
  function ClosingMessages(o: Objectives): seq<Message> {
    [Message(Agent, CollectedAll), Message(Agent, Summary(o)), Message(Agent, ConfirmQuestion)]
  }

  /** The two messages of the handoff, the second from the ingestion
      agent. */
  function HandoffMessages(): seq<Message> {
    [Message(Agent, Handover), Message(IngestionAgent, IngestionHello)]
  }

  /** `summarizeObjectives`: the header, then one line appended per entry
      of the objectives, in order. */
  method SummarizeObjectives(o: Objectives) returns (summary: string)
    ensures summary == Summary(o)
  {
    var stages := Stages();
    summary := SummaryHeader;
    var i := 0;
    while i < |stages|
      invariant 0 <= i <= |stages|
      invariant summary == SummaryOf(o, stages[..i])
    {
      SummaryOfSnoc(o, stages, i);
      CapitalizedKey(stages[i]);
      var formattedStage := Capitalize(StageKey(stages[i]));
      summary := summary + ("**" + formattedStage + " Stage:** " + Get(o, stages[i]) + "\n\n");
      i := i + 1;
    }
    assert stages[..i] == stages;
  }

  class StrategyConversation {
    var activeStep: ActiveStep
    var messages: seq<Message>
    var userInput: string
    var objectives: Objectives
    var currentStage: Stage
    var allObjectivesDefined: bool
    var showIngestion: bool

    /** Stages before the current one have an objective and stages after it
        have none; the flag mirrors the objectives; the ingestion step is
        reached only with every objective defined; every user message has
        some non-white-space text. */
    ghost predicate Valid()
      reads this
    {
      && allObjectivesDefined == AllDefined(objectives)
      && FilledUpTo(objectives, currentStage)
      && (activeStep == IngestionStep ==> showIngestion && allObjectivesDefined)
      && UserMessagesNonBlank(messages)
    }

    /** The opening state: strategy step, the welcome message, no
        objectives, first stage. */
    constructor ()
      ensures Valid()
      ensures activeStep == StrategyStep && messages == [Message(Agent, Welcome)]
      ensures userInput == "" && objectives == NoObjectives && currentStage == Prospecting
      ensures !allObjectivesDefined && !showIngestion
    {
      activeStep := StrategyStep;
      messages := [Message(Agent, Welcome)];
      userInput := "";
      objectives := NoObjectives;
      currentStage := Prospecting;
      allObjectivesDefined := false;
      showIngestion := false;
    }

    /** The chat input box. */
    method EditInput(text: string)
      requires Valid()
      modifies this`userInput
      ensures Valid()
      ensures userInput == text
    {
      userInput := text;
    }

    /** `handleSendMessage`: input that trims to nothing is ignored;
        otherwise the untrimmed text is appended as one user message and
        the input cleared. */
    method HandleSendMessage()
      requires Valid()
      modifies this`messages, this`userInput
      ensures Valid()
      ensures if AllWhitespace(old(userInput)) then
          messages == old(messages) && userInput == old(userInput)
        else
          messages == old(messages) + [Message(User, old(userInput))] && userInput == ""
    {
      if Trim(userInput) == "" {
        return;
      }
      messages := messages + [Message(User, userInput)];
      userInput := "";
    }

    /** `handleStrategyAgentResponse`: the last (user) message becomes the
        current stage's objective. Before the last stage the agent asks
        about the next one; at the last stage it appends three messages,
        the middle one the summary of the updated objectives, and stays. */
    method HandleStrategyAgentResponse()
      requires Valid()
      requires messages != [] && messages[|messages| - 1].sender == User
      modifies this`objectives, this`allObjectivesDefined, this`currentStage, this`messages
      ensures Valid()
      ensures objectives == Set(old(objectives), old(currentStage), old(messages[|messages| - 1].content))
      ensures allObjectivesDefined == AllDefined(objectives)
      ensures old(currentStage) != Churn ==>
        && currentStage == NextStage(old(currentStage))
        && messages == old(messages) + [Message(Agent, NextStageQuestion(currentStage))]
      ensures old(currentStage) == Churn ==>
        && currentStage == Churn
        && messages == old(messages) + ClosingMessages(objectives)
    {
      var userResponse := messages[|messages| - 1].content;
      assert userResponse != "" by {
        assert !AllWhitespace(userResponse);
      }
      var updated := Set(objectives, currentStage, userResponse);
      StoreKeepsStageInvariant(objectives, currentStage, userResponse);
      objectives := updated;
      allObjectivesDefined := AllDefined(updated);
      var appended: seq<Message>;
      if currentStage != Churn {
        var nextStage := NextStage(currentStage);
        currentStage := nextStage;
        appended := [Message(Agent, NextStageQuestion(nextStage))];
      } else {
        var summary := SummarizeObjectives(updated);
        appended := [Message(Agent, CollectedAll), Message(Agent, summary), Message(Agent, ConfirmQuestion)];
        assert appended == ClosingMessages(updated);
      }
      AgentMessagesKeepUsersNonBlank(messages, appended);
      messages := messages + appended;
    }

    /** `handleStrategyComplete`: the handover message and the ingestion
        agent's greeting are appended, and the ingestion step opens. */
    method HandleStrategyComplete()
      requires Valid()
      requires allObjectivesDefined
      modifies this`messages, this`activeStep, this`showIngestion
      ensures Valid()
      ensures messages == old(messages) + HandoffMessages()
      ensures activeStep == IngestionStep && showIngestion
    {
      messages := messages + HandoffMessages();
      activeStep := IngestionStep;
      showIngestion := true;
    }

    /** The effect on `messages`, run synchronously: it does what
        `DispatchFor` selects and nothing else. */
    method AgentDispatch() returns (d: Dispatch)
      requires Valid()
      modifies this`objectives, this`allObjectivesDefined, this`currentStage, this`messages,
               this`activeStep, this`showIngestion
      ensures Valid()
      ensures d == DispatchFor(old(messages), old(allObjectivesDefined), old(activeStep))
      ensures d == NoAction ==> unchanged(this)
      ensures old(activeStep) == IngestionStep ==> d == NoAction
      ensures d == RecordObjective ==>
        && objectives == Set(old(objectives), old(currentStage), old(messages[|messages| - 1].content))
        && allObjectivesDefined == AllDefined(objectives)
        && activeStep == old(activeStep) && showIngestion == old(showIngestion)
      ensures d == RecordObjective && old(currentStage) != Churn ==>
        && currentStage == NextStage(old(currentStage))
        && messages == old(messages) + [Message(Agent, NextStageQuestion(currentStage))]
      ensures d == RecordObjective && old(currentStage) == Churn ==>
        && currentStage == Churn
        && messages == old(messages) + ClosingMessages(objectives)
      ensures d == CompleteStrategy ==>
        && objectives == old(objectives) && allObjectivesDefined == old(allObjectivesDefined)
        && currentStage == old(currentStage)
        && activeStep == IngestionStep && showIngestion
        && messages == old(messages) + HandoffMessages()
    {
      d := DispatchFor(messages, allObjectivesDefined, activeStep);
      if activeStep == IngestionStep {
        AfterHandoverNothingDispatches(messages, activeStep);
      }
      if d == RecordObjective {
        HandleStrategyAgentResponse();
      } else if d == CompleteStrategy {
        HandleStrategyComplete();
      }
    }
  }

  /** Stages before `current` have an objective and stages after it have
      none. */
  predicate FilledUpTo(o: Objectives, current: Stage) {
    && (forall s :: StageIndex(s) < StageIndex(current) ==> Get(o, s) != "")
    && (forall s :: StageIndex(s) > StageIndex(current) ==> Get(o, s) == "")
  }

  /** Every message from the user has some non-white-space text. */
  predicate UserMessagesNonBlank(messages: seq<Message>) {
    forall i :: 0 <= i < |messages| && messages[i].sender == User ==> !AllWhitespace(messages[i].content)
  }

  /** Storing a non-empty answer for the current stage keeps the stages
      filled up to it, also once the stage advances, and keeps a full set
      of objectives full. */
  lemma StoreKeepsStageInvariant(o: Objectives, current: Stage, answer: string)
    requires answer != ""
    requires FilledUpTo(o, current)
    ensures FilledUpTo(Set(o, current, answer), current)
    ensures current != Churn ==> FilledUpTo(Set(o, current, answer), NextStage(current))
    ensures AllDefined(o) ==> AllDefined(Set(o, current, answer))
  {
    var r := Set(o, current, answer);
    forall s | StageIndex(s) <= StageIndex(current)
      ensures Get(r, s) != ""
    {
      if s != current {
        assert StageIndex(s) != StageIndex(current);
      }
    }
  }

  /** Appending agent messages keeps every user message non-blank. */
  lemma AgentMessagesKeepUsersNonBlank(messages: seq<Message>, appended: seq<Message>)
    requires UserMessagesNonBlank(messages)
    requires forall i :: 0 <= i < |appended| ==> appended[i].sender != User
    ensures UserMessagesNonBlank(messages + appended)
  {
  }

  /** Once the strategy step is over, the dispatch never records an
      objective again and never hands over a second time. */
  lemma AfterHandoverNothingDispatches(messages: seq<Message>, step: ActiveStep)
    requires step == IngestionStep
    ensures DispatchFor(messages, true, step) == NoAction
  {
  }
}
