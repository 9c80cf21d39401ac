/**
 * The state machine of `StrategyWizardSimple` in
 * client/src/components/strategy/StrategyWizardSimple.tsx: five steps with a
 * progress value per step, submit guards, Back buttons, a duplicate-free
 * interest list, an indexed channel list, and the chat messages appended
 * in conversation mode.
 *
 * The component's state variables are the fields of a class; each event
 * handler is a method. The effect that sets `progress` from `currentStep`
 * is applied at once by every method that changes the step.
 */
module Wizard {
  import opened Text
  import opened Seqs

  datatype WizardStep = Objectives | Audience | Channels | Recommendations | Summary

  datatype Priority = High | Medium | Low

  datatype Channel = Channel(name: string, priority: Priority, budget: string)

  datatype Sender = User | Assistant

  datatype ChatMessage = ChatMessage(text: string, sender: Sender)

  datatype ObjectivesForm = ObjectivesForm(name: string, description: string, kpi: string,
                                           budget: string, timeline: string)

  datatype AudienceForm = AudienceForm(primarySegment: string, ageRange: string, location: string,
                                       interests: seq<string>, customAttributes: string)

  /** Position of a step in the wizard, from 0 to 4. */
  function StepIndex(step: WizardStep): nat {
    match step
    case Objectives => 0
    case Audience => 1
    case Channels => 2
    case Recommendations => 3
    case Summary => 4
  }

  /** The progress `switch`: each step is a fifth of the way, so the
      progress is 20 times the step's position counted from one. */
  function ProgressFor(step: WizardStep): (p: int)
    ensures p == 20 * (StepIndex(step) + 1)
    ensures 20 <= p <= 100
  {
    match step
    case Objectives => 20
    case Audience => 40
    case Channels => 60
    case Recommendations => 80
    case Summary => 100
  }

  /** The step a Back button returns to: the one just before. */
  function PreviousStep(step: WizardStep): (p: WizardStep)
    requires step != Objectives
    ensures StepIndex(p) + 1 == StepIndex(step)
  {
    match step
    case Audience => Objectives
    case Channels => Audience
    case Recommendations => Channels
    case Summary => Recommendations
  }

  /** `interests.filter(i => i !== x)`. */
  function Without(s: seq<string>, x: string): (r: seq<string>)
    ensures x !in r
    ensures forall y :: y != x ==> (y in r <==> y in s)
    ensures |r| <= |s|
  {
    if s == [] then []
    else (if s[0] == x then [] else [s[0]]) + Without(s[1..], x)
  }

  /** Removal keeps the order of what remains: it works on each part of a
      list separately. */
  lemma {:induction false} WithoutConcat(a: seq<string>, b: seq<string>, x: string)
    ensures Without(a + b, x) == Without(a, x) + Without(b, x)
  {
    if a != [] {
      assert (a + b)[1..] == a[1..] + b;
      WithoutConcat(a[1..], b, x);
    } else {
      assert a + b == b;
    }
  }

  /** From a list without duplicates, removal takes out exactly one element
      when `x` is present and none otherwise, and leaves no duplicates. */
  lemma {:induction false} WithoutDistinct(s: seq<string>, x: string)
    requires NoDuplicates(s)
    ensures NoDuplicates(Without(s, x))
    ensures |Without(s, x)| == if x in s then |s| - 1 else |s|
  {
    if s != [] {
      assert NoDuplicates(s[1..]) by {
        forall i, j | 0 <= i < j < |s| - 1 ensures s[1..][i] != s[1..][j] {
          assert s[i + 1] != s[j + 1];
        }
      }
      WithoutDistinct(s[1..], x);
      assert s[0] !in s[1..] by {
        forall j | 0 <= j < |s| - 1 ensures s[1..][j] != s[0] {
          assert s[0] != s[j + 1];
        }
      }
      if s[0] == x {
        assert x !in s[1..];
      } else {
        assert x in s <==> x in s[1..];
        var r := Without(s[1..], x);
        assert s[0] !in r;
      }
    }
  }

  /** `[...names].join(', ')`. `Text.Join` is the same operation for a
      one-character separator and at least one piece; this one takes the
      two-character ", " and also the empty list, which joins to "". */
  function JoinNames(names: seq<string>): string {
    if names == [] then ""
    else if |names| == 1 then names[0]
    else JoinNames(names[..|names| - 1]) + ", " + names[|names| - 1]
  }

  /** Joining two non-empty lists puts one separator between their joined
      texts. */
  lemma {:induction false} JoinNamesConcat(a: seq<string>, b: seq<string>)
    requires a != [] && b != []
    ensures JoinNames(a + b) == JoinNames(a) + ", " + JoinNames(b)
    decreases |b|
  {
    if |b| == 1 {
      assert (a + b)[..|a + b| - 1] == a;
    } else {
      var init, last := b[..|b| - 1], b[|b| - 1];
      assert (a + b)[..|a + b| - 1] == a + init;
      JoinNamesConcat(a, init);
      assert JoinNames(b) == JoinNames(init) + ", " + last;
    }
  }

  /** No names join to the empty text, a single name is joined to itself,
      and one more name adds the separator and that name. */
  lemma JoinNamesSnoc(a: seq<string>, x: string)
    ensures JoinNames([]) == ""
    ensures JoinNames([x]) == x
    ensures a != [] ==> JoinNames(a + [x]) == JoinNames(a) + ", " + x
  {
    if a != [] {
      JoinNamesConcat(a, [x]);
    }
  }

  /** `channels.filter(c => c.priority === 'high').map(c => c.name)`. */
  function HighPriorityNames(channels: seq<Channel>): (names: seq<string>)
    ensures |names| <= |channels|
    ensures forall n :: n in names ==> exists c :: c in channels && c.priority == High && c.name == n
    ensures forall c :: c in channels && c.priority == High ==> c.name in names
  {
    if channels == [] then []
    else
      (if channels[0].priority == High then [channels[0].name] else [])
        + HighPriorityNames(channels[1..])
  }

  /** The names keep the channels' order: the names of two runs of
      channels are those of the first followed by those of the second. */
  lemma {:induction false} HighPriorityNamesConcat(a: seq<Channel>, b: seq<Channel>)
    ensures HighPriorityNames(a + b) == HighPriorityNames(a) + HighPriorityNames(b)
  {
    if a != [] {
      assert (a + b)[1..] == a[1..] + b;
      HighPriorityNamesConcat(a[1..], b);
    } else {
      assert a + b == b;
    }
  }

  /** One channel contributes its name exactly when it is high priority. */
  lemma HighPriorityNamesSingle(c: Channel)
    ensures HighPriorityNames([c]) == if c.priority == High then [c.name] else []
  {
    assert [c][1..] == [];
  }

  /** The three channels the wizard starts with. */
  function InitialChannels(): seq<Channel> {
    [Channel("Email", Medium, ""), Channel("Social Media", High, ""), Channel("Paid Search", Low, "")]
  }

  // The longer texts are written as concatenations of short literals.
  // The value is the same text; the pieces are only easier for the prover.

  const BudgetReply: string :=
    ("Based on your " + "campaign objectives " + "and channels, I " + "recommend " +
      "allocating 40% of " + "your budget to " + "prospecting " + "activities, 25% to " +
      "customer retention, " + "20% to at-risk " + "customers, and 15% " + "to win-back " +
      "campaigns.")
  const TimelineReply: string :=
    ("For optimal " + "results, I suggest " + "running the " + "prospecting " + "campaign for 8 " +
      "weeks, followed by " + "a 4-week evaluation " + "period. The loyalty " + "and retention " +
      "campaigns should " + "run continuously " + "with quarterly " + "assessments.")
  const AudienceReply: string :=
    ("Looking at your " + "audience " + "parameters, I " + "recommend further " + "segmenting your " +
      "primary audience " + "based on past " + "purchase behavior. " + "This could improve " +
      "campaign relevance " + "by up to 35%.")
  const DefaultReply: string :=
    ("I've noted your " + "input. Is there any " + "specific aspect of " + "the strategy you'd " +
      "like me to " + "elaborate on or " + "modify?")

  /** The simulated assistant's answer to a sent message: keywords are
      looked for in the lower-cased text, budget first, then timeline, then
      segment or audience. */
  function AssistantReply(sent: string): (reply: string)
    ensures var lower := ToLower(sent);
      && (reply == BudgetReply <==> Includes(lower, "budget"))
      && (reply == TimelineReply <==> !Includes(lower, "budget") && Includes(lower, "timeline"))
      && (reply == AudienceReply <==> !Includes(lower, "budget") && !Includes(lower, "timeline")
                                      && (Includes(lower, "segment") || Includes(lower, "audience")))
      && (reply == DefaultReply <==> !Includes(lower, "budget") && !Includes(lower, "timeline")
                                     && !Includes(lower, "segment") && !Includes(lower, "audience"))
  {
    var lower := ToLower(sent);
    if Includes(lower, "budget") then BudgetReply
    else if Includes(lower, "timeline") then TimelineReply
    else if Includes(lower, "segment") || Includes(lower, "audience") then AudienceReply
    else DefaultReply
  }

  const Greeting: string :=
    ("Hi! I'm your " + "Marketing Strategy " + "Assistant. I'll " + "help you develop an " +
      "effective campaign " + "strategy across all " + "customer lifecycle " + "stages. What's the " +
      "primary objective " + "of your campaign?")

  /** Interests are non-empty, have no white space at either end, and are
      listed once each. */
  predicate WellFormedInterests(s: seq<string>) {
    && NoDuplicates(s)
    && forall i :: 0 <= i < |s| ==> s[i] != "" && Trimmed(s[i])
  }

  /** Appending a new, non-empty trimmed interest keeps the list well
      formed. */
  lemma AppendKeepsWellFormed(s: seq<string>, t: string)
    requires WellFormedInterests(s)
    requires t != "" && Trimmed(t) && t !in s
    ensures WellFormedInterests(s + [t])
  {
    var r := s + [t];
    forall i, j | 0 <= i < j < |r|
      ensures r[i] != r[j]
    {
      if j == |s| {
        assert r[i] == s[i];
      }
    }
  }

  /** Removing an interest keeps the list well formed. */
  lemma WithoutKeepsWellFormed(s: seq<string>, x: string)
    requires WellFormedInterests(s)
    ensures WellFormedInterests(Without(s, x))
  {
    WithoutDistinct(s, x);
    var r := Without(s, x);
    forall i | 0 <= i < |r|
      ensures r[i] != "" && Trimmed(r[i])
    {
      assert r[i] in s;
    }
  }

  /** The two chat messages a successful objectives submit appends. */
  function ObjectivesExchange(o: ObjectivesForm): seq<ChatMessage> {
    [ChatMessage(("I've set my " + "campaign name to \"") + o.name + ("\" with the primary " +
      "objective: ") + o.description, User),
     ChatMessage(("Great! Now let's " + "define your target " + "audience. Who are " +
       "you primarily " + "trying to reach " + "with this campaign?"), Assistant)]
  }

  /** The two chat messages a successful audience submit appends. */
  function AudienceExchange(a: AudienceForm): seq<ChatMessage> {
    [ChatMessage(("My primary audience " + "is ") + a.primarySegment + " in the " + a.ageRange +
      (" age range, located " + "in ") + a.location + ".", User),
     ChatMessage(("Thanks for that " + "information. Now " + "let's specify which " +
       "marketing channels " + "you plan to use and " + "their priorities."), Assistant)]
  }

  /** The two chat messages of the channels submit, naming the
      high-priority channels. */
  function ChannelsExchange(channels: seq<Channel>): seq<ChatMessage> {
    [ChatMessage("I've prioritized " + JoinNames(HighPriorityNames(channels)) + (" as my primary " +
      "channels."), User),
     ChatMessage(("Based on your " + "inputs, I'll now " + "generate strategic " +
       "recommendations for " + "each stage of the " + "customer lifecycle."), Assistant)]
  }

  /** The two chat messages of the move to the summary. */
  function SummaryExchange(): seq<ChatMessage> {
    [ChatMessage(("I like these " + "recommendations. " + "Let's proceed to " + "the summary."), User),
     ChatMessage(("Great! Here's a " + "comprehensive " + "summary of your " + "marketing strategy " +
       "across all customer " + "lifecycle stages."), Assistant)]
  }

  class StrategyWizard {
    var currentStep: WizardStep
    var progress: int
    var campaignObjectives: ObjectivesForm
    var audience: AudienceForm
    var channels: seq<Channel>
    var interestInput: string
    var conversationMode: bool
    var messages: seq<ChatMessage>
    var messageInput: string

    /** The progress matches the step; interests are well formed; the channel list keeps its three channels in their
        order. */
    ghost predicate Valid()
      reads this`currentStep, this`progress, this`audience, this`channels
    {
      && progress == ProgressFor(currentStep)
      && WellFormedInterests(audience.interests)
      && |channels| == |InitialChannels()|
      && (forall i :: 0 <= i < |channels| ==> channels[i].name == InitialChannels()[i].name)
    }

    /** The initial state: first step at 20%, empty forms, the three default
        channels, form mode, no messages. */
    constructor ()
      ensures Valid()
      ensures currentStep == Objectives && progress == 20
      ensures campaignObjectives == ObjectivesForm("", "", "", "", "")
      ensures audience == AudienceForm("", "", "", [], "")
      ensures channels == InitialChannels()
      ensures interestInput == "" && messageInput == ""
      ensures !conversationMode && messages == []
    {
      currentStep := Objectives;
      progress := 20;
      campaignObjectives := ObjectivesForm("", "", "", "", "");
      audience := AudienceForm("", "", "", [], "");
      channels := InitialChannels();
      interestInput := "";
      conversationMode := false;
      messages := [];
      messageInput := "";
    }

    /** The objectives form's inputs. */
    method EditObjectives(form: ObjectivesForm)
      requires Valid()
      modifies this`campaignObjectives
      ensures Valid()
      ensures campaignObjectives == form
    {
      campaignObjectives := form;
    }

    /** The audience form's inputs other than the interest list. */
    method EditAudience(primarySegment: string, ageRange: string, location: string, customAttributes: string)
      requires Valid()
      modifies this`audience
      ensures Valid()
      ensures audience == AudienceForm(primarySegment, ageRange, location,
                                       old(audience.interests), customAttributes)
    {
      audience := AudienceForm(primarySegment, ageRange, location, audience.interests, customAttributes);
    }

    /** The interest input box. */
    method EditInterestInput(text: string)
      requires Valid()
      modifies this`interestInput
      ensures Valid()
      ensures interestInput == text
    {
      interestInput := text;
    }

    /** The chat input box. */
    method EditMessageInput(text: string)
      requires Valid()
      modifies this`messageInput
      ensures Valid()
      ensures messageInput == text
    {
      messageInput := text;
    }

    /** `handleObjectivesSubmit`: with name, description and KPI all filled
        in, move to the audience step (and, in conversation mode, append the
        user's summary and the assistant's reply); otherwise nothing
        changes. */
    method SubmitObjectives()
      requires Valid()
      modifies this`currentStep, this`progress, this`messages
      ensures Valid()
      ensures var o := campaignObjectives;
        var ok := o.name != "" && o.description != "" && o.kpi != "";
        && currentStep == (if ok then Audience else old(currentStep))
        && messages == if ok && conversationMode then old(messages) + ObjectivesExchange(o)
           else old(messages)
    {
      if campaignObjectives.name == "" || campaignObjectives.description == "" || campaignObjectives.kpi == "" {
        return;
      }
      currentStep := Audience;
      progress := ProgressFor(currentStep);
      if conversationMode {
        messages := messages + ObjectivesExchange(campaignObjectives);
      }
    }

    /** `handleAudienceSubmit`: with segment, age range and location all
        filled in, move to the channels step (and, in conversation mode,
        append two messages); otherwise nothing changes. */
    method SubmitAudience()
      requires Valid()
      modifies this`currentStep, this`progress, this`messages
      ensures Valid()
      ensures var a := audience;
        var ok := a.primarySegment != "" && a.ageRange != "" && a.location != "";
        && currentStep == (if ok then Channels else old(currentStep))
        && messages == if ok && conversationMode then old(messages) + AudienceExchange(a)
           else old(messages)
    {
      if audience.primarySegment == "" || audience.ageRange == "" || audience.location == "" {
        return;
      }
      currentStep := Channels;
      progress := ProgressFor(currentStep);
      if conversationMode {
        messages := messages + AudienceExchange(audience);
      }
    }

    /** `handleChannelsSubmit`: unguarded move to the recommendations step,
        naming the high-priority channels in conversation mode. */
    method SubmitChannels()
      requires Valid()
      modifies this`currentStep, this`progress, this`messages
      ensures Valid()
      ensures currentStep == Recommendations
      ensures messages == if conversationMode then old(messages) + ChannelsExchange(channels)
        else old(messages)
    {
      currentStep := Recommendations;
      progress := ProgressFor(currentStep);
      if conversationMode {
        messages := messages + ChannelsExchange(channels);
      }
    }

    /** `handleGoToSummary`: unguarded move to the summary step. */
    method GoToSummary()
      requires Valid()
      modifies this`currentStep, this`progress, this`messages
      ensures Valid()
      ensures currentStep == Summary && progress == 100
      ensures messages == if conversationMode then old(messages) + SummaryExchange()
        else old(messages)
    {
      currentStep := Summary;
      progress := ProgressFor(currentStep);
      if conversationMode {
        messages := messages + SummaryExchange();
      }
    }

    /** A Back button: it is shown on every step but the first and goes
        back exactly one step, with the progress following. */
    method Back()
      requires Valid()
      requires currentStep != Objectives
      modifies this`currentStep, this`progress
      ensures Valid()
      ensures StepIndex(currentStep) + 1 == StepIndex(old(currentStep))
      ensures progress + 20 == old(progress)
    {
      currentStep := PreviousStep(currentStep);
      progress := ProgressFor(currentStep);
    }

    /** `updateChannelPriority`: only the priority of the channel at
        `index` changes. */
    method UpdateChannelPriority(index: nat, priority: Priority)
      requires Valid()
      requires index < |channels|
      modifies this`channels
      ensures Valid()
      ensures |channels| == |old(channels)|
      ensures channels[index] == old(channels[index]).(priority := priority)
      ensures forall i :: 0 <= i < |channels| && i != index ==> channels[i] == old(channels[i])
    {
      channels := channels[index := channels[index].(priority := priority)];
    }

    /** `updateChannelBudget`: only the budget of the channel at `index`
        changes. */
    method UpdateChannelBudget(index: nat, budget: string)
      requires Valid()
      requires index < |channels|
      modifies this`channels
      ensures Valid()
      ensures |channels| == |old(channels)|
      ensures channels[index] == old(channels[index]).(budget := budget)
      ensures forall i :: 0 <= i < |channels| && i != index ==> channels[i] == old(channels[i])
    {
      channels := channels[index := channels[index].(budget := budget)];
    }

    /** `addInterest`: the trimmed input is appended and the input cleared
        when it is non-empty and not yet listed; otherwise nothing
        changes. */
    method AddInterest()
      requires Valid()
      modifies this`audience, this`interestInput
      ensures Valid()
      ensures var t := Trim(old(interestInput));
        if t != "" && t !in old(audience.interests) then
          audience == old(audience).(interests := old(audience.interests) + [t]) && interestInput == ""
        else
          audience == old(audience) && interestInput == old(interestInput)
    {
      var t := Trim(interestInput);
      if t != "" && t !in audience.interests {
        AppendKeepsWellFormed(audience.interests, t);
        audience := audience.(interests := audience.interests + [t]);
        interestInput := "";
      }
    }

    /** `removeInterest`: the interest is removed, the rest keep their
        order. */
    method RemoveInterest(interest: string)
      requires Valid()
      modifies this`audience
      ensures Valid()
      ensures audience == old(audience).(interests := Without(old(audience.interests), interest))
      ensures |audience.interests| == if interest in old(audience.interests) then |old(audience.interests)| - 1
                                      else |old(audience.interests)|
    {
      WithoutDistinct(audience.interests, interest);
      WithoutKeepsWellFormed(audience.interests, interest);
      var kept := Without(audience.interests, interest);
      audience := audience.(interests := kept);
    }

    /** `handleSendMessage` up to its timer: a message that is not white
        space only is appended as typed, and the input cleared. The reply
        arrives later through `ReceiveReply`. */
    method SendMessage()
      requires Valid()
      modifies this`messages, this`messageInput
      ensures Valid()
      ensures if AllWhitespace(old(messageInput)) then
          messages == old(messages) && messageInput == old(messageInput)
        else
          messages == old(messages) + [ChatMessage(old(messageInput), User)] && messageInput == ""
    {
      if Trim(messageInput) == "" {
        return;
      }
      messages := messages + [ChatMessage(messageInput, User)];
      messageInput := "";
    }

    /** The timer callback of `handleSendMessage`: the reply to the text
        that was sent is appended as the assistant's message. */
    method ReceiveReply(sent: string)
      requires Valid()
      modifies this`messages
      ensures Valid()
      ensures messages == old(messages) + [ChatMessage(AssistantReply(sent), Assistant)]
    {
      messages := messages + [ChatMessage(AssistantReply(sent), Assistant)];
    }

    /** `handleToggleConversationMode`: flips the mode; switching to chat
        with no history seeds exactly the assistant's greeting. */
    method ToggleConversationMode()
      requires Valid()
      modifies this`conversationMode, this`messages
      ensures Valid()
      ensures conversationMode == !old(conversationMode)
      ensures messages == if !old(conversationMode) && old(messages) == [] then [ChatMessage(Greeting, Assistant)]
                          else old(messages)
    {
      var wasConversation := conversationMode;
      conversationMode := !conversationMode;
      if !wasConversation && |messages| == 0 {
        messages := [ChatMessage(Greeting, Assistant)];
      }
    }
  }
}
