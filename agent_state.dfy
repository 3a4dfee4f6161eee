/** The state of the agents page as plain values: the agent records, the
    create-agent form, the dialog flag, and the transitions the page's
    handlers perform on them. The class in agents_page.dfy is specified
    against these functions. */
module AgentState {

  datatype Result<T, E> = Success(value: T) | Failure(error: E)

  /** One row of the agents table. */
  datatype Agent = Agent(name: string, agentType: string, phone: string, createdAt: string)

  /** The only error of the create flow: the agent name was left empty. */
  datatype CreateError = NameRequired

  /** The text the page shows in its alert for an error. */
  function ErrorMessage(e: CreateError): string
  {
    match e
    case NameRequired => "Agent name is required"
  }

  /** Every created agent gets this type; the dialog shows it as a disabled field. */
  const AgentType := "Pipecat Agent"

  /** Shown in the phone column when no phone number was chosen. */
  const PhonePlaceholder := "-"

  /** The placeholder agent the list starts with. */
  const SeedAgent := Agent("Agent 1", AgentType, "+1234567890", "2025-09-26")

  /** The eleven inputs of the create-agent dialog, in form order. */
  const FieldNames: seq<string> := [
    "agentName", "systemPrompt", "tools", "deepgramApiKey", "deepgramModel",
    "openaiApiKey", "telnyxApiKey", "elevenApiKey", "elevenVoiceId",
    "elevenModel", "phoneNumber"
  ]

  /** The form: input name to current text. */
  type Form = map<string, string>

  /** The form as it starts and as a successful create leaves it. */
  function EmptyForm(): (f: Form)
    ensures forall i :: 0 <= i < |FieldNames| ==> FieldNames[i] in f
    ensures forall n :: n in f ==> n in FieldNames && f[n] == ""
  {
    map[
      "agentName" := "", "systemPrompt" := "", "tools" := "",
      "deepgramApiKey" := "", "deepgramModel" := "", "openaiApiKey" := "",
      "telnyxApiKey" := "", "elevenApiKey" := "", "elevenVoiceId" := "",
      "elevenModel" := "", "phoneNumber" := ""
    ]
  }

  /** Reading a form property; a missing one reads as "", which is falsy like
      an undefined property. */
  function Lookup(f: Form, field: string): string
  {
    if field in f then f[field] else ""
  }

  /** Every input of the dialog has an entry in the form. */
  ghost predicate WellFormed(f: Form)
  {
    forall i :: 0 <= i < |FieldNames| ==> FieldNames[i] in f
  }

  /** A snapshot of the page: is the dialog open, the list, the form. */
  datatype Page = Page(open: bool, agents: seq<Agent>, form: Form)

  function Initial(): Page
  {
    Page(false, [SeedAgent], EmptyForm())
  }

  /** The date part of an ISO timestamp: everything before the first 'T',
      or the whole text when there is none (`s.split("T")[0]`). */
  function DatePart(s: string): (r: string)
    ensures r <= s
    ensures 'T' !in r
    ensures |r| < |s| ==> s[|r|] == 'T'
  {
    if s == [] || s[0] == 'T' then [] else [s[0]] + DatePart(s[1..])
  }

  /** The record a create builds from the form and the current timestamp. */
  function NewAgent(f: Form, now: string): Agent
  {
    var phone := Lookup(f, "phoneNumber");
    Agent(Lookup(f, "agentName"), AgentType, if phone != "" then phone else PhonePlaceholder, DatePart(now))
  }

  /** What pressing Create reports: the new record, or the missing-name error. */
  function CreateResult(f: Form, now: string): Result<Agent, CreateError>
  {
    if Lookup(f, "agentName") == "" then Failure(NameRequired) else Success(NewAgent(f, now))
  }

  function OpenDialog(p: Page): Page
  {
    p.(open := true)
  }

  function CloseDialog(p: Page): Page
  {
    p.(open := false)
  }

  function ChangeField(p: Page, field: string, value: string): Page
  {
    p.(form := p.form[field := value])
  }

  function Submit(p: Page, now: string): Page
  {
    match CreateResult(p.form, now)
    case Failure(_) => p
    case Success(a) => Page(false, [a] + p.agents, EmptyForm())
  }

  /** The user actions the page reacts to. */
  datatype Event =
    | Open
    | Close
    | Change(field: string, value: string)
    | Create(now: string)

  function Step(p: Page, e: Event): Page
  {
    match e
    case Open => OpenDialog(p)
    case Close => CloseDialog(p)
    case Change(field, value) => ChangeField(p, field, value)
    case Create(now) => Submit(p, now)
  }

  /** The page after a sequence of actions, first action first. */
  function Run(p: Page, evs: seq<Event>): Page
    decreases |evs|
  {
    if evs == [] then p else Run(Step(p, evs[0]), evs[1..])
  }

  /** The record one action adds to the list: one for a successful create, none otherwise. */
  function Added(p: Page, e: Event): seq<Agent>
  {
    if e.Create? && CreateResult(p.form, e.now).Success? then [CreateResult(p.form, e.now).value] else []
  }

  /** The records a sequence of actions creates, in the order they were created. */
  function Created(p: Page, evs: seq<Event>): seq<Agent>
    decreases |evs|
  {
    if evs == [] then [] else Added(p, evs[0]) + Created(Step(p, evs[0]), evs[1..])
  }

  // ---------------------------------------------------------------------
  // Properties of single actions

  /** The page starts with the dialog closed, the seed agent alone in the
      list, and every input empty. */
  lemma InitialPage()
    ensures !Initial().open
    ensures Initial().agents == [Agent("Agent 1", "Pipecat Agent", "+1234567890", "2025-09-26")]
    ensures forall n :: n in Initial().form ==> n in FieldNames
    ensures forall i :: 0 <= i < |FieldNames| ==> Lookup(Initial().form, FieldNames[i]) == ""
    ensures WellFormed(Initial().form)
  {
  }

  /** Changing an input sets that input and nothing else. */
  lemma ChangeSetsOneField(p: Page, field: string, value: string)
    ensures Lookup(ChangeField(p, field, value).form, field) == value
    ensures ChangeField(p, field, value).form.Keys == p.form.Keys + {field}
    ensures forall k :: k != field ==> Lookup(ChangeField(p, field, value).form, k) == Lookup(p.form, k)
    ensures ChangeField(p, field, value).agents == p.agents
    ensures ChangeField(p, field, value).open == p.open
  {
  }

  /** Create fails exactly when the agent name is empty. */
  lemma CreateFailsIffNameEmpty(f: Form, now: string)
    ensures CreateResult(f, now).Failure? <==> Lookup(f, "agentName") == ""
    ensures CreateResult(f, now).Failure? ==>
              CreateResult(f, now).error == NameRequired &&
              ErrorMessage(CreateResult(f, now).error) == "Agent name is required"
  {
  }

  /** A create with an empty name leaves the whole page as it was. */
  lemma CreateWithEmptyNameChangesNothing(p: Page, now: string)
    requires Lookup(p.form, "agentName") == ""
    ensures Submit(p, now) == p
    ensures CreateResult(p.form, now) == Failure(NameRequired)
  {
  }

  /** A create with a name puts the new record at the head of the list,
      keeps the old list behind it, empties the form and closes the dialog. */
  lemma CreateWithNamePrepends(p: Page, now: string)
    requires Lookup(p.form, "agentName") != ""
    ensures CreateResult(p.form, now).Success?
    ensures |Submit(p, now).agents| == |p.agents| + 1
    ensures Submit(p, now).agents[0] == CreateResult(p.form, now).value
    ensures Submit(p, now).agents[1..] == p.agents
    ensures Submit(p, now).form == EmptyForm() == Initial().form
    ensures !Submit(p, now).open
  {
  }

  /** The fields of a created record. */
  lemma NewAgentFields(f: Form, now: string)
    ensures NewAgent(f, now).name == Lookup(f, "agentName")
    ensures NewAgent(f, now).agentType == "Pipecat Agent"
    ensures Lookup(f, "phoneNumber") != "" ==> NewAgent(f, now).phone == Lookup(f, "phoneNumber")
    ensures Lookup(f, "phoneNumber") == "" ==> NewAgent(f, now).phone == "-"
    ensures NewAgent(f, now).createdAt == DatePart(now)
  {
  }

  /** For a timestamp shaped like `YYYY-MM-DDTHH:MM:SS.sssZ` the stored date
      is its first ten characters. */
  lemma DatePartOfTimestamp(s: string)
    requires |s| > 10 && s[10] == 'T'
    requires forall i :: 0 <= i < 10 ==> s[i] != 'T'
    ensures DatePart(s) == s[..10]
  {
  }

  /** Closing the dialog (Cancel, the X button, a click outside the
      dialog or the Escape key) touches
      neither the list nor the form: unsaved edits stay. */
  lemma CloseKeepsListAndForm(p: Page)
    ensures !CloseDialog(p).open
    ensures CloseDialog(p).agents == p.agents
    ensures CloseDialog(p).form == p.form
  {
  }

  /** Opening the dialog touches neither the list nor the form. */
  lemma OpenKeepsListAndForm(p: Page)
    ensures OpenDialog(p).open
    ensures OpenDialog(p).agents == p.agents
    ensures OpenDialog(p).form == p.form
  {
  }

  /** The guard tests emptiness only: a blank name or a name already in the
      list is accepted. */
  lemma GuardTestsEmptinessOnly(p: Page, now: string)
    requires p.agents != []
    ensures CreateResult(p.form[ "agentName" := " " ], now).Success?
    ensures var q := p.(form := p.form[ "agentName" := p.agents[0].name ]);
            p.agents[0].name != "" ==>
              CreateResult(q.form, now).Success? &&
              Submit(q, now).agents[0].name == Submit(q, now).agents[1].name
  {
  }

  // ---------------------------------------------------------------------
  // Properties of runs of actions

  /** Every action keeps every input of the dialog in the form. */
  lemma StepKeepsWellFormed(p: Page, e: Event)
    requires WellFormed(p.form)
    ensures WellFormed(Step(p, e).form)
  {
  }

  lemma {:induction false} RunKeepsWellFormed(p: Page, evs: seq<Event>)
    requires WellFormed(p.form)
    ensures WellFormed(Run(p, evs).form)
    decreases |evs|
  {
    if evs != [] {
      StepKeepsWellFormed(p, evs[0]);
      RunKeepsWellFormed(Step(p, evs[0]), evs[1..]);
    }
  }

  /** One action changes the list only by putting what it adds in front. */
  lemma StepAgents(p: Page, e: Event)
    ensures Step(p, e).agents == Added(p, e) + p.agents
    ensures |Added(p, e)| <= 1
  {
  }

  /** Sequence step behind NewestFirst: if r lists c' newest first in front of
      a + tail, it lists a + c' newest first in front of tail. */
  lemma ListsNewestFirst<T>(r: seq<T>, a: seq<T>, c': seq<T>, tail: seq<T>)
    requires |a| <= 1
    requires |r| == |c'| + |a| + |tail|
    requires forall k :: 0 <= k < |c'| ==> r[|c'| - 1 - k] == c'[k]
    requires r[|c'|..] == a + tail
    ensures forall k :: 0 <= k < |a + c'| ==> r[|a + c'| - 1 - k] == (a + c')[k]
    ensures r[|a + c'|..] == tail
  {
    var c := a + c';
    forall k | 0 <= k < |c|
      ensures r[|c| - 1 - k] == c[k]
    {
      if k < |a| {
        assert r[|c| - 1 - k] == r[|c'|..][0];
      } else {
        assert c[k] == c'[k - |a|];
      }
    }
    assert r[|c|..] == r[|c'|..][|a|..];
  }

  /** The list is newest first: after any actions the k-th record created
      (counting from 0) sits at index |C| - 1 - k, so a later record is always
      at a smaller index, and the list from before sits, unchanged, behind them. */
  lemma {:induction false} NewestFirst(p: Page, evs: seq<Event>)
    ensures |Run(p, evs).agents| == |Created(p, evs)| + |p.agents|
    ensures forall k :: 0 <= k < |Created(p, evs)| ==>
              Run(p, evs).agents[|Created(p, evs)| - 1 - k] == Created(p, evs)[k]
    ensures Run(p, evs).agents[|Created(p, evs)|..] == p.agents
    decreases |evs|
  {
    if evs != [] {
      var q := Step(p, evs[0]);
      StepAgents(p, evs[0]);
      NewestFirst(q, evs[1..]);
      ListsNewestFirst(Run(q, evs[1..]).agents, Added(p, evs[0]), Created(q, evs[1..]), p.agents);
    }
  }

  /** Of two records created one after the other, the later one is listed first. */
  lemma LaterCreatedListedFirst(p: Page, evs: seq<Event>, i: nat, j: nat)
    requires i < j < |Created(p, evs)|
    ensures var c, r := Created(p, evs), Run(p, evs).agents;
            var ii, jj := |c| - 1 - i, |c| - 1 - j;
            0 <= jj < ii < |r| && r[jj] == c[j] && r[ii] == c[i]
  {
    NewestFirst(p, evs);
  }

  /** Starting from the initial page, the seed agent always stays last. */
  lemma SeedStaysLast(evs: seq<Event>)
    ensures var r := Run(Initial(), evs).agents;
            |r| >= 1 && r[|r| - 1] == SeedAgent
  {
    NewestFirst(Initial(), evs);
    var c, r := Created(Initial(), evs), Run(Initial(), evs).agents;
    assert r[|r| - 1] == r[|c|..][0];
  }

  /** Running two sequences of actions one after the other is running
      their concatenation. */
  lemma {:induction false} RunAppend(p: Page, a: seq<Event>, b: seq<Event>)
    ensures Run(p, a + b) == Run(Run(p, a), b)
    decreases |a|
  {
    if a == [] {
      assert a + b == b;
    } else {
      assert (a + b)[0] == a[0] && (a + b)[1..] == a[1..] + b;
      RunAppend(Step(p, a[0]), a[1..], b);
    }
  }

  /** A run of a single action is that action's step. */
  lemma RunOne(p: Page, e: Event)
    ensures Run(p, [e]) == Step(p, e)
  {
    assert [e][1..] == [];
  }

  /** Three actions in a row, from the two lemmas above. */
  lemma RunThreeSteps(p: Page, e1: Event, e2: Event, e3: Event)
    ensures Run(p, [e1, e2, e3]) == Step(Step(Step(p, e1), e2), e3)
  {
    assert [e1, e2, e3] == [e1] + ([e2] + [e3]);
    RunAppend(p, [e1], [e2] + [e3]);
    RunAppend(Run(p, [e1]), [e2], [e3]);
    RunOne(p, e1);
    RunOne(Step(p, e1), e2);
    RunOne(Step(Step(p, e1), e2), e3);
  }

  // ---------------------------------------------------------------------
  // Scenarios

  /** Pressing Create with "Agent 2" typed and no phone chosen. */
  lemma CreateSecondAgent(p: Page, now: string)
    requires p == Page(true, [SeedAgent], EmptyForm()["agentName" := "Agent 2"])
    requires now == "2025-10-01T09:30:00.000Z"
    ensures Submit(p, now) == Page(false, [Agent("Agent 2", "Pipecat Agent", "-", "2025-10-01"), SeedAgent], EmptyForm())
  {
    assert Lookup(p.form, "agentName") == "Agent 2";
    assert Lookup(p.form, "phoneNumber") == "";
    DatePartOfTimestamp(now);
    assert now[..10] == "2025-10-01";
    assert NewAgent(p.form, now) == Agent("Agent 2", "Pipecat Agent", "-", "2025-10-01");
  }

  /** Open, type "Agent 2", create: the new agent, with the phone placeholder
      and the date of the timestamp, is listed above the seed agent. */
  lemma SecondAgentScenario()
    ensures Run(Initial(), [Open, Change("agentName", "Agent 2"), Create("2025-10-01T09:30:00.000Z")]) ==
            Page(false, [Agent("Agent 2", "Pipecat Agent", "-", "2025-10-01"), SeedAgent], EmptyForm())
  {
    var now := "2025-10-01T09:30:00.000Z";
    RunThreeSteps(Initial(), Open, Change("agentName", "Agent 2"), Create(now));
    CreateSecondAgent(Page(true, [SeedAgent], EmptyForm()["agentName" := "Agent 2"]), now);
  }

  /** Open, type a system prompt, cancel: the dialog closes, the list is
      unchanged and the typed prompt is still in the form. */
  lemma CancelScenario()
    ensures var q := Run(Initial(), [Open, Change("systemPrompt", "Be brief."), Close]);
            !q.open && q.agents == [SeedAgent] && Lookup(q.form, "systemPrompt") == "Be brief."
  {
    RunThreeSteps(Initial(), Open, Change("systemPrompt", "Be brief."), Close);
  }
}
