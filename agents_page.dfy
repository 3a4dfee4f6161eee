/** The agents page component: its three pieces of mutable state and the
    handlers that update them. Each handler is tied to the transition of the
    same name in AgentState, so every lemma proved there about runs of
    actions holds of any sequence of calls on an Agents object. */
module AgentsPage {
  import opened AgentState

  class Agents {
    /** Is the create-agent dialog showing? */
    var open: bool
    /** The agents table, newest first. */
    var agents: seq<Agent>
    /** The create-agent form: input name to current text. */
    var form: Form

    /** The object invariant: every dialog input has a form entry, and the
        seed agent is still at the bottom of the list. */
    ghost predicate Valid()
      reads this
    {
      WellFormed(form) && |agents| >= 1 && agents[|agents| - 1] == SeedAgent
    }

    /** The state as a value. */
    function Snapshot(): Page
      reads this
    {
      Page(open, agents, form)
    }

    constructor ()
      ensures Valid()
      ensures !open
      ensures agents == [Agent("Agent 1", "Pipecat Agent", "+1234567890", "2025-09-26")]
      ensures form == EmptyForm()
      ensures Snapshot() == Initial()
    {
      open := false;
      agents := [SeedAgent];
      form := EmptyForm();
    }

    /** The "Create New Agent" button. */
    method Open()
      requires Valid()
      modifies this
      ensures Valid()
      ensures open
      ensures agents == old(agents) && form == old(form)
      ensures Snapshot() == Step(old(Snapshot()), AgentState.Open)
    {
      open := true;
    }

    /** Cancel, the X button, and a click outside the dialog or the Escape
        key. The form is not reset. */
    method Close()
      requires Valid()
      modifies this
      ensures Valid()
      ensures !open
      ensures agents == old(agents) && form == old(form)
      ensures Snapshot() == Step(old(Snapshot()), AgentState.Close)
    {
      open := false;
    }

    /** A change event from the input called `field`. */
    method Update(field: string, value: string)
      requires Valid()
      modifies this
      ensures Valid()
      ensures field in form && form[field] == value
      ensures forall k :: k != field ==> (k in form <==> k in old(form))
      ensures forall k :: k != field && k in form ==> form[k] == old(form)[k]
      ensures agents == old(agents) && open == old(open)
      ensures Snapshot() == Step(old(Snapshot()), Change(field, value))
    {
      form := form[field := value];
    }

    /** The Create button, given the current ISO timestamp. An empty name is
        reported and changes nothing; otherwise the new record goes to the
        head of the list, the form is emptied and the dialog closes. */
    method Create(now: string) returns (r: Result<Agent, CreateError>)
      requires Valid()
      modifies this
      ensures Valid()
      ensures r.Failure? <==> Lookup(old(form), "agentName") == ""
      ensures r.Failure? ==> r.error == NameRequired && ErrorMessage(r.error) == "Agent name is required"
      ensures r.Failure? ==> open == old(open) && agents == old(agents) && form == old(form)
      ensures r.Success? ==> r.value == NewAgent(old(form), now)
      ensures r.Success? ==> agents == [r.value] + old(agents) && form == EmptyForm() && !open
      ensures Snapshot() == Step(old(Snapshot()), AgentState.Create(now))
    {
      if Lookup(form, "agentName") == "" {
        return Failure(NameRequired);
      }
      var newAgent := NewAgent(form, now);
      agents := [newAgent] + agents;
      form := EmptyForm();
      open := false;
      r := Success(newAgent);
    }
  }
}
