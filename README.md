# Agents page: the create-agent state machine

This project models the agents page of an AI sales-development dashboard
(`src/app/agents/agents.js`, the `Agents` component). The page has three
pieces of in-memory state:

- a flag saying whether the "Create New Agent" dialog is open;
- the list of agent records shown in the table, newest first, seeded with
  one placeholder agent;
- a flat form with eleven text inputs, all starting empty.

Four handlers change that state:

- the "Create New Agent" button opens the dialog;
- Cancel, the X button, and a click outside the dialog or the Escape key close it;
- every input's change event overwrites one form entry;
- the Create button either reports that the agent name is required, or
  builds a record, puts it at the head of the list, empties the form and
  closes the dialog. The record gets the fixed type "Pipecat Agent", the
  chosen phone number or `-`, and the date part of the current timestamp.

The model has two modules.

- `AgentState` (`agent_state.dfy`) holds the values: `Agent` records, the
  form as a `map<string, string>`, a `Page` snapshot, and one transition
  function per handler (`OpenDialog`, `CloseDialog`, `ChangeField`,
  `Submit`). `Step` and `Run` replay a sequence of user actions, and the
  lemmas state what each action does and what holds after any run.
- `AgentsPage` (`agents_page.dfy`) holds the class `Agents` with the
  fields `open`, `agents` and `form`. Its methods `Open`, `Close`, `Update`
  and `Create` update those fields in place. Each method states its new
  state outright and also as `Step` of the old `Snapshot()`. So the lemmas
  about runs apply to any sequence of calls.

The form is a map because the change handler writes the property named by
the input (`{...s, [name]: value}`), whatever that name is. Reading a
missing entry gives `""`, which is falsy like an undefined property. The
component's `alert` becomes the `Failure(NameRequired)` result of `Create`.
The clock is not modelled: `Create` receives the ISO timestamp as `now` and
stores `DatePart(now)`, the text before the first `T`.

Cancel, the X button and the dialog's own close handler (a click outside
the dialog or the Escape key) only set the flag to false. The form is not
reset, so edits survive a cancel (`CloseKeepsListAndForm`,
`CancelScenario`). A create with an empty name leaves the flag untouched.
In the page that means the dialog stays open, because the Create button is
only reachable while it is open.

## Model

| member | source | states |
|---|---|---|
| AgentState.EmptyForm | src/app/agents/agents.js:42-54 | the initial form has an entry for each of the eleven inputs and no other, and every entry is "" |
| AgentState.DatePart | src/app/agents/agents.js:69 | `split("T")[0]`: the result is a prefix of the timestamp, contains no 'T', and is all of it unless it stops at the first 'T' |
| AgentState.DatePartOfTimestamp | src/app/agents/agents.js:69 | for a timestamp with its first 'T' at index 10 (ISO form), the stored date is its first ten characters |
| AgentState.InitialPage | src/app/agents/agents.js:29-54 | initially the dialog is closed, the list is exactly the seed agent ("Agent 1", "Pipecat Agent", "+1234567890", "2025-09-26"), and every input is "" |
| AgentState.ChangeSetsOneField | src/app/agents/agents.js:56-57 | a change sets the named entry to the value; the key set grows by at most that name; every other entry, the list and the flag are unchanged |
| AgentState.CreateFailsIffNameEmpty | src/app/agents/agents.js:60-64 | create reports NameRequired if and only if the agent name is empty, and the alert text for that error is "Agent name is required" |
| AgentState.CreateWithEmptyNameChangesNothing | src/app/agents/agents.js:60-64 | with an empty name, create reports the error and the whole page (list, form, flag) is as before |
| AgentState.NewAgentFields | src/app/agents/agents.js:65-70 | the record's name is the form's agentName, its type is always "Pipecat Agent", its phone is phoneNumber when non-empty and "-" otherwise, its date is the date part of the timestamp |
| AgentState.CreateWithNamePrepends | src/app/agents/agents.js:71-85 | with a non-empty name, the list grows by one, the new record is at index 0, indices 1.. are the old list in order, the form equals the initial form and the dialog is closed |
| AgentState.OpenKeepsListAndForm | src/app/agents/agents.js:95 | opening sets the flag and leaves the list and the form as they were |
| AgentState.CloseKeepsListAndForm | src/app/agents/agents.js:104 | closing (also the X at line 128 and Cancel at line 356) clears the flag and leaves the list and the form, partial edits included, as they were |
| AgentState.GuardTestsEmptinessOnly | src/app/agents/agents.js:60 | a blank name " " is accepted, and so is a name equal to the newest agent's, giving two records of that name |
| AgentState.StepKeepsWellFormed | src/app/agents/agents.js:56-85 | no action removes an input's entry from the form |
| AgentState.RunKeepsWellFormed | src/app/agents/agents.js:56-85 | after any sequence of actions every input still has a form entry |
| AgentState.StepAgents | src/app/agents/agents.js:71 | an action changes the list only by putting what it adds (at most one record) in front of it |
| AgentState.NewestFirst | src/app/agents/agents.js:71 | after any sequence of actions, the k-th record created sits at index (number created - 1 - k), and the earlier list follows them unchanged |
| AgentState.LaterCreatedListedFirst | src/app/agents/agents.js:71 | of two records created in sequence, the later one is at a strictly smaller index |
| AgentState.SeedStaysLast | src/app/agents/agents.js:32-39 | from the initial page, whatever happens, the seed agent stays the last row |
| AgentState.RunAppend | src/app/agents/agents.js:56-104 | running two sequences of handler calls one after the other is running their concatenation: the page's state is all a handler depends on |
| AgentState.SecondAgentScenario | src/app/agents/agents.js:59-86 | open, type "Agent 2", create: the list is [Agent 2 with phone "-" and the timestamp's date, Agent 1], the form is empty, the dialog closed |
| AgentState.CancelScenario | src/app/agents/agents.js:356 | open, type a system prompt, cancel: the dialog is closed, the list is unchanged, the prompt is still in the form |
| AgentsPage.Agents.constructor | src/app/agents/agents.js:29-54 | the new component is closed, holds only the seed agent and the empty form, and satisfies the invariant |
| AgentsPage.Agents.Open | src/app/agents/agents.js:95 | sets `open`; `agents` and `form` unchanged; equals the Open transition |
| AgentsPage.Agents.Close | src/app/agents/agents.js:104 | clears `open` (also lines 128, 356; line 104 is the click-outside and Escape handler); `agents` and `form` unchanged; equals the Close transition |
| AgentsPage.Agents.Update | src/app/agents/agents.js:56-57 | `form[field]` becomes the value, every other entry and key is kept, `agents` and `open` unchanged; equals the Change transition |
| AgentsPage.Agents.Create | src/app/agents/agents.js:59-86 | fails exactly on an empty name, with the alert text "Agent name is required", and then changes nothing; otherwise returns the new record, prepends it, empties the form and closes the dialog; keeps the invariant; equals the Create transition |

## Left out

- Rendering: the dialog layout, the table markup and the styling are not modelled. The list order the table shows is the order of `agents`.
- The edit icon in each table row has no handler, so there is nothing to model.
- The select inputs (tools, speech-to-text model, voice model, phone number) offer fixed options in the page. The change handler does not check them, so the model accepts any string for any input.
- The clock read `new Date().toISOString()` is replaced by the parameter `now`.
- The `alert` is a browser side effect; the model returns it as an error result.
- React schedules state updates and re-renders. The model applies each handler's updates at once and in order, as a single event handler sees them.
- `src/app/utils/Header.js`, `src/app/utils/snackbarWrapper.js` and `src/app/agents/page.js` are navigation data, layout and provider wiring with no behaviour, and are not part of this model.
- `bot_fast_api.py` and `server.py` are a voice-bot pipeline over external speech and language services and its HTTP and websocket routes. They are concurrency and foreign calls, and are not part of this model.
