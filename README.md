# StoryAgents: the story loop in Dafny

StoryAgents writes a story by role play. Language-model agents play the characters of a fictional world. A controller decides, round by round, who speaks next. When the game is over, a writer turns the transcript into a story. This project models the turn-taking core of that system and proves what each step does to the shared state.

There are two generations of the loop, and each is modelled in its own terms.

- **The `StoryAgent` package.** Its state record is `AgentState`: a transcript of `(sender, content)` pairs, the actor registry, the current actor, and a structured `WorldInfo`. It has three units:
  - the controller (`controller.dfy`) parses the model's reply for a `<state>` block and an `<actor>` block;
  - an actor (`actor.dfy`) appends its character's line;
  - the writer (`writer.dfy`) appends the story under `STORY_WRITER` and sets the current actor to LangGraph's `END`.

  Each unit is a pure function from the old state and the model's reply to the new state. Its prompt is modelled as titled sections whose bodies are rendered exactly: the character list, the other characters, the world, and the history. `config.dfy` renders `ActorInfo.brief`, `str(ActorInfo)` and `str(WorldInfo)`. `agent.dfy` holds the state record, the sections several units share, and the invariant every unit keeps. `units.dfy` composes unit calls in any order.
- **The driver in `main.py`** (`workflow.dfy`). Its state is a transcript of plain strings, the next agent's name, the scene and the world text. It has three kinds of node:
  - an acting agent appends its reply;
  - the controller sets the next agent to its stripped reply;
  - the summarizer appends the story and sets `END`.

  `should_continue` decides, after every agent turn, whether the controller or the summarizer comes next. The compiled LangGraph graph becomes an explicit scheduler:
  - `Exec` is the reference run and `Step` is one node call plus its outgoing edge;
  - `RunWorkflow` is the driver's loop, and is proved equal to `Exec`;
  - `CollectActingIds` is the loop that registers one node per acting agent.

  Each node call takes the next model reply from a list.

`text.dfy` holds the string operations both generations rely on:
- the search that `re.search(open(.*?)close, re.DOTALL)` performs;
- Python's `in` on strings (`Contains`), which `main.py:169` and `main.py:173` use;
- Python's `str.strip` over the `str.isspace` characters;
- `"\n".join`;
- `str(int)`.

It also holds `Lines`, which is `split("\n")`. The code never splits a string; `Lines` is there only to state the rendering lemmas `BriefIsFiveLines`, `ActorTextLines` and `WorldTextLines`.

Some behaviour of the code worth stating outright:
- There is no `<think>` stripping: `actor.py:42` renders every transcript entry unfiltered, and so does the model.
- `main.py:169` counts the messages without the marker text "=== The Chronicler's Tale ===", and `main.py:173` stops on any message that has it. The model does the same.
- The code has no overall turn budget and no language setting.
- `should_continue` is wired with its default `max_iter = 1`. The model takes the budget as a parameter, and `Budget(maxIter) = max(1, maxIter)` is the number of acting rounds a run can have.

## Model

| member | source | states |
|---|---|---|
| Text.Find | StoryAgent/agents/controller.py:56-59 | the result is the first index at or after `from` where the pattern occurs; none means it occurs nowhere from there on |
| Text.Contains | main.py:169-173 | Python's `in` on strings: it holds exactly when the pattern occurs at some index |
| Text.Strip | StoryAgent/agents/controller.py:57 | the result is a slice of the input, with no whitespace at either end; everything cut off is whitespace; the result is empty exactly when the input is all whitespace |
| Text.StripIdempotent | StoryAgent/agents/controller.py:57 | stripping an already-stripped string changes nothing |
| Text.StripContains | StoryAgent/agents/controller.py:57 | stripping never introduces a substring |
| Text.IntToDecimal | StoryAgent/config/config.py:31 | `str(age)`: its ensures give a non-empty rendering without a line break; `IntToDecimalRoundTrip` shows it reads back as the age, and `IntToDecimalCanonical` that it has no padding such as "007" or "-0" |
| Text.IntToDecimalRoundTrip | StoryAgent/config/config.py:31 | the rendered age parses back to the same integer, negative ages included |
| Text.NatToDecimalCanonical | StoryAgent/config/config.py:31 | the digits of a rendered natural number have no leading zero, and zero is rendered as "0" |
| Text.IntToDecimalCanonical | StoryAgent/config/config.py:31 | `str(age)` is canonical: "0" for zero, otherwise an optional minus sign followed by digits without a leading zero, the sign exactly for negative ages |
| Config.Brief | StoryAgent/config/config.py:28-33 | `ActorInfo.brief()`; no contract of its own: `BriefIsFiveLines` gives its five lines and `ActorText` shows it opens `str(ActorInfo)` |
| Config.ActorText | StoryAgent/config/config.py:35-36 | `str(ActorInfo)` begins with `brief()` |
| Config.BriefIsFiveLines | StoryAgent/config/config.py:28-33 | `brief()` is exactly the name, gender, age, faction and appearance lines, in that order |
| Config.ActorTextLines | StoryAgent/config/config.py:35-40 | `str(ActorInfo)` is the brief's lines, then personality, goal, "Backstories:", then one `"  - "` line per backstory in list order |
| Config.WorldText | StoryAgent/config/config.py:54-58 | `str(WorldInfo)` ends with `"Current state: " + state` |
| Config.WorldTextLines | StoryAgent/config/config.py:54-58 | `str(WorldInfo)` is the description line, "Rules:", one `"  - "` line per rule in order, then the current-state line |
| Agent.HistorySectionAt | StoryAgent/agents/actor.py:42 | every transcript entry is rendered, in order and unfiltered, between the entries before it and those after it |
| Agent.HistoryEntryShows | StoryAgent/agents/actor.py:42 | an entry's rendering shows its sender and then its content |
| Agent.HistorySection | StoryAgent/agents/actor.py:42 | the Role Play History section, written the same way at controller.py:38 and writer.py:28; no contract of its own: `HistorySectionAt` and `HistoryEntryShows` state what it shows |
| Agent.CharactersSectionAt | StoryAgent/agents/controller.py:30 | every registered actor is listed, in registry order, under its id and with its full description |
| Agent.CharactersSection | StoryAgent/agents/controller.py:30 | the Characters section, written the same way at writer.py:20; no contract of its own: `CharactersSectionAt` states what it lists |
| Controller.TagSpan | StoryAgent/agents/controller.py:56-58 | the match found is a real match of `open(.*?)close`, the leftmost one, and the shortest at that start; none means the pattern matches nowhere |
| Controller.TagContent | StoryAgent/agents/controller.py:56-59 | `.group(1)` of the search: some text exactly when `TagSpan` finds a match, and that text never holds the closing tag; `ExtractTag` adds the strip |
| Controller.ExtractTag | StoryAgent/agents/controller.py:56-59 | a value is found exactly when the pattern matches; the value never contains the closing tag and has no whitespace at either end |
| Controller.Route | StoryAgent/agents/controller.py:55-72 | it succeeds exactly when both blocks are present and otherwise names the missing block (state first); on success the transcript, registry, world description and rules are unchanged, the new current state is the stripped `<state>` text and the next actor the stripped `<actor>` text, not checked against the registry |
| Controller.RouteTakesFirstBlocks | StoryAgent/agents/controller.py:56-59 | the new state and actor come from the leftmost, shortest match of each pattern, stripped |
| Controller.RouteNeedsStateBlock | StoryAgent/agents/controller.py:56-57 | the call fails on the state block exactly when `<state>(.*?)</state>` matches nowhere |
| Controller.RouteNeedsActorBlock | StoryAgent/agents/controller.py:58-59 | with a state block present, the call fails on the actor block exactly when `<actor>(.*?)</actor>` matches nowhere |
| Controller.RouteOfFormat | StoryAgent/agents/controller.py:40-43 | a reply laid out as the prompt asks parses back to the stripped state text and the stripped actor id, whenever the state text holds neither `</state>` nor `<actor>` and the actor text holds no `</actor>` (other `<` characters are allowed) |
| Controller.RouteExample | StoryAgent/agents/controller.py:56-72 | the reply `<state> calm evening </state>\n<actor> thorn </actor>` yields the state "calm evening" and the actor "thorn" |
| Controller.ControllerPrompt | StoryAgent/agents/controller.py:24-48 | the controller's prompt sections; no contract of its own: `ControllerPromptListsActor` and `ControllerPromptListsMessage` state what it shows |
| Controller.ControllerPromptListsActor | StoryAgent/agents/controller.py:30 | the controller's prompt lists every actor id with its full description, in registry order |
| Controller.ControllerPromptListsMessage | StoryAgent/agents/controller.py:38 | the controller's prompt shows every message, in transcript order |
| Actor.OtherActors | StoryAgent/agents/actor.py:34 | an entry is kept exactly when it is registered under an id other than the unit's own |
| Actor.OtherActorsConcat | StoryAgent/agents/actor.py:34 | the filter keeps registry order |
| Actor.OtherActorsCount | StoryAgent/agents/actor.py:34 | with unique ids, exactly one entry is dropped when the unit is registered, and none otherwise |
| Actor.OthersSection | StoryAgent/agents/actor.py:34 | the Other Characters section; no contract of its own: `ActorPromptListsOther` and `ActorPromptOmitsSelf` state whom it shows |
| Actor.ActorPrompt | StoryAgent/agents/actor.py:24-48 | the actor's prompt sections; no contract of its own: `ActorPromptListsOther`, `ActorPromptOmitsSelf` and `ActSeenInHistory` state what it shows |
| Actor.ActorPromptListsOther | StoryAgent/agents/actor.py:34 | every other character is shown by name and brief, in order, and none is the unit itself |
| Actor.ActorPromptOmitsSelf | StoryAgent/agents/actor.py:34 | a registered entry is among the other characters exactly when its id differs from the unit's |
| Actor.Act | StoryAgent/agents/actor.py:60-65 | the transcript gains exactly one entry, `(name, reply)`, with the old transcript as a prefix; the current actor becomes the unit's id, not its name; the registry and world are unchanged |
| Actor.ActSeenInHistory | StoryAgent/agents/actor.py:61 | the history section of every later prompt ends with the new line |
| Writer.WriterPrompt | StoryAgent/agents/writer.py:15-35 | the writer's prompt sections; no contract of its own: `WriterPromptListsActor` and `WriterPromptListsMessage` state what it shows |
| Writer.WriterPromptListsActor | StoryAgent/agents/writer.py:20 | the writer's prompt lists every actor with its full description, in order |
| Writer.WriterPromptListsMessage | StoryAgent/agents/writer.py:28 | the writer's prompt shows the whole transcript, unfiltered and in order |
| Writer.Finalize | StoryAgent/agents/writer.py:46-51 | the transcript gains exactly one entry, the story under `STORY_WRITER`, with the old transcript as a prefix; the current actor becomes `END`; the registry and world are unchanged |
| Writer.FinalizeEndsHistory | StoryAgent/agents/writer.py:47 | after the writer, the history section ends with the story under `STORY_WRITER` |
| Units.ApplyAll | StoryAgent/agents/agent.py:20-22 | unit calls one after another, each a state-to-state `__call__`, stopping at the first controller failure; no contract of its own: `ApplyAllEvolves` and `ApplyAllEndsWithWriter` state what every sequence keeps |
| Units.ApplyAllEvolves | StoryAgent/agents/agent.py:9-13 | in any order of unit calls, the transcript only grows at its end, by one entry per actor or writer call; the registry and the world's description and rules never change |
| Units.ApplyAllEndsWithWriter | StoryAgent/agents/writer.py:46-51 | whatever came before, a writer call ends with `END` and the story as the last entry |
| Workflow.AgentNode | main.py:76-81 | an acting agent appends exactly its reply and leaves the current agent, scene and world unchanged |
| Workflow.ControllerNode | main.py:118-124 | the controller sets the next agent to its stripped reply and changes nothing else |
| Workflow.SummarizerNode | main.py:156-161 | the summarizer appends its story and sets the next agent to `END` |
| Workflow.ActingMessages | main.py:169 | a message is kept exactly when it lacks the marker; when none has it, all are kept |
| Workflow.ActingMessagesConcat | main.py:169 | the filter keeps transcript order |
| Workflow.Summarized | main.py:173 | the `any(...)` test: some message carries the marker; no contract of its own: `ShouldContinue`'s ensures spells its negation out over every message |
| Workflow.ShouldContinue | main.py:165-184 | another round follows exactly when no message has the marker and fewer than `maxIter` messages exist |
| Workflow.ShouldContinueDefault | main.py:165 | with the default budget of one, another round follows only while the transcript is empty |
| Workflow.ActingIds | main.py:193-195 | a configured name becomes an acting node exactly when it is neither "story_controller" nor "summarizer" |
| Workflow.ActingIdsConcat | main.py:193-195 | the acting names keep configuration order |
| Workflow.CollectActingIds | main.py:193-196 | the node-registering loop collects exactly the acting names, in configuration order |
| Workflow.Initial | main.py:237-242 | the initial state: empty transcript, the controller as current agent, the given scene and world text; no contract of its own: `Invoke` starts from it, so `ContextNeverChanges`, `FirstRouteFails` and `OneRoundRun` speak about runs from it |
| Workflow.Step | main.py:207-229 | the controller goes to the agent it named, and any other answer has no edge; an agent goes to the controller exactly when `should_continue` holds, otherwise to the summarizer; the summarizer goes to `END`; the state passed on is the node's new state |
| Workflow.Exec | main.py:204-229 | the compiled graph followed edge by edge: the trace it returns extends the one given and has no more calls than there are replies, and running out of replies means every reply was used; `ExecOutcome` states how every run ends |
| Workflow.Invoke | main.py:233-247 | `app.invoke(initial_state)`: the reference run from the controller and the initial state; no contract of its own: `RunWorkflow`, `FinishedRun`, `RunFinishes` and the example runs state it |
| Workflow.RunWorkflow | main.py:186-247 | the driver's loop produces the same run as the graph's reference run |
| Workflow.ExecOutcome | main.py:204-229 | every run ends as `Outcome` says: finished, stopped at a routing error, or out of replies, with its invariants |
| Workflow.FinishedRun | main.py:204-229 | a finished run played between one and `max(1, maxIter)` rounds of controller then agent, then called the summarizer, and leaves `END` as the next agent |
| Workflow.FinishedRunStopsAtBudgetOrMarker | main.py:169-184 | a finished run stopped at the first point allowed: only the last agent line may have the marker, and either it has it or the budget is used up |
| Workflow.FinishedWithoutMarkerUsesBudget | main.py:178-180 | without the marker, a finished run played exactly `max(1, maxIter)` acting rounds |
| Workflow.RunTranscript | main.py:76-81 | each transcript entry before the story is the reply of the agent called in that round, in order |
| Workflow.OnlyNamedAgentsAct | main.py:221-225 | only acting agents are called, each right after the controller call that named it |
| Workflow.ContextNeverChanges | main.py:76-161 | the scene and world text at the end are the ones the run started with |
| Workflow.RoutingErrorRun | main.py:221-225 | a routing error comes from a controller call whose stripped reply is no acting agent, and that name is left as the next agent |
| Workflow.RunFinishes | main.py:204-229 | with a reply for every call the budget allows, and every controller reply that is actually requested (no earlier agent line carried the marker) naming an acting agent, the run reaches `END`; replies after an early marker are unconstrained |
| Workflow.FirstRouteFails | main.py:221-225 | a first controller reply naming no acting agent stops the run after one call, with an empty transcript |
| Workflow.DefaultBudgetRun | main.py:165 | with the default budget, a finished run has one controller call, one agent call and the summarizer, and two messages |
| Workflow.ConfiguredAgentsAct | config/agents.py:3-22 | all three configured agents become acting nodes, in configuration order |
| Workflow.OneRoundRun | main.py:237-242 | from the initial state with the default budget, the controller names the forest shaman, who speaks once, and the summarizer ends the run |
| Workflow.TwoRoundRun | main.py:237-242 | with a budget of two and a first line without the marker, the royal advisor then the forest shaman speak, and the summarizer ends the run |
| Workflow.MarkerStopsRun | main.py:173-175 | whatever the budget, a first agent line with the marker sends the run `["royal_advisor", line, story]` on the configured agents straight to the summarizer |
| Workflow.MarkerStopsAnyStep | main.py:173-175 | at any step of any run, an acting agent's reply with the marker goes to the summarizer, carrying the node's new state |
| Workflow.UnknownAgentRun | main.py:221-225 | the answer "unknown_actor" is a routing error at the first step, with nothing appended; `FirstRouteFails` states this for every answer naming no acting agent |

## Left out

- Model calls (`openai.chat.completions.create`, `self.llm.invoke`) are network calls. Each reply is an input string, and a finite list of replies drives the driver. Running out of replies (`OutOfReplies`) stands for a failed call.
- Logging, `.env` loading, API-key and base-URL setup, and the printing of the final story in `main.py` are output or process setup with no effect on the state.
- `ActorInfo.from_file` and `WorldInfo.from_file` are file and JSON input. Records are given as values.
- Prompt boilerplate is left out. The package prompts are titled sections with exactly rendered bodies, and the English instruction text around them is not modelled. The `main.py` prompts (Chinese instructions, `WORLD_RULES`, the agent persona) are not modelled at all, because they only reach the model, which is a parameter. `config/world_rules` is not part of this model.
- The LangGraph `StateGraph`, its `compile`/`invoke` and its default recursion limit are replaced by the explicit scheduler. A run in the model stops only at `END`, at a missing edge, or when the replies run out.
- Unit construction is left out. `ActorAgent.__init__` (actor.py:16-22) stores its id and record and sets up logging, and an actor unit is the value `ActorAgent(actorId, actorInfo)`. `WriterAgent.__init__` (writer.py:11-13) takes no arguments and only sets up a logger. `ControllerAgent.__init__` (controller.py:17-22) also calls `get_llm`.
- `get_llm` (llm.py:12-17) checks the model name against the two supported names and raises `ValueError` for any other name, then builds a client with `init_chat_model`. The model has no client, so the construction-time failure for an unsupported model name is not modelled.
- The package never wires its units into a graph. `units.dfy` therefore states only what holds for every order of calls, and nothing requires `current_actor` to equal the unit's id before an actor call: `ActorAgent.__call__` (actor.py:50-65) never reads it.
- The two generations are separate models over separate states, with no translation between the `main.py` state and `AgentState`.
- Unicode: strings are sequences of characters. Whitespace is exactly Python's `str.isspace` set, and no normalisation is modelled.
