/** The state record threaded through the story units (`AgentState`), and the prompt
    sections that more than one unit renders from it: the character list keyed by
    actor id and the role-play history. */
module Agent {
  import opened Text
  import opened Config

  /** One transcript entry, the `(sender, content)` pair. */
  datatype Message = Message(sender: string, content: string)

  /** One `actor_id -> ActorInfo` entry of the `actors` dictionary. */
  datatype ActorEntry = ActorEntry(id: string, info: ActorInfo)

  /** `AgentState`. The `actors` dictionary is kept as its entries in insertion order,
      which is the order in which prompts list them. */
  datatype AgentState = AgentState(
    messages: seq<Message>,
    actors: seq<ActorEntry>,
    currentActor: string,
    worldState: WorldInfo)

  /** LangGraph's `END` node name, the terminal value of `current_actor`. */
  const END: string := "__end__"

  /** The ids of the `actors` dictionary, in order. */
  function Ids(actors: seq<ActorEntry>): seq<string>
  {
    seq(|actors|, i requires 0 <= i < |actors| => actors[i].id)
  }

  /** Dictionary keys are unique. */
  ghost predicate UniqueIds(actors: seq<ActorEntry>)
  {
    forall i, j :: 0 <= i < j < |actors| ==> actors[i].id != actors[j].id
  }

  /** What every unit call keeps: the transcript only grows at its end, the actor
      registry is untouched, and the world's description and rules never change. */
  ghost predicate Evolves(s: AgentState, t: AgentState)
  {
    && s.messages <= t.messages
    && t.actors == s.actors
    && t.worldState.description == s.worldState.description
    && t.worldState.rules == s.worldState.rules
  }

  /** One titled part of a prompt; the instruction text around the parts is not modelled. */
  datatype Section = Section(title: string, body: string)

  // ---------------------------------------------------------------------------
  // "## Role Play History"

  /** `f"### {sender}'s Round\n{content}\n"`. */
  function HistoryEntry(m: Message): string
  {
    "### " + m.sender + "'s Round\n" + m.content + "\n"
  }

  /** The history section: every transcript entry rendered, joined by newlines. */
  function HistorySection(ms: seq<Message>): string
  {
    JoinMap(ms, HistoryEntry, "\n")
  }

  /** Every message is rendered, unfiltered and in transcript order: the rendering of
      message `k` stands between the rendering of the messages before it and that of
      the messages after it. */
  lemma HistorySectionAt(ms: seq<Message>, k: nat)
    requires k < |ms|
    ensures HistorySection(ms) ==
      JoinMapBefore(ms[..k], HistoryEntry, "\n") + HistoryEntry(ms[k])
      + JoinMapAfter(ms[k + 1..], HistoryEntry, "\n")
  {
    JoinMapAt(ms, HistoryEntry, "\n", k);
  }

  /** The entry for a message shows its sender and then its content. */
  lemma HistoryEntryShows(m: Message)
    ensures HistoryEntry(m)[4..4 + |m.sender|] == m.sender
    ensures var at := 4 + |m.sender| + 9; HistoryEntry(m)[at..at + |m.content|] == m.content
  {
  }

  /** Appending a message to the transcript appends its entry to the history section. */
  lemma HistorySectionSnoc(ms: seq<Message>, m: Message)
    ensures HistorySection(ms + [m]) == JoinMapBefore(ms, HistoryEntry, "\n") + HistoryEntry(m)
  {
    JoinMapSnoc(ms, m, HistoryEntry, "\n");
  }

  // ---------------------------------------------------------------------------
  // "## Characters" (controller and writer)

  /** `f"### ID: {actor_id}\n{actor_info}\n"`. */
  function CharacterEntry(e: ActorEntry): string
  {
    "### ID: " + e.id + "\n" + ActorText(e.info) + "\n"
  }

  /** The full description of every registered actor, headed by its id. */
  function CharactersSection(actors: seq<ActorEntry>): string
  {
    JoinMap(actors, CharacterEntry, "\n")
  }

  /** Every actor is listed, in dictionary order, under a heading that names its id and
      followed by its full description. */
  lemma CharactersSectionAt(actors: seq<ActorEntry>, k: nat)
    requires k < |actors|
    ensures CharactersSection(actors) ==
      JoinMapBefore(actors[..k], CharacterEntry, "\n") + CharacterEntry(actors[k])
      + JoinMapAfter(actors[k + 1..], CharacterEntry, "\n")
  {
    JoinMapAt(actors, CharacterEntry, "\n", k);
  }
}
