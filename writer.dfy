/** The story writer (`WriterAgent`): it reads the whole game and appends the finished
    story under its own sender name, then ends the run. */
module Writer {
  import opened Text
  import opened Config
  import opened Agent

  /** The sender name of the writer's transcript entry. */
  const WRITER_ID: string := "STORY_WRITER"

  /** The writer's prompt: every actor's full description under its id, the world,
      and the whole transcript. */
  function WriterPrompt(s: AgentState): seq<Section>
  {
    [Section("Characters", CharactersSection(s.actors)),
     Section("World State", WorldText(s.worldState)),
     Section("Role Play History", HistorySection(s.messages))]
  }

  /** Every message of the game reaches the writer, in order. */
  lemma WriterPromptListsMessage(s: AgentState, k: nat)
    requires k < |s.messages|
    ensures WriterPrompt(s)[2].body ==
      JoinMapBefore(s.messages[..k], HistoryEntry, "\n")
      + ("### " + s.messages[k].sender + "'s Round\n" + s.messages[k].content + "\n")
      + JoinMapAfter(s.messages[k + 1..], HistoryEntry, "\n")
  {
    HistorySectionAt(s.messages, k);
  }

  /** Every registered actor reaches the writer with its full description. */
  lemma WriterPromptListsActor(s: AgentState, k: nat)
    requires k < |s.actors|
    ensures WriterPrompt(s)[0].body ==
      JoinMapBefore(s.actors[..k], CharacterEntry, "\n")
      + ("### ID: " + s.actors[k].id + "\n" + ActorText(s.actors[k].info) + "\n")
      + JoinMapAfter(s.actors[k + 1..], CharacterEntry, "\n")
  {
    CharactersSectionAt(s.actors, k);
  }

  /** `WriterAgent.__call__` once the model has replied with `story`: the story is
      appended under the writer's name and the current actor becomes `END`. */
  function Finalize(s: AgentState, story: string): (r: AgentState)
    ensures Evolves(s, r)
    ensures |r.messages| == |s.messages| + 1
    ensures r.messages[|s.messages|] == Message(WRITER_ID, story)
    ensures r.currentActor == END
    ensures r.worldState == s.worldState
  {
    AgentState(s.messages + [Message(WRITER_ID, story)], s.actors, END, s.worldState)
  }

  /** After the writer, the transcript ends with the story, which the history section
      shows last. */
  lemma FinalizeEndsHistory(s: AgentState, story: string)
    ensures HistorySection(Finalize(s, story).messages) ==
      JoinMapBefore(s.messages, HistoryEntry, "\n")
      + ("### " + WRITER_ID + "'s Round\n" + story + "\n")
  {
    HistorySectionSnoc(s.messages, Message(WRITER_ID, story));
  }
}
