/** The character unit (`ActorAgent`): it plays one registered actor, sees the full
    description of itself but only the brief of every other actor, and appends its
    line to the transcript under the character's name. */
module Actor {
  import opened Text
  import opened Config
  import opened Agent

  /** An actor unit: the id it is registered under and the character it plays. */
  datatype ActorAgent = ActorAgent(actorId: string, actorInfo: ActorInfo)

  /** The entries of the registry other than the unit's own, in registry order. */
  function OtherActors(actors: seq<ActorEntry>, selfId: string): (r: seq<ActorEntry>)
    ensures forall e :: e in r <==> e in actors && e.id != selfId
    ensures |r| <= |actors|
  {
    if actors == [] then []
    else (if actors[0].id == selfId then [] else [actors[0]]) + OtherActors(actors[1..], selfId)
  }

  /** Filtering keeps order: filtering a concatenation concatenates the filtered parts. */
  lemma {:induction false} OtherActorsConcat(a: seq<ActorEntry>, b: seq<ActorEntry>, selfId: string)
    ensures OtherActors(a + b, selfId) == OtherActors(a, selfId) + OtherActors(b, selfId)
  {
    if a == [] {
      assert a + b == b;
    } else {
      assert (a + b)[1..] == a[1..] + b;
      OtherActorsConcat(a[1..], b, selfId);
    }
  }

  lemma IdsTail(actors: seq<ActorEntry>, id: string)
    requires actors != [] && id in Ids(actors[1..])
    ensures exists j :: 1 <= j < |actors| && actors[j].id == id
  {
    var j :| 0 <= j < |actors[1..]| && Ids(actors[1..])[j] == id;
    assert actors[j + 1].id == id;
  }

  /** With unique ids, exactly one entry is dropped when the unit is registered, and
      none otherwise. */
  lemma {:induction false} OtherActorsCount(actors: seq<ActorEntry>, selfId: string)
    requires UniqueIds(actors)
    ensures |OtherActors(actors, selfId)| ==
      if selfId in Ids(actors) then |actors| - 1 else |actors|
  {
    if actors != [] {
      var rest := actors[1..];
      assert UniqueIds(rest) by {
        forall i, j | 0 <= i < j < |rest| ensures rest[i].id != rest[j].id {
          assert rest[i] == actors[i + 1] && rest[j] == actors[j + 1];
        }
      }
      OtherActorsCount(rest, selfId);
      var inRest := selfId in Ids(rest);
      if inRest {
        IdsTail(actors, selfId);
        var j :| 1 <= j < |actors| && actors[j].id == selfId;
        assert actors[0].id != selfId;
        assert Ids(actors)[j] == selfId;
      } else if actors[0].id == selfId {
        assert Ids(actors)[0] == selfId;
      } else {
        forall i | 0 <= i < |actors| ensures Ids(actors)[i] != selfId {
          if i > 0 {
            assert Ids(rest)[i - 1] == actors[i].id;
          }
        }
      }
    }
  }

  /** `f"### {name}\n{brief}\n"`: another character, by name and brief only. */
  function OthersEntry(e: ActorEntry): string
  {
    "### " + e.info.name + "\n" + Brief(e.info) + "\n"
  }

  /** "## Other Characters": every other registered actor, in registry order. */
  function OthersSection(actors: seq<ActorEntry>, selfId: string): string
  {
    JoinMap(OtherActors(actors, selfId), OthersEntry, "\n")
  }

  /** The actor's prompt: its own full description, the briefs of the others, the
      world, and the whole transcript. */
  function ActorPrompt(agent: ActorAgent, s: AgentState): seq<Section>
  {
    [Section("Character Description", ActorText(agent.actorInfo)),
     Section("Other Characters", OthersSection(s.actors, agent.actorId)),
     Section("World State", WorldText(s.worldState)),
     Section("Role Play History", HistorySection(s.messages))]
  }

  /** The i-th other character shown is rendered by name and brief, between the ones
      before and after it; every entry shown has an id other than the unit's own, and
      every such registry entry is shown. */
  lemma ActorPromptListsOther(agent: ActorAgent, s: AgentState, i: nat)
    requires i < |OtherActors(s.actors, agent.actorId)|
    ensures var os := OtherActors(s.actors, agent.actorId);
      && os[i] in s.actors && os[i].id != agent.actorId
      && ActorPrompt(agent, s)[1].body ==
        JoinMapBefore(os[..i], OthersEntry, "\n")
        + ("### " + os[i].info.name + "\n" + Brief(os[i].info) + "\n")
        + JoinMapAfter(os[i + 1..], OthersEntry, "\n")
  {
    var os := OtherActors(s.actors, agent.actorId);
    assert os[i] in os;
    JoinMapAt(os, OthersEntry, "\n", i);
  }

  /** The unit never sees itself among the other characters. */
  lemma ActorPromptOmitsSelf(agent: ActorAgent, s: AgentState, e: ActorEntry)
    requires e in s.actors
    ensures e in OtherActors(s.actors, agent.actorId) <==> e.id != agent.actorId
  {
  }

  /** `ActorAgent.__call__` once the model has replied with `reply`: the line is
      appended under the character's name and the unit records itself as the actor
      who spoke. */
  function Act(agent: ActorAgent, s: AgentState, reply: string): (r: AgentState)
    ensures Evolves(s, r)
    ensures |r.messages| == |s.messages| + 1
    ensures r.messages[|s.messages|] == Message(agent.actorInfo.name, reply)
    ensures r.currentActor == agent.actorId
    ensures r.worldState == s.worldState
  {
    AgentState(s.messages + [Message(agent.actorInfo.name, reply)], s.actors, agent.actorId, s.worldState)
  }

  /** What an actor says is what every later prompt's history ends with. */
  lemma ActSeenInHistory(agent: ActorAgent, s: AgentState, reply: string)
    ensures HistorySection(Act(agent, s, reply).messages) ==
      JoinMapBefore(s.messages, HistoryEntry, "\n")
      + ("### " + agent.actorInfo.name + "'s Round\n" + reply + "\n")
  {
    HistorySectionSnoc(s.messages, Message(agent.actorInfo.name, reply));
  }
}
