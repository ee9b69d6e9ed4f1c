/** Any sequence of calls to the story units (controller, actors, writer), each with
    the model's reply it received. The units are independent callables, so no order
    is assumed here; what holds for every order is stated below. */
module Units {
  import opened Agent
  import opened Controller
  import opened Actor
  import opened Writer

  /** One unit call together with the reply the model gave it. */
  datatype Turn =
    | ControllerTurn(reply: string)
    | ActorTurn(agent: ActorAgent, reply: string)
    | WriterTurn(story: string)

  /** Whether the call adds a transcript entry (every unit but the controller does). */
  predicate Speaks(t: Turn)
  {
    !t.ControllerTurn?
  }

  function Apply(s: AgentState, t: Turn): (r: Result<AgentState>)
  {
    match t
    case ControllerTurn(reply) => Route(s, reply)
    case ActorTurn(agent, reply) => Success(Act(agent, s, reply))
    case WriterTurn(story) => Success(Finalize(s, story))
  }

  /** The calls one after another; the first controller reply without both tag blocks
      stops the sequence with its error. */
  function ApplyAll(s: AgentState, ts: seq<Turn>): Result<AgentState>
    decreases |ts|
  {
    if ts == [] then Success(s)
    else match Apply(s, ts[0])
      case Failure(e) => Failure(e)
      case Success(t) => ApplyAll(t, ts[1..])
  }

  /** The number of calls that add a transcript entry. */
  function SpeakingTurns(ts: seq<Turn>): nat
  {
    if ts == [] then 0 else (if Speaks(ts[0]) then 1 else 0) + SpeakingTurns(ts[1..])
  }

  /** One call keeps the unit invariant and adds one entry exactly when it speaks. */
  lemma ApplyEvolves(s: AgentState, t: Turn)
    ensures var r := Apply(s, t);
      r.Success? ==> Evolves(s, r.value) && |r.value.messages| == |s.messages| + (if Speaks(t) then 1 else 0)
  {
  }

  /** Whatever the order of calls: the transcript only grows at its end, by exactly one
      entry per speaking call, the registry is untouched and the world's description
      and rules are never rewritten. */
  lemma {:induction false} ApplyAllEvolves(s: AgentState, ts: seq<Turn>)
    ensures var r := ApplyAll(s, ts);
      r.Success? ==> Evolves(s, r.value) && |r.value.messages| == |s.messages| + SpeakingTurns(ts)
    decreases |ts|
  {
    if ts != [] {
      var a := Apply(s, ts[0]);
      ApplyEvolves(s, ts[0]);
      if a.Success? {
        ApplyAllEvolves(a.value, ts[1..]);
        assert ApplyAll(s, ts) == ApplyAll(a.value, ts[1..]);
      }
    }
  }

  /** A run ending with the writer ends with `END` as the current actor and the story
      as the last transcript entry. */
  lemma ApplyAllEndsWithWriter(s: AgentState, ts: seq<Turn>, story: string)
    ensures ApplyAll(s, ts).Success? ==>
      var r := ApplyAll(s, ts + [WriterTurn(story)]);
      && r.Success? && r.value.currentActor == END
      && r.value.messages == ApplyAll(s, ts).value.messages + [Message(WRITER_ID, story)]
  {
    if ApplyAll(s, ts).Success? {
      ApplyAllSnoc(s, ts, WriterTurn(story));
    }
  }

  lemma {:induction false} ApplyAllSnoc(s: AgentState, ts: seq<Turn>, t: Turn)
    requires ApplyAll(s, ts).Success?
    ensures ApplyAll(s, ts + [t]) == Apply(ApplyAll(s, ts).value, t)
    decreases |ts|
  {
    if ts == [] {
      assert ts + [t] == [t];
    } else {
      assert (ts + [t])[1..] == ts[1..] + [t];
      ApplyAllSnoc(Apply(s, ts[0]).value, ts[1..], t);
    }
  }
}
