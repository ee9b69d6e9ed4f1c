/** The story driver: the state it threads through its graph (plain-string transcript,
    the agent to act next, scene and world text), its three kinds of node, the
    continuation test, and the graph itself run as a scheduler. Each node call consumes
    the next model reply from a given list; running out of replies stands for the run
    stopping for want of an answer. */
module Workflow {
  import opened Text
  import Agent

  /** The heading the summarizer is asked to open the finished story with. */
  const MARKER: string := "=== The Chronicler's Tale ==="

  /** The two configured names that are not acting agents. */
  const CONTROLLER_ID: string := "story_controller"
  const SUMMARIZER_ID: string := "summarizer"

  /** The driver's state; `context` and `worldState` are never rewritten by any node. */
  datatype State = State(
    messages: seq<string>,
    currentAgent: string,
    context: string,
    worldState: string)

  /** The state the run is started with. */
  function Initial(context: string, worldState: string): State
  {
    State([], CONTROLLER_ID, context, worldState)
  }

  // ---------------------------------------------------------------------------
  // The nodes, once the model has replied

  /** An acting agent appends its reply and leaves everything else as it was. */
  function AgentNode(s: State, reply: string): (r: State)
    ensures r.messages == s.messages + [reply]
    ensures r.currentAgent == s.currentAgent && r.context == s.context && r.worldState == s.worldState
  {
    s.(messages := s.messages + [reply])
  }

  /** The controller names the next agent by its reply with surrounding whitespace
      removed; it adds nothing to the transcript. */
  function ControllerNode(s: State, reply: string): (r: State)
    ensures r.currentAgent == Strip(reply)
    ensures r.messages == s.messages && r.context == s.context && r.worldState == s.worldState
  {
    s.(currentAgent := Strip(reply))
  }

  /** The summarizer appends the story and sets the next agent to `END`. */
  function SummarizerNode(s: State, story: string): (r: State)
    ensures r.messages == s.messages + [story] && r.currentAgent == Agent.END
    ensures r.context == s.context && r.worldState == s.worldState
  {
    s.(messages := s.messages + [story], currentAgent := Agent.END)
  }

  // ---------------------------------------------------------------------------
  // should_continue

  /** The messages that do not carry the story marker, in order. */
  function ActingMessages(ms: seq<string>): (r: seq<string>)
    ensures forall m :: m in r <==> m in ms && !Contains(m, MARKER)
    ensures (forall i :: 0 <= i < |ms| ==> !Contains(ms[i], MARKER)) ==> r == ms
  {
    if ms == [] then []
    else (if Contains(ms[0], MARKER) then [] else [ms[0]]) + ActingMessages(ms[1..])
  }

  /** The filter keeps order: filtering a concatenation concatenates the filtered parts. */
  lemma {:induction false} ActingMessagesConcat(a: seq<string>, b: seq<string>)
    ensures ActingMessages(a + b) == ActingMessages(a) + ActingMessages(b)
  {
    if a == [] {
      assert a + b == b;
    } else {
      assert (a + b)[1..] == a[1..] + b;
      ActingMessagesConcat(a[1..], b);
    }
  }

  /** Some message already carries the story marker. */
  predicate Summarized(ms: seq<string>)
  {
    exists i :: 0 <= i < |ms| && Contains(ms[i], MARKER)
  }

  /** `should_continue`: go on with another round exactly when no message carries the
      marker and fewer than `maxIter` messages have been written. */
  function ShouldContinue(s: State, maxIter: int := 1): (r: bool)
    ensures r <==>
      (forall i :: 0 <= i < |s.messages| ==> !Contains(s.messages[i], MARKER))
      && |s.messages| < maxIter
  {
    if Summarized(s.messages) then false
    else |ActingMessages(s.messages)| < maxIter
  }

  /** With the default budget of one, the driver goes on only while the transcript is
      empty, so there is exactly one acting round. */
  lemma ShouldContinueDefault(s: State)
    ensures ShouldContinue(s) <==> s.messages == []
  {
  }

  // ---------------------------------------------------------------------------
  // The graph

  /** Whether a configured name becomes an acting-agent node. */
  predicate IsActing(id: string)
  {
    id != CONTROLLER_ID && id != SUMMARIZER_ID
  }

  /** The configured names that become acting-agent nodes, in configuration order. */
  function ActingIds(agents: seq<string>): (r: seq<string>)
    ensures forall x :: x in r <==> x in agents && IsActing(x)
    ensures |r| <= |agents|
  {
    if agents == [] then []
    else
      var last := agents[|agents| - 1];
      ActingIds(agents[..|agents| - 1]) + (if IsActing(last) then [last] else [])
  }

  /** The acting names keep configuration order: filtering a concatenation
      concatenates the filtered parts. */
  lemma {:induction false} ActingIdsConcat(a: seq<string>, b: seq<string>)
    ensures ActingIds(a + b) == ActingIds(a) + ActingIds(b)
    decreases |b|
  {
    if b == [] {
      assert a + b == a;
    } else {
      var init := b[..|b| - 1];
      assert (a + b)[..|a + b| - 1] == a + init;
      assert (a + b)[|a + b| - 1] == b[|b| - 1];
      ActingIdsConcat(a, init);
    }
  }

  /** The loop that registers a node for every acting agent. */
  method CollectActingIds(agents: seq<string>) returns (ids: seq<string>)
    ensures ids == ActingIds(agents)
  {
    ids := [];
    for i := 0 to |agents|
      invariant ids == ActingIds(agents[..i])
    {
      assert agents[..i + 1][..i] == agents[..i];
      if IsActing(agents[i]) {
        ids := ids + [agents[i]];
      }
    }
    assert agents[..|agents|] == agents;
  }

  /** The graph's nodes; `Finish` is `END`. */
  datatype Node = StoryController | Acting(id: string) | Summarizer | Finish

  /** How a run ends: at `END`, at a controller answer that names no acting agent, or
      for want of a reply. */
  datatype Status = Finished | RoutingError(target: string) | OutOfReplies

  /** The end of a run: its status, its final state and the nodes it called, in order. */
  datatype Run = Run(status: Status, state: State, trace: seq<Node>)

  /** The outcome of one node call: the node to go to, or a controller answer the graph
      has no edge for. */
  datatype Next = Goto(node: Node, state: State) | Stuck(target: string, state: State)

  /** One node call followed by the edge out of it: the controller's edge goes to the
      agent it named, when there is one; an agent's edge goes back to the controller
      while `should_continue` holds and to the summarizer otherwise; the summarizer's
      edge goes to `END`. */
  function Step(ids: seq<string>, maxIter: int, node: Node, s: State, reply: string): (r: Next)
    requires !node.Finish?
    ensures node.StoryController? ==>
      (r.Goto? <==> Strip(reply) in ids)
      && (r.Goto? ==> r.node == Acting(Strip(reply)))
      && (r.Stuck? ==> r.target == Strip(reply))
    ensures node.Acting? ==>
      r.Goto? && (r.node == StoryController <==> ShouldContinue(AgentNode(s, reply), maxIter))
      && (r.node.StoryController? || r.node.Summarizer?)
    ensures node.Summarizer? ==> r.Goto? && r.node == Finish && r.state.currentAgent == Agent.END
    ensures r.state == (if node.StoryController? then ControllerNode(s, reply)
                        else if node.Acting? then AgentNode(s, reply)
                        else SummarizerNode(s, reply))
  {
    match node
    case StoryController =>
      var t := ControllerNode(s, reply);
      if t.currentAgent in ids then Goto(Acting(t.currentAgent), t) else Stuck(t.currentAgent, t)
    case Acting(_) =>
      var t := AgentNode(s, reply);
      Goto(if ShouldContinue(t, maxIter) then StoryController else Summarizer, t)
    case Summarizer =>
      Goto(Finish, SummarizerNode(s, reply))
  }

  /** The run from `node` on, the nodes called so far being `trace`; the node call at
      position `i` of the trace consumes `replies[i]`. */
  function Exec(ids: seq<string>, maxIter: int, replies: seq<string>, node: Node, s: State,
                trace: seq<Node>): (r: Run)
    requires |trace| <= |replies|
    ensures trace <= r.trace && |r.trace| <= |replies|
    ensures r.status.OutOfReplies? ==> |r.trace| == |replies|
    decreases |replies| - |trace|
  {
    if node.Finish? then Run(Finished, s, trace)
    else if |trace| == |replies| then Run(OutOfReplies, s, trace)
    else
      match Step(ids, maxIter, node, s, replies[|trace|])
      case Stuck(target, t) => Run(RoutingError(target), t, trace + [node])
      case Goto(next, t) => Exec(ids, maxIter, replies, next, t, trace + [node])
  }

  /** The compiled graph run from its entry point, the controller, on the initial state. */
  function Invoke(agents: seq<string>, context: string, worldState: string,
                    replies: seq<string>, maxIter: int): Run
  {
    Exec(ActingIds(agents), maxIter, replies, StoryController, Initial(context, worldState), [])
  }

  /** The driver: build the acting-node set, then call nodes along the edges until `END`,
      a missing edge, or the last reply. */
  method RunWorkflow(agents: seq<string>, context: string, worldState: string,
                     replies: seq<string>, maxIter: int) returns (run: Run)
    ensures run == Invoke(agents, context, worldState, replies, maxIter)
  {
    var ids := CollectActingIds(agents);
    var node, s, trace := StoryController, Initial(context, worldState), [];
    while true
      invariant |trace| <= |replies|
      invariant Exec(ids, maxIter, replies, node, s, trace) == Invoke(agents, context, worldState, replies, maxIter)
      decreases |replies| - |trace|
    {
      if node.Finish? {
        return Run(Finished, s, trace);
      }
      if |trace| == |replies| {
        return Run(OutOfReplies, s, trace);
      }
      var next := Step(ids, maxIter, node, s, replies[|trace|]);
      trace := trace + [node];
      match next
      case Stuck(target, t) =>
        return Run(RoutingError(target), t, trace);
      case Goto(n, t) =>
        node, s := n, t;
    }
  }

  // ---------------------------------------------------------------------------
  // The invariant of the scheduler

  /** The acting-round budget: `maxIter`, but at least one round is always played. */
  function Budget(maxIter: int): nat
  {
    if maxIter < 1 then 1 else maxIter
  }

  /** The node called at position `j`: the controller at even positions, at odd ones an
      acting agent, the one the controller call just before it named. */
  ghost predicate SlotOk(x: Node, j: nat, ids: seq<string>, replies: seq<string>)
  {
    if j % 2 == 0 then x == StoryController
    else 1 <= j <= |replies| && x.Acting? && x.id in ids && x.id == Strip(replies[j - 1])
  }

  /** The first `len` nodes called alternate controller, agent, controller, agent, ... */
  ghost predicate Alternates(trace: seq<Node>, ids: seq<string>, replies: seq<string>, len: nat)
  {
    && len <= |trace| && len <= |replies|
    && forall j :: 0 <= j < len ==> SlotOk(trace[j], j, ids, replies)
  }

  /** The first `n` messages are the replies the agents gave, in order. */
  ghost predicate FromReplies(ms: seq<string>, replies: seq<string>, n: nat)
  {
    n <= |ms| && forall i :: 0 <= i < n ==> 2 * i + 1 < |replies| && ms[i] == replies[2 * i + 1]
  }

  /** None of the first `n` messages carries the story marker. */
  ghost predicate MarkerFree(ms: seq<string>, n: nat)
  {
    n <= |ms| && forall i :: 0 <= i < n ==> !Contains(ms[i], MARKER)
  }

  /** What holds whenever the scheduler is about to call `node`, with `n` acting rounds
      played so far. */
  ghost predicate Cfg(ids: seq<string>, maxIter: int, replies: seq<string>, context: string,
                      worldState: string, node: Node, s: State, trace: seq<Node>)
  {
    && |trace| <= |replies|
    && s.context == context && s.worldState == worldState
    && var n := |s.messages|;
    match node
    case StoryController =>
      && |trace| == 2 * n && Alternates(trace, ids, replies, 2 * n)
      && FromReplies(s.messages, replies, n) && MarkerFree(s.messages, n) && n < Budget(maxIter)
    case Acting(id) =>
      && |trace| == 2 * n + 1 && Alternates(trace, ids, replies, 2 * n + 1)
      && id in ids && id == Strip(replies[2 * n])
      && FromReplies(s.messages, replies, n) && MarkerFree(s.messages, n) && n < Budget(maxIter)
    case Summarizer =>
      && 1 <= n <= Budget(maxIter)
      && |trace| == 2 * n && Alternates(trace, ids, replies, 2 * n)
      && FromReplies(s.messages, replies, n) && MarkerFree(s.messages, n - 1)
      && (n >= maxIter || Contains(s.messages[n - 1], MARKER))
    case Finish =>
      && 2 <= n && n - 1 <= Budget(maxIter)
      && |trace| == 2 * n - 1 && Alternates(trace, ids, replies, 2 * n - 2)
      && trace[2 * n - 2] == Summarizer
      && FromReplies(s.messages, replies, n - 1) && s.messages[n - 1] == replies[2 * n - 2]
      && MarkerFree(s.messages, n - 2)
      && (n - 1 >= maxIter || Contains(s.messages[n - 2], MARKER))
      && s.currentAgent == Agent.END
  }

  /** What holds of every run's end. */
  ghost predicate Outcome(ids: seq<string>, maxIter: int, replies: seq<string>, context: string,
                          worldState: string, r: Run)
  {
    && |r.trace| <= |replies|
    && r.state.context == context && r.state.worldState == worldState
    && match r.status
       case Finished =>
         Cfg(ids, maxIter, replies, context, worldState, Finish, r.state, r.trace)
       case RoutingError(target) =>
         var n := |r.state.messages|;
         && |r.trace| == 2 * n + 1 && Alternates(r.trace, ids, replies, 2 * n + 1)
         && FromReplies(r.state.messages, replies, n) && MarkerFree(r.state.messages, n)
         && n < Budget(maxIter)
         && target == r.state.currentAgent && target == Strip(replies[2 * n]) && target !in ids
       case OutOfReplies =>
         var n := |r.state.messages|;
         && |r.trace| == |replies| && |replies| <= 2 * Budget(maxIter)
         && Alternates(r.trace, ids, replies, |r.trace|)
         && FromReplies(r.state.messages, replies, n) && 2 * n <= |r.trace|
  }

  /** The number of acting rounds a run played, and how much of its trace alternates
      controller and agent. */
  function Rounds(r: Run): nat
  {
    if r.status.Finished? && r.state.messages != [] then |r.state.messages| - 1 else |r.state.messages|
  }

  function Alternating(r: Run): nat
  {
    if r.status.Finished? && r.trace != [] then |r.trace| - 1 else |r.trace|
  }

  /** Every run, however it ends, alternates controller and named agent up to its last
      agent call, and its first `Rounds` messages are those agents' replies. */
  lemma OutcomeShape(ids: seq<string>, maxIter: int, replies: seq<string>, context: string,
                     worldState: string, r: Run)
    requires Outcome(ids, maxIter, replies, context, worldState, r)
    ensures Alternates(r.trace, ids, replies, Alternating(r))
    ensures FromReplies(r.state.messages, replies, Rounds(r)) && 2 * Rounds(r) <= Alternating(r)
    ensures Alternating(r) < |r.trace| ==> r.trace[Alternating(r)] == Summarizer
  {
  }

  /** A routing error ends the trace with the controller call that caused it. */
  lemma OutcomeRoutingError(ids: seq<string>, maxIter: int, replies: seq<string>, context: string,
                            worldState: string, r: Run)
    requires Outcome(ids, maxIter, replies, context, worldState, r)
    ensures r.status.RoutingError? ==>
      && |r.trace| % 2 == 1 && |r.trace| <= |replies|
      && r.trace[|r.trace| - 1] == StoryController
      && r.status.target == Strip(replies[|r.trace| - 1])
      && r.status.target == r.state.currentAgent && r.status.target !in ids
  {
    if r.status.RoutingError? {
      var n := |r.state.messages|;
      Parity(n);
    }
  }

  lemma WorkflowShape(agents: seq<string>, context: string, worldState: string,
                      replies: seq<string>, maxIter: int)
    ensures var r := Invoke(agents, context, worldState, replies, maxIter);
      && Alternates(r.trace, ActingIds(agents), replies, Alternating(r))
      && FromReplies(r.state.messages, replies, Rounds(r)) && 2 * Rounds(r) <= Alternating(r)
      && (Alternating(r) < |r.trace| ==> r.trace[Alternating(r)] == Summarizer)
  {
    WorkflowOutcome(agents, context, worldState, replies, maxIter);
    OutcomeShape(ActingIds(agents), maxIter, replies, context, worldState,
                 Invoke(agents, context, worldState, replies, maxIter));
  }

  /** Positions `2 * n` are even and `2 * n + 1` odd. */
  lemma Parity(n: nat)
    ensures (2 * n) % 2 == 0 && (2 * n + 1) % 2 == 1
  {
  }

  lemma AlternatesSnoc(trace: seq<Node>, ids: seq<string>, replies: seq<string>, x: Node)
    requires Alternates(trace, ids, replies, |trace|) && |trace| < |replies|
    requires SlotOk(x, |trace|, ids, replies)
    ensures Alternates(trace + [x], ids, replies, |trace| + 1)
  {
    var t := trace + [x];
    forall j | 0 <= j < |t| ensures SlotOk(t[j], j, ids, replies) {
      if j < |trace| {
        assert t[j] == trace[j];
      } else {
        assert t[j] == x;
      }
    }
  }

  lemma AlternatesPrefix(trace: seq<Node>, ids: seq<string>, replies: seq<string>, x: Node, len: nat)
    requires Alternates(trace, ids, replies, len)
    ensures Alternates(trace + [x], ids, replies, len)
  {
    var t := trace + [x];
    forall j | 0 <= j < len ensures SlotOk(t[j], j, ids, replies) {
      assert t[j] == trace[j];
    }
  }

  lemma FromRepliesSnoc(ms: seq<string>, replies: seq<string>, n: nat, m: string)
    requires FromReplies(ms, replies, n)
    ensures FromReplies(ms + [m], replies, n)
    ensures |ms| == n && 2 * n + 1 < |replies| && m == replies[2 * n + 1] ==>
      FromReplies(ms + [m], replies, n + 1)
  {
    var t := ms + [m];
    assert forall i :: 0 <= i < |ms| ==> t[i] == ms[i];
  }

  lemma MarkerFreeSnoc(ms: seq<string>, n: nat, m: string)
    requires MarkerFree(ms, n)
    ensures MarkerFree(ms + [m], n)
    ensures |ms| == n && !Contains(m, MARKER) ==> MarkerFree(ms + [m], n + 1)
  {
    var t := ms + [m];
    assert forall i :: 0 <= i < |ms| ==> t[i] == ms[i];
  }

  /** The controller's call keeps the invariant or ends the run with a routing error. */
  lemma ControllerStep(ids: seq<string>, maxIter: int, replies: seq<string>, context: string,
                       worldState: string, s: State, trace: seq<Node>)
    requires Cfg(ids, maxIter, replies, context, worldState, StoryController, s, trace)
    requires |trace| < |replies|
    ensures var next := Step(ids, maxIter, StoryController, s, replies[|trace|]);
      match next
      case Goto(n, t) => Cfg(ids, maxIter, replies, context, worldState, n, t, trace + [StoryController])
      case Stuck(target, t) =>
        Outcome(ids, maxIter, replies, context, worldState, Run(RoutingError(target), t, trace + [StoryController]))
  {
    Parity(|s.messages|);
    AlternatesSnoc(trace, ids, replies, StoryController);
  }

  /** An agent's call keeps the invariant: the controller comes next while the budget
      lasts and no marker has appeared, the summarizer otherwise. */
  lemma ActingStep(ids: seq<string>, maxIter: int, replies: seq<string>, context: string,
                   worldState: string, id: string, s: State, trace: seq<Node>)
    requires Cfg(ids, maxIter, replies, context, worldState, Acting(id), s, trace)
    requires |trace| < |replies|
    ensures var next := Step(ids, maxIter, Acting(id), s, replies[|trace|]);
      next.Goto? && Cfg(ids, maxIter, replies, context, worldState, next.node, next.state, trace + [Acting(id)])
  {
    var n := |s.messages|;
    var reply := replies[|trace|];
    Parity(n);
    AlternatesSnoc(trace, ids, replies, Acting(id));
    FromRepliesSnoc(s.messages, replies, n, reply);
    MarkerFreeSnoc(s.messages, n, reply);
    var t := AgentNode(s, reply);
    assert t.messages[n] == reply;
  }

  /** The summarizer's call leads to `END` with the invariant of a finished run. */
  lemma SummarizerStep(ids: seq<string>, maxIter: int, replies: seq<string>, context: string,
                       worldState: string, s: State, trace: seq<Node>)
    requires Cfg(ids, maxIter, replies, context, worldState, Summarizer, s, trace)
    requires |trace| < |replies|
    ensures var next := Step(ids, maxIter, Summarizer, s, replies[|trace|]);
      next.Goto? && Cfg(ids, maxIter, replies, context, worldState, next.node, next.state, trace + [Summarizer])
  {
    var n := |s.messages|;
    var reply := replies[|trace|];
    AlternatesPrefix(trace, ids, replies, Summarizer, 2 * n);
    FromRepliesSnoc(s.messages, replies, n, reply);
    MarkerFreeSnoc(s.messages, n - 1, reply);
    var t := SummarizerNode(s, reply);
    assert t.messages[n] == reply && t.messages[n - 1] == s.messages[n - 1];
    assert (trace + [Summarizer])[2 * n] == Summarizer;
  }

  /** From any configuration meeting the invariant, the run ends as `Outcome` says. */
  lemma {:induction false} ExecOutcome(ids: seq<string>, maxIter: int, replies: seq<string>,
                                       context: string, worldState: string, node: Node,
                                       s: State, trace: seq<Node>)
    requires Cfg(ids, maxIter, replies, context, worldState, node, s, trace)
    ensures Outcome(ids, maxIter, replies, context, worldState, Exec(ids, maxIter, replies, node, s, trace))
    decreases |replies| - |trace|
  {
    if node.Finish? {
    } else if |trace| == |replies| {
    } else {
      var next := Step(ids, maxIter, node, s, replies[|trace|]);
      match node {
        case StoryController => ControllerStep(ids, maxIter, replies, context, worldState, s, trace);
        case Acting(id) => ActingStep(ids, maxIter, replies, context, worldState, id, s, trace);
        case Summarizer => SummarizerStep(ids, maxIter, replies, context, worldState, s, trace);
      }
      if next.Goto? {
        ExecOutcome(ids, maxIter, replies, context, worldState, next.node, next.state, trace + [node]);
      }
    }
  }

  lemma WorkflowOutcome(agents: seq<string>, context: string, worldState: string,
                        replies: seq<string>, maxIter: int)
    ensures Outcome(ActingIds(agents), maxIter, replies, context, worldState,
                    Invoke(agents, context, worldState, replies, maxIter))
  {
    ExecOutcome(ActingIds(agents), maxIter, replies, context, worldState, StoryController,
                Initial(context, worldState), []);
  }

  // ---------------------------------------------------------------------------
  // What every run of the graph does

  /** The scheduler's state after the summarizer, spelt out: the story closes a
      transcript of one to `Budget(maxIter)` agent lines, and only the last line may
      carry the marker. */
  lemma FinishFacts(ids: seq<string>, maxIter: int, replies: seq<string>, context: string,
                    worldState: string, s: State, trace: seq<Node>)
    requires Cfg(ids, maxIter, replies, context, worldState, Finish, s, trace)
    ensures var n := |s.messages| - 1;
      && s.currentAgent == Agent.END
      && 1 <= n <= Budget(maxIter)
      && |trace| == 2 * n + 1 && trace[2 * n] == Summarizer
      && s.messages[n] == replies[2 * n]
      && (forall i :: 0 <= i < n - 1 ==> !Contains(s.messages[i], MARKER))
      && (n >= maxIter || Contains(s.messages[n - 1], MARKER))
  {
  }

  /** Before the summarizer, the trace alternates controller and agent. */
  lemma FinishTrace(ids: seq<string>, replies: seq<string>, trace: seq<Node>, n: nat)
    requires Alternates(trace, ids, replies, 2 * n)
    ensures forall i :: 0 <= i < n ==> trace[2 * i] == StoryController && trace[2 * i + 1].Acting?
  {
    forall i | 0 <= i < n ensures trace[2 * i] == StoryController && trace[2 * i + 1].Acting? {
      Parity(i);
      assert SlotOk(trace[2 * i], 2 * i, ids, replies) && SlotOk(trace[2 * i + 1], 2 * i + 1, ids, replies);
    }
  }

  /** What a finished run's outcome says, spelt out. */
  lemma OutcomeFinished(ids: seq<string>, maxIter: int, replies: seq<string>, context: string,
                        worldState: string, r: Run)
    requires Outcome(ids, maxIter, replies, context, worldState, r)
    ensures var n := |r.state.messages| - 1;
      r.status.Finished? ==>
        && r.state.currentAgent == Agent.END
        && 1 <= n <= Budget(maxIter)
        && |r.trace| == 2 * n + 1 && r.trace[2 * n] == Summarizer
        && r.state.messages[n] == replies[2 * n]
        && (forall i :: 0 <= i < n - 1 ==> !Contains(r.state.messages[i], MARKER))
        && (n >= maxIter || Contains(r.state.messages[n - 1], MARKER))
        && (forall i :: 0 <= i < n ==> r.trace[2 * i] == StoryController && r.trace[2 * i + 1].Acting?)
  {
    if r.status.Finished? {
      FinishFacts(ids, maxIter, replies, context, worldState, r.state, r.trace);
      FinishTrace(ids, replies, r.trace, |r.state.messages| - 1);
    }
  }

  /** A run that reaches `END` has played between one and `Budget(maxIter)` acting
      rounds, has the summarizer's story as its last message, and leaves `END` as the
      next agent. The nodes called are controller and agent by turns, then the
      summarizer. */
  lemma FinishedRun(agents: seq<string>, context: string, worldState: string,
                    replies: seq<string>, maxIter: int)
    ensures var r := Invoke(agents, context, worldState, replies, maxIter);
      var n := |r.state.messages| - 1;
      r.status.Finished? ==>
        && r.state.currentAgent == Agent.END
        && 1 <= n <= Budget(maxIter)
        && |r.trace| == 2 * n + 1 && r.trace[2 * n] == Summarizer
        && r.state.messages[n] == replies[2 * n]
        && (forall i :: 0 <= i < n ==> r.trace[2 * i] == StoryController && r.trace[2 * i + 1].Acting?)
  {
    WorkflowOutcome(agents, context, worldState, replies, maxIter);
    OutcomeFinished(ActingIds(agents), maxIter, replies, context, worldState,
                    Invoke(agents, context, worldState, replies, maxIter));
  }

  /** A finished run stopped at the first point allowed: none of the agents' messages
      but the last carries the marker, and either the budget is used up or the last one
      does. */
  lemma FinishedRunStopsAtBudgetOrMarker(agents: seq<string>, context: string, worldState: string,
                                         replies: seq<string>, maxIter: int)
    ensures var r := Invoke(agents, context, worldState, replies, maxIter);
      var n := |r.state.messages| - 1;
      r.status.Finished? ==>
        && n >= 1
        && (forall i :: 0 <= i < n - 1 ==> !Contains(r.state.messages[i], MARKER))
        && (n >= maxIter || Contains(r.state.messages[n - 1], MARKER))
  {
    WorkflowOutcome(agents, context, worldState, replies, maxIter);
    OutcomeFinished(ActingIds(agents), maxIter, replies, context, worldState,
                    Invoke(agents, context, worldState, replies, maxIter));
  }

  /** Without the marker, a finished run played exactly `Budget(maxIter)` acting rounds,
      that is `max(1, maxIter)`. */
  lemma FinishedWithoutMarkerUsesBudget(agents: seq<string>, context: string, worldState: string,
                                        replies: seq<string>, maxIter: int)
    ensures var r := Invoke(agents, context, worldState, replies, maxIter);
      var n := |r.state.messages| - 1;
      r.status.Finished? && (forall i :: 0 <= i < n ==> !Contains(r.state.messages[i], MARKER)) ==>
        n == Budget(maxIter)
  {
    var r := Invoke(agents, context, worldState, replies, maxIter);
    FinishedRun(agents, context, worldState, replies, maxIter);
    FinishedRunStopsAtBudgetOrMarker(agents, context, worldState, replies, maxIter);
    if r.status.Finished? && (forall i :: 0 <= i < |r.state.messages| - 1 ==> !Contains(r.state.messages[i], MARKER)) {
      var n := |r.state.messages| - 1;
      assert !Contains(r.state.messages[n - 1], MARKER);
    }
  }

  /** The first `Rounds` messages of a run are the replies at the agents' positions. */
  lemma TranscriptOf(ids: seq<string>, replies: seq<string>, r: Run)
    requires Alternates(r.trace, ids, replies, Alternating(r))
    requires FromReplies(r.state.messages, replies, Rounds(r)) && 2 * Rounds(r) <= Alternating(r)
    ensures forall i :: 0 <= i < Rounds(r) ==>
      2 * i + 1 < |r.trace| && r.trace[2 * i + 1].Acting? && r.state.messages[i] == replies[2 * i + 1]
  {
    forall i | 0 <= i < Rounds(r)
      ensures 2 * i + 1 < |r.trace| && r.trace[2 * i + 1].Acting? && r.state.messages[i] == replies[2 * i + 1]
    {
      Parity(i);
    }
  }

  /** Every transcript entry before the story is the reply of the agent called at that
      round, in order. */
  lemma RunTranscript(agents: seq<string>, context: string, worldState: string,
                      replies: seq<string>, maxIter: int)
    ensures var r := Invoke(agents, context, worldState, replies, maxIter);
      forall i :: 0 <= i < Rounds(r) ==>
        2 * i + 1 < |r.trace| && r.trace[2 * i + 1].Acting? && r.state.messages[i] == replies[2 * i + 1]
  {
    WorkflowShape(agents, context, worldState, replies, maxIter);
    TranscriptOf(ActingIds(agents), replies, Invoke(agents, context, worldState, replies, maxIter));
  }

  /** In a trace alternating up to its last agent call, every agent call follows the
      controller call that named it. */
  lemma AgentCallsNamed(ids: seq<string>, replies: seq<string>, r: Run)
    requires Alternates(r.trace, ids, replies, Alternating(r))
    requires Alternating(r) < |r.trace| ==> r.trace[Alternating(r)] == Summarizer
    ensures forall j :: 0 <= j < |r.trace| && r.trace[j].Acting? ==>
      && 1 <= j && r.trace[j - 1] == StoryController
      && r.trace[j].id == Strip(replies[j - 1]) && r.trace[j].id in ids
  {
    forall j | 0 <= j < |r.trace| && r.trace[j].Acting?
      ensures && 1 <= j && r.trace[j - 1] == StoryController
              && r.trace[j].id == Strip(replies[j - 1]) && r.trace[j].id in ids
    {
      assert j < Alternating(r);
      assert j % 2 == 1;
      assert (j - 1) % 2 == 0;
    }
  }

  /** Only acting agents are ever called, and each one is the agent the controller named
      in the reply just before it. */
  lemma OnlyNamedAgentsAct(agents: seq<string>, context: string, worldState: string,
                           replies: seq<string>, maxIter: int)
    ensures var r := Invoke(agents, context, worldState, replies, maxIter);
      forall j :: 0 <= j < |r.trace| && r.trace[j].Acting? ==>
        && 1 <= j && r.trace[j - 1] == StoryController
        && r.trace[j].id == Strip(replies[j - 1])
        && r.trace[j].id in agents && IsActing(r.trace[j].id)
  {
    var r := Invoke(agents, context, worldState, replies, maxIter);
    WorkflowShape(agents, context, worldState, replies, maxIter);
    AgentCallsNamed(ActingIds(agents), replies, r);
  }

  /** The scene and the world text are the ones the run was started with. */
  lemma ContextNeverChanges(agents: seq<string>, context: string, worldState: string,
                            replies: seq<string>, maxIter: int)
    ensures var r := Invoke(agents, context, worldState, replies, maxIter);
      r.state.context == context && r.state.worldState == worldState
  {
    WorkflowOutcome(agents, context, worldState, replies, maxIter);
  }

  /** A routing error is raised by a controller call whose stripped reply names no acting
      agent; that name is left as the next agent. */
  lemma RoutingErrorRun(agents: seq<string>, context: string, worldState: string,
                        replies: seq<string>, maxIter: int)
    ensures var r := Invoke(agents, context, worldState, replies, maxIter);
      r.status.RoutingError? ==>
        && |r.trace| % 2 == 1 && r.trace[|r.trace| - 1] == StoryController
        && r.status.target == Strip(replies[|r.trace| - 1])
        && r.status.target == r.state.currentAgent
        && r.status.target !in ActingIds(agents)
  {
    WorkflowOutcome(agents, context, worldState, replies, maxIter);
    OutcomeRoutingError(ActingIds(agents), maxIter, replies, context, worldState,
                        Invoke(agents, context, worldState, replies, maxIter));
  }

  /** With replies for every call the budget allows, and every controller reply that is
      requested naming an acting agent, the run reaches `END`. The controller's reply of
      round `i` is requested only when no agent line before it carried the marker. */
  lemma RunFinishes(agents: seq<string>, context: string, worldState: string,
                    replies: seq<string>, maxIter: int)
    requires |replies| > 2 * Budget(maxIter)
    requires forall i :: 0 <= i < Budget(maxIter) && (forall k :: 0 <= k < i ==> !Contains(replies[2 * k + 1], MARKER)) ==>
      Strip(replies[2 * i]) in ActingIds(agents)
    ensures Invoke(agents, context, worldState, replies, maxIter).status == Finished
  {
    var r := Invoke(agents, context, worldState, replies, maxIter);
    WorkflowOutcome(agents, context, worldState, replies, maxIter);
  }

  /** A controller's first reply naming no acting agent stops the run at once. */
  lemma FirstRouteFails(agents: seq<string>, context: string, worldState: string,
                        replies: seq<string>, maxIter: int)
    requires replies != [] && Strip(replies[0]) !in ActingIds(agents)
    ensures Invoke(agents, context, worldState, replies, maxIter) ==
      Run(RoutingError(Strip(replies[0])), State([], Strip(replies[0]), context, worldState), [StoryController])
  {
  }

  /** With the default budget of one, a finished run is one controller call, one agent
      call and the summarizer. */
  lemma DefaultBudgetRun(agents: seq<string>, context: string, worldState: string,
                         replies: seq<string>)
    ensures var r := Invoke(agents, context, worldState, replies, 1);
      r.status.Finished? ==>
        |r.state.messages| == 2 && |r.trace| == 3
        && r.trace[0] == StoryController && r.trace[1].Acting? && r.trace[2] == Summarizer
  {
    var r := Invoke(agents, context, worldState, replies, 1);
    FinishedRun(agents, context, worldState, replies, 1);
    if r.status.Finished? {
      assert r.trace[2 * 0] == StoryController && r.trace[2 * 0 + 1].Acting?;
    }
  }

  // ---------------------------------------------------------------------------
  // Runs on the configured agents

  /** The configured agent names, in configuration order. */
  const AGENTS: seq<string> := ["royal_advisor", "forest_shaman", "mountain_chieftain"]

  lemma ConfiguredAgentsAct()
    ensures ActingIds(AGENTS) == AGENTS
  {
    assert AGENTS[..2][..1] == ["royal_advisor"];
    assert AGENTS[..2] == ["royal_advisor", "forest_shaman"];
  }

  /** The controller's step, unfolded: a reply naming an acting agent leads to it. */
  lemma ControllerGoto(ids: seq<string>, maxIter: int, replies: seq<string>, s: State,
                       trace: seq<Node>, id: string)
    requires |trace| < |replies| && Strip(replies[|trace|]) == id && id in ids
    ensures Exec(ids, maxIter, replies, StoryController, s, trace) ==
      Exec(ids, maxIter, replies, Acting(id), s.(currentAgent := id), trace + [StoryController])
  {
  }

  /** An agent's step, unfolded: its reply is appended, and the controller or the
      summarizer comes next as `should_continue` decides. */
  lemma AgentGoto(ids: seq<string>, maxIter: int, replies: seq<string>, s: State,
                  trace: seq<Node>, id: string, again: bool)
    requires |trace| < |replies|
    requires again == ShouldContinue(s.(messages := s.messages + [replies[|trace|]]), maxIter)
    ensures Exec(ids, maxIter, replies, Acting(id), s, trace) ==
      Exec(ids, maxIter, replies, if again then StoryController else Summarizer,
           s.(messages := s.messages + [replies[|trace|]]), trace + [Acting(id)])
  {
  }

  /** The summarizer's step, unfolded: the run ends with the story appended. */
  lemma SummarizerGoto(ids: seq<string>, maxIter: int, replies: seq<string>, s: State,
                       trace: seq<Node>)
    requires |trace| < |replies|
    ensures Exec(ids, maxIter, replies, Summarizer, s, trace) ==
      Run(Finished, s.(messages := s.messages + [replies[|trace|]], currentAgent := Agent.END),
          trace + [Summarizer])
  {
  }

  /** One acting round, unfolded: the controller names `id`, whose reply is appended. */
  lemma RoundGoto(ids: seq<string>, maxIter: int, replies: seq<string>, s: State,
                  trace: seq<Node>, id: string, again: bool)
    requires |trace| + 1 < |replies| && Strip(replies[|trace|]) == id && id in ids
    requires again == ShouldContinue(State(s.messages + [replies[|trace| + 1]], id, s.context, s.worldState), maxIter)
    ensures Exec(ids, maxIter, replies, StoryController, s, trace) ==
      Exec(ids, maxIter, replies, if again then StoryController else Summarizer,
           State(s.messages + [replies[|trace| + 1]], id, s.context, s.worldState),
           trace + [StoryController, Acting(id)])
  {
    ControllerGoto(ids, maxIter, replies, s, trace, id);
    AgentGoto(ids, maxIter, replies, s.(currentAgent := id), trace + [StoryController], id, again);
    assert trace + [StoryController] + [Acting(id)] == trace + [StoryController, Acting(id)];
  }

  /** The last acting round, unfolded: the controller names `id`, whose reply ends the
      rounds, and the summarizer closes the run. */
  lemma LastRoundExec(ids: seq<string>, maxIter: int, replies: seq<string>, s: State,
                      trace: seq<Node>, id: string)
    requires |trace| + 2 < |replies| && Strip(replies[|trace|]) == id && id in ids
    requires !ShouldContinue(State(s.messages + [replies[|trace| + 1]], id, s.context, s.worldState), maxIter)
    ensures Exec(ids, maxIter, replies, StoryController, s, trace) ==
      Run(Finished,
          State(s.messages + [replies[|trace| + 1], replies[|trace| + 2]], Agent.END, s.context, s.worldState),
          trace + [StoryController, Acting(id), Summarizer])
  {
    var k := |trace|;
    var t := State(s.messages + [replies[k + 1]], id, s.context, s.worldState);
    RoundGoto(ids, maxIter, replies, s, trace, id, false);
    SummarizerGoto(ids, maxIter, replies, t, trace + [StoryController, Acting(id)]);
    assert t.messages + [replies[k + 2]] == s.messages + [replies[k + 1], replies[k + 2]];
    assert trace + [StoryController, Acting(id)] + [Summarizer] == trace + [StoryController, Acting(id), Summarizer];
  }

  /** One round: the controller names `id`, the agent speaks `line`, and with nothing
      left to do the summarizer writes `story`. */
  lemma OneRoundExec(ids: seq<string>, maxIter: int, id: string, context: string, worldState: string,
                     line: string, story: string)
    requires id in ids && Strip(id) == id
    requires !ShouldContinue(State([line], id, context, worldState), maxIter)
    ensures Exec(ids, maxIter, [id, line, story], StoryController, Initial(context, worldState), []) ==
      Run(Finished, State([line, story], Agent.END, context, worldState),
          [StoryController, Acting(id), Summarizer])
  {
    assert [] + [line] == [line] && [] + [line, story] == [line, story];
    LastRoundExec(ids, maxIter, [id, line, story], Initial(context, worldState), [], id);
    assert [] + [StoryController, Acting(id), Summarizer] == [StoryController, Acting(id), Summarizer];
  }

  /** The default budget: the controller names the forest shaman, who speaks once, and
      the summarizer closes the run. */
  lemma OneRoundRun(context: string, worldState: string, line: string, story: string)
    ensures Invoke(AGENTS, context, worldState, ["forest_shaman", line, story], 1) ==
      Run(Finished, State([line, story], Agent.END, context, worldState),
          [StoryController, Acting("forest_shaman"), Summarizer])
  {
    ConfiguredAgentsAct();
    StripUnpadded("forest_shaman");
    OneRoundExec(AGENTS, 1, "forest_shaman", context, worldState, line, story);
  }

  /** With a budget of two, a first line without the marker lets the controller speak
      again. */
  lemma SecondRoundAllowed(ids: seq<string>, replies: seq<string>, context: string, worldState: string)
    requires |replies| == 5 && replies[0] in ids && Strip(replies[0]) == replies[0]
    requires !Contains(replies[1], MARKER)
    ensures Exec(ids, 2, replies, StoryController, Initial(context, worldState), []) ==
      Exec(ids, 2, replies, StoryController, State([replies[1]], replies[0], context, worldState),
           [StoryController, Acting(replies[0])])
  {
    var s2 := State([replies[1]], replies[0], context, worldState);
    assert ShouldContinue(s2, 2) by {
      assert s2.messages[0] == replies[1];
    }
    assert [] + [replies[1]] == [replies[1]];
    RoundGoto(ids, 2, replies, Initial(context, worldState), [], replies[0], true);
    assert [] + [StoryController, Acting(replies[0])] == [StoryController, Acting(replies[0])];
  }

  /** With a budget of two, the second line ends the rounds whatever it says. */
  lemma SecondRoundLast(ids: seq<string>, replies: seq<string>, context: string, worldState: string)
    requires |replies| == 5 && replies[2] in ids && Strip(replies[2]) == replies[2]
    ensures Exec(ids, 2, replies, StoryController, State([replies[1]], replies[0], context, worldState),
                 [StoryController, Acting(replies[0])]) ==
      Run(Finished, State([replies[1], replies[3], replies[4]], Agent.END, context, worldState),
          [StoryController, Acting(replies[0]), StoryController, Acting(replies[2]), Summarizer])
  {
    var c, n1 := StoryController, Acting(replies[0]);
    var s2 := State([replies[1]], replies[0], context, worldState);
    assert !ShouldContinue(State([replies[1]] + [replies[3]], replies[2], context, worldState), 2);
    LastRoundExec(ids, 2, replies, s2, [c, n1], replies[2]);
    assert [replies[1]] + [replies[3], replies[4]] == [replies[1], replies[3], replies[4]];
    assert [c, n1] + [c, Acting(replies[2]), Summarizer] == [c, n1, c, Acting(replies[2]), Summarizer];
  }

  /** Two rounds: the controller names `a1`, who speaks `l1`; the budget allows another
      round, so the controller names `a2`, who speaks `l2`; then the summarizer. */
  lemma TwoRoundExec(ids: seq<string>, replies: seq<string>, context: string, worldState: string)
    requires |replies| == 5
    requires replies[0] in ids && Strip(replies[0]) == replies[0]
    requires replies[2] in ids && Strip(replies[2]) == replies[2]
    requires !Contains(replies[1], MARKER)
    ensures Exec(ids, 2, replies, StoryController, Initial(context, worldState), []) ==
      Run(Finished, State([replies[1], replies[3], replies[4]], Agent.END, context, worldState),
          [StoryController, Acting(replies[0]), StoryController, Acting(replies[2]), Summarizer])
  {
    SecondRoundAllowed(ids, replies, context, worldState);
    SecondRoundLast(ids, replies, context, worldState);
  }

  /** Two rounds from the start of the graph, for any registry acting both named agents. */
  lemma TwoRoundWorkflow(agents: seq<string>, replies: seq<string>, context: string, worldState: string)
    requires |replies| == 5
    requires replies[0] in ActingIds(agents) && Strip(replies[0]) == replies[0]
    requires replies[2] in ActingIds(agents) && Strip(replies[2]) == replies[2]
    requires !Contains(replies[1], MARKER)
    ensures Invoke(agents, context, worldState, replies, 2) ==
      Run(Finished, State([replies[1], replies[3], replies[4]], Agent.END, context, worldState),
          [StoryController, Acting(replies[0]), StoryController, Acting(replies[2]), Summarizer])
  {
    TwoRoundExec(ActingIds(agents), replies, context, worldState);
  }

  /** A budget of two: the controller names the royal advisor, then the forest shaman,
      each speaks once, and the summarizer closes the run. */
  lemma TwoRoundRun(context: string, worldState: string, l1: string, l2: string, story: string)
    requires !Contains(l1, MARKER)
    ensures Invoke(AGENTS, context, worldState, ["royal_advisor", l1, "forest_shaman", l2, story], 2) ==
      Run(Finished, State([l1, l2, story], Agent.END, context, worldState),
          [StoryController, Acting("royal_advisor"), StoryController, Acting("forest_shaman"), Summarizer])
  {
    var replies := ["royal_advisor", l1, "forest_shaman", l2, story];
    ConfiguredAgentsAct();
    assert replies[0] == AGENTS[0] && replies[2] == AGENTS[1];
    StripUnpadded(AGENTS[0]);
    StripUnpadded(AGENTS[1]);
    TwoRoundWorkflow(AGENTS, replies, context, worldState);
  }

  /** Whatever the budget, an agent reply carrying the marker sends the run straight to
      the summarizer. */
  lemma MarkerStopsRun(context: string, worldState: string, line: string, story: string, maxIter: int)
    requires Contains(line, MARKER)
    ensures Invoke(AGENTS, context, worldState, ["royal_advisor", line, story], maxIter) ==
      Run(Finished, State([line, story], Agent.END, context, worldState),
          [StoryController, Acting("royal_advisor"), Summarizer])
  {
    var s2 := State([line], "royal_advisor", context, worldState);
    assert !ShouldContinue(s2, maxIter) by {
      assert s2.messages[0] == line;
    }
    ConfiguredAgentsAct();
    StripUnpadded("royal_advisor");
    OneRoundExec(AGENTS, maxIter, "royal_advisor", context, worldState, line, story);
  }

  /** At any point of any run, an acting agent's reply carrying the marker sends the run
      to the summarizer, whatever the budget and the transcript so far. */
  lemma MarkerStopsAnyStep(ids: seq<string>, maxIter: int, id: string, s: State, reply: string)
    requires Contains(reply, MARKER)
    ensures Step(ids, maxIter, Acting(id), s, reply) == Goto(Summarizer, AgentNode(s, reply))
  {
    assert AgentNode(s, reply).messages[|s.messages|] == reply;
  }

  /** A controller answer that is not an agent name stops the run at its first step. */
  lemma UnknownAgentRun(context: string, worldState: string, rest: seq<string>, maxIter: int)
    ensures Invoke(AGENTS, context, worldState, ["unknown_actor"] + rest, maxIter) ==
      Run(RoutingError("unknown_actor"), State([], "unknown_actor", context, worldState),
          [StoryController])
  {
    ConfiguredAgentsAct();
    StripUnpadded("unknown_actor");
    assert "unknown_actor" !in AGENTS;
    FirstRouteFails(AGENTS, context, worldState, ["unknown_actor"] + rest, maxIter);
  }
}
