/** `ControllerAgent`: reads the model's reply for a `<state>` block and an `<actor>`
    block and produces the next state, with the new current world state and the id
    of the actor to authorize next. The transcript is left as it is. */
module Controller {
  import opened Text
  import opened Config
  import opened Agent

  const STATE_OPEN: string := "<state>"
  const STATE_CLOSE: string := "</state>"
  const ACTOR_OPEN: string := "<actor>"
  const ACTOR_CLOSE: string := "</actor>"

  datatype Tag = StateTag | ActorTag

  /** The reply lacks a complete block for `tag`; `ControllerAgent.__call__` fails here
      by calling `.group(1)` on the `None` that `re.search` returned. */
  datatype ParseError = MissingTag(tag: Tag)

  datatype Result<+T> = Success(value: T) | Failure(error: ParseError)

  /** The regular expression `open(.*?)close`, compiled with `re.DOTALL`, matches
      `msg[p..j + |close|]`: `open` at `p`, then any characters, newlines included,
      then `close` at `j`. */
  ghost predicate RegexMatch(msg: string, open: string, close: string, p: nat, j: nat)
  {
    MatchAt(msg, open, p) && p + |open| <= j && MatchAt(msg, close, j)
  }

  /** Where a match starts and where its closing tag starts. */
  datatype Span = Span(open: nat, close: nat)

  /** The match `re.search` reports: the leftmost start, and for it the shortest
      (non-greedy) match; none when the pattern matches nowhere. */
  function TagSpan(msg: string, open: string, close: string): (r: Option<Span>)
    ensures r.Some? ==> RegexMatch(msg, open, close, r.value.open, r.value.close)
    ensures r.Some? ==> forall p: nat, j: nat :: RegexMatch(msg, open, close, p, j) ==>
      r.value.open < p || (r.value.open == p && r.value.close <= j)
    ensures r.None? ==> forall p: nat, j: nat :: !RegexMatch(msg, open, close, p, j)
  {
    match Find(msg, open, 0)
    case None => None
    case Some(p) =>
      match Find(msg, close, p + |open|)
      case None => None
      case Some(j) => Some(Span(p, j))
  }

  /** `m.group(1)` of that match: the text between the tags. */
  function TagContent(msg: string, open: string, close: string): (r: Option<string>)
    requires close != ""
    ensures r.Some? <==> TagSpan(msg, open, close).Some?
    ensures r.Some? ==> !Contains(r.value, close)
  {
    match TagSpan(msg, open, close)
    case None => None
    case Some(sp) =>
      var raw := msg[sp.open + |open|..sp.close];
      forall i: nat ensures !MatchAt(raw, close, i) {
        SliceMatchAt(msg, close, sp.open + |open|, sp.close, i);
      }
      Some(raw)
  }

  /** `re.search(open(.*?)close, msg, re.DOTALL).group(1).strip()`, with the failure
      of the search as `None`. The value has no surrounding whitespace and never
      contains the closing tag. */
  function ExtractTag(msg: string, open: string, close: string): (r: Option<string>)
    requires close != ""
    ensures r.Some? <==> TagSpan(msg, open, close).Some?
    ensures r.Some? ==> !Contains(r.value, close)
    ensures r.Some? ==> r.value == [] || (!IsSpace(r.value[0]) && !IsSpace(r.value[|r.value| - 1]))
  {
    match TagContent(msg, open, close)
    case None => None
    case Some(raw) =>
      StripContains(raw, close);
      Some(Strip(raw))
  }

  /** `ControllerAgent.__call__` once the model has replied with `reply`. */
  function Route(s: AgentState, reply: string): (r: Result<AgentState>)
    ensures r.Success? <==>
      ExtractTag(reply, STATE_OPEN, STATE_CLOSE).Some? && ExtractTag(reply, ACTOR_OPEN, ACTOR_CLOSE).Some?
    ensures r.Failure? ==>
      r.error == MissingTag(if ExtractTag(reply, STATE_OPEN, STATE_CLOSE).None? then StateTag else ActorTag)
    ensures r.Success? ==> Evolves(s, r.value) && r.value.messages == s.messages
    ensures r.Success? ==> r.value.worldState.state == ExtractTag(reply, STATE_OPEN, STATE_CLOSE).value
    ensures r.Success? ==> r.value.currentActor == ExtractTag(reply, ACTOR_OPEN, ACTOR_CLOSE).value
  {
    match ExtractTag(reply, STATE_OPEN, STATE_CLOSE)
    case None => Failure(MissingTag(StateTag))
    case Some(newState) =>
      match ExtractTag(reply, ACTOR_OPEN, ACTOR_CLOSE)
      case None => Failure(MissingTag(ActorTag))
      case Some(nextActor) =>
        var world := WorldInfo(
          description := s.worldState.description,
          state := newState,
          rules := s.worldState.rules);
        Success(AgentState(
          messages := s.messages,
          actors := s.actors,
          currentActor := nextActor,
          worldState := world))
  }

  /** The new current state is the stripped text of the first `<state>` block, and the
      next actor the stripped text of the first `<actor>` block, each taken from the
      leftmost, shortest match of its pattern. */
  lemma RouteTakesFirstBlocks(s: AgentState, reply: string)
    ensures Route(s, reply).Success? ==>
      var sp := TagSpan(reply, STATE_OPEN, STATE_CLOSE).value;
      && RegexMatch(reply, STATE_OPEN, STATE_CLOSE, sp.open, sp.close)
      && Route(s, reply).value.worldState.state == Strip(reply[sp.open + |STATE_OPEN|..sp.close])
    ensures Route(s, reply).Success? ==>
      var sp := TagSpan(reply, ACTOR_OPEN, ACTOR_CLOSE).value;
      && RegexMatch(reply, ACTOR_OPEN, ACTOR_CLOSE, sp.open, sp.close)
      && Route(s, reply).value.currentActor == Strip(reply[sp.open + |ACTOR_OPEN|..sp.close])
  {
  }

  /** A reply in which `<state>(.*?)</state>` matches nowhere is a parse failure,
      whatever else it holds. */
  lemma RouteNeedsStateBlock(s: AgentState, reply: string)
    ensures (forall p: nat, j: nat :: !RegexMatch(reply, STATE_OPEN, STATE_CLOSE, p, j))
      <==> Route(s, reply) == Failure(MissingTag(StateTag))
  {
  }

  /** A reply with a state block but in which `<actor>(.*?)</actor>` matches nowhere
      is a parse failure too. */
  lemma RouteNeedsActorBlock(s: AgentState, reply: string)
    requires exists p: nat, j: nat :: RegexMatch(reply, STATE_OPEN, STATE_CLOSE, p, j)
    ensures (forall p: nat, j: nat :: !RegexMatch(reply, ACTOR_OPEN, ACTOR_CLOSE, p, j))
      <==> Route(s, reply) == Failure(MissingTag(ActorTag))
  {
  }

  /** No tag can start inside `s`. */
  predicate NoLt(s: string)
  {
    forall i :: 0 <= i < |s| ==> s[i] != '<'
  }

  /** A text without `<` contains no tag. */
  lemma NoLtExcludesTag(s: string, pat: string)
    requires NoLt(s) && pat != [] && pat[0] == '<'
    ensures !Contains(s, pat)
  {
    forall i: nat ensures !MatchAt(s, pat, i) {
      if i < |s| {
        MismatchAt(s, pat, i, 0);
      }
    }
  }

  /** The reply layout the prompt asks the model for. */
  function ReplyFormat(st: string, a: string): string
  {
    STATE_OPEN + st + STATE_CLOSE + "\n" + ACTOR_OPEN + a + ACTOR_CLOSE
  }

  /** Only the first character of each tag is a `<`. */
  lemma TagsOpenWithLt()
    ensures forall k :: 1 <= k < |STATE_CLOSE| ==> STATE_CLOSE[k] != '<'
    ensures forall k :: 1 <= k < |ACTOR_OPEN| ==> ACTOR_OPEN[k] != '<'
    ensures forall k :: 1 <= k < |ACTOR_CLOSE| ==> ACTOR_CLOSE[k] != '<'
  {
  }

  /** In that layout the state pattern matches exactly around the state text, unless
      that text itself holds `</state>`. A match cannot straddle the end of the text,
      since `<` opens the closing tag and occurs nowhere else in it. */
  lemma StateSpanOfFormat(st: string, a: string)
    requires !Contains(st, STATE_CLOSE)
    ensures TagSpan(ReplyFormat(st, a), STATE_OPEN, STATE_CLOSE) == Some(Span(0, |STATE_OPEN| + |st|))
    ensures ReplyFormat(st, a)[|STATE_OPEN|..|STATE_OPEN| + |st|] == st
  {
    var msg := ReplyFormat(st, a);
    var c1 := |STATE_OPEN| + |st|;
    assert msg[..|STATE_OPEN|] == STATE_OPEN;
    FindIs(msg, STATE_OPEN, 0, 0);
    assert msg[c1..c1 + |STATE_CLOSE|] == STATE_CLOSE;
    assert msg[|STATE_OPEN|..c1] == st && msg[c1] == '<';
    TagsOpenWithLt();
    forall j: nat | |STATE_OPEN| <= j < c1 ensures !MatchAt(msg, STATE_CLOSE, j) {
      NoMatchBeforeLt(msg, STATE_CLOSE, st, |STATE_OPEN|, j);
    }
    FindIs(msg, STATE_CLOSE, |STATE_OPEN|, c1);
  }

  /** In that layout no `<actor>` starts before the actor block, unless the state
      text holds one. */
  lemma ActorOpenOfFormat(st: string, a: string, j: nat)
    requires !Contains(st, ACTOR_OPEN)
    requires j < |STATE_OPEN| + |STATE_CLOSE| + 1 + |st|
    ensures !MatchAt(ReplyFormat(st, a), ACTOR_OPEN, j)
  {
    var msg := ReplyFormat(st, a);
    var c1 := |STATE_OPEN| + |st|;
    if j < |STATE_OPEN| {
      assert msg[..|STATE_OPEN|] == STATE_OPEN;
      MismatchAt(msg, ACTOR_OPEN, j, if j == 0 then 1 else 0);
    } else if j < c1 {
      assert msg[|STATE_OPEN|..c1] == st && msg[c1] == '<';
      TagsOpenWithLt();
      NoMatchBeforeLt(msg, ACTOR_OPEN, st, |STATE_OPEN|, j);
    } else {
      assert msg[c1..c1 + |STATE_CLOSE| + 1] == STATE_CLOSE + "\n";
      MismatchAt(msg, ACTOR_OPEN, j, if j == c1 then 1 else 0);
    }
  }

  /** In that layout the actor pattern matches exactly around the actor text, unless
      the state text holds `<actor>` or the actor text holds `</actor>`. */
  lemma ActorSpanOfFormat(st: string, a: string)
    requires !Contains(st, ACTOR_OPEN) && !Contains(a, ACTOR_CLOSE)
    ensures var q := |STATE_OPEN| + |STATE_CLOSE| + 1 + |st|;
      && TagSpan(ReplyFormat(st, a), ACTOR_OPEN, ACTOR_CLOSE) == Some(Span(q, q + |ACTOR_OPEN| + |a|))
      && ReplyFormat(st, a)[q + |ACTOR_OPEN|..q + |ACTOR_OPEN| + |a|] == a
  {
    var msg := ReplyFormat(st, a);
    var q := |STATE_OPEN| + |STATE_CLOSE| + 1 + |st|;
    var c2 := q + |ACTOR_OPEN| + |a|;
    assert msg[q..q + |ACTOR_OPEN|] == ACTOR_OPEN;
    forall j: nat | j < q ensures !MatchAt(msg, ACTOR_OPEN, j) {
      ActorOpenOfFormat(st, a, j);
    }
    FindIs(msg, ACTOR_OPEN, 0, q);
    assert msg[q + |ACTOR_OPEN|..c2] == a;
    assert msg[c2..c2 + |ACTOR_CLOSE|] == ACTOR_CLOSE;
    TagsOpenWithLt();
    forall j: nat | q + |ACTOR_OPEN| <= j < c2 ensures !MatchAt(msg, ACTOR_CLOSE, j) {
      NoMatchBeforeLt(msg, ACTOR_CLOSE, a, q + |ACTOR_OPEN|, j);
    }
    FindIs(msg, ACTOR_CLOSE, q + |ACTOR_OPEN|, c2);
  }

  /** A reply laid out as the prompt asks parses back to the stripped state text and
      the stripped actor id, unless a tag inside the texts moves a match: `</state>`
      or `<actor>` in the state text, or `</actor>` in the actor text. */
  lemma RouteOfFormat(s: AgentState, st: string, a: string)
    requires !Contains(st, STATE_CLOSE) && !Contains(st, ACTOR_OPEN) && !Contains(a, ACTOR_CLOSE)
    ensures var r := Route(s, ReplyFormat(st, a));
      r.Success? && r.value.worldState.state == Strip(st) && r.value.currentActor == Strip(a)
  {
    StateSpanOfFormat(st, a);
    ActorSpanOfFormat(st, a);
  }

  lemma ExampleLayout()
    ensures ReplyFormat(" calm evening ", " thorn ") == "<state> calm evening </state>\n<actor> thorn </actor>"
  {
    var st, a := " calm evening ", " thorn ";
    assert STATE_OPEN + st == "<state> calm evening ";
    assert STATE_OPEN + st + STATE_CLOSE == "<state> calm evening </state>";
    assert STATE_OPEN + st + STATE_CLOSE + "\n" + ACTOR_OPEN == "<state> calm evening </state>\n<actor>";
    assert STATE_OPEN + st + STATE_CLOSE + "\n" + ACTOR_OPEN + a == "<state> calm evening </state>\n<actor> thorn ";
  }

  lemma ExampleStripState()
    ensures Strip(" calm evening ") == "calm evening"
  {
    var st := " calm evening ";
    assert st[1..] == "calm evening " && st[1..][0] == 'c';
    assert LeadingSpaces(st) == 1;
    assert st[..13] == " calm evening" && st[..13][12] == 'g';
    assert TrailingSpaces(st) == 1;
  }

  lemma ExampleStripActor()
    ensures Strip(" thorn ") == "thorn"
  {
    var a := " thorn ";
    assert a[1..] == "thorn " && a[1..][0] == 't';
    assert LeadingSpaces(a) == 1;
    assert a[..6] == " thorn" && a[..6][5] == 'n';
    assert TrailingSpaces(a) == 1;
  }

  lemma ExampleTagFree()
    ensures !Contains(" calm evening ", STATE_CLOSE) && !Contains(" calm evening ", ACTOR_OPEN)
    ensures !Contains(" thorn ", ACTOR_CLOSE)
  {
    NoLtExcludesTag(" calm evening ", STATE_CLOSE);
    NoLtExcludesTag(" calm evening ", ACTOR_OPEN);
    NoLtExcludesTag(" thorn ", ACTOR_CLOSE);
  }

  /** The reply `"<state> calm evening </state>\n<actor> thorn </actor>"` sets the
      current state to "calm evening" and the next actor to "thorn". */
  lemma RouteExample(s: AgentState)
    ensures var r := Route(s, "<state> calm evening </state>\n<actor> thorn </actor>");
      r.Success? && r.value.worldState.state == "calm evening" && r.value.currentActor == "thorn"
  {
    ExampleLayout();
    ExampleStripState();
    ExampleStripActor();
    ExampleTagFree();
    RouteOfFormat(s, " calm evening ", " thorn ");
  }

  /** The controller's prompt: the full description of every actor under its id, the
      world, and the whole transcript. */
  function ControllerPrompt(s: AgentState): seq<Section>
  {
    [Section("Characters", CharactersSection(s.actors)),
     Section("World State", WorldText(s.worldState)),
     Section("Role Play History", HistorySection(s.messages))]
  }

  /** Actor `k` of the registry is listed, under the heading with its id, between the
      actors before it and the actors after it. */
  lemma ControllerPromptListsActor(s: AgentState, k: nat)
    requires k < |s.actors|
    ensures ControllerPrompt(s)[0].body ==
      JoinMapBefore(s.actors[..k], CharacterEntry, "\n")
      + ("### ID: " + s.actors[k].id + "\n" + ActorText(s.actors[k].info) + "\n")
      + JoinMapAfter(s.actors[k + 1..], CharacterEntry, "\n")
  {
    CharactersSectionAt(s.actors, k);
  }

  /** Message `k` of the transcript is rendered between the messages before it and the
      messages after it. */
  lemma ControllerPromptListsMessage(s: AgentState, k: nat)
    requires k < |s.messages|
    ensures ControllerPrompt(s)[2].body ==
      JoinMapBefore(s.messages[..k], HistoryEntry, "\n")
      + ("### " + s.messages[k].sender + "'s Round\n" + s.messages[k].content + "\n")
      + JoinMapAfter(s.messages[k + 1..], HistoryEntry, "\n")
  {
    HistorySectionAt(s.messages, k);
  }
}
