/** The character and world descriptors and the text the prompts embed for them
    (`ActorInfo.brief`, `ActorInfo.__str__`, `WorldInfo.__str__`). */
module Config {
  import opened Text

  /** One character; `raceOrFaction` is the record's `race_or_faction`. */
  datatype ActorInfo = ActorInfo(
    name: string,
    gender: string,
    age: int,
    raceOrFaction: string,
    appearance: string,
    backstories: seq<string>,
    persona: string,
    goal: string)

  /** The world; only `state` is ever replaced, by the controller. */
  datatype WorldInfo = WorldInfo(description: string, state: string, rules: seq<string>)

  /** `"  - " + item` for every item, in order. */
  function Bullets(items: seq<string>): seq<string>
  {
    seq(|items|, i requires 0 <= i < |items| => "  - " + items[i])
  }

  /** The lines of `"\n".join(Bullets(items))`: one bullet per item, or a single empty
      line when there are no items. */
  function BulletLines(items: seq<string>): seq<string>
  {
    if items == [] then [""] else Bullets(items)
  }

  /** The five lines `brief()` is made of, in order. */
  function BriefLines(a: ActorInfo): seq<string>
  {
    ["Name: " + a.name,
     "Gender: " + a.gender,
     "Age: " + IntToDecimal(a.age),
     "Race or faction: " + a.raceOrFaction,
     "Appearance: " + a.appearance]
  }

  /** `ActorInfo.brief()`. */
  function Brief(a: ActorInfo): string
  {
    ("Name: " + a.name) + "\n"
    + ("Gender: " + a.gender) + "\n"
    + ("Age: " + IntToDecimal(a.age)) + "\n"
    + ("Race or faction: " + a.raceOrFaction) + "\n"
    + ("Appearance: " + a.appearance)
  }

  /** `str(ActorInfo)`: the brief, then personality, goal and the bulleted backstories. */
  function ActorText(a: ActorInfo): (r: string)
    ensures Brief(a) <= r
  {
    Brief(a) + "\n"
    + ("Personality: " + a.persona) + "\n"
    + ("Goal: " + a.goal) + "\n"
    + "Backstories:" + "\n"
    + Join(Bullets(a.backstories), "\n")
  }

  /** `str(WorldInfo)`: description, the bulleted rules, and the current state last. */
  function WorldText(w: WorldInfo): (r: string)
    ensures |r| >= |"Current state: " + w.state|
    ensures r[|r| - |"Current state: " + w.state|..] == "Current state: " + w.state
  {
    ("Description: " + w.description) + "\n"
    + "Rules:" + "\n"
    + Join(Bullets(w.rules), "\n") + "\n"
    + ("Current state: " + w.state)
  }

  predicate AllNoNewline(items: seq<string>)
  {
    forall i :: 0 <= i < |items| ==> NoNewline(items[i])
  }

  /** The actor's single-line fields, which a rendering keeps on one line each. */
  predicate SingleLineFields(a: ActorInfo)
  {
    NoNewline(a.name) && NoNewline(a.gender) && NoNewline(a.raceOrFaction)
    && NoNewline(a.appearance) && NoNewline(a.persona) && NoNewline(a.goal)
    && AllNoNewline(a.backstories)
  }

  lemma PrefixNoNewline(p: string, s: string)
    requires NoNewline(p) && NoNewline(s)
    ensures NoNewline(p + s)
  {
    assert forall i :: 0 <= i < |p + s| ==> (p + s)[i] == if i < |p| then p[i] else s[i - |p|];
  }

  /** The lines of `"\n".join(Bullets(items))`. */
  lemma BulletsLines(items: seq<string>)
    requires AllNoNewline(items)
    ensures Lines(Join(Bullets(items), "\n")) == BulletLines(items)
  {
    var b := Bullets(items);
    if items == [] {
      assert Join(b, "\n") == "";
    } else {
      forall i | 0 <= i < |b| ensures NoNewline(b[i]) {
        PrefixNoNewline("  - ", items[i]);
      }
      LinesOfJoin(b);
    }
  }

  /** Appending a newline and a single line adds exactly that line. */
  lemma LinesSnoc(x: string, line: string)
    requires NoNewline(line)
    ensures Lines(x + "\n" + line) == Lines(x) + [line]
  {
    LinesConcat(x, line);
    LinesOfLine(line);
  }

  /** `brief()` is exactly the name, gender, age, faction and appearance lines, in
      that order, whenever those four text fields are single lines; the other fields
      are not part of the brief. */
  lemma BriefIsFiveLines(a: ActorInfo)
    requires NoNewline(a.name) && NoNewline(a.gender) && NoNewline(a.raceOrFaction) && NoNewline(a.appearance)
    ensures Lines(Brief(a)) == BriefLines(a)
  {
    var n, g, y := "Name: " + a.name, "Gender: " + a.gender, "Age: " + IntToDecimal(a.age);
    var f, p := "Race or faction: " + a.raceOrFaction, "Appearance: " + a.appearance;
    PrefixNoNewline("Name: ", a.name);
    PrefixNoNewline("Gender: ", a.gender);
    PrefixNoNewline("Age: ", IntToDecimal(a.age));
    PrefixNoNewline("Race or faction: ", a.raceOrFaction);
    PrefixNoNewline("Appearance: ", a.appearance);
    LinesOfLine(n);
    LinesSnoc(n, g);
    LinesSnoc(n + "\n" + g, y);
    LinesSnoc(n + "\n" + g + "\n" + y, f);
    LinesSnoc(n + "\n" + g + "\n" + y + "\n" + f, p);
  }

  /** `str(ActorInfo)` is the brief's lines, the personality and goal lines, the
      "Backstories:" heading and one `"  - "` line per backstory in list order. */
  lemma ActorTextLines(a: ActorInfo)
    requires SingleLineFields(a)
    ensures Lines(ActorText(a)) ==
      BriefLines(a) + ["Personality: " + a.persona, "Goal: " + a.goal, "Backstories:"]
      + BulletLines(a.backstories)
  {
    var b, p, g := Brief(a), "Personality: " + a.persona, "Goal: " + a.goal;
    var bs := Join(Bullets(a.backstories), "\n");
    PrefixNoNewline("Personality: ", a.persona);
    PrefixNoNewline("Goal: ", a.goal);
    BriefIsFiveLines(a);
    LinesSnoc(b, p);
    LinesSnoc(b + "\n" + p, g);
    LinesSnoc(b + "\n" + p + "\n" + g, "Backstories:");
    BulletsLines(a.backstories);
    LinesConcat(b + "\n" + p + "\n" + g + "\n" + "Backstories:", bs);
  }

  /** `str(WorldInfo)` is the description line, the "Rules:" heading, one `"  - "`
      line per rule in order, and the current state as its last line. */
  lemma WorldTextLines(w: WorldInfo)
    requires NoNewline(w.description) && NoNewline(w.state) && AllNoNewline(w.rules)
    ensures Lines(WorldText(w)) ==
      ["Description: " + w.description, "Rules:"] + BulletLines(w.rules)
      + ["Current state: " + w.state]
  {
    var d, c := "Description: " + w.description, "Current state: " + w.state;
    var rs := Join(Bullets(w.rules), "\n");
    PrefixNoNewline("Description: ", w.description);
    PrefixNoNewline("Current state: ", w.state);
    LinesOfLine(d);
    LinesSnoc(d, "Rules:");
    BulletsLines(w.rules);
    LinesConcat(d + "\n" + "Rules:", rs);
    LinesSnoc(d + "\n" + "Rules:" + "\n" + rs, c);
  }
}
