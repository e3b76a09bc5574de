/** The idea-selection page: the stored ideas become blocks of lines, one of them is
    selected, and the stored snapshot is checked and reshaped into the plan request. */
module SelectIdea {
  import opened Wrappers
  import opened Text
  import opened Json
  import IdeaParser
  import PdfText
  import Download

  /** One idea as the lines shown for it. */
  type IdeaBlock = seq<string>

  // ---------------------------------------------------------------------------
  // Idea blocks.

  /** One element of an `ideas` array: a string is trimmed and split into lines, any
      other value gives an empty block. */
  function ElementBlock(j: Json): (r: IdeaBlock)
    ensures j.JStr? ==> |r| >= 1 && forall k :: 0 <= k < |r| ==> '\n' !in r[k]
    ensures !j.JStr? ==> r == []
  {
    if j.JStr? then Split(Trim(j.s), '\n') else []
  }

  function ElementBlocks(items: seq<Json>): (r: seq<IdeaBlock>)
    ensures |r| == |items|
    ensures forall i :: 0 <= i < |items| ==> r[i] == ElementBlock(items[i])
  {
    seq(|items|, i requires 0 <= i < |items| => ElementBlock(items[i]))
  }

  /** The blocks read from the snapshot on mount. `None` when reading throws (text that
      does not parse, or `null`, whose `ideas` cannot be read): the exception leaves the
      effect, and the model treats that as a page with no ideas. An array gives one
      block per element, a string one block of one trimmed line, anything else no block. */
  function PrimaryBlocks(primary: Stored): (r: Option<seq<IdeaBlock>>)
    ensures r.None? <==> primary.Corrupt? || primary == Parsed(JNull)
    ensures r.Some? && primary.Parsed? && Prop(primary.value, "ideas").Some? && Prop(primary.value, "ideas").value.JArr? ==>
      |r.value| == |Prop(primary.value, "ideas").value.items| &&
      r.value == ElementBlocks(Prop(primary.value, "ideas").value.items)
    ensures r.Some? && primary.Parsed? && Prop(primary.value, "ideas").Some? && Prop(primary.value, "ideas").value.JStr? ==>
      r.value == [[Trim(Prop(primary.value, "ideas").value.s)]]
    ensures r.Some? && (!primary.Parsed? || Prop(primary.value, "ideas").None? ||
                        !(Prop(primary.value, "ideas").value.JArr? || Prop(primary.value, "ideas").value.JStr?)) ==>
      r.value == []
  {
    match primary
    case Absent => Some([])
    case Corrupt => None
    case Parsed(v) =>
      if v.JNull? then None
      else
        match Prop(v, "ideas")
        case Some(JArr(items)) => Some(ElementBlocks(items))
        case Some(JStr(s)) => Some([[Trim(s)]])
        case _ => Some([])
  }

  predicate AllStrings(items: seq<Json>) {
    forall i :: 0 <= i < |items| ==> items[i].JStr?
  }

  /** The fallback list: only a parsed array of strings gives blocks; text that does not
      parse, a value that is not an array, or an element whose `trim` throws leaves none. */
  function BackupBlocks(backup: Stored): (r: seq<IdeaBlock>)
    ensures r != [] ==> backup.Parsed? && backup.value.JArr? && AllStrings(backup.value.items)
    ensures backup.Parsed? && backup.value.JArr? && AllStrings(backup.value.items) ==>
      r == ElementBlocks(backup.value.items) &&
      |r| == |backup.value.items| && forall i :: 0 <= i < |r| ==> Join(r[i], "\n") == Trim(backup.value.items[i].s)
  {
    if backup.Parsed? && backup.value.JArr? && AllStrings(backup.value.items) then
      BlocksRejoin(backup.value.items);
      ElementBlocks(backup.value.items)
    else []
  }

  /** Joining a block again gives the trimmed string it came from. */
  lemma {:induction false} BlocksRejoin(items: seq<Json>)
    ensures forall i :: 0 <= i < |items| && items[i].JStr? ==> Join(ElementBlock(items[i]), "\n") == Trim(items[i].s)
  {
    forall i | 0 <= i < |items| && items[i].JStr?
      ensures Join(ElementBlock(items[i]), "\n") == Trim(items[i].s)
    {
      JoinSplit(Trim(items[i].s), '\n');
    }
  }

  /** The mount effect: the backup is consulted only when the snapshot gives no block. A
      read that throws escapes the effect; the model gives the page no ideas then. */
  function StructureIdeas(primary: Stored, backup: Stored): (r: seq<IdeaBlock>)
    ensures PrimaryBlocks(primary).Some? && PrimaryBlocks(primary).value != [] ==> r == PrimaryBlocks(primary).value
    ensures PrimaryBlocks(primary) == Some([]) ==> r == BackupBlocks(backup)
    ensures PrimaryBlocks(primary).None? ==> r == []
  {
    match PrimaryBlocks(primary)
    case None => []
    case Some(blocks) => if blocks == [] then BackupBlocks(backup) else blocks
  }

  /** The text sent for a block taken from a stored string is that string trimmed, and
      the back end's line split of it gives the block back. */
  lemma {:induction false} SelectedIdeaLines(s: string)
    ensures Join(ElementBlock(JStr(s)), "\n") == Trim(s)
    ensures PdfText.IdeaLines(Join(ElementBlock(JStr(s)), "\n")) == ElementBlock(JStr(s))
  {
    JoinSplit(Trim(s), '\n');
    TrimIdempotent(s);
  }

  // ---------------------------------------------------------------------------
  // The plan request.

  /** `!parsed.key` fails: the key is missing or its value is falsy. */
  predicate Present(v: Json, key: string) {
    Prop(v, key).Some? && Truthy(Prop(v, key).value)
  }

  /** The check before the request: a truthy industry and team size and a non-empty
      array of team members. */
  predicate HasRequiredFields(v: Json) {
    && Present(v, "industry")
    && Present(v, "team_size")
    && Prop(v, "team_members").Some?
    && Prop(v, "team_members").value.JArr?
    && Prop(v, "team_members").value.items != []
  }

  /** `skills.split(",").map(s => s.trim())` */
  function SkillList(s: string): (r: seq<string>)
    ensures |r| >= 1 && forall k :: 0 <= k < |r| ==> ',' !in r[k] && Trim(r[k]) == r[k]
  {
    var pieces := Split(s, ',');
    var r := IdeaParser.TrimAll(pieces);
    forall k | 0 <= k < |r|
      ensures ',' !in r[k] && Trim(r[k]) == r[k]
    {
      PdfText.TrimInside(pieces[k], ',');
      TrimIdempotent(pieces[k]);
    }
    r
  }

  /** A list of skills written with commas is read back as those skills, trimmed. */
  lemma {:induction false} SkillListOfJoined(skills: seq<string>)
    requires |skills| >= 1 && forall k :: 0 <= k < |skills| ==> ',' !in skills[k]
    ensures SkillList(Join(skills, ",")) == IdeaParser.TrimAll(skills)
  {
    SplitJoin(skills, ',');
  }

  /** Three skills written with commas. */
  lemma {:induction false} SkillListOfThree(a: string, b: string, c: string)
    requires ',' !in a && ',' !in b && ',' !in c
    ensures SkillList(a + "," + b + "," + c) == [Trim(a), Trim(b), Trim(c)]
  {
    var skills := [a, b, c];
    assert Join(skills[1..], ",") == b + "," + c by {
      assert skills[1..][1..] == [c];
    }
    assert Join(skills, ",") == a + "," + b + "," + c;
    SkillListOfJoined(skills);
    IdeaParser.TrimAllThree(a, b, c);
  }

  /** A skill that trimming leaves alone and that holds no comma. */
  predicate CleanSkill(s: string) {
    ',' !in s && (s == [] || (!IsSpace(s[0]) && !IsSpace(s[|s| - 1])))
  }

  /** Spaces around a clean skill are trimmed away. */
  lemma {:induction false} PaddedSkill(b: string)
    requires CleanSkill(b)
    ensures Trim(" " + b + " ") == b
  {
    var m := " " + b + " ";
    if b == [] {
      TrimBetween(m, 2, 2);
    } else {
      assert m[1] == b[0] && m[|b|] == b[|b| - 1];
      TrimBetween(m, 1, 1 + |b|);
      assert m[1..1 + |b|] == b;
    }
  }

  /** The shape of `"x, y ,z"`: spaces next to the commas are dropped, so it gives
      `["x", "y", "z"]`. */
  lemma {:induction false} SkillsSpacing(a: string, b: string, c: string)
    requires CleanSkill(a) && CleanSkill(b) && CleanSkill(c)
    ensures SkillList(a + ", " + b + " ," + c) == [a, b, c]
  {
    var m := " " + b + " ";
    assert a + ", " + b + " ," + c == a + "," + m + "," + c;
    assert ',' !in m;
    SkillListOfThree(a, m, c);
    TrimUnchanged(a);
    TrimUnchanged(c);
    PaddedSkill(b);
  }

  /** An empty skills string gives one empty skill. */
  lemma {:induction false} EmptySkills()
    ensures SkillList("") == [""]
  {
    TrimBetween("", 0, 0);
  }

  /** The `skills` of a normalised member: a string becomes its trimmed comma list, an
      array is kept, anything else becomes the empty array. */
  function NormalizedSkills(v: Option<Json>): (r: Json)
    ensures r.JArr?
    ensures v.Some? && v.value.JStr? ==>
      |r.items| == |SkillList(v.value.s)| &&
      forall k :: 0 <= k < |r.items| ==> r.items[k] == JStr(SkillList(v.value.s)[k])
    ensures v.Some? && v.value.JArr? ==> r == v.value
    ensures v.None? || !(v.value.JStr? || v.value.JArr?) ==> r == JArr([])
  {
    match v
    case Some(JStr(s)) => JArr(seq(|SkillList(s)|, k requires 0 <= k < |SkillList(s)| => JStr(SkillList(s)[k])))
    case Some(JArr(a)) => JArr(a)
    case _ => JArr([])
  }

  /** One member after normalisation: a falsy name becomes `""`. */
  function NormalizedMember(m: Json): (r: Json)
    ensures r.JObj? && r.fields.Keys == {"name", "skills"}
    ensures r.fields["name"] == (if Present(m, "name") then m.fields["name"] else JStr(""))
    ensures r.fields["skills"] == NormalizedSkills(Prop(m, "skills"))
  {
    JObj(map["name" := OrElse(Prop(m, "name"), JStr("")), "skills" := NormalizedSkills(Prop(m, "skills"))])
  }

  /** `team_members.map(...)`, which throws on a `null` member. */
  function NormalizeMembers(items: seq<Json>): (r: Option<seq<Json>>)
    ensures r.None? <==> JNull in items
    ensures r.Some? ==> |r.value| == |items| && forall i :: 0 <= i < |items| ==> r.value[i] == NormalizedMember(items[i])
  {
    if JNull in items then None
    else Some(seq(|items|, i requires 0 <= i < |items| => NormalizedMember(items[i])))
  }

  /** What pressing the plan button leads to. */
  datatype PlanStep =
    | NoSelection       // the "Please select an idea" alert
    | NoSnapshot        // no stored snapshot: nothing happens
    | Aborted           // reading the snapshot throws
    | MissingFields     // the "Missing required fields" alert
    | Send(payload: map<string, Json>)

  /** The keys the request rewrites. */
  const RewrittenKeys: set<string> := {"ideas", "team_members", "selected_idea"}

  /** The request prepared from the stored snapshot for the selected idea's text. */
  function PlanRequest(idea: string, stored: Stored): (r: PlanStep)
    ensures stored.Absent? <==> r == NoSnapshot
    ensures r == Aborted <==>
      stored.Corrupt? || stored == Parsed(JNull) ||
      (stored.Parsed? && HasRequiredFields(stored.value) && JNull in stored.value.fields["team_members"].items)
    ensures r == MissingFields <==> stored.Parsed? && stored.value != JNull && !HasRequiredFields(stored.value)
    ensures r.Send? ==>
      && stored.Parsed? && HasRequiredFields(stored.value)
      && var fields := stored.value.fields;
      && r.payload.Keys == fields.Keys - {"ideas"} + {"team_members", "selected_idea"}
      && r.payload["selected_idea"] == JStr(idea)
      && r.payload["team_members"].JArr?
      && |r.payload["team_members"].items| == |fields["team_members"].items|
      && (forall i :: 0 <= i < |fields["team_members"].items| ==>
            r.payload["team_members"].items[i] == NormalizedMember(fields["team_members"].items[i]))
      && forall k :: k in fields && k !in RewrittenKeys ==> r.payload[k] == fields[k]
  {
    match stored
    case Absent => NoSnapshot
    case Corrupt => Aborted
    case Parsed(v) =>
      if v.JNull? then Aborted
      else if !HasRequiredFields(v) then MissingFields
      else
        match NormalizeMembers(v.fields["team_members"].items)
        case None => Aborted
        case Some(members) =>
          Send((v.fields["team_members" := JArr(members)]["selected_idea" := JStr(idea)]) - {"ideas"})
  }

  /** What the page does with the back end's answer: `None` for a failed request or a
      status that is not OK. */
  datatype PdfOutcome = PdfFailed | PdfSaved(path: Json)

  /** `result?.file_url`: a truthy value is stored as the PDF path, anything else is a
      failure. */
  function PdfResult(response: Option<Json>): (r: PdfOutcome)
    ensures r.PdfSaved? <==> response.Some? && Present(response.value, "file_url")
    ensures r.PdfSaved? ==> r.path == response.value.fields["file_url"]
  {
    if response.Some? && Present(response.value, "file_url") then PdfSaved(response.value.fields["file_url"])
    else PdfFailed
  }

  /** A file served under `/static/` is stored and then linked by the download page as
      returned. */
  lemma {:induction false} ServedPdfLinked(name: string)
    requires '/' !in name && name != []
    ensures PdfResult(Some(JObj(map["file_url" := JStr("/static/" + name)]))) == PdfSaved(JStr("/static/" + name))
    ensures Download.DownloadUrl(Some("/static/" + name)) == Some(Download.Host + "/static/" + name)
  {
    Download.ServedPathUnchanged(name);
  }

  // ---------------------------------------------------------------------------
  // The page.

  class SelectIdeaPage {
    var ideas: seq<IdeaBlock>
    var selected: Option<nat>

    /** A selection always names one of the shown ideas. */
    ghost predicate Valid()
      reads this
    {
      selected.Some? ==> selected.value < |ideas|
    }

    /** The page after the mount effect has read the two stored lists. */
    constructor (primary: Stored, backup: Stored)
      ensures Valid()
      ensures ideas == StructureIdeas(primary, backup) && selected == None
    {
      ideas := StructureIdeas(primary, backup);
      selected := None;
    }

    /** `handleSelect`: a click on one of the shown ideas. */
    method Select(i: nat)
      requires Valid() && i < |ideas|
      modifies this`selected
      ensures Valid() && selected == Some(i)
    {
      selected := Some(i);
    }

    /** `handleGeneratePlan` up to the request: the selected block's text, the checks on
        the stored snapshot, and the rewrite of the parsed object. */
    method GeneratePlan(stored: Stored) returns (step: PlanStep)
      requires Valid()
      ensures selected.None? <==> step == NoSelection
      ensures selected.Some? ==> step == PlanRequest(Join(ideas[selected.value], "\n"), stored)
    {
      if selected.None? {
        return NoSelection;
      }
      var idea := Join(ideas[selected.value], "\n");
      match stored
      case Absent =>
        step := NoSnapshot;
      case Corrupt =>
        step := Aborted;
      case Parsed(v) =>
        if v.JNull? {
          step := Aborted;
        } else if !HasRequiredFields(v) {
          step := MissingFields;
        } else {
          var members := NormalizeMembers(v.fields["team_members"].items);
          if members.None? {
            step := Aborted;
          } else {
            var parsed := v.fields;
            parsed := parsed["team_members" := JArr(members.value)];
            parsed := parsed["selected_idea" := JStr(idea)];
            parsed := parsed - {"ideas"};
            step := Send(parsed);
          }
        }
    }
  }
}
