/** The quadrant whiteboard: the tool and pending sticky-colour state machine over the
    notes list, the list updates made by its click, edit and drag-release handlers, the
    grouping of notes into the idea request, the trend-tag splitter, and the session
    snapshot written after a successful idea request. */
module Whiteboard {
  import opened Wrappers
  import opened Text
  import opened Json
  import opened IdeaParser
  import opened Seqs

  datatype Tool = NoTool | TextTool | StickyTool | DeleteTool
  datatype Color = Yellow | Pink | Green | Blue | Purple
  datatype NoteKind = TextNote | StickyNote

  /** A note; `x` and `y` are relative to the top-left corner of its quadrant. */
  datatype Note = Note(id: int, kind: NoteKind, content: string, x: real, y: real, color: Color, quadrant: int)

  /** A quadrant's bounding rectangle in viewport coordinates (`getBoundingClientRect`). */
  datatype Rect = Rect(left: real, top: real, right: real, bottom: real)

  /** A quadrant container's `clientWidth` and `clientHeight`. */
  datatype Size = Size(width: real, height: real)

  const QuadrantCount: nat := 4
  /** The note footprint the drag-release clamp assumes. */
  const NoteWidth: real := 150.0
  const NoteHeight: real := 100.0

  // ---------------------------------------------------------------------------
  // Hit-testing a click against the quadrants.

  /** A rendered quadrant whose rectangle contains the point, edges included. */
  predicate Hits(q: Option<Rect>, px: real, py: real) {
    q.Some? && q.value.left <= px <= q.value.right && q.value.top <= py <= q.value.bottom
  }

  /** The first quadrant, in index order, that contains the point. */
  function FirstHit(quadrants: seq<Option<Rect>>, px: real, py: real): (r: Option<nat>)
    ensures r.Some? ==> r.value < |quadrants| && Hits(quadrants[r.value], px, py)
    ensures r.Some? ==> forall j :: 0 <= j < r.value ==> !Hits(quadrants[j], px, py)
    ensures r.None? ==> forall j :: 0 <= j < |quadrants| ==> !Hits(quadrants[j], px, py)
  {
    if quadrants == [] then None
    else if Hits(quadrants[0], px, py) then Some(0)
    else
      match FirstHit(quadrants[1..], px, py)
      case None => None
      case Some(k) => Some(k + 1)
  }

  /** The tool, the pending sticky colour and the notes: what the board's handlers change. */
  datatype BoardState = BoardState(tool: Tool, pending: Option<Color>, notes: seq<Note>)

  /** The effect of `handleBoardClick` on the board state: a click with no tool, or one
      outside every quadrant, changes nothing; otherwise the first quadrant hit receives
      the note the tool places (a text note, or a sticky note when a colour is pending),
      and the tool and pending colour are cleared whether or not a note was placed. */
  function Clicked(s: BoardState, px: real, py: real, quadrants: seq<Option<Rect>>, freshId: int): (r: BoardState)
    ensures s.tool == NoTool ==> r == s
    ensures FirstHit(quadrants, px, py).None? ==> r == s
    ensures s.tool != NoTool && FirstHit(quadrants, px, py).Some? ==> r.tool == NoTool && r.pending == None
    ensures s.tool == TextTool && FirstHit(quadrants, px, py).Some? ==>
      var q := FirstHit(quadrants, px, py).value;
      var rect := quadrants[q].value;
      r.notes == s.notes + [Note(freshId, TextNote, [], px - rect.left, py - rect.top, Yellow, q)]
    ensures s.tool == StickyTool && s.pending.Some? && FirstHit(quadrants, px, py).Some? ==>
      var q := FirstHit(quadrants, px, py).value;
      var rect := quadrants[q].value;
      r.notes == s.notes + [Note(freshId, StickyNote, [], px - rect.left, py - rect.top, s.pending.value, q)]
    ensures s.tool == DeleteTool || (s.tool == StickyTool && s.pending.None?) ==> r.notes == s.notes
  {
    if s.tool == NoTool then s
    else
      match FirstHit(quadrants, px, py)
      case None => s
      case Some(q) =>
        var rect := quadrants[q].value;
        var x, y := px - rect.left, py - rect.top;
        var added :=
          if s.tool == TextTool then [Note(freshId, TextNote, [], x, y, Yellow, q)]
          else if s.tool == StickyTool && s.pending.Some? then [Note(freshId, StickyNote, [], x, y, s.pending.value, q)]
          else [];
        BoardState(NoTool, None, s.notes + added)
  }

  /** The effect of a note's own click handler: in delete mode the note goes and the tool
      is cleared; with any other tool nothing happens. */
  function NoteClicked(s: BoardState, target: int): (r: BoardState)
    ensures s.tool == DeleteTool ==> r == BoardState(NoTool, s.pending, Without(s.notes, target))
    ensures s.tool != DeleteTool ==> r == s
  {
    if s.tool == DeleteTool then BoardState(NoTool, s.pending, Without(s.notes, target)) else s
  }

  // ---------------------------------------------------------------------------
  // List updates.

  /** `prev.filter(n => n.id !== id)`. */
  function Without(notes: seq<Note>, id: int): (r: seq<Note>)
    ensures |r| <= |notes|
    ensures forall k :: 0 <= k < |r| ==> r[k].id != id
  {
    if notes == [] then []
    else (if notes[0].id == id then [] else [notes[0]]) + Without(notes[1..], id)
  }

  /** Exactly the notes with another id remain. */
  lemma {:induction false} WithoutMembers(notes: seq<Note>, id: int)
    ensures forall n :: n in Without(notes, id) <==> n in notes && n.id != id
  {
    if notes != [] {
      WithoutMembers(notes[1..], id);
      assert notes == [notes[0]] + notes[1..];
    }
  }

  /** Removal works piece by piece, so the notes that stay keep their order. */
  lemma {:induction false} WithoutAppend(a: seq<Note>, b: seq<Note>, id: int)
    ensures Without(a + b, id) == Without(a, id) + Without(b, id)
  {
    if a != [] {
      WithoutAppend(a[1..], b, id);
      assert (a + b)[1..] == a[1..] + b;
    } else {
      assert a + b == b;
    }
  }

  /** A note belongs to one of the four quadrants and sits at a non-negative offset
      inside it. */
  predicate Placed(n: Note) {
    0 <= n.quadrant < QuadrantCount && 0.0 <= n.x && 0.0 <= n.y
  }

  /** Removal keeps only notes that were there, so it keeps every note placed. */
  lemma {:induction false} WithoutPlaced(notes: seq<Note>, id: int)
    requires forall i :: 0 <= i < |notes| ==> Placed(notes[i])
    ensures forall i :: 0 <= i < |Without(notes, id)| ==> Placed(Without(notes, id)[i])
  {
    if notes != [] {
      WithoutPlaced(notes[1..], id);
    }
  }

  /** Removing an id no note carries changes nothing. */
  lemma {:induction false} WithoutAbsent(notes: seq<Note>, id: int)
    requires forall i :: 0 <= i < |notes| ==> notes[i].id != id
    ensures Without(notes, id) == notes
  {
    if notes != [] {
      WithoutAbsent(notes[1..], id);
    }
  }

  /** `prev.map(note => note.id === id ? { ...note, content } : note)`. */
  function WithContent(notes: seq<Note>, id: int, content: string): (r: seq<Note>)
    ensures |r| == |notes|
    ensures forall i :: 0 <= i < |notes| ==>
      r[i] == if notes[i].id == id then notes[i].(content := content) else notes[i]
  {
    if notes == [] then []
    else [if notes[0].id == id then notes[0].(content := content) else notes[0]] + WithContent(notes[1..], id, content)
  }

  function Max(a: real, b: real): real {
    if a >= b then a else b
  }

  function Min(a: real, b: real): real {
    if a <= b then a else b
  }

  /** `Math.max(0, Math.min(v, limit))`: the result is in `[0, max(0, limit)]`, and a value
      already in `[0, limit]` is kept. */
  function Clamp(v: real, limit: real): (r: real)
    ensures 0.0 <= r <= Max(0.0, limit)
    ensures 0.0 <= v <= limit ==> r == v
    ensures v < 0.0 ==> r == 0.0
    ensures v > limit ==> r == Max(0.0, limit)
  {
    Max(0.0, Min(v, limit))
  }

  /** The container of quadrant `q`: `document.querySelectorAll(".grid > div")[q]`, absent
      when not rendered or when `q` is not an index of the list. */
  function Container(sizes: seq<Option<Size>>, q: int): Option<Size> {
    if 0 <= q < |sizes| then sizes[q] else None
  }

  /** One note's drag-release update: only `x` and `y` change, clamped to the container less
      the note footprint; a note whose container is absent is returned unchanged. */
  function Moved(n: Note, px: real, py: real, sizes: seq<Option<Size>>): (r: Note)
    ensures r.(x := n.x, y := n.y) == n
    ensures Container(sizes, n.quadrant).None? ==> r == n
    ensures Container(sizes, n.quadrant).Some? ==>
      var c := Container(sizes, n.quadrant).value;
      && 0.0 <= r.x <= Max(0.0, c.width - NoteWidth)
      && 0.0 <= r.y <= Max(0.0, c.height - NoteHeight)
      && (0.0 <= px <= c.width - NoteWidth ==> r.x == px)
      && (0.0 <= py <= c.height - NoteHeight ==> r.y == py)
  {
    match Container(sizes, n.quadrant)
    case None => n
    case Some(c) => n.(x := Clamp(px, c.width - NoteWidth), y := Clamp(py, c.height - NoteHeight))
  }

  /** The `onStop` list update: every note with the reported id is moved, all others stay
      as they are, in the same order. */
  function DropNote(notes: seq<Note>, id: int, px: real, py: real, sizes: seq<Option<Size>>): (r: seq<Note>)
    ensures |r| == |notes|
    ensures forall i :: 0 <= i < |notes| ==>
      r[i] == if notes[i].id == id then Moved(notes[i], px, py, sizes) else notes[i]
  {
    if notes == [] then []
    else [if notes[0].id == id then Moved(notes[0], px, py, sizes) else notes[0]] + DropNote(notes[1..], id, px, py, sizes)
  }

  // ---------------------------------------------------------------------------
  // Grouping the notes for the idea request.

  /** The request body of `/generate-ideas`. */
  datatype Grouped = Grouped(industry: Json, painPoints: seq<string>, ideas: seq<string>, goals: seq<string>, constraints: seq<string>)

  predicate Keeps(n: Note, q: int) {
    n.quadrant == q && Trim(n.content) != []
  }

  /** The trimmed, non-blank contents of the notes of quadrant `q`, in note order. */
  function Bucket(notes: seq<Note>, q: int): (r: seq<string>)
    ensures |r| <= |notes|
    ensures forall k :: 0 <= k < |r| ==> r[k] != []
  {
    if notes == [] then []
    else
      var last := notes[|notes| - 1];
      Bucket(notes[..|notes| - 1], q) + (if Keeps(last, q) then [Trim(last.content)] else [])
  }

  /** What a list holds is already trimmed: trimming it again changes nothing. */
  lemma {:induction false} BucketTrimmed(notes: seq<Note>, q: int)
    ensures forall k :: 0 <= k < |Bucket(notes, q)| ==> Trim(Bucket(notes, q)[k]) == Bucket(notes, q)[k]
  {
    if notes != [] {
      var last := notes[|notes| - 1];
      BucketTrimmed(notes[..|notes| - 1], q);
      TrimIdempotent(last.content);
    }
  }

  lemma {:induction false} BucketUnfold(notes: seq<Note>, q: int)
    requires notes != []
    ensures Bucket(notes, q) == Bucket(notes[..|notes| - 1], q)
      + (if Keeps(notes[|notes| - 1], q) then [Trim(notes[|notes| - 1].content)] else [])
  {
  }

  /** One more note of the prefix extends only the list of its own quadrant. */
  lemma {:induction false} BucketStep(notes: seq<Note>, i: nat, q: int)
    requires i < |notes|
    ensures Bucket(notes[..i + 1], q) == Bucket(notes[..i], q) + (if Keeps(notes[i], q) then [Trim(notes[i].content)] else [])
  {
    TakeStep(notes, i);
    BucketUnfold(notes[..i + 1], q);
  }

  /** Grouping works note by note: the list of a concatenation is the concatenation of
      the lists, so the notes keep their order. */
  lemma {:induction false} BucketAppend(a: seq<Note>, b: seq<Note>, q: int)
    ensures Bucket(a + b, q) == Bucket(a, q) + Bucket(b, q)
    decreases |b|
  {
    if b == [] {
      assert a + b == a;
      assert Bucket(a, q) + [] == Bucket(a, q);
    } else {
      var init, last := b[..|b| - 1], b[|b| - 1];
      BucketAppend(a, init, q);
      DropLastAppend(a, b);
      BucketUnfold(a + b, q);
      BucketUnfold(b, q);
      AppendAssoc(Bucket(a, q), Bucket(init, q), if Keeps(last, q) then [Trim(last.content)] else []);
    }
  }

  /** The notes that reach some list: non-blank content in quadrant 0 to 3. */
  function Routed(notes: seq<Note>): nat {
    if notes == [] then 0
    else Routed(notes[..|notes| - 1]) + (if 0 <= notes[|notes| - 1].quadrant < QuadrantCount && Trim(notes[|notes| - 1].content) != [] then 1 else 0)
  }

  /** The notes whose content is not blank. */
  function NonBlankCount(notes: seq<Note>): nat {
    if notes == [] then 0
    else NonBlankCount(notes[..|notes| - 1]) + (if Trim(notes[|notes| - 1].content) != [] then 1 else 0)
  }

  /** On a board whose notes are all placed in a quadrant, every non-blank note is routed. */
  lemma {:induction false} PlacedNotesRouted(notes: seq<Note>)
    requires forall i :: 0 <= i < |notes| ==> Placed(notes[i])
    ensures Routed(notes) == NonBlankCount(notes)
  {
    if notes != [] {
      PlacedNotesRouted(notes[..|notes| - 1]);
    }
  }

  /** Each routed note lands in exactly one of the four lists; the rest are dropped. */
  lemma {:induction false} BucketsPartition(notes: seq<Note>)
    ensures |Bucket(notes, 0)| + |Bucket(notes, 1)| + |Bucket(notes, 2)| + |Bucket(notes, 3)| == Routed(notes)
  {
    if notes != [] {
      BucketsPartition(notes[..|notes| - 1]);
    }
  }

  /** No note placed on the board is lost by the grouping unless its content is blank. */
  lemma {:induction false} PlacedNotesGrouped(notes: seq<Note>)
    requires forall i :: 0 <= i < |notes| ==> Placed(notes[i])
    ensures |Bucket(notes, 0)| + |Bucket(notes, 1)| + |Bucket(notes, 2)| + |Bucket(notes, 3)| == NonBlankCount(notes)
  {
    BucketsPartition(notes);
    PlacedNotesRouted(notes);
  }

  // ---------------------------------------------------------------------------
  // What the page reads from the session snapshot on mount.

  /** `parsed.industry || ""` when a snapshot is stored. A snapshot that does not parse, or
      `null`, makes the mount effect throw; the model gives the field its initial `""` then. */
  function StoredIndustry(stored: Stored): Json {
    match stored
    case Parsed(j) => if j.JNull? then JStr([]) else OrElse(Prop(j, "industry"), JStr([]))
    case _ => JStr([])
  }

  /** `raw.split("#").filter(Boolean).map(tag => "#" + tag.trim())` on the pieces. */
  function HashTags(pieces: seq<string>): (r: seq<string>)
    ensures |r| <= |pieces|
    ensures forall k :: 0 <= k < |r| ==> |r[k]| >= 1 && r[k][0] == '#'
  {
    if pieces == [] then []
    else (if pieces[0] == [] then [] else ["#" + Trim(pieces[0])]) + HashTags(pieces[1..])
  }

  /** The trend tags shown under the industry. */
  function TrendTags(raw: string): seq<string> {
    HashTags(Split(raw, '#'))
  }

  /** `parsed.trends || ""` split into tags. A non-string `trends`, a snapshot that does not
      parse, or `null` makes the mount effect throw; the model keeps the initial empty list then. */
  function StoredTrends(stored: Stored): seq<string> {
    match stored
    case Parsed(j) =>
      if j.JNull? then []
      else
        var raw := OrElse(Prop(j, "trends"), JStr([]));
        if raw.JStr? then TrendTags(raw.s) else []
    case _ => []
  }

  lemma {:induction false} HashTagsOfNonEmpty(pieces: seq<string>)
    requires forall k :: 0 <= k < |pieces| ==> pieces[k] != []
    ensures |HashTags(pieces)| == |pieces|
    ensures forall k :: 0 <= k < |pieces| ==> HashTags(pieces)[k] == "#" + Trim(pieces[k])
  {
    if pieces != [] {
      HashTagsOfNonEmpty(pieces[1..]);
    }
  }

  /** The tags of consecutive pieces are the tags of each part, in order. */
  lemma {:induction false} HashTagsAppend(a: seq<string>, b: seq<string>)
    ensures HashTags(a + b) == HashTags(a) + HashTags(b)
  {
    if a == [] {
      assert a + b == b;
    } else {
      HashTagsAppend(a[1..], b);
      DropFirstAppend(a, b);
      AppendAssoc(if a[0] == [] then [] else ["#" + Trim(a[0])], HashTags(a[1..]), HashTags(b));
    }
  }

  /** One piece: an empty piece is filtered out, any other one becomes a tag. */
  lemma {:induction false} HashTagsOne(p: string)
    ensures HashTags([p]) == if p == [] then [] else ["#" + Trim(p)]
  {
    assert [p][1..] == [];
  }

  /** `a##b`: the empty piece between the two `#` gives no tag. */
  lemma {:induction false} DoubleHashDropped(a: string, b: string)
    requires a != [] && b != [] && '#' !in a && '#' !in b
    ensures TrendTags(a + "##" + b) == ["#" + Trim(a), "#" + Trim(b)]
  {
    DoubleHashSplit(a, b);
    HashTagsAppend([a, []], [b]);
    HashTagsAppend([a], [[]]);
    assert [a, []] == [a] + [[]];
    assert [a, [], b] == [a, []] + [b];
    HashTagsOne(a);
    HashTagsOne([]);
    HashTagsOne(b);
  }

  lemma {:induction false} DoubleHashSplit(a: string, b: string)
    requires '#' !in a && '#' !in b
    ensures Split(a + "##" + b, '#') == [a, [], b]
  {
    assert a + "##" + b == a + ['#'] + ([] + ['#'] + b);
    SplitAtSeparator(a, [] + ['#'] + b, '#');
    SplitAtSeparator([], b, '#');
    SplitFirstPiece(b, '#');
  }

  /** `a#`: the empty piece after a final `#` gives no tag. */
  lemma {:induction false} TrailingHashDropped(a: string)
    requires a != [] && '#' !in a
    ensures TrendTags(a + "#") == ["#" + Trim(a)]
  {
    assert a + "#" == a + ['#'] + [];
    SplitAtSeparator(a, [], '#');
    assert Split([], '#') == [[]];
    assert [a] + [[]] == [a, []];
    HashTagsAppend([a], [[]]);
    HashTagsOne(a);
    HashTagsOne([]);
  }

  /** Splitting `#t1#t2…#tn` on `#` gives an empty piece and then the tags. */
  lemma {:induction false} JoinedTagsSplit(tags: seq<string>)
    requires tags != []
    requires forall k :: 0 <= k < |tags| ==> '#' !in tags[k]
    ensures Split("#" + Join(tags, "#"), '#') == [[]] + tags
  {
    var parts := [[]] + tags;
    assert parts[1..] == tags;
    assert Join(parts, "#") == [] + "#" + Join(tags, "#");
    assert [] + "#" + Join(tags, "#") == "#" + Join(tags, "#");
    SplitJoin(parts, '#');
  }

  /** Tags written as `#t1#t2…#tn` come back one per tag, trimmed, in order. */
  lemma {:induction false} TrendTagsOfJoined(tags: seq<string>)
    requires forall k :: 0 <= k < |tags| ==> tags[k] != [] && '#' !in tags[k]
    ensures TrendTags("#" + Join(tags, "#")) == HashTags(tags)
    ensures |TrendTags("#" + Join(tags, "#"))| == |tags|
    ensures forall k :: 0 <= k < |tags| ==> TrendTags("#" + Join(tags, "#"))[k] == "#" + Trim(tags[k])
  {
    if tags == [] {
      assert "#" + Join(tags, "#") == [] + ['#'] + [];
      SplitAtSeparator([], [], '#');
      assert Split([], '#') == [[]];
      assert HashTags([[], []]) == [];
    } else {
      JoinedTagsSplit(tags);
      var parts := [[]] + tags;
      assert HashTags(parts) == HashTags(tags) by {
        assert parts[1..] == tags;
      }
      HashTagsOfNonEmpty(tags);
    }
  }

  /** A blank tag survives the filter, which tests it before trimming, and is shown as
      a bare "#"; a tag such as "AI " loses its trailing space. */
  lemma {:induction false} BlankTagKept(tags: seq<string>, k: nat)
    requires forall i :: 0 <= i < |tags| ==> tags[i] != [] && '#' !in tags[i]
    requires k < |tags| && Blank(tags[k])
    ensures k < |TrendTags("#" + Join(tags, "#"))|
    ensures TrendTags("#" + Join(tags, "#"))[k] == "#"
  {
    TrendTagsOfJoined(tags);
    assert Trim(tags[k]) == [];
  }

  // ---------------------------------------------------------------------------
  // Saving the ideas returned by the idea service.

  datatype IdeasOutcome =
    | RequestFailed
    | EmptyIdeas
    | IdeasSaved(generated: seq<string>, snapshot: map<string, Json>)

  /** `result?.ideas` is a string whose trimmed form is not empty. */
  predicate HasIdeasText(body: Json) {
    Prop(body, "ideas").Some? && Prop(body, "ideas").value.JStr? && Trim(Prop(body, "ideas").value.s) != []
  }

  function SampleMember(name: string, skills: seq<string>): Json {
    JObj(map["name" := JStr(name), "skills" := JArr(Strings(skills))])
  }

  /** The fixed team the page writes with every idea list. */
  const SampleTeam: Json := JArr([
    SampleMember("Alice", ["frontend development", "UI/UX design"]),
    SampleMember("Bob", ["backend development", "database management"]),
    SampleMember("Charlie", ["machine learning", "data preprocessing"])])

  const IdeasKeys: set<string> := {"ideas", "industry", "team_size", "team_members"}

  /** The previously stored snapshot; a blob that does not parse counts as `{}`. */
  function PriorSnapshot(previous: Stored): map<string, Json> {
    if previous.Parsed? then Spread(previous.value) else map[]
  }

  /** The keys the page writes after a successful idea request. */
  function IdeasUpdate(industry: Json, ideas: seq<string>): (r: map<string, Json>)
    ensures r.Keys == IdeasKeys
    ensures r["ideas"] == JArr(Strings(ideas)) && r["industry"] == industry
    ensures r["team_size"] == JNum(3) && r["team_members"] == SampleTeam
  {
    map["ideas" := JArr(Strings(ideas)), "industry" := industry,
        "team_size" := JNum(3), "team_members" := SampleTeam]
  }

  /** `handleGenerateIdeas` after the request: `response` is the decoded body, `None` when
      the request or the decoding failed. Without non-blank idea text nothing is stored;
      otherwise the parsed ideas are stored both on their own and merged into the snapshot
      together with the industry and a fixed team. */
  function SaveIdeas(industry: Json, response: Option<Json>, previous: Stored): (r: IdeasOutcome)
    ensures r.RequestFailed? <==> response.None?
    ensures r.EmptyIdeas? <==> response.Some? && !HasIdeasText(response.value)
    ensures r.IdeasSaved? ==> response.Some? && HasIdeasText(response.value)
    ensures r.IdeasSaved? ==> r.generated == ParseIdeas(Prop(response.value, "ideas").value.s)
    ensures r.IdeasSaved? ==> r.snapshot.Keys == PriorSnapshot(previous).Keys + IdeasKeys
    ensures r.IdeasSaved? ==> forall k :: k in IdeasKeys ==> r.snapshot[k] == IdeasUpdate(industry, r.generated)[k]
    ensures r.IdeasSaved? ==> forall k :: k in PriorSnapshot(previous) && k !in IdeasKeys ==>
      r.snapshot[k] == PriorSnapshot(previous)[k]
  {
    match response
    case None => RequestFailed
    case Some(body) =>
      if !HasIdeasText(body) then EmptyIdeas
      else
        var ideas := ParseIdeas(Prop(body, "ideas").value.s);
        IdeasSaved(ideas, Overwrite(PriorSnapshot(previous), IdeasUpdate(industry, ideas)))
  }

  /** A text that is a single marker and nothing else parses to no ideas. */
  lemma {:induction false} MarkerOnlyParsesToNothing(text: string)
    requires MarkerAt(text, 0) && MarkerEnd(text, 0) == |text|
    ensures Trim(text) != []
    ensures ParseIdeas(text) == []
  {
    assert !IsSpace(text[0]);
    assert FirstMarker(text, 0) == Some(0);
    assert text[|text|..] == [];
    assert FirstMarker([], 0).None?;
    assert SplitOnMarkers(text) == [[], []];
    TrimBetween([], 0, 0);
    assert TrimAll([[], []]) == [[], []];
    assert IdeaChunks(text) == [];
  }

  /** The check is made on the raw text, so a response whose text is a single marker
      passes it and stores an empty idea list. */
  lemma {:induction false} MarkerOnlyResponseStoresNoIdeas(industry: Json, body: Json, text: string, previous: Stored)
    requires Prop(body, "ideas") == Some(JStr(text))
    requires MarkerAt(text, 0) && MarkerEnd(text, 0) == |text|
    ensures SaveIdeas(industry, Some(body), previous).IdeasSaved?
    ensures SaveIdeas(industry, Some(body), previous).generated == []
  {
    MarkerOnlyParsesToNothing(text);
    IdeasTextSaved(industry, body, text, previous);
  }

  /** A response with non-blank idea text stores the ideas parsed from that text. */
  lemma {:induction false} IdeasTextSaved(industry: Json, body: Json, text: string, previous: Stored)
    requires Prop(body, "ideas") == Some(JStr(text)) && Trim(text) != []
    ensures SaveIdeas(industry, Some(body), previous).IdeasSaved?
    ensures SaveIdeas(industry, Some(body), previous).generated == ParseIdeas(text)
  {
    assert HasIdeasText(body);
  }

  /** "Idea 1:" is such a text. */
  lemma {:induction false} SingleMarkerExample()
    ensures MarkerAt("Idea 1:", 0) && MarkerEnd("Idea 1:", 0) == 7
  {
    var s := "Idea 1:";
    assert DigitRun(s, 7) == 0;
    assert DigitRun(s, 6) == 0;
    assert DigitRun(s, 5) == 1;
  }

  // ---------------------------------------------------------------------------

  /** The whiteboard page's state. */
  class Board {
    var activeTool: Tool
    var pendingColor: Option<Color>
    var notes: seq<Note>
    var industry: Json
    var trends: seq<string>

    /** Every note belongs to one of the four quadrants and sits at a non-negative
        offset inside it. */
    ghost predicate Valid()
      reads this
    {
      forall i :: 0 <= i < |notes| ==> Placed(notes[i])
    }

    function State(): BoardState
      reads this
    {
      BoardState(activeTool, pendingColor, notes)
    }

    /** The page after mounting and reading the stored snapshot. */
    constructor (stored: Stored)
      ensures Valid()
      ensures activeTool == NoTool && pendingColor == None && notes == []
      ensures industry == StoredIndustry(stored) && trends == StoredTrends(stored)
    {
      activeTool := NoTool;
      pendingColor := None;
      notes := [];
      industry := StoredIndustry(stored);
      trends := StoredTrends(stored);
    }

    /** The delete and text toolbar buttons. */
    method SelectTool(t: Tool)
      requires Valid() && (t == DeleteTool || t == TextTool)
      modifies this`activeTool
      ensures Valid()
      ensures activeTool == t
    {
      activeTool := t;
    }

    /** The sticky toolbar button: sticky mode, awaiting a palette choice. */
    method StickyButton()
      requires Valid()
      modifies this`activeTool, this`pendingColor
      ensures Valid()
      ensures activeTool == StickyTool && pendingColor == None
    {
      activeTool := StickyTool;
      pendingColor := None;
    }

    /** `placeStickyNote`: a palette choice. */
    method PlaceStickyNote(c: Color)
      requires Valid()
      modifies this`activeTool, this`pendingColor
      ensures Valid()
      ensures activeTool == StickyTool && pendingColor == Some(c)
    {
      pendingColor := Some(c);
      activeTool := StickyTool;
    }

    /** `handleBoardClick`: a click on the board at viewport point (px, py). */
    method BoardClick(px: real, py: real, quadrants: seq<Option<Rect>>, freshId: int)
      requires Valid() && |quadrants| == QuadrantCount
      modifies this`activeTool, this`pendingColor, this`notes
      ensures Valid()
      ensures State() == Clicked(old(State()), px, py, quadrants, freshId)
    {
      if activeTool == NoTool {
        return;
      }
      var i := 0;
      while i < |quadrants|
        invariant 0 <= i <= |quadrants|
        invariant forall j :: 0 <= j < i ==> !Hits(quadrants[j], px, py)
        invariant State() == old(State())
      {
        if quadrants[i].Some? {
          var rect := quadrants[i].value;
          if rect.left <= px <= rect.right && rect.top <= py <= rect.bottom {
            var x, y := px - rect.left, py - rect.top;
            if activeTool == TextTool {
              notes := notes + [Note(freshId, TextNote, [], x, y, Yellow, i)];
            } else if activeTool == StickyTool && pendingColor.Some? {
              notes := notes + [Note(freshId, StickyNote, [], x, y, pendingColor.value, i)];
            }
            activeTool := NoTool;
            pendingColor := None;
            break;
          }
        }
        i := i + 1;
      }
    }

    /** A note's own click handler. */
    method NoteClick(target: int)
      requires Valid()
      modifies this`activeTool, this`notes
      ensures Valid()
      ensures State() == NoteClicked(old(State()), target)
    {
      if activeTool == DeleteTool {
        WithoutPlaced(notes, target);
        notes := Without(notes, target);
        activeTool := NoTool;
      }
    }

    /** A click on note `target`: the note's handler removes it in delete mode, then the
        click reaches the board's handler, which still sees the tool the page was rendered
        with. Deleting a note therefore also clears the pending colour, and a click on a
        note with the text or sticky tool places a new note at that point. */
    method ClickOnNote(target: int, px: real, py: real, quadrants: seq<Option<Rect>>, freshId: int)
      requires Valid() && |quadrants| == QuadrantCount
      modifies this`activeTool, this`pendingColor, this`notes
      ensures Valid()
      ensures var before := old(State());
              var board := Clicked(before, px, py, quadrants, freshId);
              State() == if before.tool == DeleteTool then BoardState(NoTool, board.pending, Without(board.notes, target))
                         else board
    {
      var tool := activeTool;
      BoardClick(px, py, quadrants, freshId);
      if tool == DeleteTool {
        WithoutPlaced(notes, target);
        notes := Without(notes, target);
        activeTool := NoTool;
      }
    }

    /** `updateNote`: the edited note's content is replaced. */
    method UpdateNote(id: int, content: string)
      requires Valid()
      modifies this`notes
      ensures Valid()
      ensures notes == WithContent(old(notes), id, content)
    {
      notes := WithContent(notes, id, content);
    }

    /** The drag-release handler `onStop(id, x, y)`; `sizes` are the quadrant containers. */
    method DragStop(id: int, px: real, py: real, sizes: seq<Option<Size>>)
      requires Valid()
      modifies this`notes
      ensures Valid()
      ensures notes == DropNote(old(notes), id, px, py, sizes)
    {
      notes := DropNote(notes, id, px, py, sizes);
    }

    /** The `notes.forEach` loop of `handleGenerateIdeas`: each note's trimmed, non-blank
        content is pushed onto the list of its quadrant. */
    method GroupNotes() returns (g: Grouped)
      ensures g == Grouped(industry, Bucket(notes, 0), Bucket(notes, 1), Bucket(notes, 2), Bucket(notes, 3))
      ensures Valid() ==> |g.painPoints| + |g.ideas| + |g.goals| + |g.constraints| == NonBlankCount(notes)
    {
      g := Grouped(industry, [], [], [], []);
      var i := 0;
      while i < |notes|
        invariant 0 <= i <= |notes|
        invariant g.industry == industry
        invariant g.painPoints == Bucket(notes[..i], 0) && g.ideas == Bucket(notes[..i], 1)
        invariant g.goals == Bucket(notes[..i], 2) && g.constraints == Bucket(notes[..i], 3)
      {
        var note := notes[i];
        var trimmed := Trim(note.content);
        BucketStep(notes, i, 0);
        BucketStep(notes, i, 1);
        BucketStep(notes, i, 2);
        BucketStep(notes, i, 3);
        if trimmed != [] {
          if note.quadrant == 0 {
            g := g.(painPoints := g.painPoints + [trimmed]);
          } else if note.quadrant == 1 {
            g := g.(ideas := g.ideas + [trimmed]);
          } else if note.quadrant == 2 {
            g := g.(goals := g.goals + [trimmed]);
          } else if note.quadrant == 3 {
            g := g.(constraints := g.constraints + [trimmed]);
          }
        }
        i := i + 1;
      }
      assert notes[..i] == notes;
      if Valid() {
        PlacedNotesGrouped(notes);
      }
    }
  }
}
