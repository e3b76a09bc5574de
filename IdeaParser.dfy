/** The parser the whiteboard applies to the idea text returned by the idea service:
    `raw.split(/Idea \d+:/)`, trim every chunk, drop the empty ones and renumber them
    `Idea 1: …`, `Idea 2: …` in order, whatever numbers the text carried. */
module IdeaParser {
  import opened Wrappers
  import opened Text
  import opened Seqs

  /** The number of consecutive decimal digits of `s` starting at `i`. */
  function DigitRun(s: string, i: nat): (k: nat)
    requires i <= |s|
    ensures i + k <= |s|
    ensures forall j :: i <= j < i + k ==> IsDigit(s[j])
    ensures i + k < |s| ==> !IsDigit(s[i + k])
    decreases |s| - i
  {
    if i < |s| && IsDigit(s[i]) then 1 + DigitRun(s, i + 1) else 0
  }

  /** The word `Idea ` (with its space) starts at position `i` of `s`. */
  predicate WordAt(s: string, i: nat) {
    i + 5 <= |s| && s[i] == 'I' && s[i + 1] == 'd' && s[i + 2] == 'e' && s[i + 3] == 'a' && s[i + 4] == ' '
  }

  /** The pattern `/Idea \d+:/` matches at position `i` of `s`. Because `:` is not a
      digit, the greedy `\d+` can only succeed with the whole run of digits that
      follows `"Idea "`, so a match is that run followed by a colon. */
  predicate MarkerAt(s: string, i: nat) {
    WordAt(s, i) &&
    var d := DigitRun(s, i + 5);
    d >= 1 && i + 5 + d < |s| && s[i + 5 + d] == ':'
  }

  /** The position just after the marker that starts at `i`. */
  function MarkerEnd(s: string, i: nat): (e: nat)
    requires MarkerAt(s, i)
    ensures i + 7 <= e <= |s|
  {
    i + 6 + DigitRun(s, i + 5)
  }

  /** The leftmost marker at or after `from`. */
  function FirstMarker(s: string, from: nat): (r: Option<nat>)
    requires from <= |s|
    ensures r.Some? ==> from <= r.value < |s| && MarkerAt(s, r.value)
    ensures r.Some? ==> forall j :: from <= j < r.value ==> !MarkerAt(s, j)
    ensures r.None? ==> forall j :: from <= j < |s| ==> !MarkerAt(s, j)
    decreases |s| - from
  {
    if from == |s| then None
    else if MarkerAt(s, from) then Some(from)
    else FirstMarker(s, from + 1)
  }

  /** `s.split(/Idea \d+:/)`: the texts between successive leftmost, non-overlapping markers. */
  function SplitOnMarkers(s: string): (r: seq<string>)
    ensures |r| >= 1
    decreases |s|
  {
    match FirstMarker(s, 0)
    case None => [s]
    case Some(i) => [s[..i]] + SplitOnMarkers(s[MarkerEnd(s, i)..])
  }

  /** The marker texts `SplitOnMarkers` removed, in order. */
  function Markers(s: string): (r: seq<string>)
    decreases |s|
  {
    match FirstMarker(s, 0)
    case None => []
    case Some(i) => [s[i..MarkerEnd(s, i)]] + Markers(s[MarkerEnd(s, i)..])
  }

  /** `p0 + m0 + p1 + m1 + … + pn`. */
  function Interleave(pieces: seq<string>, seps: seq<string>): string
    requires |pieces| == |seps| + 1
  {
    if seps == [] then pieces[0] else pieces[0] + seps[0] + Interleave(pieces[1..], seps[1..])
  }

  /** Splitting loses nothing: the pieces with the markers put back are the input, and
      every removed separator is one whole `Idea <digits>:` marker and nothing more. */
  lemma {:induction false} SplitReassembles(s: string)
    ensures |SplitOnMarkers(s)| == |Markers(s)| + 1
    ensures Interleave(SplitOnMarkers(s), Markers(s)) == s
    ensures forall k :: 0 <= k < |Markers(s)| ==>
      MarkerAt(Markers(s)[k], 0) && MarkerEnd(Markers(s)[k], 0) == |Markers(s)[k]|
    decreases |s|
  {
    MarkersWhole(s);
    match FirstMarker(s, 0)
    case None =>
    case Some(i) =>
      var e := MarkerEnd(s, i);
      var rest := s[e..];
      SplitReassembles(rest);
      SplitUnfold(s, i);
      InterleaveCons(s[..i], SplitOnMarkers(rest), s[i..e], Markers(rest));
      ThreeParts(s, i, e);
  }

  /** Each removed separator is exactly one marker. */
  lemma {:induction false} MarkersWhole(s: string)
    ensures forall k :: 0 <= k < |Markers(s)| ==>
      MarkerAt(Markers(s)[k], 0) && MarkerEnd(Markers(s)[k], 0) == |Markers(s)[k]|
    decreases |s|
  {
    match FirstMarker(s, 0)
    case None =>
    case Some(i) =>
      var e := MarkerEnd(s, i);
      MarkersWhole(s[e..]);
      MarkerText(s, i);
      assert Markers(s) == [s[i..e]] + Markers(s[e..]);
  }

  /** The text from a marker's start to its end is that marker alone. */
  lemma {:induction false} MarkerText(s: string, i: nat)
    requires MarkerAt(s, i)
    ensures MarkerAt(s[i..MarkerEnd(s, i)], 0)
    ensures MarkerEnd(s[i..MarkerEnd(s, i)], 0) == MarkerEnd(s, i) - i
  {
    var e := MarkerEnd(s, i);
    var d := DigitRun(s, i + 5);
    var t := s[i..];
    var m := s[i..e];
    DigitRunSuffix(s, i, 5);
    assert m == t[..e - i];
    DigitRunPrefix(t, e - i, 5);
    assert m[0] == s[i] && m[1] == s[i + 1] && m[2] == s[i + 2] && m[3] == s[i + 3] && m[4] == s[i + 4];
    assert m[5 + d] == s[i + 5 + d];
  }

  /** A digit run that stops before position `k` is the same in the prefix of length `k`. */
  lemma {:induction false} DigitRunPrefix(t: string, k: nat, i: nat)
    requires i < k <= |t| && i + DigitRun(t, i) < k
    ensures DigitRun(t[..k], i) == DigitRun(t, i)
    decreases k - i
  {
    if IsDigit(t[i]) {
      DigitRunPrefix(t, k, i + 1);
    }
  }

  /** One step of the split at the leftmost marker. */
  lemma {:induction false} SplitUnfold(s: string, i: nat)
    requires FirstMarker(s, 0) == Some(i)
    ensures SplitOnMarkers(s) == [s[..i]] + SplitOnMarkers(s[MarkerEnd(s, i)..])
    ensures Markers(s) == [s[i..MarkerEnd(s, i)]] + Markers(s[MarkerEnd(s, i)..])
  {
  }

  lemma {:induction false} InterleaveCons(p: string, pieces: seq<string>, m: string, seps: seq<string>)
    requires |pieces| == |seps| + 1
    ensures Interleave([p] + pieces, [m] + seps) == p + m + Interleave(pieces, seps)
  {
    assert ([p] + pieces)[1..] == pieces;
    assert ([m] + seps)[1..] == seps;
  }

  lemma {:induction false} ThreeParts(s: string, i: nat, e: nat)
    requires i <= e <= |s|
    ensures s == s[..i] + s[i..e] + s[e..]
  {
  }

  /** A digit run that stops inside `a` is not affected by what follows `a`. */
  lemma {:induction false} DigitRunExtend(a: string, b: string, i: nat)
    requires i <= |a| && i + DigitRun(a, i) < |a|
    ensures DigitRun(a + b, i) == DigitRun(a, i)
    decreases |a| - i
  {
    if IsDigit(a[i]) {
      DigitRunExtend(a, b, i + 1);
    }
  }

  /** A marker inside `a` is still a marker once text is appended. */
  lemma {:induction false} MarkerExtend(a: string, b: string, j: nat)
    requires MarkerAt(a, j)
    ensures MarkerAt(a + b, j)
  {
    DigitRunExtend(a, b, j + 5);
  }

  /** A marker of a prefix is a marker of the whole string, before the prefix ends. */
  lemma {:induction false} MarkerInPrefix(s: string, i: nat, j: nat)
    requires i <= |s| && MarkerAt(s[..i], j)
    ensures MarkerAt(s, j) && j < i
  {
    MarkerExtend(s[..i], s[i..], j);
    assert s[..i] + s[i..] == s;
  }

  /** A marker of a suffix is a marker of the whole string. */
  lemma {:induction false} DigitRunSuffix(s: string, e: nat, i: nat)
    requires e <= |s| && i <= |s| - e
    ensures DigitRun(s[e..], i) == DigitRun(s, e + i)
    decreases |s| - e - i
  {
    if i < |s| - e && IsDigit(s[e..][i]) {
      DigitRunSuffix(s, e, i + 1);
    }
  }

  lemma {:induction false} MarkerSuffix(s: string, e: nat, j: nat)
    requires e <= |s|
    ensures MarkerAt(s[e..], j) <==> MarkerAt(s, e + j)
  {
    if j + 5 <= |s| - e {
      DigitRunSuffix(s, e, j + 5);
    }
  }

  /** No piece of the split contains a marker: every marker was consumed as a separator. */
  lemma {:induction false} PiecesHaveNoMarker(s: string)
    ensures forall k, j :: 0 <= k < |SplitOnMarkers(s)| && 0 <= j ==> !MarkerAt(SplitOnMarkers(s)[k], j)
    decreases |s|
  {
    match FirstMarker(s, 0)
    case None =>
    case Some(i) =>
      var e := MarkerEnd(s, i);
      PiecesHaveNoMarker(s[e..]);
      forall j: nat | MarkerAt(s[..i], j) ensures false {
        MarkerInPrefix(s, i, j);
      }
      assert SplitOnMarkers(s) == [s[..i]] + SplitOnMarkers(s[e..]);
  }

  // ---------------------------------------------------------------------------

  /** `.map(chunk => chunk.trim())` */
  function TrimAll(chunks: seq<string>): (r: seq<string>)
    ensures |r| == |chunks|
    ensures forall k :: 0 <= k < |r| ==> r[k] == Trim(chunks[k])
  {
    if chunks == [] then [] else [Trim(chunks[0])] + TrimAll(chunks[1..])
  }

  /** `.filter(chunk => chunk.length > 0)` */
  function NonEmpty(chunks: seq<string>): (r: seq<string>)
    ensures |r| <= |chunks|
    ensures forall k :: 0 <= k < |r| ==> r[k] != []
  {
    if chunks == [] then []
    else (if chunks[0] == [] then [] else [chunks[0]]) + NonEmpty(chunks[1..])
  }

  /** The filter keeps exactly the non-empty chunks. */
  lemma {:induction false} NonEmptyMembers(chunks: seq<string>)
    ensures forall c :: c in NonEmpty(chunks) <==> c in chunks && c != []
  {
    if chunks != [] {
      NonEmptyMembers(chunks[1..]);
      assert chunks == [chunks[0]] + chunks[1..];
    }
  }

  /** The filter keeps the order of what it keeps: it works chunk by chunk. */
  lemma {:induction false} NonEmptyAppend(a: seq<string>, b: seq<string>)
    ensures NonEmpty(a + b) == NonEmpty(a) + NonEmpty(b)
  {
    if a == [] {
      assert a + b == b;
    } else {
      NonEmptyAppend(a[1..], b);
      DropFirstAppend(a, b);
      AppendAssoc(if a[0] == [] then [] else [a[0]], NonEmpty(a[1..]), NonEmpty(b));
    }
  }

  /** A single chunk is kept exactly when it is non-empty. */
  lemma {:induction false} NonEmptyOne(c: string)
    ensures NonEmpty([c]) == if c == [] then [] else [c]
  {
    assert [c][1..] == [];
  }

  /** The trimmed, non-empty chunks of the raw idea text, in order. */
  function IdeaChunks(raw: string): seq<string> {
    NonEmpty(TrimAll(SplitOnMarkers(raw)))
  }

  /** The heading given to the idea at (zero-based) position `k`. */
  function Heading(k: nat): string {
    "Idea " + NatToString(k + 1) + ": "
  }

  /** `.map((chunk, index) => `Idea ${index + 1}: ${chunk}`)`, for chunks that start at position `from`. */
  function Renumber(chunks: seq<string>, from: nat): (r: seq<string>)
    ensures |r| == |chunks|
    ensures forall k :: 0 <= k < |r| ==> r[k] == Heading(from + k) + chunks[k]
  {
    if chunks == [] then [] else [Heading(from) + chunks[0]] + Renumber(chunks[1..], from + 1)
  }

  /** The whole parser of the whiteboard's idea response. */
  function ParseIdeas(raw: string): (r: seq<string>)
    ensures |r| == |IdeaChunks(raw)|
    ensures forall k :: 0 <= k < |r| ==> r[k] == Heading(k) + IdeaChunks(raw)[k]
  {
    Renumber(IdeaChunks(raw), 0)
  }

  /** Every chunk is non-empty, carries no surrounding whitespace and no marker, so the
      numbers the service wrote never survive into a parsed idea. */
  lemma {:induction false} ChunksAreClean(raw: string)
    ensures forall k :: 0 <= k < |IdeaChunks(raw)| ==>
      var c := IdeaChunks(raw)[k];
      c != [] && !IsSpace(c[0]) && !IsSpace(c[|c| - 1]) && forall j :: 0 <= j ==> !MarkerAt(c, j)
  {
    PiecesHaveNoMarker(raw);
    var pieces := SplitOnMarkers(raw);
    forall k | 0 <= k < |IdeaChunks(raw)|
      ensures var c := IdeaChunks(raw)[k];
        c != [] && !IsSpace(c[0]) && !IsSpace(c[|c| - 1]) && forall j :: 0 <= j ==> !MarkerAt(c, j)
    {
      var c := IdeaChunks(raw)[k];
      NonEmptyMembers(TrimAll(pieces));
      assert c in TrimAll(pieces);
      var m :| 0 <= m < |pieces| && c == Trim(pieces[m]);
      TrimHasNoMarker(pieces[m]);
    }
  }

  /** Trimming cannot create a marker. */
  lemma {:induction false} TrimHasNoMarker(p: string)
    requires forall j :: 0 <= j ==> !MarkerAt(p, j)
    ensures forall j :: 0 <= j ==> !MarkerAt(Trim(p), j)
  {
    forall j: nat | MarkerAt(Trim(p), j) ensures false {
      TrimMarker(p, j);
    }
  }

  /** A marker of the trimmed text is a marker of the text: the trimmed text is a prefix
      of what is left after the leading whitespace. */
  lemma {:induction false} TrimMarker(p: string, j: nat)
    requires MarkerAt(Trim(p), j)
    ensures MarkerAt(p, |p| - |StripStart(p, Whitespace)| + j)
  {
    MarkerOfPrefixOfSuffix(p, StripStart(p, Whitespace), Trim(p), j);
  }

  /** A marker of a prefix `t` of a suffix `u` of `p` is a marker of `p`. */
  lemma {:induction false} MarkerOfPrefixOfSuffix(p: string, u: string, t: string, j: nat)
    requires |u| <= |p| && u == p[|p| - |u|..]
    requires |t| <= |u| && t == u[..|t|]
    requires MarkerAt(t, j)
    ensures MarkerAt(p, |p| - |u| + j)
  {
    MarkerInPrefix(u, |t|, j);
    MarkerSuffix(p, |p| - |u|, j);
  }

  /** Whitespace-only (or empty) text parses to no ideas at all. */
  lemma {:induction false} BlankParsesToNothing(raw: string)
    requires Blank(raw)
    ensures ParseIdeas(raw) == []
  {
    assert FirstMarker(raw, 0).None? by {
      forall j: nat | j < |raw| ensures !MarkerAt(raw, j) {
        assert IsSpace(raw[j]);
      }
    }
    assert SplitOnMarkers(raw) == [raw];
    assert TrimAll([raw]) == [[]];
  }

  /** Original numbering is discarded and replaced by sequential order. */
  lemma {:induction false} ParseExample()
    ensures ParseIdeas("Idea 7: Foo\nBar\nIdea 2: Baz") == ["Idea 1: Foo\nBar", "Idea 2: Baz"]
  {
    ExampleChunks();
    ExampleRenumber();
  }

  lemma {:induction false} ExampleRenumber()
    ensures Renumber(["Foo\nBar", "Baz"], 0) == ["Idea 1: Foo\nBar", "Idea 2: Baz"]
  {
    assert NatToString(1) == "1" && NatToString(2) == "2";
    assert Heading(0) == "Idea 1: " && Heading(1) == "Idea 2: ";
    var r := Renumber(["Foo\nBar", "Baz"], 0);
    assert r[0] == "Idea 1: " + "Foo\nBar" && r[1] == "Idea 2: " + "Baz";
    assert "Idea 1: " + "Foo\nBar" == "Idea 1: Foo\nBar";
    assert "Idea 2: " + "Baz" == "Idea 2: Baz";
  }

  lemma {:induction false} ExampleChunks()
    ensures IdeaChunks("Idea 7: Foo\nBar\nIdea 2: Baz") == ["Foo\nBar", "Baz"]
  {
    ExampleSplit();
    ExampleTrim();
    var t := ["", "Foo\nBar", "Baz"];
    assert NonEmpty(t) == NonEmpty(t[1..]);
    assert t[1..][1..] == ["Baz"];
  }

  lemma {:induction false} ExampleTrim()
    ensures TrimAll(["", " Foo\nBar\n", " Baz"]) == ["", "Foo\nBar", "Baz"]
  {
    TrimAllThree("", " Foo\nBar\n", " Baz");
    ExampleTrimFirst();
    ExampleTrimSecond();
    TrimBetween("", 0, 0);
  }

  lemma {:induction false} TrimAllThree(a: string, b: string, c: string)
    ensures TrimAll([a, b, c]) == [Trim(a), Trim(b), Trim(c)]
  {
    assert [a, b, c][1..] == [b, c];
    assert [b, c][1..] == [c];
  }

  lemma {:induction false} ExampleTrimFirst()
    ensures Trim(" Foo\nBar\n") == "Foo\nBar"
  {
    ExampleStripStartFirst();
    ExampleStripEndFirst();
  }

  lemma {:induction false} ExampleStripStartFirst()
    ensures StripStart(" Foo\nBar\n", Whitespace) == "Foo\nBar\n"
  {
    StripStartAt(" Foo\nBar\n", Whitespace, 1);
    assert " Foo\nBar\n"[1..] == "Foo\nBar\n";
  }

  lemma {:induction false} ExampleStripEndFirst()
    ensures StripEnd("Foo\nBar\n", Whitespace) == "Foo\nBar"
  {
    StripEndAt("Foo\nBar\n", Whitespace, 7);
    assert "Foo\nBar\n"[..7] == "Foo\nBar";
  }

  lemma {:induction false} ExampleTrimSecond()
    ensures Trim(" Baz") == "Baz"
  {
    ExampleStripStartSecond();
    ExampleStripEndSecond();
  }

  lemma {:induction false} ExampleStripStartSecond()
    ensures StripStart(" Baz", Whitespace) == "Baz"
  {
    StripStartAt(" Baz", Whitespace, 1);
    assert " Baz"[1..] == "Baz";
  }

  lemma {:induction false} ExampleStripEndSecond()
    ensures StripEnd("Baz", Whitespace) == "Baz"
  {
    StripEndAt("Baz", Whitespace, 3);
    assert "Baz"[..3] == "Baz";
  }

  lemma {:induction false} ExampleSplit()
    ensures SplitOnMarkers("Idea 7: Foo\nBar\nIdea 2: Baz") == ["", " Foo\nBar\n", " Baz"]
  {
    ExampleSplitFirst();
    ExampleSplitSecond();
    ExampleNoMarker();
    SplitThree("Idea 7: Foo\nBar\nIdea 2: Baz", " Foo\nBar\nIdea 2: Baz", " Baz", "", " Foo\nBar\n");
  }

  /** Two split steps followed by a text without markers give three pieces. */
  lemma {:induction false} SplitThree(s: string, t: string, u: string, a: string, b: string)
    requires SplitOnMarkers(s) == [a] + SplitOnMarkers(t)
    requires SplitOnMarkers(t) == [b] + SplitOnMarkers(u)
    requires FirstMarker(u, 0).None?
    ensures SplitOnMarkers(s) == [a, b, u]
  {
    assert SplitOnMarkers(u) == [u];
  }

  /** One step of the split, with the piece and the rest named. */
  lemma {:induction false} SplitStep(s: string, i: nat, piece: string, rest: string)
    requires FirstMarker(s, 0) == Some(i)
    requires piece == s[..i] && rest == s[MarkerEnd(s, i)..]
    ensures SplitOnMarkers(s) == [piece] + SplitOnMarkers(rest)
  {
    SplitUnfold(s, i);
  }

  lemma {:induction false} ExampleSplitFirst()
    ensures SplitOnMarkers("Idea 7: Foo\nBar\nIdea 2: Baz") == [""] + SplitOnMarkers(" Foo\nBar\nIdea 2: Baz")
  {
    var s := "Idea 7: Foo\nBar\nIdea 2: Baz";
    ExampleFirstMarker();
    assert s[7..] == " Foo\nBar\nIdea 2: Baz";
    SplitStep(s, 0, "", " Foo\nBar\nIdea 2: Baz");
  }

  lemma {:induction false} ExampleSplitSecond()
    ensures SplitOnMarkers(" Foo\nBar\nIdea 2: Baz") == [" Foo\nBar\n"] + SplitOnMarkers(" Baz")
  {
    var t := " Foo\nBar\nIdea 2: Baz";
    ExampleSecondMarker();
    assert t[..9] == " Foo\nBar\n";
    assert t[16..] == " Baz";
    SplitStep(t, 9, " Foo\nBar\n", " Baz");
  }

  lemma {:induction false} ExampleFirstMarker()
    ensures FirstMarker("Idea 7: Foo\nBar\nIdea 2: Baz", 0) == Some(0)
    ensures MarkerEnd("Idea 7: Foo\nBar\nIdea 2: Baz", 0) == 7
  {
    ExampleFirstDigits();
    assert MarkerAt("Idea 7: Foo\nBar\nIdea 2: Baz", 0);
  }

  lemma {:induction false} ExampleFirstDigits()
    ensures DigitRun("Idea 7: Foo\nBar\nIdea 2: Baz", 5) == 1
  {
    var s := "Idea 7: Foo\nBar\nIdea 2: Baz";
    assert s[6] == ':';
    assert DigitRun(s, 6) == 0;
  }

  lemma {:induction false} ExampleSecondMarker()
    ensures FirstMarker(" Foo\nBar\nIdea 2: Baz", 0) == Some(9)
    ensures MarkerEnd(" Foo\nBar\nIdea 2: Baz", 9) == 16
  {
    var t := " Foo\nBar\nIdea 2: Baz";
    ExampleSecondDigits();
    assert MarkerAt(t, 9);
    ExampleNoEarlierMarker();
    FirstMarkerIs(t, 0, 9);
  }

  lemma {:induction false} ExampleSecondDigits()
    ensures DigitRun(" Foo\nBar\nIdea 2: Baz", 14) == 1
  {
    var t := " Foo\nBar\nIdea 2: Baz";
    assert t[15] == ':';
    assert DigitRun(t, 15) == 0;
  }

  lemma {:induction false} ExampleNoEarlierMarker()
    ensures forall j :: 0 <= j < 9 ==> !MarkerAt(" Foo\nBar\nIdea 2: Baz", j)
  {
    var t := " Foo\nBar\nIdea 2: Baz";
    forall j | 0 <= j < 9 ensures !MarkerAt(t, j) {
      assert t[j] != 'I';
    }
  }

  lemma {:induction false} ExampleNoMarker()
    ensures FirstMarker(" Baz", 0).None?
  {
    assert FirstMarker(" Baz", 0) == FirstMarker(" Baz", 1);
  }

  /** A marker at `i` with none before it (from `from` on) is the one `FirstMarker` finds. */
  lemma {:induction false} FirstMarkerIs(s: string, from: nat, i: nat)
    requires from <= i < |s| && MarkerAt(s, i)
    requires forall j :: from <= j < i ==> !MarkerAt(s, j)
    ensures FirstMarker(s, from) == Some(i)
    decreases i - from
  {
    if from < i {
      assert !MarkerAt(s, from);
      assert FirstMarker(s, from) == FirstMarker(s, from + 1);
      FirstMarkerIs(s, from + 1, i);
    }
  }
}
