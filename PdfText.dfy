/** The back end's text handling for the project-plan document: the emoji filter, the
    idea title and summary points taken from the selected idea, and the story lines
    kept from the story generator's reply. */
module PdfText {
  import opened Seqs
  import opened Text

  // ---------------------------------------------------------------------------
  // The emoji filter.

  /** A code point in one of the six ranges of the emoji character class. */
  predicate IsEmoji(c: char) {
    var v := c as int;
    || 0x1F600 <= v <= 0x1F64F
    || 0x1F300 <= v <= 0x1F5FF
    || 0x1F680 <= v <= 0x1F6FF
    || 0x1F1E0 <= v <= 0x1F1FF
    || 0x2702 <= v <= 0x27B0
    || 0x24C2 <= v <= 0x1F251
  }

  /** The six ranges overlap: together they are U+24C2 to U+1F251, U+1F300 to
      U+1F64F and U+1F680 to U+1F6FF. */
  lemma {:induction false} EmojiRanges(c: char)
    ensures IsEmoji(c) <==>
      var v := c as int;
      0x24C2 <= v <= 0x1F251 || 0x1F300 <= v <= 0x1F64F || 0x1F680 <= v <= 0x1F6FF
  {
  }

  /** `remove_emojis`: substituting the empty string for every run of such code points
      drops each of them and keeps every other character, in order. */
  function RemoveEmojis(s: string): (r: string)
    ensures |r| <= |s|
    ensures forall i :: 0 <= i < |r| ==> !IsEmoji(r[i])
  {
    if s == [] then [] else (if IsEmoji(s[0]) then [] else [s[0]]) + RemoveEmojis(s[1..])
  }

  /** Exactly the characters outside the ranges survive. */
  lemma {:induction false} RemoveEmojisMembers(s: string)
    ensures forall c :: c in RemoveEmojis(s) <==> c in s && !IsEmoji(c)
  {
    if s != [] {
      RemoveEmojisMembers(s[1..]);
      assert s == [s[0]] + s[1..];
    }
  }

  /** The filter works character by character, so it keeps the order of what it keeps. */
  lemma {:induction false} RemoveEmojisAppend(a: string, b: string)
    ensures RemoveEmojis(a + b) == RemoveEmojis(a) + RemoveEmojis(b)
  {
    if a == [] {
      assert a + b == b;
    } else {
      RemoveEmojisAppend(a[1..], b);
      DropFirstAppend(a, b);
      AppendAssoc(if IsEmoji(a[0]) then [] else [a[0]], RemoveEmojis(a[1..]), RemoveEmojis(b));
    }
  }

  /** Text without such code points passes through unchanged. */
  lemma {:induction false} RemoveEmojisUnchanged(s: string)
    requires forall i :: 0 <= i < |s| ==> !IsEmoji(s[i])
    ensures RemoveEmojis(s) == s
  {
    if s != [] {
      RemoveEmojisUnchanged(s[1..]);
    }
  }

  /** Filtering twice is filtering once. */
  lemma {:induction false} RemoveEmojisIdempotent(s: string)
    ensures RemoveEmojis(RemoveEmojis(s)) == RemoveEmojis(s)
  {
    RemoveEmojisUnchanged(RemoveEmojis(s));
  }

  /** The wide range U+24C2 to U+1F251 covers the CJK ideographs, so Chinese or Japanese
      text written with them is erased entirely. */
  lemma {:induction false} IdeographsErased(s: string)
    requires forall i :: 0 <= i < |s| ==> 0x4E00 <= s[i] as int <= 0x9FFF
    ensures RemoveEmojis(s) == []
  {
    if s != [] {
      IdeographsErased(s[1..]);
    }
  }

  // ---------------------------------------------------------------------------
  // Title and summary points of the selected idea.

  /** `selected_idea.strip().split("\n")`: never empty, since `split` always yields at
      least one piece. */
  function IdeaLines(idea: string): (r: seq<string>)
    ensures |r| >= 1
    ensures forall k :: 0 <= k < |r| ==> '\n' !in r[k]
  {
    Split(Trim(idea), '\n')
  }

  /** `remove_emojis(lines[0]) if lines else "Unnamed Idea"`: the text before the first
      line break of the stripped idea, emoji-filtered; the fallback title is never used. */
  function IdeaTitle(idea: string): (r: string)
    ensures '\n' !in r && forall i :: 0 <= i < |r| ==> !IsEmoji(r[i])
    ensures '\n' !in Trim(idea) ==> r == RemoveEmojis(Trim(idea))
    ensures forall i :: 0 <= i < |Trim(idea)| && Trim(idea)[i] == '\n' && '\n' !in Trim(idea)[..i] ==>
              r == RemoveEmojis(Trim(idea)[..i])
  {
    var lines := IdeaLines(idea);
    SplitFirstPiece(Trim(idea), '\n');
    if |lines| > 0 then
      RemoveEmojisMembers(lines[0]);
      RemoveEmojis(lines[0])
    else "Unnamed Idea"
  }

  /** The characters `strip("- ")` removes. */
  const PointCut: set<char> := {'-', ' '}

  /** `line.strip().startswith("-")` */
  predicate IsPointLine(line: string) {
    Trim(line) != [] && Trim(line)[0] == '-'
  }

  /** `remove_emojis(line.strip("- ").strip())` */
  function CleanPoint(line: string): (r: string)
    ensures |r| <= |line|
    ensures forall i :: 0 <= i < |r| ==> !IsEmoji(r[i])
  {
    RemoveEmojis(Trim(Strip(line, PointCut)))
  }

  /** The summary points among `lines`, cleaned, in order. */
  function Points(lines: seq<string>): (r: seq<string>)
    ensures |r| <= |lines|
  {
    if lines == [] then []
    else (if IsPointLine(lines[0]) then [CleanPoint(lines[0])] else []) + Points(lines[1..])
  }

  /** The summary points of the selected idea, taken from the lines after the title. */
  function SummaryPoints(idea: string): seq<string> {
    Points(IdeaLines(idea)[1..])
  }

  /** No summary point holds an emoji. */
  lemma {:induction false} PointsClean(lines: seq<string>)
    ensures forall p :: p in Points(lines) ==> forall i :: 0 <= i < |p| ==> !IsEmoji(p[i])
  {
    if lines != [] {
      PointsClean(lines[1..]);
    }
  }

  lemma {:induction false} PointsAppend(a: seq<string>, b: seq<string>)
    ensures Points(a + b) == Points(a) + Points(b)
  {
    if a == [] {
      assert a + b == b;
    } else {
      PointsAppend(a[1..], b);
      DropFirstAppend(a, b);
      AppendAssoc(if IsPointLine(a[0]) then [CleanPoint(a[0])] else [], Points(a[1..]), Points(b));
    }
  }

  /** When every line is a point line, each gives one point, in order. */
  lemma {:induction false} PointsOfBullets(lines: seq<string>)
    requires forall k :: 0 <= k < |lines| ==> IsPointLine(lines[k])
    ensures |Points(lines)| == |lines|
    ensures forall k :: 0 <= k < |lines| ==> Points(lines)[k] == CleanPoint(lines[k])
  {
    BulletsCleaned(lines);
  }

  /** Every line cleaned, in order. */
  function CleanAll(lines: seq<string>): (r: seq<string>)
    ensures |r| == |lines|
    ensures forall k :: 0 <= k < |lines| ==> r[k] == CleanPoint(lines[k])
  {
    if lines == [] then [] else [CleanPoint(lines[0])] + CleanAll(lines[1..])
  }

  lemma {:induction false} BulletsCleaned(lines: seq<string>)
    requires forall k :: 0 <= k < |lines| ==> IsPointLine(lines[k])
    ensures Points(lines) == CleanAll(lines)
  {
    if lines != [] {
      var rest := lines[1..];
      assert forall k :: 0 <= k < |rest| ==> rest[k] == lines[k + 1];
      BulletsCleaned(rest);
    }
  }

  /** Lines that are not point lines contribute nothing. */
  lemma {:induction false} PointsOfProse(lines: seq<string>)
    requires forall k :: 0 <= k < |lines| ==> !IsPointLine(lines[k])
    ensures Points(lines) == []
  {
    if lines != [] {
      PointsOfProse(lines[1..]);
    }
  }

  /** The first line is the title and never a summary point, even when it starts with
      a dash. */
  lemma {:induction false} SummaryAfterTitle(title: string, rest: string)
    requires '\n' !in title && title != [] && rest != []
    requires !IsSpace(title[0]) && !IsSpace(rest[|rest| - 1])
    ensures IdeaTitle(title + "\n" + rest) == RemoveEmojis(title)
    ensures SummaryPoints(title + "\n" + rest) == Points(Split(rest, '\n'))
  {
    var idea := title + "\n" + rest;
    assert idea[0] == title[0] && idea[|idea| - 1] == rest[|rest| - 1];
    TrimUnchanged(idea);
    SplitAtSeparator(title, rest, '\n');
    assert idea == title + ['\n'] + rest;
  }

  /** `strip("- ")` removes the leading dash and space of a bullet. */
  lemma {:induction false} StripBullet(text: string)
    requires text != [] && text[0] !in PointCut && text[|text| - 1] !in PointCut
    ensures Strip("- " + text, PointCut) == text
  {
    var line := "- " + text;
    StripStartAt(line, PointCut, 2);
    assert line[2..] == text;
    StripEndAt(text, PointCut, |text|);
  }

  /** A bullet `"- " + text` is a point line when `text` ends in a non-space. */
  lemma {:induction false} BulletIsPoint(text: string)
    requires text != [] && !IsSpace(text[|text| - 1])
    ensures IsPointLine("- " + text)
  {
    var line := "- " + text;
    assert line[0] == '-' && line[|line| - 1] == text[|text| - 1];
    TrimUnchanged(line);
  }

  /** A bullet `"- " + text` is cleaned to `text` when `text` is already clean. */
  lemma {:induction false} BulletCleaned(text: string)
    requires text != [] && text[0] !in PointCut && text[|text| - 1] !in PointCut
    requires !IsSpace(text[0]) && !IsSpace(text[|text| - 1])
    requires forall i :: 0 <= i < |text| ==> !IsEmoji(text[i])
    ensures IsPointLine("- " + text)
    ensures CleanPoint("- " + text) == text
  {
    BulletIsPoint(text);
    StripBullet(text);
    TrimUnchanged(text);
    RemoveEmojisUnchanged(text);
  }

  /** A tab before the dash stops `strip("- ")` at the tab, so the point keeps its `"- "`
      even though the line is recognised as a point. */
  lemma {:induction false} TabBulletKeepsDash(text: string)
    requires text != [] && text[|text| - 1] !in PointCut && !IsSpace(text[|text| - 1])
    requires forall i :: 0 <= i < |text| ==> !IsEmoji(text[i])
    ensures IsPointLine("\t- " + text)
    ensures CleanPoint("\t- " + text) == "- " + text
  {
    BulletKeepsNoEmoji(text);
    TabStripUnchanged(text);
    TabTrimmed(text);
    assert ("- " + text)[0] == '-';
  }

  /** Putting `"- "` in front of emoji-free text keeps it emoji-free. */
  lemma {:induction false} BulletKeepsNoEmoji(text: string)
    requires forall i :: 0 <= i < |text| ==> !IsEmoji(text[i])
    ensures RemoveEmojis("- " + text) == "- " + text
  {
    var bullet := "- " + text;
    forall i | 0 <= i < |bullet| ensures !IsEmoji(bullet[i]) {
      if i >= 2 {
        assert bullet[i] == text[i - 2];
      }
    }
    RemoveEmojisUnchanged(bullet);
  }

  /** `strip("- ")` leaves a line that starts with a tab untouched. */
  lemma {:induction false} TabStripUnchanged(text: string)
    requires text != [] && text[|text| - 1] !in PointCut
    ensures Strip("\t- " + text, PointCut) == "\t- " + text
  {
    var line := "\t- " + text;
    assert line[0] == '\t' && line[|line| - 1] == text[|text| - 1];
    StripUnchanged(line, PointCut);
  }

  /** Trimming the tabbed line removes the tab only. */
  lemma {:induction false} TabTrimmed(text: string)
    requires text != [] && !IsSpace(text[|text| - 1])
    ensures Trim("\t- " + text) == "- " + text
  {
    var line := "\t- " + text;
    assert line[0] == '\t' && line[1] == '-' && line[|line| - 1] == text[|text| - 1];
    TrimBetween(line, 1, |line|);
    assert line[1..] == "- " + text;
  }

  // ---------------------------------------------------------------------------
  // Story lines.

  /** `[line.strip() for line in lines if line.strip()]` */
  function NonBlankLines(lines: seq<string>): (r: seq<string>)
    ensures |r| <= |lines|
    ensures forall k :: 0 <= k < |r| ==> r[k] != []
  {
    if lines == [] then []
    else (if Trim(lines[0]) != [] then [Trim(lines[0])] else []) + NonBlankLines(lines[1..])
  }

  /** The story lines kept from a reply: its non-blank lines, stripped, in order. */
  function StoryLines(reply: string): seq<string> {
    NonBlankLines(Split(Trim(reply), '\n'))
  }

  lemma {:induction false} NonBlankLinesAppend(a: seq<string>, b: seq<string>)
    ensures NonBlankLines(a + b) == NonBlankLines(a) + NonBlankLines(b)
  {
    if a == [] {
      assert a + b == b;
    } else {
      NonBlankLinesAppend(a[1..], b);
      DropFirstAppend(a, b);
      AppendAssoc(if Trim(a[0]) != [] then [Trim(a[0])] else [], NonBlankLines(a[1..]), NonBlankLines(b));
    }
  }

  /** One line: a blank line is dropped, any other one is kept stripped. With
      `NonBlankLinesAppend` this fixes the result for every list of lines. */
  lemma {:induction false} NonBlankLinesOne(line: string)
    ensures NonBlankLines([line]) == if Trim(line) != [] then [Trim(line)] else []
  {
    assert [line][1..] == [];
  }

  /** A blank line anywhere among the lines leaves no trace: the lines before and after
      it are kept as they would be on their own, in order. */
  lemma {:induction false} BlankLineDropped(before: seq<string>, blank: string, after: seq<string>)
    requires Trim(blank) == []
    ensures NonBlankLines(before + [blank] + after) == NonBlankLines(before) + NonBlankLines(after)
  {
    NonBlankLinesAppend(before + [blank], after);
    NonBlankLinesAppend(before, [blank]);
    NonBlankLinesOne(blank);
    assert NonBlankLines(before + [blank]) == NonBlankLines(before) + [];
    assert NonBlankLines(before) + [] == NonBlankLines(before);
  }

  /** Every story line is stripped and holds no line break. */
  lemma {:induction false} NonBlankLinesClean(lines: seq<string>)
    requires forall k :: 0 <= k < |lines| ==> '\n' !in lines[k]
    ensures forall line :: line in NonBlankLines(lines) ==> line != [] && Trim(line) == line && '\n' !in line
  {
    if lines != [] {
      NonBlankLinesClean(lines[1..]);
      TrimClean(lines[0]);
    }
  }

  lemma {:induction false} TrimClean(s: string)
    requires '\n' !in s
    ensures Trim(Trim(s)) == Trim(s) && '\n' !in Trim(s)
  {
    TrimIdempotent(s);
    TrimInside(s, '\n');
  }

  /** Trimming only removes characters, so it adds no character that was absent. */
  lemma {:induction false} TrimInside(s: string, c: char)
    requires c !in s
    ensures c !in Trim(s)
  {
    var k := |s| - |StripStart(s, Whitespace)|;
    assert Trim(s) == s[k..][..|Trim(s)|];
  }

  lemma {:induction false} StoryLinesClean(reply: string)
    ensures forall line :: line in StoryLines(reply) ==> line != [] && Trim(line) == line && '\n' !in line
  {
    NonBlankLinesClean(Split(Trim(reply), '\n'));
  }

  /** Lines that are already stripped and non-blank are kept as they are. */
  lemma {:induction false} NonBlankLinesKeep(lines: seq<string>)
    requires forall k :: 0 <= k < |lines| ==> lines[k] != [] && Trim(lines[k]) == lines[k]
    ensures NonBlankLines(lines) == lines
  {
    if lines != [] {
      NonBlankLinesKeep(lines[1..]);
      assert lines == [lines[0]] + lines[1..];
    }
  }

  /** The first and last characters of a join of non-empty parts. */
  lemma {:induction false} JoinEnds(parts: seq<string>, sep: string)
    requires |parts| >= 1 && forall k :: 0 <= k < |parts| ==> parts[k] != []
    ensures Join(parts, sep) != []
    ensures Join(parts, sep)[0] == parts[0][0]
    ensures Join(parts, sep)[|Join(parts, sep)| - 1] == parts[|parts| - 1][|parts[|parts| - 1]| - 1]
  {
    if |parts| > 1 {
      JoinEnds(parts[1..], sep);
    }
  }

  /** A stripped, non-empty text starts and ends with a non-space character. */
  lemma {:induction false} TrimmedEnds(s: string)
    requires s != [] && Trim(s) == s
    ensures !IsSpace(s[0]) && !IsSpace(s[|s| - 1])
  {
  }

  /** Joining non-empty lines that start and end the text with non-spaces gives a
      stripped text. */
  lemma {:induction false} JoinedTrimmed(lines: seq<string>)
    requires lines != [] && forall k :: 0 <= k < |lines| ==> lines[k] != []
    requires !IsSpace(lines[0][0]) && !IsSpace(lines[|lines| - 1][|lines[|lines| - 1]| - 1])
    ensures Trim(Join(lines, "\n")) == Join(lines, "\n")
  {
    JoinEnds(lines, "\n");
    TrimUnchanged(Join(lines, "\n"));
  }

  /** An empty reply has no story lines. */
  lemma {:induction false} StoryLinesOfEmpty()
    ensures StoryLines([]) == []
  {
    TrimBetween([], 0, 0);
    assert Split([], '\n') == [[]];
    assert NonBlankLines([[]]) == [];
  }

  /** A reply made of stripped, non-blank lines gives those lines back. */
  lemma {:induction false} StoryLinesOfJoined(lines: seq<string>)
    requires forall k :: 0 <= k < |lines| ==> lines[k] != [] && Trim(lines[k]) == lines[k] && '\n' !in lines[k]
    ensures StoryLines(Join(lines, "\n")) == lines
  {
    if lines == [] {
      StoryLinesOfEmpty();
    } else {
      NonBlankLinesKeep(lines);
      SplitJoinLines(lines);
      JoinedLinesTrimmed(lines);
    }
  }

  lemma {:induction false} SplitJoinLines(lines: seq<string>)
    requires lines != [] && forall k :: 0 <= k < |lines| ==> '\n' !in lines[k]
    ensures Split(Join(lines, "\n"), '\n') == lines
  {
    SplitJoin(lines, '\n');
  }

  lemma {:induction false} JoinedLinesTrimmed(lines: seq<string>)
    requires lines != [] && forall k :: 0 <= k < |lines| ==> lines[k] != [] && Trim(lines[k]) == lines[k]
    ensures Trim(Join(lines, "\n")) == Join(lines, "\n")
  {
    TrimmedEnds(lines[0]);
    TrimmedEnds(lines[|lines| - 1]);
    JoinedTrimmed(lines);
  }
}
