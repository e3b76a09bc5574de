/** String helpers shared by the JavaScript front end and the Python back end:
    trimming, one-character splitting and joining, substring search, first-match
    replacement and decimal rendering of naturals. */
module Text {
  import opened Wrappers
  import opened Seqs

  /** The whitespace removed by JavaScript `trim()` and Python `strip()`, restricted to ASCII. */
  const Whitespace: set<char> := {' ', '\t', '\n', '\r', 11 as char, 12 as char}

  predicate IsSpace(c: char) {
    c in Whitespace
  }

  /** Every character of `s` is whitespace (this includes the empty string). */
  predicate Blank(s: string) {
    forall i :: 0 <= i < |s| ==> IsSpace(s[i])
  }

  predicate IsDigit(c: char) {
    '0' <= c <= '9'
  }

  // ---------------------------------------------------------------------------
  // Stripping a set of characters from either end (Python `str.strip(chars)`).

  function StripStart(s: string, cut: set<char>): (r: string)
    ensures |r| <= |s| && r == s[|s| - |r|..]
    ensures r == [] || r[0] !in cut
    ensures forall i :: 0 <= i < |s| - |r| ==> s[i] in cut
  {
    if |s| > 0 && s[0] in cut then StripStart(s[1..], cut) else s
  }

  function StripEnd(s: string, cut: set<char>): (r: string)
    ensures |r| <= |s| && r == s[..|r|]
    ensures r == [] || r[|r| - 1] !in cut
    ensures forall i :: |r| <= i < |s| ==> s[i] in cut
  {
    if |s| > 0 && s[|s| - 1] in cut then StripEnd(s[..|s| - 1], cut) else s
  }

  /** Removes every leading and trailing character that belongs to `cut`; what is left
      is a contiguous part of `s` that neither starts nor ends with such a character. */
  function Strip(s: string, cut: set<char>): (r: string)
    ensures |r| <= |s|
    ensures |r| <= |StripStart(s, cut)| && r == s[|s| - |StripStart(s, cut)|..][..|r|]
    ensures r == [] || (r[0] !in cut && r[|r| - 1] !in cut)
    ensures r == [] <==> forall i :: 0 <= i < |s| ==> s[i] in cut
  {
    var t := StripStart(s, cut);
    var r := StripEnd(t, cut);
    assert r != [] ==> r[0] == t[0];
    r
  }

  lemma {:induction false} StripUnchanged(s: string, cut: set<char>)
    requires s == [] || (s[0] !in cut && s[|s| - 1] !in cut)
    ensures Strip(s, cut) == s
  {
  }

  /** JavaScript `s.trim()` and Python `s.strip()`. */
  function Trim(s: string): (r: string)
    ensures |r| <= |s|
    ensures r == [] <==> Blank(s)
    ensures r == [] || (!IsSpace(r[0]) && !IsSpace(r[|r| - 1]))
  {
    Strip(s, Whitespace)
  }

  lemma {:induction false} TrimIdempotent(s: string)
    ensures Trim(Trim(s)) == Trim(s)
  {
    StripUnchanged(Trim(s), Whitespace);
  }

  lemma {:induction false} TrimUnchanged(s: string)
    requires s == [] || (!IsSpace(s[0]) && !IsSpace(s[|s| - 1]))
    ensures Trim(s) == s
  {
    StripUnchanged(s, Whitespace);
  }

  /** Stripping the start removes exactly the leading run of characters from `cut`. */
  lemma {:induction false} StripStartAt(s: string, cut: set<char>, i: nat)
    requires i <= |s|
    requires forall k :: 0 <= k < i ==> s[k] in cut
    requires i < |s| ==> s[i] !in cut
    ensures StripStart(s, cut) == s[i..]
  {
    if i > 0 {
      StripStartAt(s[1..], cut, i - 1);
      assert s[1..][i - 1..] == s[i..];
    }
  }

  /** Stripping the end removes exactly the trailing run of characters from `cut`. */
  lemma {:induction false} StripEndAt(s: string, cut: set<char>, j: nat)
    requires j <= |s|
    requires forall k :: j <= k < |s| ==> s[k] in cut
    requires j > 0 ==> s[j - 1] !in cut
    ensures StripEnd(s, cut) == s[..j]
    decreases |s| - j
  {
    if j < |s| {
      StripEndAt(s[..|s| - 1], cut, j);
      assert s[..|s| - 1][..j] == s[..j];
    }
  }

  /** The trimmed text is the part between the leading and the trailing whitespace. */
  lemma {:induction false} TrimBetween(s: string, i: nat, j: nat)
    requires i <= j <= |s|
    requires forall k :: 0 <= k < i ==> IsSpace(s[k])
    requires forall k :: j <= k < |s| ==> IsSpace(s[k])
    requires i < j ==> !IsSpace(s[i]) && !IsSpace(s[j - 1])
    requires i == j ==> j == |s|
    ensures Trim(s) == s[i..j]
  {
    StripStartAt(s, Whitespace, i);
    StripTail(s, i, j);
  }

  lemma {:induction false} StripTail(s: string, i: nat, j: nat)
    requires i <= j <= |s|
    requires forall k :: j <= k < |s| ==> IsSpace(s[k])
    requires i < j ==> !IsSpace(s[j - 1])
    ensures StripEnd(s[i..], Whitespace) == s[i..j]
  {
    assert forall k :: j - i <= k < |s[i..]| ==> IsSpace(s[i..][k]);
    StripEndAt(s[i..], Whitespace, j - i);
    assert s[i..][..j - i] == s[i..j];
  }

  // ---------------------------------------------------------------------------
  // Splitting on one character and joining.

  /** `s.split(c)` in JavaScript and `s.split(c)` in Python, for a one-character separator:
      the pieces between consecutive separators, always at least one. */
  function Split(s: string, c: char): (r: seq<string>)
    ensures |r| >= 1
    ensures forall k :: 0 <= k < |r| ==> c !in r[k]
  {
    if s == [] then [[]]
    else
      var rest := Split(s[1..], c);
      if s[0] == c then [[]] + rest else [[s[0]] + rest[0]] + rest[1..]
  }

  /** `parts.join(sep)` in JavaScript, `sep.join(parts)` in Python. */
  function Join(parts: seq<string>, sep: string): string
  {
    if |parts| == 0 then []
    else if |parts| == 1 then parts[0]
    else parts[0] + sep + Join(parts[1..], sep)
  }

  /** A prefix free of the separator is glued onto the first piece. */
  lemma {:induction false} SplitPrefix(a: string, b: string, c: char)
    requires c !in a
    ensures Split(a + b, c) == [a + Split(b, c)[0]] + Split(b, c)[1..]
  {
    if a != [] {
      SplitPrefix(a[1..], b, c);
      assert (a + b)[1..] == a[1..] + b;
      assert [a[0]] + (a[1..] + Split(b, c)[0]) == a + Split(b, c)[0];
    } else {
      assert a + b == b;
      var sb := Split(b, c);
      assert sb == [sb[0]] + sb[1..];
      assert a + sb[0] == sb[0];
    }
  }

  /** A separator after a separator-free prefix closes the first piece. */
  lemma {:induction false} SplitAtSeparator(a: string, rest: string, c: char)
    requires c !in a
    ensures Split(a + [c] + rest, c) == [a] + Split(rest, c)
  {
    SplitPrefix(a, [c] + rest, c);
    assert a + [c] + rest == a + ([c] + rest);
    var t := [c] + rest;
    assert t[0] == c && t[1..] == rest;
    assert Split(t, c) == [[]] + Split(rest, c);
    assert a + [] == a;
  }

  /** Splitting then joining with the same separator gives back the input. */
  lemma {:induction false} JoinSplit(s: string, c: char)
    ensures Join(Split(s, c), [c]) == s
  {
    if s != [] {
      JoinSplit(s[1..], c);
      var rest := Split(s[1..], c);
      if s[0] == c {
        assert s == [c] + s[1..];
      } else {
        if |rest| == 1 {
          assert s == [s[0]] + s[1..];
        } else {
          assert Join(rest, [c]) == rest[0] + [c] + Join(rest[1..], [c]);
          assert s == [s[0]] + s[1..];
        }
      }
    }
  }

  /** Joining separator-free pieces then splitting gives back the pieces. */
  lemma {:induction false} SplitJoin(parts: seq<string>, c: char)
    requires |parts| >= 1
    requires forall k :: 0 <= k < |parts| ==> c !in parts[k]
    ensures Split(Join(parts, [c]), c) == parts
  {
    if |parts| == 1 {
      SplitPrefix(parts[0], [], c);
      assert parts[0] + [] == parts[0];
    } else {
      SplitJoin(parts[1..], c);
      SplitAtSeparator(parts[0], Join(parts[1..], [c]), c);
      assert parts == [parts[0]] + parts[1..];
    }
  }

  /** The first piece is the text before the first separator. */
  lemma {:induction false} SplitFirstPiece(s: string, c: char)
    ensures c !in s ==> Split(s, c) == [s]
    ensures forall i :: 0 <= i < |s| && s[i] == c && c !in s[..i] ==> Split(s, c)[0] == s[..i]
  {
    if c !in s {
      SplitPrefix(s, [], c);
      assert s + [] == s;
    }
    forall i | 0 <= i < |s| && s[i] == c && c !in s[..i]
      ensures Split(s, c)[0] == s[..i]
    {
      SplitAtSeparator(s[..i], s[i + 1..], c);
      assert s == s[..i] + [c] + s[i + 1..];
    }
  }

  // ---------------------------------------------------------------------------
  // Substring search and first-match replacement.

  predicate OccursAt(s: string, pat: string, i: int) {
    0 <= i && i + |pat| <= |s| && s[i..i + |pat|] == pat
  }

  /** The leftmost position at or after `from` where `pat` occurs, if any. */
  function FindFrom(s: string, pat: string, from: nat): (r: Option<nat>)
    ensures r.Some? ==> from <= r.value && OccursAt(s, pat, r.value)
    ensures r.Some? ==> forall j :: from <= j < r.value ==> !OccursAt(s, pat, j)
    ensures r.None? ==> forall j :: from <= j <= |s| ==> !OccursAt(s, pat, j)
    decreases |s| - from
  {
    if from + |pat| > |s| then None
    else if s[from..from + |pat|] == pat then Some(from)
    else FindFrom(s, pat, from + 1)
  }

  /** `s.indexOf(pat)`: the leftmost position where `pat` occurs, if any. */
  function Find(s: string, pat: string): (r: Option<nat>)
    ensures r.Some? ==> OccursAt(s, pat, r.value)
    ensures r.Some? ==> forall j :: 0 <= j < r.value ==> !OccursAt(s, pat, j)
    ensures r.None? ==> forall j :: 0 <= j <= |s| ==> !OccursAt(s, pat, j)
  {
    FindFrom(s, pat, 0)
  }

  /** `s.includes(pat)`. */
  predicate Contains(s: string, pat: string) {
    Find(s, pat).Some?
  }

  /** An occurrence anywhere means `pat` is contained. */
  lemma {:induction false} OccurrenceContained(s: string, pat: string, i: int)
    requires OccursAt(s, pat, i)
    ensures Contains(s, pat)
  {
  }

  /** JavaScript `s.replace(pat, rep)` with a string pattern: without an occurrence the
      string is unchanged; with one, exactly `|pat|` characters give way to `rep`. */
  function ReplaceFirst(s: string, pat: string, rep: string): (r: string)
    ensures !Contains(s, pat) ==> r == s
    ensures Contains(s, pat) ==> |r| == |s| - |pat| + |rep|
  {
    match Find(s, pat)
    case None => s
    case Some(i) => s[..i] + rep + s[i + |pat|..]
  }

  /** The replaced occurrence is the leftmost one: everything before it and everything
      after it is kept. */
  lemma {:induction false} ReplaceFirstAt(s: string, pat: string, rep: string, i: int)
    requires OccursAt(s, pat, i)
    requires forall j :: 0 <= j < i ==> !OccursAt(s, pat, j)
    ensures ReplaceFirst(s, pat, rep) == s[..i] + rep + s[i + |pat|..]
  {
    var k := Find(s, pat).value;
    assert k >= i;
    assert k <= i;
  }

  // ---------------------------------------------------------------------------
  // Decimal rendering (`${n}` in a template literal).

  function DigitChar(d: nat): (c: char)
    requires d < 10
    ensures IsDigit(c)
  {
    ('0' as int + d) as char
  }

  function DigitValue(c: char): nat
    requires IsDigit(c)
  {
    c as int - '0' as int
  }

  /** The decimal digits of `n`, without leading zeros. */
  function NatToString(n: nat): (r: string)
    ensures |r| >= 1
    ensures forall i :: 0 <= i < |r| ==> IsDigit(r[i])
  {
    if n < 10 then [DigitChar(n)] else NatToString(n / 10) + [DigitChar(n % 10)]
  }

  /** The number a string of decimal digits denotes. */
  function DigitsValue(s: string): nat
    requires forall i :: 0 <= i < |s| ==> IsDigit(s[i])
  {
    if s == [] then 0 else DigitsValue(s[..|s| - 1]) * 10 + DigitValue(s[|s| - 1])
  }

  /** Reading back the rendered digits gives the number: the rendering loses nothing. */
  lemma {:induction false} NatToStringValue(n: nat)
    ensures DigitsValue(NatToString(n)) == n
  {
    var r := NatToString(n);
    if n >= 10 {
      NatToStringValue(n / 10);
      assert r[..|r| - 1] == NatToString(n / 10);
    }
  }
}
