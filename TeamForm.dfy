/** The welcome page's team form: the industry, the team size typed by the user, and
    one row of name and skills per member; the list follows the size, and Continue
    trims the rows and merges them into the stored session snapshot. */
module TeamForm {
  import opened Wrappers
  import opened Seqs
  import opened Text
  import opened Json
  import Whiteboard

  /** One row of the members table. */
  datatype Member = Member(name: string, skills: string)

  /** The row added when the list grows. */
  const EmptyMember: Member := Member("", "")

  /** What `parseInt` makes of the size field: a number, or `NaN` for a field that does
      not start with digits. */
  datatype TeamSize = Count(n: int) | NotANumber

  /** `k` empty rows. */
  function EmptyRows(k: nat): (r: seq<Member>)
    ensures |r| == k
    ensures forall i :: 0 <= i < k ==> r[i] == EmptyMember
  {
    if k == 0 then [] else EmptyRows(k - 1) + [EmptyMember]
  }

  /** The copy after `while (copy.length < teamSize) copy.push(...)`: a comparison with
      `NaN` is false, so only a number larger than the length pads. */
  function Padded(m: seq<Member>, size: TeamSize): seq<Member> {
    if size.Count? && |m| < size.n then m + EmptyRows(size.n - |m|) else m
  }

  /** Where `slice(0, size)` ends on a list of length `len`: `NaN` counts as 0, a
      negative end counts from the back and stops at 0, and an end past the list stops
      at its length. */
  function SliceEnd(len: nat, size: TeamSize): (e: nat)
    ensures e <= len
  {
    match size
    case NotANumber => 0
    case Count(n) =>
      if n < 0 then (if len + n < 0 then 0 else len + n)
      else if n < len then n
      else len
  }

  /** The list the resize effect makes from `m`. */
  function Resized(m: seq<Member>, size: TeamSize): (r: seq<Member>)
    ensures size.Count? && size.n >= 0 ==>
      |r| == size.n
      && (forall i :: 0 <= i < |m| && i < size.n ==> r[i] == m[i])
      && forall i :: |m| <= i < size.n ==> r[i] == EmptyMember
    ensures size.Count? && size.n < 0 ==>
      r == m[..if |m| + size.n < 0 then 0 else |m| + size.n]
    ensures size.NotANumber? ==> r == []
  {
    var p := Padded(m, size);
    p[..SliceEnd(|p|, size)]
  }

  /** For a non-negative size, a settled list does not change when the effect runs again. */
  lemma {:induction false} ResizedIdempotent(m: seq<Member>, size: TeamSize)
    requires size.NotANumber? || size.n >= 0
    ensures Resized(Resized(m, size), size) == Resized(m, size)
  {
    var r := Resized(m, size);
    if size.Count? {
      assert Padded(r, size) == r;
      assert r[..size.n] == r;
    }
  }

  /** Shrinking the team and growing it again loses the rows that were cut: they come
      back empty. */
  lemma {:induction false} ShrinkThenGrow(m: seq<Member>, k: nat, n: nat)
    requires k <= n
    ensures |Resized(Resized(m, Count(k)), Count(n))| == n
    ensures forall i :: 0 <= i < k && i < |m| ==> Resized(Resized(m, Count(k)), Count(n))[i] == m[i]
    ensures forall i :: k <= i < n ==> Resized(Resized(m, Count(k)), Count(n))[i] == EmptyMember
  {
    assert |Resized(m, Count(k))| == k;
  }

  /** Name edit of one row. */
  function WithName(m: seq<Member>, index: nat, v: string): (r: seq<Member>)
    requires index < |m|
    ensures |r| == |m|
    ensures r[index].name == v && r[index].skills == m[index].skills
    ensures forall i :: 0 <= i < |m| && i != index ==> r[i] == m[i]
  {
    m[index := Member(v, m[index].skills)]
  }

  /** Skills edit of one row. */
  function WithSkills(m: seq<Member>, index: nat, v: string): (r: seq<Member>)
    requires index < |m|
    ensures |r| == |m|
    ensures r[index].skills == v && r[index].name == m[index].name
    ensures forall i :: 0 <= i < |m| && i != index ==> r[i] == m[i]
  {
    m[index := Member(m[index].name, v)]
  }

  /** `teamMembers.map(m => ({name: m.name.trim(), skills: m.skills.trim()}))` */
  function Standardize(m: seq<Member>): (r: seq<Member>)
    ensures |r| == |m|
    ensures forall i :: 0 <= i < |m| ==> r[i].name == Trim(m[i].name) && r[i].skills == Trim(m[i].skills)
  {
    seq(|m|, i requires 0 <= i < |m| => Member(Trim(m[i].name), Trim(m[i].skills)))
  }

  /** Standardised rows are stripped, a blank field becomes empty, and standardising
      again changes nothing. */
  lemma {:induction false} StandardizeIdempotent(m: seq<Member>)
    ensures forall i :: 0 <= i < |m| ==>
      (Standardize(m)[i].name == [] <==> Blank(m[i].name))
      && (Standardize(m)[i].skills == [] <==> Blank(m[i].skills))
    ensures Standardize(Standardize(m)) == Standardize(m)
  {
    var s := Standardize(m);
    forall i | 0 <= i < |m|
      ensures Standardize(s)[i] == s[i]
    {
      TrimIdempotent(m[i].name);
      TrimIdempotent(m[i].skills);
    }
  }

  /** The `skills` list of the hashtag request: the standardised skills, in row order. */
  function RequestSkills(m: seq<Member>): (r: seq<string>)
    ensures |r| == |m|
    ensures forall i :: 0 <= i < |m| ==> r[i] == Trim(m[i].skills) && Trim(r[i]) == r[i]
  {
    var s := Standardize(m);
    StandardizeIdempotent(m);
    seq(|s|, i requires 0 <= i < |s| => s[i].skills)
  }

  /** The body of the hashtag request. */
  function HashtagRequest(industry: string, m: seq<Member>): Json {
    JObj(map["industry" := JStr(industry), "skills" := JArr(Strings(RequestSkills(m)))])
  }

  /** A row as a JSON object. */
  function MemberJson(m: Member): Json {
    JObj(map["name" := JStr(m.name), "skills" := JStr(m.skills)])
  }

  function MembersJson(m: seq<Member>): (r: Json)
    ensures r.JArr? && |r.items| == |m|
    ensures forall i :: 0 <= i < |m| ==> r.items[i] == MemberJson(m[i])
  {
    JArr(seq(|m|, i requires 0 <= i < |m| => MemberJson(m[i])))
  }

  /** `JSON.stringify` writes `NaN` as `null`. */
  function SizeJson(size: TeamSize): Json {
    match size
    case Count(n) => JNum(n)
    case NotANumber => JNull
  }

  /** The keys Continue writes. */
  const PayloadKeys: set<string> := {"industry", "teamSize", "teamMembers", "trends"}

  /** `data?.trends || ""`. */
  function Trends(data: Json): Json {
    OrElse(Prop(data, "trends"), JStr(""))
  }

  /** `{industry, teamSize, teamMembers, trends}`. */
  function Payload(industry: string, size: TeamSize, m: seq<Member>, data: Json): (r: map<string, Json>)
    ensures r.Keys == PayloadKeys
  {
    map["industry" := JStr(industry), "teamSize" := SizeJson(size),
        "teamMembers" := MembersJson(Standardize(m)), "trends" := Trends(data)]
  }

  /** The stored snapshot spread under the payload; no stored item reads as `"{}"`. */
  function Prior(existing: Stored): map<string, Json> {
    match existing
    case Parsed(j) => Spread(j)
    case _ => map[]
  }

  /** What Continue leads to: an alert with nothing stored, or the new snapshot. */
  datatype ContinueOutcome = Failed | Saved(snapshot: map<string, Json>)

  /** `handleContinue`, given the hashtag response (`None` for a request that fails or a
      status that is not OK) and the stored blob. */
  function Continue(industry: string, size: TeamSize, m: seq<Member>,
                    response: Option<Json>, existing: Stored): (r: ContinueOutcome)
    ensures r.Failed? <==> response.None? || existing.Corrupt?
    ensures r.Saved? ==> r.snapshot.Keys == Prior(existing).Keys + PayloadKeys
    ensures r.Saved? ==>
      && r.snapshot["industry"] == JStr(industry)
      && r.snapshot["teamSize"] == SizeJson(size)
      && r.snapshot["teamMembers"] == MembersJson(Standardize(m))
      && r.snapshot["trends"] == Trends(response.value)
    ensures r.Saved? ==> forall k :: k in Prior(existing) && k !in PayloadKeys ==> r.snapshot[k] == Prior(existing)[k]
  {
    if response.None? || existing.Corrupt? then Failed
    else Saved(Overwrite(Prior(existing), Payload(industry, size, m, response.value)))
  }

  /** A response without a truthy `trends` stores the empty string. */
  lemma {:induction false} MissingTrends(data: Json)
    requires !data.JObj? || "trends" !in data.fields || !Truthy(data.fields["trends"])
    ensures Trends(data) == JStr("")
  {
  }

  /** Continuing twice with the same form and response stores the same snapshot as
      continuing once. */
  lemma {:induction false} ContinueTwice(industry: string, size: TeamSize, m: seq<Member>,
                                          data: Json, existing: Stored)
    requires !existing.Corrupt?
    ensures Continue(industry, size, m, Some(data), existing).Saved?
    ensures var s := Continue(industry, size, m, Some(data), existing).snapshot;
      Continue(industry, size, m, Some(data), Parsed(JObj(s))) == Saved(s)
  {
    var s := Continue(industry, size, m, Some(data), existing).snapshot;
    var t := Continue(industry, size, m, Some(data), Parsed(JObj(s))).snapshot;
    assert t.Keys == s.Keys;
    assert forall k :: k in s ==> t[k] == s[k];
  }

  /** The whiteboard reads back the industry typed here, and the tags of a string
      `trends`. */
  lemma {:induction false} WhiteboardReadsSnapshot(industry: string, size: TeamSize, m: seq<Member>,
                                                   data: Json, existing: Stored)
    requires !existing.Corrupt?
    ensures var s := Continue(industry, size, m, Some(data), existing).snapshot;
      && Whiteboard.StoredIndustry(Parsed(JObj(s))) == JStr(industry)
      && Whiteboard.StoredTrends(Parsed(JObj(s))) ==
           (if Trends(data).JStr? then Whiteboard.TrendTags(Trends(data).s) else [])
  {
    var s := Continue(industry, size, m, Some(data), existing).snapshot;
    assert Prop(JObj(s), "industry") == Some(JStr(industry));
    assert Prop(JObj(s), "trends") == Some(Trends(data));
  }

  /** The page's state. */
  class TeamFormPage {
    var industry: string
    var teamSize: TeamSize
    var members: seq<Member>

    /** The list has settled on the size: as many rows as a non-negative size, none for
        `NaN`. */
    ghost predicate Valid()
      reads this
    {
      && (teamSize.Count? && teamSize.n >= 0 ==> |members| == teamSize.n)
      && (teamSize.NotANumber? ==> members == [])
    }

    /** The initial state, after the effect has run once on mount. */
    constructor ()
      ensures Valid()
      ensures industry == "Healthcare" && teamSize == Count(3)
      ensures members == [EmptyMember, EmptyMember, EmptyMember]
    {
      industry := "Healthcare";
      teamSize := Count(3);
      members := [EmptyMember];
      new;
      ResizeMembers();
      assert members == Resized([EmptyMember], Count(3));
      assert |members| == 3;
    }

    /** The resize effect: pad with empty rows while shorter than the size, then slice. */
    method ResizeMembers()
      modifies this`members
      ensures members == Resized(old(members), teamSize)
      ensures teamSize.NotANumber? || teamSize.n >= 0 ==> Valid()
    {
      var copy := members;
      while teamSize.Count? && |copy| < teamSize.n
        invariant members == old(members)
        invariant |members| <= |copy|
        invariant copy == members + EmptyRows(|copy| - |members|)
        invariant |copy| > |members| ==> teamSize.Count? && |copy| <= teamSize.n
        decreases if teamSize.Count? then teamSize.n - |copy| else 0
      {
        AppendAssoc(members, EmptyRows(|copy| - |members|), [EmptyMember]);
        copy := copy + [EmptyMember];
      }
      if teamSize.Count? && |members| < teamSize.n {
        assert |copy| == teamSize.n;
      } else {
        assert copy == members;
      }
      assert copy == Padded(members, teamSize);
      members := copy[..SliceEnd(|copy|, teamSize)];
    }

    /** The industry field. */
    method SetIndustry(v: string)
      requires Valid()
      modifies this`industry
      ensures Valid() && industry == v
    {
      industry := v;
    }

    /** The size field; the effect runs only when the value differs from the current one
        (`NaN` equals `NaN` here). */
    method SetTeamSize(v: TeamSize)
      requires Valid()
      modifies this`teamSize, this`members
      ensures teamSize == v
      ensures members == if v == old(teamSize) then old(members) else Resized(old(members), v)
      ensures v.NotANumber? || v.n >= 0 ==> Valid()
    {
      if v != teamSize {
        teamSize := v;
        ResizeMembers();
      }
    }

    /** A name cell edit. */
    method EditName(index: nat, v: string)
      requires Valid() && index < |members|
      modifies this`members
      ensures Valid()
      ensures members == WithName(old(members), index, v)
    {
      members := members[index := Member(v, members[index].skills)];
    }

    /** A skills cell edit. */
    method EditSkills(index: nat, v: string)
      requires Valid() && index < |members|
      modifies this`members
      ensures Valid()
      ensures members == WithSkills(old(members), index, v)
    {
      members := members[index := Member(members[index].name, v)];
    }
  }
}
