/** The download page: the stored PDF path is cleaned by two first-occurrence
    replacements and prefixed with the back end's address. */
module Download {
  import opened Wrappers
  import opened Text

  /** The back end the page links to. */
  const Host: string := "http://127.0.0.1:8000"

  /** `stored.replace("../", "/").replace("./", "/")`: the leftmost `../` becomes `/`, then
      the leftmost `./` of the intermediate string becomes `/`; each replacement shortens
      the path by the length it saves, and a path without `./` passes through. */
  function CleanPath(p: string): (r: string)
    ensures |r| == |p| - (if Contains(p, "../") then 2 else 0)
                       - (if Contains(ReplaceFirst(p, "../", "/"), "./") then 1 else 0)
    ensures !Contains(p, "./") ==> r == p
  {
    DotSlashInParent(p);
    ReplaceFirst(ReplaceFirst(p, "../", "/"), "./", "/")
  }

  /** Every `../` holds a `./` one position further on. */
  lemma {:induction false} DotSlashInParent(p: string)
    ensures Contains(p, "../") ==> Contains(p, "./")
  {
    if Contains(p, "../") {
      var j := Find(p, "../").value;
      assert p[j + 1..j + 3] == p[j..j + 3][1..];
      OccurrenceContained(p, "./", j + 1);
    }
  }

  /** A path in which no `.` is directly followed by `/` contains no `./`. */
  lemma {:induction false} NoDotSlash(p: string)
    requires forall j :: 0 <= j < |p| - 1 ==> p[j] != '.' || p[j + 1] != '/'
    ensures !Contains(p, "./")
  {
    forall j | 0 <= j <= |p|
      ensures !OccursAt(p, "./", j)
    {
      if j + 2 <= |p| {
        assert p[j..j + 2][0] == p[j] && p[j..j + 2][1] == p[j + 1];
      }
    }
  }

  /** The effect: no link without a stored path (`null` or the empty string, both falsy);
      otherwise the host followed by the cleaned path. */
  function DownloadUrl(stored: Option<string>): (r: Option<string>)
    ensures r.None? <==> stored.None? || stored.value == []
    ensures r.Some? ==> |r.value| == |Host| + |CleanPath(stored.value)|
    ensures r.Some? ==> r.value[..|Host|] == Host && r.value[|Host|..] == CleanPath(stored.value)
  {
    match stored
    case None => None
    case Some(p) => if p == [] then None else Some(Host + CleanPath(p))
  }

  /** A file served by the back end, `/static/<name>` with no `/` in the name, is linked
      exactly as returned. */
  lemma {:induction false} ServedPathUnchanged(name: string)
    requires '/' !in name
    ensures CleanPath("/static/" + name) == "/static/" + name
    ensures DownloadUrl(Some("/static/" + name)) == Some(Host + "/static/" + name)
  {
    var p := "/static/" + name;
    forall j | 0 <= j < |p| - 1
      ensures p[j] != '.' || p[j + 1] != '/'
    {
      if j + 1 >= 8 {
        assert p[j + 1] == name[j + 1 - 8];
      } else {
        assert p[j] == "/static/"[j] && p[j + 1] == "/static/"[j + 1];
      }
    }
    NoDotSlash(p);
    assert Host + p == Host + "/static/" + name;
  }

  /** The example path of the back end's response, `/static/x.pdf`, is linked as
      `http://127.0.0.1:8000/static/x.pdf`. */
  lemma {:induction false} StaticExample()
    ensures DownloadUrl(Some("/static/x.pdf")) == Some(Host + "/static/x.pdf")
  {
    var name := "x.pdf";
    ServedPathUnchanged(name);
    assert "/static/" + name == "/static/x.pdf";
  }

  /** Only the first `../` is rewritten, and the second replacement then removes the
      `/` of the remaining `../`, so a doubly relative path keeps a `./`. */
  lemma {:induction false} DoublyRelative()
    ensures CleanPath("../../a") == "/./a"
  {
    var p := "../../a";
    assert p[0..3] == "../";
    ReplaceFirstAt(p, "../", "/", 0);
    var q := "/../a";
    assert p[..0] + "/" + p[3..] == q;
    assert q[2..4] == "./";
    assert !OccursAt(q, "./", 0) by { assert q[0..2][0] == '/'; }
    assert !OccursAt(q, "./", 1) by { assert q[1..3][1] == '.'; }
    ReplaceFirstAt(q, "./", "/", 2);
    assert q[..2] + "/" + q[4..] == "/./a";
  }
}
