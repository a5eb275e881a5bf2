/**
 Request paths: `urlParse` (src/ac/parser/parser.go:88-97), and how a row of a table reads a path. A
 regular expression is modelled by the set of strings it matches.
 */
module UriRows {
  import opened Common
  import opened Text
  import opened Framework

  // "/a/b/c", and the same with the optional slash at the end.
  function Path(parts: seq<string>): string {
    "/" + Join(parts, '/')
  }

  ghost predicate Spells(uri: string, parts: seq<string>) {
    uri == Path(parts) || uri == Path(parts) + "/"
  }

  ghost predicate Segments(parts: seq<string>) {
    parts != [] && forall p <- parts :: p != "" && Free(p, '/')
  }

  // strings.Split(uri, "/")[1:]
  function Elements(uri: string): seq<string> {
    Split(uri, '/')[1..]
  }

  lemma ElementsOfPath(uri: string, parts: seq<string>)
    requires Segments(parts) && Spells(uri, parts)
    ensures Elements(uri) == if uri == Path(parts) then parts else parts + [""]
  {
    SplitJoin(parts, '/');
    SplitFree("", '/');
    SplitAt("", '/', Join(parts, '/'));
    assert Path(parts) == "" + ['/'] + Join(parts, '/');
    assert Split(Path(parts), '/') == [""] + parts;
    if uri != Path(parts) {
      SplitAt(Path(parts), '/', "");
      assert Path(parts) + "/" == Path(parts) + ['/'] + "";
      assert Split(uri, '/') == [""] + parts + [""];
      assert Elements(uri) == parts + [""];
    } else {
      assert Elements(uri) == parts;
    }
  }

  /******* urlParse *******/

  // The strings that ^/api/([^/]+)(/[^/]+)+/?$ matches.
  ghost predicate MatchesApi(uri: string) {
    exists parts :: Segments(parts) && |parts| >= 3 && parts[0] == "api" && Spells(uri, parts)
  }

  // The elements without the empty one that a slash at the end leaves.
  function WithoutTail(elements: seq<string>): seq<string> {
    if elements != [] && elements[|elements| - 1] == "" then elements[..|elements| - 1] else elements
  }

  // The same set of strings, decided on the elements.
  predicate IsApi(uri: string) {
    var parts := WithoutTail(Elements(uri));
    uri != "" && uri[0] == '/' && |parts| >= 3 && parts[0] == "api" && forall p <- parts :: p != ""
  }

  function UrlParse(uri: string): Result<seq<string>> {
    if IsApi(uri) then Ok(Elements(uri)) else Err
  }

  lemma SplitSlash(uri: string)
    requires uri != "" && uri[0] == '/'
    ensures uri == Path(Elements(uri)) && Elements(uri) != [] && forall p <- Elements(uri) :: Free(p, '/')
  {
    SplitFree("", '/');
    SplitAt("", '/', uri[1..]);
    assert uri == "" + ['/'] + uri[1..];
    assert Elements(uri) == Split(uri[1..], '/');
    JoinSplit(uri[1..], '/');
  }

  lemma {:induction false} JoinTail(parts: seq<string>, c: char)
    requires parts != []
    ensures Join(parts + [""], c) == Join(parts, c) + [c]
  {
    if |parts| > 1 {
      JoinTail(parts[1..], c);
      assert (parts + [""])[1..] == parts[1..] + [""];
    } else {
      assert (parts + [""])[1..] == [""];
      assert parts[0] + [c] + "" == parts[0] + [c];
    }
  }

  // `urlParse` accepts exactly the language of its regular expression, and what it accepts has at least
  // the three elements that the chain indexes, the first of them "api".
  lemma UrlParseIsRegex(uri: string)
    ensures UrlParse(uri).Ok? <==> MatchesApi(uri)
    ensures UrlParse(uri).Ok? ==> |UrlParse(uri).value| >= 3 && UrlParse(uri).value[0] == "api"
  {
    if UrlParse(uri).Ok? {
      var parts := WithoutTail(Elements(uri));
      SplitSlash(uri);
      if parts != Elements(uri) {
        assert Elements(uri) == parts + [""];
        JoinTail(parts, '/');
        assert uri == Path(parts) + "/";
      }
      assert Segments(parts) && Spells(uri, parts);
    }
    if parts :| Segments(parts) && |parts| >= 3 && parts[0] == "api" && Spells(uri, parts) {
      ElementsOfPath(uri, parts);
      assert parts[|parts| - 1] in parts;
      assert WithoutTail(Elements(uri)) == parts;
    }
  }

  /******* Table rows *******/

  // A piece of a row's regular expression: a fixed word, or ([0-9]+).
  datatype Segment = Lit(text: Word) | Num

  type Word = s: string | s != "" && '/' !in s witness "w"

  // A row with a fixed pattern or a regular expression. An expression without ^ also matches paths that only
  // end in its text; `slash` is the optional slash before $. `bizIndex` is the row's BizIndex, where it has
  // one.
  datatype Row = Row(verb: string, anchored: bool, slash: bool, segments: seq<Segment>, bizIndex: Option<nat>)

  predicate Fits(s: Segment, part: string) {
    match s
    case Lit(text) => part == text
    case Num => part != "" && AllDigits(part)
  }

  // `parts` is how the row reads the path, or the end of it; for a Num, the part is what its group captures.
  ghost predicate Reads(row: Row, uri: string, parts: seq<string>) {
    && |parts| == |row.segments|
    && (forall i | 0 <= i < |parts| :: Fits(row.segments[i], parts[i]))
    && exists prefix: string ::
         && (row.anchored ==> prefix == "")
         && (uri == prefix + Path(parts) || (row.slash && uri == prefix + Path(parts) + "/"))
  }

  // A row that takes the business id from the path: it is anchored, starts with "api" and "v3" and one more
  // segment, and the segment at its index is the number after bk_biz_id or biz.
  ghost predicate BizRow(row: Row) {
    && row.anchored
    && |row.segments| >= 3 && row.segments[0] == Lit(API) && row.segments[1] == Lit(V3)
    && row.bizIndex.Some? && 0 < row.bizIndex.value < |row.segments|
    && row.segments[row.bizIndex.value] == Num
    && (row.segments[row.bizIndex.value - 1] == Lit(BK_BIZ_ID) || row.segments[row.bizIndex.value - 1] == Lit(BIZ))
  }

  const API: Word := "api"
  const V3: Word := "v3"
  const BK_BIZ_ID: Word := "bk_biz_id"
  const BIZ: Word := "biz"

  function Api(rest: seq<Segment>): seq<Segment> {
    [Lit(API), Lit(V3)] + rest
  }

  /******* The business id is the one in the path *******/

  lemma AnchoredSpells(row: Row, uri: string, parts: seq<string>)
    requires row.anchored && Reads(row, uri, parts)
    ensures Spells(uri, parts)
  {
  }

  lemma ReadIsSegments(row: Row, uri: string, parts: seq<string>)
    requires row.segments != [] && Reads(row, uri, parts)
    ensures Segments(parts)
  {
    forall i | 0 <= i < |parts|
      ensures parts[i] != "" && Free(parts[i], '/')
    {
      assert Fits(row.segments[i], parts[i]);
      if row.segments[i].Num? {
        DigitsAreFree(parts[i]);
      }
    }
  }

  lemma DigitsAreFree(s: string)
    requires AllDigits(s)
    ensures Free(s, '/')
  {
  }

  // An anchored row reads a path in one way only, so what its groups capture is well defined.
  lemma ReadingIsUnique(row: Row, uri: string, a: seq<string>, b: seq<string>)
    requires row.anchored && row.segments != [] && Reads(row, uri, a) && Reads(row, uri, b)
    ensures a == b
  {
    AnchoredSpells(row, uri, a);
    AnchoredSpells(row, uri, b);
    ReadIsSegments(row, uri, a);
    ReadIsSegments(row, uri, b);
    ElementsOfPath(uri, a);
    ElementsOfPath(uri, b);
    assert |a| == |b|;
    assert Elements(uri)[..|a|] == a && Elements(uri)[..|b|] == b;
  }

  lemma {:induction false} DigitsParse(s: string)
    requires s != "" && AllDigits(s)
    ensures ParseInt(s) == if Value(s) <= MAX_INT64 then Some(Value(s)) else None
  {
    assert s[0] in s;
  }

  // For every path that such a row accepts, with or without the slash at the end: `urlParse` accepts the
  // path too, the element at the row's index exists and is what the group captured, and the getter returns
  // its value, or fails when it does not fit an int64.
  lemma BizIdIsCaptured(row: Row, uri: string, parts: seq<string>, request: RequestContext)
    requires BizRow(row) && Reads(row, uri, parts) && request.elements == Elements(uri)
    ensures
      var i := row.bizIndex.value;
      && UrlParse(uri) == Ok(Elements(uri))
      && i < |Elements(uri)| && (parts[i - 1] == "bk_biz_id" || parts[i - 1] == "biz")
      && Elements(uri)[i] == parts[i] && AllDigits(parts[i])
      && BizIdFromUrl(request, i) == if Value(parts[i]) <= MAX_INT64 then Ok(Value(parts[i])) else Err
  {
    var i := row.bizIndex.value;
    AnchoredSpells(row, uri, parts);
    ReadIsSegments(row, uri, parts);
    ElementsOfPath(uri, parts);
    assert Fits(row.segments[0], parts[0]);
    assert Fits(row.segments[i], parts[i]);
    assert Fits(row.segments[i - 1], parts[i - 1]);
    DigitsParse(parts[i]);
    UrlParseIsRegex(uri);
  }
}
