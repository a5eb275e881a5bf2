/**
 Reading IAM paths back, `ParseIamPathToAncestors` (src/ac/iam/adaptor.go:458-479), against the
 paths that gen_id.go prints.
 */
module IamPath {
  import opened Common
  import opened IamTypes
  import opened IamTables
  import opened Adaptor
  import opened Text
  import opened SchemaConformance
  import Meta

  // One level of a path.
  datatype Level = Level(kind: string, id: string) {
    // What a level may be made of, so that the separators stay readable.
    ghost predicate Plain() {
      Free(kind, '/') && Free(kind, ',') && Free(id, '/') && Free(id, ',')
    }

    function Print(): string {
      kind + "," + id
    }
  }

  ghost predicate PlainLevels(levels: seq<Level>) {
    levels != [] && forall l <- levels :: l.Plain()
  }

  function PrintLevels(levels: seq<Level>): seq<string> {
    seq(|levels|, i requires 0 <= i < |levels| => levels[i].Print())
  }

  // "/type,id/type,id/"
  function PrintPath(levels: seq<Level>): string {
    "/" + Join(PrintLevels(levels), '/') + "/"
  }

  // A level whose id is a wildcard names no ancestor.
  function Named(levels: seq<Level>): seq<Level> {
    if levels == [] then []
    else
      var last := levels[|levels| - 1];
      Named(levels[..|levels| - 1]) + (if last.id == "*" then [] else [last])
  }

  function NamedAll(paths: seq<seq<Level>>): seq<Level> {
    if paths == [] then [] else NamedAll(paths[..|paths| - 1]) + Named(paths[|paths| - 1])
  }

  // How many of the first `n` levels are no wildcards.
  function Concrete(levels: seq<Level>, n: nat): set<nat>
    requires n <= |levels|
  {
    set i: nat | i < n && levels[i].id != "*"
  }

  lemma ConcretePrefix(levels: seq<Level>, n: nat, i: nat)
    requires i <= n <= |levels|
    ensures Concrete(levels[..n], i) == Concrete(levels, i)
    ensures |Concrete(levels, i)| <= |Concrete(levels, n)|
  {
    SubsetSize(Concrete(levels, i), Concrete(levels, n));
  }

  lemma NextConcrete(levels: seq<Level>, n: nat)
    requires n < |levels|
    ensures |Concrete(levels, n + 1)| == |Concrete(levels, n)| + if levels[n].id == "*" then 0 else 1
  {
    if levels[n].id == "*" {
      assert Concrete(levels, n + 1) == Concrete(levels, n);
    } else {
      assert Concrete(levels, n + 1) == Concrete(levels, n) + {n};
    }
  }

  // The wildcard levels drop out, and each other level comes after those before it.
  lemma {:induction false} NamedInOrder(levels: seq<Level>, i: nat)
    requires i <= |levels|
    ensures |Named(levels)| == |Concrete(levels, |levels|)|
    ensures i < |levels| && levels[i].id != "*" ==>
      |Concrete(levels, i)| < |Named(levels)| && Named(levels)[|Concrete(levels, i)|] == levels[i]
  {
    if levels != [] {
      var n := |levels| - 1;
      ConcretePrefix(levels, n, n);
      NextConcrete(levels, n);
      NamedInOrder(levels[..n], if i < n then i else n);
      if i < n {
        ConcretePrefix(levels, n, i);
      }
    }
  }

  // Paths contribute in their order.
  lemma {:induction false} NamedAllInOrder(a: seq<seq<Level>>, b: seq<seq<Level>>)
    ensures NamedAll(a + b) == NamedAll(a) + NamedAll(b)
    ensures |b| == 1 ==> NamedAll(b) == Named(b[0])
  {
    if b == [] {
      assert a + b == a;
    } else {
      var n := |b| - 1;
      NamedAllInOrder(a, b[..n]);
      assert (a + b)[..|a + b| - 1] == a + b[..n];
    }
  }

  /******* What parsing computes *******/

  predicate ItemOk(item: string) {
    |Split(item, ',')| == 2
  }

  function ItemLevel(item: string): Level
    requires ItemOk(item)
  {
    Level(Split(item, ',')[0], Split(item, ',')[1])
  }

  function Items(path: string): seq<string> {
    Split(Trim(path, '/'), '/')
  }

  predicate PathOk(path: string) {
    forall item <- Items(path) :: ItemOk(item)
  }

  function ItemLevels(items: seq<string>): seq<Level>
    requires forall item <- items :: ItemOk(item)
  {
    seq(|items|, i requires 0 <= i < |items| => ItemLevel(items[i]))
  }

  function ParsedPaths(paths: seq<string>): seq<Level>
    requires forall p <- paths :: PathOk(p)
  {
    if paths == [] then []
    else
      assert PathOk(paths[|paths| - 1]) by { assert paths[|paths| - 1] in paths; }
      ParsedPaths(paths[..|paths| - 1]) + Named(ItemLevels(Items(paths[|paths| - 1])))
  }

  lemma NextItem(items: seq<string>, j: nat)
    requires j < |items| && (forall item <- items[..j] :: ItemOk(item)) && ItemOk(items[j])
    ensures forall item <- items[..j + 1] :: ItemOk(item)
    ensures
      var level := ItemLevel(items[j]);
      Named(ItemLevels(items[..j + 1])) == Named(ItemLevels(items[..j])) + (if level.id == "*" then [] else [level])
  {
    assert items[..j + 1][..j] == items[..j];
    assert ItemLevels(items[..j + 1])[..j] == ItemLevels(items[..j]);
  }

  // An element of the result. `names` is the table of display names, ResourceTypeIDMap, by type text; a type
  // that it lacks has the empty name.
  datatype Ancestor = Ancestor(kind: string, name: string, id: string)

  type Names = map<string, string>

  function AncestorOf(l: Level, names: Names): Ancestor {
    Ancestor(l.kind, if l.kind in names then names[l.kind] else "", l.id)
  }

  function Ancestors(levels: seq<Level>, names: Names): seq<Ancestor> {
    seq(|levels|, i requires 0 <= i < |levels| => AncestorOf(levels[i], names))
  }

  lemma AncestorsConcat(a: seq<Level>, b: seq<Level>, names: Names)
    ensures Ancestors(a + b, names) == Ancestors(a, names) + Ancestors(b, names)
  {
  }

  // The inner loop: the levels of one path.
  method AppendLevels(instances: seq<Ancestor>, pathItemArr: seq<string>, names: Names) returns (r: Result<seq<Ancestor>>)
    ensures r.Ok? <==> forall item <- pathItemArr :: ItemOk(item)
    ensures r.Ok? ==> r.value == instances + Ancestors(Named(ItemLevels(pathItemArr)), names)
  {
    var appended := instances;
    for j := 0 to |pathItemArr|
      invariant forall item <- pathItemArr[..j] :: ItemOk(item)
      invariant appended == instances + Ancestors(Named(ItemLevels(pathItemArr[..j])), names)
    {
      var typeAndId := Split(pathItemArr[j], ',');
      if |typeAndId| != 2 {
        assert !ItemOk(pathItemArr[j]);
        return Err;
      }
      NextItem(pathItemArr, j);
      if typeAndId[1] != "*" {
        ghost var level := ItemLevel(pathItemArr[j]);
        AncestorsConcat(Named(ItemLevels(pathItemArr[..j])), [level], names);
        assert Ancestors([level], names) == [AncestorOf(level, names)];
        var name := if typeAndId[0] in names then names[typeAndId[0]] else "";
        appended := appended + [Ancestor(typeAndId[0], name, typeAndId[1])];
      }
    }
    assert pathItemArr[..|pathItemArr|] == pathItemArr;
    return Ok(appended);
  }

  method ParseIamPathToAncestors(iamPath: seq<string>, names: Names) returns (r: Result<seq<Ancestor>>)
    ensures r.Ok? <==> forall p <- iamPath :: PathOk(p)
    ensures r.Ok? ==> r.value == Ancestors(ParsedPaths(iamPath), names)
    ensures r.Ok? ==>
      var levels := ParsedPaths(iamPath);
      && |r.value| == |levels|
      && forall i | 0 <= i < |levels| ::
           && r.value[i].kind == levels[i].kind && r.value[i].id == levels[i].id
           && (levels[i].kind in names ==> r.value[i].name == names[levels[i].kind])
           && (levels[i].kind !in names ==> r.value[i].name == "")
  {
    var instances: seq<Ancestor> := [];
    for i := 0 to |iamPath|
      invariant forall p <- iamPath[..i] :: PathOk(p)
      invariant instances == Ancestors(ParsedPaths(iamPath[..i]), names)
    {
      var more := AppendLevels(instances, Items(iamPath[i]), names);
      if more.Err? {
        assert !PathOk(iamPath[i]);
        return Err;
      }
      instances := more.value;
      assert iamPath[..i + 1][..i] == iamPath[..i];
      AncestorsConcat(ParsedPaths(iamPath[..i]), Named(ItemLevels(Items(iamPath[i]))), names);
    }
    assert iamPath[..|iamPath|] == iamPath;
    return Ok(instances);
  }

  /******* Printing, then parsing *******/

  lemma PrintedItem(l: Level)
    requires l.Plain()
    ensures ItemOk(l.Print()) && ItemLevel(l.Print()) == l && Free(l.Print(), '/')
  {
    SplitAt(l.kind, ',', l.id);
    SplitFree(l.kind, ',');
    SplitFree(l.id, ',');
    assert l.Print() == l.kind + [','] + l.id;
  }

  lemma {:induction false} JoinEnds(parts: seq<string>, c: char)
    requires parts != [] && forall p <- parts :: p != "" && Free(p, c)
    ensures var s := Join(parts, c); s != "" && s[0] != c && s[|s| - 1] != c
  {
    assert parts[0] in parts && parts[0] != "";
    assert parts[0][0] in parts[0] && Join(parts, c)[0] == parts[0][0];
    if |parts| > 1 {
      assert forall p <- parts[1..] :: p in parts;
      JoinEnds(parts[1..], c);
      var s, t := Join(parts, c), Join(parts[1..], c);
      assert s[|s| - 1] == t[|t| - 1];
    } else {
      assert parts[0][|parts[0]| - 1] in parts[0];
    }
  }

  lemma PrintedPath(levels: seq<Level>)
    requires PlainLevels(levels)
    ensures Items(PrintPath(levels)) == PrintLevels(levels)
    ensures PathOk(PrintPath(levels)) && ItemLevels(Items(PrintPath(levels))) == levels
  {
    var texts := PrintLevels(levels);
    forall i | 0 <= i < |levels|
      ensures ItemOk(texts[i]) && ItemLevel(texts[i]) == levels[i] && Free(texts[i], '/') && texts[i] != ""
    {
      assert levels[i] in levels;
      PrintedItem(levels[i]);
    }
    JoinEnds(texts, '/');
    TrimPadded(Join(texts, '/'), '/');
    SplitJoin(texts, '/');
  }

  // Parsing printed paths gives back their levels in order. Wildcard levels drop out, nothing else does.
  lemma {:induction false} RoundTrip(paths: seq<seq<Level>>)
    requires forall p <- paths :: PlainLevels(p)
    ensures
      var printed := seq(|paths|, i requires 0 <= i < |paths| => PrintPath(paths[i]));
      (forall p <- printed :: PathOk(p)) && ParsedPaths(printed) == NamedAll(paths)
  {
    var printed := seq(|paths|, i requires 0 <= i < |paths| => PrintPath(paths[i]));
    if paths != [] {
      var front := paths[..|paths| - 1];
      RoundTrip(front);
      PrintedPath(paths[|paths| - 1]);
      assert printed[..|paths| - 1] == seq(|front|, i requires 0 <= i < |front| => PrintPath(front[i]));
    }
  }

  lemma {:induction false} NamedIsAll(levels: seq<Level>)
    requires forall l <- levels :: l.id != "*"
    ensures Named(levels) == levels
  {
    if levels != [] {
      NamedIsAll(levels[..|levels| - 1]);
    }
  }

  // Ids printed from numbers are never wildcards and never hold a separator.
  lemma NumberedLevel(kind: string, id: int)
    requires Free(kind, '/') && Free(kind, ',')
    ensures Level(kind, FormatInt(id)).Plain() && FormatInt(id) != "*"
  {
    FormatShape(id);
    assert '*' !in FormatInt(id);
  }

  // A path of numbered levels comes back whole, and so does every int64 in it.
  lemma NumberedRoundTrip(kinds: seq<string>, ids: seq<int>)
    requires |kinds| == |ids| > 0
    requires forall k <- kinds :: Free(k, '/') && Free(k, ',')
    requires forall id <- ids :: IsInt64(id)
    ensures
      var levels := seq(|ids|, i requires 0 <= i < |ids| => Level(kinds[i], FormatInt(ids[i])));
      && PathOk(PrintPath(levels))
      && ParsedPaths([PrintPath(levels)]) == levels
      && forall i | 0 <= i < |ids| :: ParseInt(levels[i].id) == Some(ids[i])
  {
    var levels := seq(|ids|, i requires 0 <= i < |ids| => Level(kinds[i], FormatInt(ids[i])));
    forall i | 0 <= i < |ids|
      ensures levels[i].Plain() && levels[i].id != "*" && ParseInt(levels[i].id) == Some(ids[i])
    {
      NumberedLevel(kinds[i], ids[i]);
      ParseFormat(ids[i]);
    }
    PrintedPath(levels);
    NamedIsAll(levels);
    assert [PrintPath(levels)][..0] == [];
  }

  /******* Parsing, then printing *******/

  // The parser accepts a path exactly when, outer slashes aside, it is a printed list of levels.
  lemma AcceptedIffPrinted(path: string)
    ensures PathOk(path) <==>
            exists levels :: PlainLevels(levels) && Trim(path, '/') == Join(PrintLevels(levels), '/')
  {
    var items := Items(path);
    if PathOk(path) {
      JoinSplit(Trim(path, '/'), '/');
      var levels := ItemLevels(items);
      forall i | 0 <= i < |items|
        ensures levels[i].Plain() && levels[i].Print() == items[i]
      {
        ItemPrints(items[i]);
      }
      assert PrintLevels(levels) == items;
      assert PlainLevels(levels);
    }
    if levels :| PlainLevels(levels) && Trim(path, '/') == Join(PrintLevels(levels), '/') {
      forall i | 0 <= i < |levels|
        ensures ItemOk(PrintLevels(levels)[i]) && Free(PrintLevels(levels)[i], '/')
      {
        assert levels[i] in levels;
        PrintedItem(levels[i]);
      }
      SplitJoin(PrintLevels(levels), '/');
    }
  }

  lemma ItemPrints(item: string)
    requires ItemOk(item) && Free(item, '/')
    ensures ItemLevel(item).Plain() && ItemLevel(item).Print() == item
  {
    JoinSplit(item, ',');
    var parts := Split(item, ',');
    assert parts[1..] == [parts[1]];
    assert item == parts[0] + [','] + parts[1];
    assert parts[0] in parts && parts[1] in parts;
    forall c | c in parts[0] || c in parts[1]
      ensures c in item
    {
    }
  }

  /******* The paths that requests carry *******/

  lemma ParentNamesArePlain(action: ActionId)
    requires DeclaredParent(action).Some?
    ensures var text := TypeText(DeclaredParent(action).value); Free(text, '/') && Free(text, ',')
  {
    ParentIsLevelAbove(action);
    PlainText(DeclaredParent(action).value);
  }

  lemma PlainText(t: TypeId)
    requires t == Business || t == SysHostRscPoolDirectory || t == SysInstanceModel
    ensures Free(TypeText(t), '/') && Free(TypeText(t), ',')
  {
    if t == Business {
      assert Free("biz", '/') && Free("biz", ',');
    } else if t == SysInstanceModel {
      assert Free("sys_instance_model", '/') && Free("sys_instance_model", ',');
    } else {
      assert Free("sys_host_rsc_pool_directory", '/') && Free("sys_host_rsc_pool_directory", ',');
    }
  }

  // Every path that an adapted request carries is read back as one ancestor: the parent type that the
  // action's selection declares, under the id the attribute gave.
  lemma RequestPathsParse(a: Meta.ResourceAttribute, r: Resource)
    requires Adapt(a).Ok? && Adapt(a).value.0 != Skip && r in Adapt(a).value.1 && r.path.Some?
    ensures
      var parent := DeclaredParent(Adapt(a).value.0);
      && parent.Some? && ParentId(a).Some?
      && (forall p <- r.path.value :: PathOk(p))
      && ParsedPaths(r.path.value) == [Level(TypeText(parent.value), FormatInt(ParentId(a).value))]
  {
    var action := Adapt(a).value.0;
    PathsFollowSelections(a, r);
    ParentNamesArePlain(action);
    OneLevelPath(TypeText(DeclaredParent(action).value), ParentId(a).value);
  }

  lemma OneLevelPath(text: string, id: int)
    requires Free(text, '/') && Free(text, ',')
    ensures
      var path := "/" + text + "," + FormatInt(id) + "/";
      PathOk(path) && ParsedPaths([path]) == [Level(text, FormatInt(id))]
  {
    var level := Level(text, FormatInt(id));
    NumberedLevel(text, id);
    PrintedPath([level]);
    assert PrintLevels([level]) == [level.Print()];
    assert PrintPath([level]) == "/" + text + "," + FormatInt(id) + "/";
    NamedIsAll([level]);
    assert [PrintPath([level])][..0] == [];
  }
}
