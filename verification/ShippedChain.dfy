/**
 The chain over the patterns that the code ships. In the groups that mix handlers written by hand with a
 table (src/ac/parser/host.go:18-32, topolatest.go:35-53), and in those with several tables, no table
 matches a path on which an earlier handler of the group fires. So the whole chain is a search for the
 first handler that fires.
 */
module ShippedChain {
  import opened Common
  import opened Text
  import opened Framework
  import opened ParseChain
  import opened ChainTheorems
  import opened UriRows
  import opened RouteTables

  /******* What the handlers written by hand look for *******/

  // The beginning that the patterns of a handler have in common: /api/v3/<word>, or /api/v3/<verb>/<word>
  // for any verb.
  datatype Head = Third(word: Word) | Fourth(word: Word)

  const HOSTS: Word := "hosts"
  const HOST: Word := "host"
  const SYSTEM: Word := "system"
  const MODULE_RELATION: Word := "module_relation"
  const DYNAMICGROUP: Word := "dynamicgroup"
  const USERCUSTOM: Word := "usercustom"
  const IDENTIFIER: Word := "identifier"
  const OBJECTUNIQUE: Word := "objectunique"
  const ASSOCIATIONTYPE: Word := "associationtype"
  const OBJECTASSOCIATION: Word := "objectassociation"
  const TOPOASSOCIATIONTYPE: Word := "topoassociationtype"
  const INSTASSOCIATION: Word := "instassociation"
  const INST: Word := "inst"
  const INSTANCE: Word := "instance"
  const INSTTOPO: Word := "insttopo"
  const INSTASSTTOPO: Word := "instassttopo"
  const OBJECT: Word := "object"
  const OBJECTTOPOLOGY: Word := "objecttopology"
  const OBJECTTOPO: Word := "objecttopo"
  const OBJECTCLASSIFICATION: Word := "objectclassification"
  const CLASSIFICATIONOBJECT: Word := "classificationobject"
  const OBJECTATTGROUP: Word := "objectattgroup"
  const OBJECTATTR: Word := "objectattr"
  const TOPOMODELMAINLINE: Word := "topomodelmainline"
  const TOPOINST: Word := "topoinst"
  const TOPOPATH: Word := "topopath"
  const TOPOINST_WITH_STATISTICS: Word := "topoinst_with_statistics"

  // For the handlers of the two mixed groups.
  function HeadsOf(c: CustomHandler): seq<Head> {
    match c
    case HostHandler => [Third(HOSTS), Third(HOST), Third(SYSTEM), Fourth(HOSTS), Fourth(MODULE_RELATION)]
    case HostTransfer => [Third(HOSTS), Third(HOST)]
    case DynamicGrouping => [Third(DYNAMICGROUP)]
    case UserCustom => [Third(USERCUSTOM)]
    case HostFavorite => [Third(HOSTS)]
    case HostSnapshot => [Third(HOSTS)]
    case FindObjectIdentifier => [Third(IDENTIFIER)]
    case ObjectUniqueLatest => [Fourth(OBJECTUNIQUE)]
    case AssociationTypeLatest => [Fourth(ASSOCIATIONTYPE)]
    case ObjectAssociationLatest => [Fourth(OBJECTASSOCIATION), Fourth(TOPOASSOCIATIONTYPE)]
    case ObjectInstanceAssociationLatest => [Fourth(INSTASSOCIATION), Fourth(INST)]
    case ObjectInstanceLatest => [Fourth(INSTANCE), Fourth(INSTASSOCIATION), Fourth(INSTTOPO), Fourth(INSTASSTTOPO), Fourth(OBJECT)]
    case ObjectLatest => [Fourth(OBJECT), Fourth(OBJECTTOPOLOGY), Fourth(OBJECTTOPO)]
    case ObjectClassificationLatest => [Fourth(OBJECTCLASSIFICATION), Fourth(CLASSIFICATIONOBJECT)]
    case ObjectAttributeGroupLatest => [Fourth(OBJECTATTGROUP)]
    case ObjectAttributeLatest => [Fourth(OBJECTATTR)]
    case MainlineLatest => [Fourth(TOPOMODELMAINLINE), Fourth(TOPOINST), Fourth(TOPOPATH), Fourth(TOPOINST_WITH_STATISTICS)]
    case _ => []
  }

  // The words stand next to each other somewhere in the path: two patterns of host.go lack the ^, so the
  // beginning of a path is left open for all of them.
  ghost predicate Within(uri: string, words: seq<string>) {
    exists prefix: string :: Begins(uri, prefix + Path(words))
  }

  // The path is the text, or goes on behind it with a slash.
  ghost predicate Begins(uri: string, text: string) {
    text <= uri && (uri == text || uri[|text|] == '/')
  }

  ghost predicate HeadHolds(h: Head, uri: string) {
    match h
    case Third(word) => Within(uri, ["api", "v3", word])
    case Fourth(word) => exists verb: string :: verb != "" && Free(verb, '/') && Within(uri, ["api", "v3", verb, word])
  }

  // A handler of a mixed group does nothing to a path with none of its heads.
  ghost predicate HasHeads(hs: Handlers, uri: string, c: CustomHandler) {
    hs.custom(c).Busy() ==> exists h :: h in HeadsOf(c) && HeadHolds(h, uri)
  }

  /******* A head and a row do not share a path *******/

  lemma WithinSplits(uri: string, words: seq<string>) returns (before: seq<string>, after: seq<string>)
    requires Segments(words) && Within(uri, words)
    ensures before != [] && Split(uri, '/') == before + words + after
  {
    var prefix: string :| Begins(uri, prefix + Path(words));
    var text := prefix + Path(words);
    SplitEnds(prefix, words);
    before := Split(prefix, '/');
    if uri == text {
      after := [];
    } else {
      var rest := uri[|text| + 1..];
      after := Split(rest, '/');
      SplitAt(text, '/', rest);
      assert uri == text + ['/'] + rest;
    }
  }

  // "api" is at the start of the path that an anchored row reads, and nowhere else, so the words are its
  // first ones.
  lemma WordsAreFirst(row: Row, t: TableHandler, uri: string, parts: seq<string>, words: seq<string>)
    requires RowOk(row, t) && row.anchored && Reads(row, uri, parts)
    requires Segments(words) && words[0] == "api" && |words| <= 4 && Within(uri, words)
    ensures words <= parts
  {
    PartsArePlain(row, t, uri, parts);
    AnchoredSpells(row, uri, parts);
    ElementsOfPath(uri, parts);
    var before, after := WithinSplits(uri, words);
    PathStartsEmpty(uri, parts);
    var pieces := Split(uri, '/');
    var j := |before|;
    assert pieces[j] == words[0] == "api";
    assert pieces[1..] == Elements(uri);
    assert Elements(uri)[j - 1] == "api";
    assert Elements(uri)[..|parts|] == parts;
    assert j == 1;
    assert Elements(uri)[..|words|] == words;
  }

  lemma PathStartsEmpty(uri: string, parts: seq<string>)
    requires Segments(parts) && Spells(uri, parts)
    ensures Split(uri, '/') == [""] + Elements(uri)
  {
    SplitFree("", '/');
    SplitAt("", '/', uri[1..]);
    assert uri == "" + ['/'] + uri[1..];
  }

  predicate InHostGroup(c: CustomHandler) {
    c.HostHandler? || c.HostTransfer? || c.DynamicGrouping? || c.UserCustom? || c.HostFavorite? || c.HostSnapshot?
    || c.FindObjectIdentifier?
  }

  predicate InTopologyGroup(c: CustomHandler) {
    c.ObjectUniqueLatest? || c.AssociationTypeLatest? || c.ObjectAssociationLatest? || c.ObjectInstanceAssociationLatest?
    || c.ObjectInstanceLatest? || c.ObjectLatest? || c.ObjectClassificationLatest? || c.ObjectAttributeGroupLatest?
    || c.ObjectAttributeLatest? || c.MainlineLatest?
  }

  lemma HostHeads(c: CustomHandler, h: Head)
    requires InHostGroup(c) && h in HeadsOf(c)
    ensures match h
      case Third(word) => !IsVerb(word)
      case Fourth(word) => word != HOST_APPLY_RULE && word != HOST_APPLY_PLAN
  {
  }

  lemma TopologyHeads(c: CustomHandler, h: Head)
    requires InTopologyGroup(c) && h in HeadsOf(c)
    ensures h.Fourth? && h.word != TOPO
  {
  }

  // A head of a path that an anchored row reads is what the row reads in its place.
  lemma HeadIsRead(h: Head, row: Row, t: TableHandler, uri: string, parts: seq<string>)
    requires RowOk(row, t) && row.anchored && Reads(row, uri, parts) && HeadHolds(h, uri)
    ensures (if h.Third? then parts[2] else parts[3]) == h.word
  {
    match h
    case Third(word) =>
      WordsAreFirst(row, t, uri, parts, ["api", "v3", word]);
    case Fourth(word) =>
      var verb: string :| verb != "" && Free(verb, '/') && Within(uri, ["api", "v3", verb, word]);
      WordsAreFirst(row, t, uri, parts, ["api", "v3", verb, word]);
  }

  // A head of the host group is on no path of host apply ...
  lemma NoHeadOnApplyPath(c: CustomHandler, h: Head, row: Row, uri: string, parts: seq<string>)
    requires InHostGroup(c) && h in HeadsOf(c) && row.anchored
    requires RowOk(row, HostApply) && Reads(row, uri, parts)
    ensures !HeadHolds(h, uri)
  {
    HostHeads(c, h);
    PartsArePlain(row, HostApply, uri, parts);
    assert Fits(row.segments[2], parts[2]);
    if HeadHolds(h, uri) {
      HeadIsRead(h, row, HostApply, uri, parts);
    }
  }

  // ... and one of the topology group on no path of set templates.
  lemma NoHeadOnTemplatePath(c: CustomHandler, h: Head, row: Row, uri: string, parts: seq<string>)
    requires InTopologyGroup(c) && h in HeadsOf(c) && row.anchored
    requires RowOk(row, SetTemplate) && Reads(row, uri, parts)
    ensures !HeadHolds(h, uri)
  {
    TopologyHeads(c, h);
    PartsArePlain(row, SetTemplate, uri, parts);
    if HeadHolds(h, uri) {
      HeadIsRead(h, row, SetTemplate, uri, parts);
    }
  }

  /******* The chain *******/

  // The handlers are the shipped ones: whatever a table matches, one of its rows reads, and a handler
  // written by hand in a mixed group stays silent on paths with none of its heads.
  ghost predicate Shipped(hs: Handlers, uri: string) {
    && (forall t: TableHandler :: t != ConfigAdmin ==> HasRows(hs, t))
    && (forall c: CustomHandler :: InHostGroup(c) || InTopologyGroup(c) ==> HasHeads(hs, uri, c))
  }

  // The handlers' tables have the rows of `RowsOf`.
  ghost predicate HasRows(hs: Handlers, t: TableHandler) {
    forall config, uri | config in hs.tables(t) && config.matches(uri) ::
      exists row, parts :: row in RowsOf(t) && Reads(row, uri, parts)
  }

  lemma SpeakingReads(hs: Handlers, request: RequestContext, t: TableHandler) returns (row: Row, parts: seq<string>)
    requires HasRows(hs, t) && Speaks(hs, request, Table(t))
    ensures row in RowsOf(t) && Reads(row, request.uri, parts)
  {
    NoRowNoResult(hs.tables(t), request);
    var i :| 0 <= i < |hs.tables(t)| && hs.tables(t)[i].verb == request.verb && hs.tables(t)[i].matches(request.uri);
    assert hs.tables(t)[i] in hs.tables(t);
    row, parts :| row in RowsOf(t) && Reads(row, request.uri, parts);
  }

  // No two tables speak up on one request.
  lemma OneSpeaker(hs: Handlers, request: RequestContext, t1: TableHandler, t2: TableHandler)
    requires HasRows(hs, t1) && HasRows(hs, t2) && Speaks(hs, request, Table(t1)) && Speaks(hs, request, Table(t2))
    ensures t1 == t2
  {
    var r1, p1 := SpeakingReads(hs, request, t1);
    var r2, p2 := SpeakingReads(hs, request, t2);
    OneTableOnly(r1, t1, p1, r2, t2, p2, request.uri);
  }

  lemma HostGroupApart(hs: Handlers, request: RequestContext, c: CustomHandler)
    requires Shipped(hs, request.uri) && InHostGroup(c) && hs.custom(c).Busy()
    ensures !Speaks(hs, request, Table(HostApply))
  {
    var h :| h in HeadsOf(c) && HeadHolds(h, request.uri);
    if Speaks(hs, request, Table(HostApply)) {
      var row, parts := SpeakingReads(hs, request, HostApply);
      AnchoredTables(row);
      NoHeadOnApplyPath(c, h, row, request.uri, parts);
    }
  }

  lemma TopologyGroupApart(hs: Handlers, request: RequestContext, c: CustomHandler)
    requires Shipped(hs, request.uri) && InTopologyGroup(c) && hs.custom(c).Busy()
    ensures !Speaks(hs, request, Table(SetTemplate))
  {
    var h :| h in HeadsOf(c) && HeadHolds(h, request.uri);
    if Speaks(hs, request, Table(SetTemplate)) {
      var row, parts := SpeakingReads(hs, request, SetTemplate);
      AnchoredTables(row);
      NoHeadOnTemplatePath(c, h, row, request.uri, parts);
    }
  }

  lemma AnchoredTables(row: Row)
    requires row in RowsOf(HostApply) || row in RowsOf(SetTemplate)
    ensures row.anchored
  {
  }

  // Once a handler of a group has fired, no later table of the group speaks up.
  lemma GroupsUndisturbed(hs: Handlers, request: RequestContext, g: nat)
    requires Shipped(hs, request.uri) && g < |Groups()|
    ensures Undisturbed(hs, request, Groups()[g])
  {
    var group := Groups()[g];
    forall p, q | 0 <= p < q < |group| && Fires(hs, request, group[p])
      ensures !Speaks(hs, request, group[q])
    {
      if Speaks(hs, request, group[q]) {
        LaterTables(g, p, q);
        if group[p].Table? {
          OneSpeaker(hs, request, group[p].table, group[q].table);
        } else if InHostGroup(group[p].custom) {
          HostGroupApart(hs, request, group[p].custom);
        } else {
          TopologyGroupApart(hs, request, group[p].custom);
        }
      }
    }
  }

  // What stands before a table in its group.
  lemma LaterTables(g: nat, p: nat, q: nat)
    requires g < |Groups()| && p < q < |Groups()[g]| && Groups()[g][q].Table?
    ensures
      var (earlier, later) := (Groups()[g][p], Groups()[g][q].table);
      && later != ConfigAdmin
      && match earlier
         case Table(t) => t != later && t != ConfigAdmin
         case Custom(c) => (later == HostApply && InHostGroup(c)) || (later == SetTemplate && InTopologyGroup(c))
  {
  }

  // For every request the shipped chain is a search for the first handler that fires, over all groups.
  lemma ShippedParseIsFirstFire(hs: Handlers, request: RequestContext)
    requires HeaderOk(request) && Shipped(hs, request.uri)
    ensures
      var first := FirstFire(hs, request, Flatten(Groups()));
      ParseSpec(hs, request) == if first.err || first.resources == [] then Err
                                else Ok(AuthAttribute(request.user, request.owner, WithSupplier(first.resources, request.owner)))
  {
    forall group | group in Groups()
      ensures Undisturbed(hs, request, group)
    {
      var g :| 0 <= g < |Groups()| && Groups()[g] == group;
      GroupsUndisturbed(hs, request, g);
    }
    ParseIsFirstFire(hs, request);
  }

  // In the terms of a request: with both words of the path and both headers in place, the handlers before
  // number `k` silent and that one not, its error fails the parse and its resources are the answer, under
  // the supplier account of the header.
  lemma FirstHitAnswers(hs: Handlers, request: RequestContext, k: nat)
    requires |request.elements| >= 3 && request.elements[0] == "api" && request.elements[1] == "v3"
    requires request.user != "" && request.owner != "" && Shipped(hs, request.uri)
    requires k < |Flatten(Groups())| && !Silent(hs, request, Flatten(Groups())[k])
    requires forall j | 0 <= j < k :: Silent(hs, request, Flatten(Groups())[j])
    ensures
      var h, r := Flatten(Groups())[k], ParseSpec(hs, request);
      && (h.Custom? ==>
            if hs.custom(h.custom).err then r == Err else Answers(r, request, hs.custom(h.custom).resources))
      && (h.Table? ==>
            var found := TableResult(hs.tables(h.table), request);
            if found.Err? then r == Err else found.value.Some? && Answers(r, request, found.value.value))
  {
    ShippedParseIsFirstFire(hs, request);
    HitAnswers(hs, request, Flatten(Groups()), k);
  }

  // What becomes of the outcome of a search.
  function Reported(first: State, request: RequestContext): Result<AuthAttribute> {
    if first.err || first.resources == [] then Err
    else Ok(AuthAttribute(request.user, request.owner, WithSupplier(first.resources, request.owner)))
  }

  lemma HitAnswers(hs: Handlers, request: RequestContext, handlers: seq<Handler>, k: nat)
    requires k < |handlers| && !Silent(hs, request, handlers[k])
    requires forall j | 0 <= j < k :: Silent(hs, request, handlers[j])
    ensures
      var h, r := handlers[k], Reported(FirstFire(hs, request, handlers), request);
      && (h.Custom? ==>
            if hs.custom(h.custom).err then r == Err else Answers(r, request, hs.custom(h.custom).resources))
      && (h.Table? ==>
            var found := TableResult(hs.tables(h.table), request);
            if found.Err? then r == Err else found.value.Some? && Answers(r, request, found.value.value))
  {
    FirstHitDecides(hs, request, handlers, k);
  }

  // The answer names the user and the account, and has the resources in order, all else about them kept.
  ghost predicate Answers(r: Result<AuthAttribute>, request: RequestContext, resources: Resources) {
    && r.Ok? && r.value.user == request.user && r.value.supplier == request.owner
    && |r.value.resources| == |resources|
    && forall i | 0 <= i < |resources| :: SameButAccount(r.value.resources[i], resources[i], request.owner)
  }

  // A request on which every handler is silent is refused.
  lemma AllSilentFails(hs: Handlers, request: RequestContext)
    requires Shipped(hs, request.uri) && forall h <- Flatten(Groups()) :: Silent(hs, request, h)
    ensures ParseSpec(hs, request) == Err
  {
    if HeaderOk(request) {
      ShippedParseIsFirstFire(hs, request);
      NoHitNoResult(hs, request, Flatten(Groups()));
    }
  }
}
