/** Table-driven attribute parsing (src/ac/parser/framework.go). */
module Framework {
  import opened Common
  import opened Text
  import Meta

  // `user` and `owner` are the two headers the chain reads.
  datatype RequestContext = RequestContext(verb: string, uri: string, elements: seq<string>, user: string, owner: string)

  // One row of a table. A getter stands for a closure of the source; it may fail.
  datatype AuthConfig = AuthConfig(
    verb: string, matches: string -> bool, kind: Meta.Kind, action: Meta.Action,
    bizGetter: Option<(RequestContext, nat) -> Result<int>>, bizIndex: nat,
    idGetter: Option<RequestContext -> Result<seq<int>>>)
  {
    predicate Match(request: RequestContext) {
      verb == request.verb && matches(request.uri)
    }

    function BizId(request: RequestContext): Result<int> {
      match bizGetter
      case None => Ok(0)
      case Some(getter) => getter(request, bizIndex)
    }

    function Attribute(bizId: int, instanceId: int): Meta.ResourceAttribute {
      Meta.ResourceAttribute(kind, action, "", instanceId, "", "", bizId, [])
    }

    // What the row yields for a request it matches.
    function Generate(request: RequestContext): Result<seq<Meta.ResourceAttribute>> {
      match BizId(request)
      case Err => Err
      case Ok(bizId) =>
        match idGetter
        case None => Ok([Attribute(bizId, 0)])
        case Some(getter) =>
          match getter(request)
          case Err => Err
          case Ok(ids) => Ok(seq(|ids|, i requires 0 <= i < |ids| => Attribute(bizId, ids[i])))
    }
  }

  // BizIDFromURLGetter
  function BizIdFromUrl(request: RequestContext, index: nat): Result<int> {
    if |request.elements| <= index then Err
    else
      match ParseInt(request.elements[index])
      case None => Err
      case Some(id) => Ok(id)
  }

  // The first row that matches decides; later rows are never looked at.
  ghost predicate FirstMatch(configs: seq<AuthConfig>, request: RequestContext, i: nat) {
    && i < |configs| && configs[i].verb == request.verb && configs[i].matches(request.uri)
    && forall j | 0 <= j < i :: configs[j].verb != request.verb || !configs[j].matches(request.uri)
  }

  // `None` is the nil slice of a table without a matching row.
  method MatchAndGenerateIAMResource(configs: seq<AuthConfig>, request: RequestContext)
    returns (r: Result<Option<seq<Meta.ResourceAttribute>>>)
    ensures r == TableResult(configs, request)
  {
    for n := 0 to |configs|
      invariant TableResult(configs, request) == TableResult(configs[n..], request)
    {
      var item := configs[n];
      assert configs[n..][1..] == configs[n + 1..];
      if !item.Match(request) {
        continue;
      }
      var bizId := item.BizId(request);
      if bizId.Err? {
        return Err;
      }
      var resources: seq<Meta.ResourceAttribute> := [];
      match item.idGetter {
        case None =>
          resources := [item.Attribute(bizId.value, 0)];
        case Some(getter) =>
          var ids := getter(request);
          if ids.Err? {
            return Err;
          }
          for i := 0 to |ids.value|
            invariant |resources| == i
            invariant forall k | 0 <= k < i :: resources[k] == item.Attribute(bizId.value, ids.value[k])
          {
            resources := resources + [item.Attribute(bizId.value, ids.value[i])];
          }
          assert resources == seq(|ids.value|, i requires 0 <= i < |ids.value| => item.Attribute(bizId.value, ids.value[i]));
      }
      assert item.Generate(request) == Ok(resources);
      return Ok(Some(resources));
    }
    return Ok(None);
  }

  function TableResult(configs: seq<AuthConfig>, request: RequestContext): Result<Option<seq<Meta.ResourceAttribute>>> {
    if configs == [] then Ok(None)
    else if configs[0].Match(request) then
      match configs[0].Generate(request)
      case Err => Err
      case Ok(resources) => Ok(Some(resources))
    else TableResult(configs[1..], request)
  }

  // The getters of the row answer.
  ghost predicate GettersAnswer(row: AuthConfig, request: RequestContext) {
    && (row.bizGetter.Some? ==> row.bizGetter.value(request, row.bizIndex).Ok?)
    && (row.idGetter.Some? ==> row.idGetter.value(request).Ok?)
  }

  // The resource names what the row is about, in the business that its getter found, or in none.
  ghost predicate IsAbout(row: AuthConfig, request: RequestContext, r: Meta.ResourceAttribute, instanceId: int) {
    && r.kind == row.kind && r.action == row.action && r.instanceId == instanceId && r.layers == []
    && r.name == r.instanceIdEx == r.supplierAccount == ""
    && match row.bizGetter
       case None => r.businessId == 0
       case Some(getter) => getter(request, row.bizIndex) == Ok(r.businessId)
  }

  // The first matching row decides alone: an error exactly when one of its getters fails, else one
  // resource for each of its ids, in order, or a single one without an id.
  lemma {:induction false} FirstRowDecides(configs: seq<AuthConfig>, request: RequestContext, i: nat)
    requires FirstMatch(configs, request, i)
    ensures TableResult(configs, request).Ok? <==> GettersAnswer(configs[i], request)
    ensures TableResult(configs, request).Ok? ==>
      && TableResult(configs, request).value.Some?
      && var rs := TableResult(configs, request).value.value;
         match configs[i].idGetter
         case None => |rs| == 1 && IsAbout(configs[i], request, rs[0], 0)
         case Some(getter) =>
           && getter(request).Ok? && |rs| == |getter(request).value|
           && forall k | 0 <= k < |rs| :: IsAbout(configs[i], request, rs[k], getter(request).value[k])
  {
    if i > 0 {
      var rest := configs[1..];
      forall j | 0 <= j < i - 1
        ensures rest[j].verb != request.verb || !rest[j].matches(request.uri)
      {
        assert rest[j] == configs[j + 1];
      }
      FirstRowDecides(rest, request, i - 1);
    }
  }

  // ... and with nothing exactly when no row matches.
  lemma {:induction false} NoRowNoResult(configs: seq<AuthConfig>, request: RequestContext)
    ensures TableResult(configs, request) == Ok(None) <==>
      forall i | 0 <= i < |configs| :: configs[i].verb != request.verb || !configs[i].matches(request.uri)
  {
    if configs != [] {
      var rest := configs[1..];
      NoRowNoResult(rest, request);
      if !configs[0].Match(request) {
        assert forall i | 0 < i < |configs| :: configs[i] == rest[i - 1];
        assert forall i | 0 <= i < |rest| :: rest[i] == configs[i + 1];
      }
    }
  }
}
