/**
 The verification endpoint, `AuthVerify` (src/apiserver/service/auth.go:30-121). The requested
 resources are split into those that name something exact and those that do not, each part is
 authorized as one batch, and both lists of decisions are woven back into request order.
 */
module AuthVerify {
  import opened Common
  import opened Adaptor
  import opened Authorizer
  import opened IamTypes
  import Meta

  datatype ParentLayer = ParentLayer(kind: Meta.Kind, resourceId: int, resourceIdEx: string)

  datatype AuthResource = AuthResource(kind: Meta.Kind, action: Meta.Action, resourceId: int, resourceIdEx: string,
                                       bizId: int, parentLayers: seq<ParentLayer>)

  datatype VerifyResult = VerifyResult(resource: AuthResource, passed: bool)

  // `Crashed` is a run-time panic in one of the two batches.
  datatype Reply = BadRequest | ServerError | Crashed | Verified(results: seq<VerifyResult>)

  function ToItem(l: ParentLayer): Meta.Item {
    Meta.Item(l.kind, Meta.EmptyAction, "", l.resourceId, l.resourceIdEx)
  }

  function ToAttribute(r: AuthResource, owner: string): Meta.ResourceAttribute {
    Meta.ResourceAttribute(r.kind, r.action, "", r.resourceId, r.resourceIdEx, owner, r.bizId,
                           seq(|r.parentLayers|, i requires 0 <= i < |r.parentLayers| => ToItem(r.parentLayers[i])))
  }

  predicate NeedsExact(r: AuthResource) {
    r.resourceId > 0 || r.resourceIdEx != "" || r.bizId > 0 || |r.parentLayers| > 0
  }

  // The resources of one mode, in request order.
  function Part(body: seq<AuthResource>, exact: bool): seq<AuthResource> {
    if body == [] then []
    else Part(body[..|body| - 1], exact) + (if NeedsExact(body[|body| - 1]) == exact then [body[|body| - 1]] else [])
  }

  // How many of the first `i` resources have the mode.
  function Place(body: seq<AuthResource>, exact: bool, i: nat): nat
    requires i <= |body|
  {
    if i == 0 then 0 else Place(body, exact, i - 1) + (if NeedsExact(body[i - 1]) == exact then 1 else 0)
  }

  function Attributes(rs: seq<AuthResource>, owner: string): seq<Meta.ResourceAttribute> {
    seq(|rs|, i requires 0 <= i < |rs| => ToAttribute(rs[i], owner))
  }

  type Server = seq<AuthBatch> -> Result<seq<bool>>

  // What is to happen to a resource of the request.
  type Treat = AuthResource -> Treatment

  function TreatFor(owner: string): Treat {
    r => Classify(ToAttribute(r, owner))
  }

  // One batch, which is not sent at all when there is nothing in it.
  function Decide(rs: seq<AuthResource>, treat: Treat, server: Server): (r: Outcome<seq<bool>>)
    ensures r.Done? ==> |r.value| == |rs|
  {
    if rs == [] then Done([]) else AuthorizeSpec(true, Treated(rs, treat), server)
  }

  lemma {:induction false} PlaceBound(body: seq<AuthResource>, exact: bool, i: nat)
    requires i <= |body|
    ensures Place(body, exact, |body|) == |Part(body, exact)|
    ensures Place(body, exact, i) <= |Part(body, exact)|
    ensures i < |body| && NeedsExact(body[i]) == exact ==>
      Place(body, exact, i) < |Part(body, exact)| && Part(body, exact)[Place(body, exact, i)] == body[i]
  {
    if body != [] {
      var n := |body| - 1;
      PlacePrefix(body, exact, n, n);
      PlaceBound(body[..n], exact, n);
      if i <= n {
        PlacePrefix(body, exact, n, i);
        PlaceBound(body[..n], exact, i);
      }
    }
  }

  lemma {:induction false} PlacePrefix(body: seq<AuthResource>, exact: bool, n: nat, i: nat)
    requires i <= n <= |body|
    ensures Place(body[..n], exact, i) == Place(body, exact, i)
  {
    if i > 0 {
      PlacePrefix(body, exact, n, i - 1);
    }
  }

  // Position `i` takes the decision at its own place in the list of its own mode.
  ghost predicate Woven(body: seq<AuthResource>, exact: seq<bool>, any: seq<bool>, results: seq<VerifyResult>)
    requires |exact| == |Part(body, true)| && |any| == |Part(body, false)|
  {
    && |results| == |body|
    && forall i | 0 <= i < |body| ::
         && results[i].resource == body[i]
         && Place(body, NeedsExact(body[i]), i) < |Part(body, NeedsExact(body[i]))|
         && results[i].passed == (if NeedsExact(body[i]) then exact else any)[Place(body, NeedsExact(body[i]), i)]
  }

  // Position `k` once the decisions of one mode are filled in.
  function Filled(body: seq<AuthResource>, exact: bool, decisions: seq<bool>, k: nat, before: bool): bool
    requires k < |body| && |decisions| == |Part(body, exact)|
  {
    if NeedsExact(body[k]) == exact && Place(body, exact, k) < |decisions| then decisions[Place(body, exact, k)] else before
  }

  // Lines 86-101 and 103-118: the second loop over the request, with a running index into the decisions
  // of one mode.
  method FillIn(body: seq<AuthResource>, exact: bool, decisions: seq<bool>, passed: array<bool>)
    requires passed.Length == |body| && |decisions| == |Part(body, exact)|
    modifies passed
    ensures forall k | 0 <= k < |body| :: passed[k] == Filled(body, exact, decisions, k, old(passed[k]))
  {
    var index := 0;
    for i := 0 to |body|
      invariant index == Place(body, exact, i)
      invariant forall k | 0 <= k < i :: passed[k] == Filled(body, exact, decisions, k, old(passed[k]))
      invariant forall k | i <= k < |body| :: passed[k] == old(passed[k])
    {
      if NeedsExact(body[i]) == exact {
        PlaceIsOk(body, i);
        passed[i] := decisions[index];
        index := index + 1;
      }
    }
  }

  // The running index is in range.
  ghost predicate PlaceOk(body: seq<AuthResource>, i: nat)
    requires i < |body|
  {
    Place(body, NeedsExact(body[i]), i) < |Part(body, NeedsExact(body[i]))|
  }

  lemma PlaceIsOk(body: seq<AuthResource>, i: nat)
    requires i < |body|
    ensures PlaceOk(body, i)
  {
    PlaceBound(body, NeedsExact(body[i]), i);
  }

  method DecideBatch(rs: seq<AuthResource>, owner: string, server: Server) returns (r: Outcome<seq<bool>>)
    ensures r == Decide(rs, TreatFor(owner), server)
  {
    if |rs| > 0 {
      r := AuthorizeBatch(true, Attributes(rs, owner), server);
      assert ClassifyAll(Attributes(rs, owner)) == Treated(rs, TreatFor(owner));
    } else {
      r := Done([]);
    }
  }

  ghost predicate GoodReply(body: seq<AuthResource>, treat: Treat, exactServer: Server, anyServer: Server, reply: Reply) {
    var exact, any := Decide(Part(body, true), treat, exactServer), Decide(Part(body, false), treat, anyServer);
    if exact.Failed? || (exact.Done? && any.Failed?) then reply == ServerError
    else if exact.Panicked? || any.Panicked? then reply == Crashed
    else reply.Verified? && Woven(body, exact.value, any.value, reply.results)
  }

  // `decoded` is the body of the request, unless it cannot be decoded.
  method Verify(enabled: bool, decoded: Result<seq<AuthResource>>, owner: string, exactServer: Server, anyServer: Server)
    returns (reply: Reply)
    ensures !enabled || decoded.Err? ==> reply == BadRequest
    ensures enabled && decoded.Ok? ==>
      reply != BadRequest && GoodReply(decoded.value, TreatFor(owner), exactServer, anyServer, reply)
  {
    if !enabled {
      return BadRequest;
    }
    if decoded.Err? {
      return BadRequest;
    }
    var body := decoded.value;
    var exactPart, anyPart := SplitModes(body);
    var passed := new bool[|body|](_ => false);
    var exact := DecideBatch(exactPart, owner, exactServer);
    match exact {
      case Failed => return ServerError;
      case Panicked => return Crashed;
      case Done(decisions) => FillIn(body, true, decisions, passed);
    }
    var any := DecideBatch(anyPart, owner, anyServer);
    match any {
      case Failed => return ServerError;
      case Panicked => return Crashed;
      case Done(decisions) => FillIn(body, false, decisions, passed);
    }
    FilledIsWoven(body, exact.value, any.value, passed[..]);
    reply := Verified(Results(body, passed[..]));
  }

  function Results(body: seq<AuthResource>, passed: seq<bool>): seq<VerifyResult>
    requires |body| == |passed|
  {
    seq(|body|, i requires 0 <= i < |body| => VerifyResult(body[i], passed[i]))
  }

  lemma FilledIsWoven(body: seq<AuthResource>, exact: seq<bool>, any: seq<bool>, passed: seq<bool>)
    requires |exact| == |Part(body, true)| && |any| == |Part(body, false)| && |passed| == |body|
    requires forall k | 0 <= k < |body| :: passed[k] == Filled(body, false, any, k, Filled(body, true, exact, k, false))
    ensures Woven(body, exact, any, Results(body, passed))
  {
    forall i | 0 <= i < |body|
      ensures Results(body, passed)[i].resource == body[i]
      ensures Place(body, NeedsExact(body[i]), i) < |Part(body, NeedsExact(body[i]))|
      ensures Results(body, passed)[i].passed == (if NeedsExact(body[i]) then exact else any)[Place(body, NeedsExact(body[i]), i)]
    {
      PlaceIsOk(body, i);
    }
  }

  // Each resource of the request is in one part.
  lemma {:induction false} PartsKeepAll(body: seq<AuthResource>)
    ensures multiset(Part(body, true)) + multiset(Part(body, false)) == multiset(body)
  {
    if body != [] {
      var n := |body| - 1;
      PartsKeepAll(body[..n]);
      var more := [body[n]];
      assert body == body[..n] + more;
      assert Part(body, NeedsExact(body[n])) == Part(body[..n], NeedsExact(body[n])) + more;
      assert Part(body, !NeedsExact(body[n])) == Part(body[..n], !NeedsExact(body[n]));
    }
  }

  // It is in the exact one when it names an instance, a business or a layer above, else in the other.
  lemma {:induction false} PartsByFields(body: seq<AuthResource>)
    ensures forall r <- Part(body, true) :: r.resourceId > 0 || |r.resourceIdEx| > 0 || r.bizId > 0 || |r.parentLayers| > 0
    ensures forall r <- Part(body, false) :: r.resourceId <= 0 && r.resourceIdEx == "" && r.bizId <= 0 && r.parentLayers == []
  {
    if body != [] {
      PartsByFields(body[..|body| - 1]);
    }
  }

  // Lines 57-82.
  method SplitModes(body: seq<AuthResource>) returns (exactPart: seq<AuthResource>, anyPart: seq<AuthResource>)
    ensures exactPart == Part(body, true) && anyPart == Part(body, false)
    ensures multiset(exactPart) + multiset(anyPart) == multiset(body)
    ensures forall r <- exactPart :: r.resourceId > 0 || |r.resourceIdEx| > 0 || r.bizId > 0 || |r.parentLayers| > 0
    ensures forall r <- anyPart :: r.resourceId <= 0 && r.resourceIdEx == "" && r.bizId <= 0 && r.parentLayers == []
  {
    exactPart, anyPart := [], [];
    for i := 0 to |body|
      invariant exactPart == Part(body[..i], true) && anyPart == Part(body[..i], false)
    {
      assert body[..i + 1][..i] == body[..i];
      if NeedsExact(body[i]) {
        exactPart := exactPart + [body[i]];
      } else {
        anyPart := anyPart + [body[i]];
      }
    }
    assert body[..|body|] == body;
    PartsKeepAll(body);
    PartsByFields(body);
  }

  /******* Every position gets its own verdict *******/

  lemma DecidePointwise(rs: seq<AuthResource>, treat: Treat, server: Server, verdict: AuthBatch -> bool)
    requires Positional(server, verdict)
    ensures !Decide(rs, treat, server).Panicked?
    ensures Decide(rs, treat, server).Done? ==>
      forall i | 0 <= i < |rs| ::
        !treat(rs[i]).Refuse? && Decide(rs, treat, server).value[i] == PointVerdict(treat(rs[i]), verdict)
  {
    BatchRefinesPointwise(Treated(rs, treat), server, verdict);
    assert forall i | 0 <= i < |rs| :: Treated(rs, treat)[i] == treat(rs[i]);
  }

  // Against servers that answer position by position the endpoint never panics, and a successful reply
  // repeats the request in order, each resource with the verdict of its own mode on itself alone.
  lemma EachOwnVerdict(body: seq<AuthResource>, treat: Treat, exactServer: Server, anyServer: Server,
                       exactVerdict: AuthBatch -> bool, anyVerdict: AuthBatch -> bool, reply: Reply)
    requires Positional(exactServer, exactVerdict) && Positional(anyServer, anyVerdict)
    requires GoodReply(body, treat, exactServer, anyServer, reply)
    ensures reply == ServerError || reply.Verified?
    ensures reply.Verified? ==>
      && |reply.results| == |body|
      && forall i | 0 <= i < |body| ::
           && reply.results[i].resource == body[i] && !treat(body[i]).Refuse?
           && reply.results[i].passed
              == PointVerdict(treat(body[i]),
                              if body[i].resourceId > 0 || body[i].resourceIdEx != "" || body[i].bizId > 0 || |body[i].parentLayers| > 0
                              then exactVerdict else anyVerdict)
  {
    DecidePointwise(Part(body, true), treat, exactServer, exactVerdict);
    DecidePointwise(Part(body, false), treat, anyServer, anyVerdict);
    forall i | 0 <= i < |body|
      ensures PlaceOk(body, i) && Part(body, NeedsExact(body[i]))[Place(body, NeedsExact(body[i]), i)] == body[i]
    {
      PlaceBound(body, NeedsExact(body[i]), i);
    }
  }

  // The same in the terms of a request: `a` carries what resource `i` says, under the account of the user.
  // The exact server decides when the resource names an instance, a business or a layer above, and the
  // other one when it names none of these.
  lemma VerdictByFields(body: seq<AuthResource>, owner: string, exactServer: Server, anyServer: Server,
                        exactVerdict: AuthBatch -> bool, anyVerdict: AuthBatch -> bool, reply: Reply,
                        i: nat, a: Meta.ResourceAttribute)
    requires Positional(exactServer, exactVerdict) && Positional(anyServer, anyVerdict)
    requires GoodReply(body, TreatFor(owner), exactServer, anyServer, reply) && reply.Verified?
    requires i < |body|
    requires a.kind == body[i].kind && a.action == body[i].action && a.name == "" && a.instanceId == body[i].resourceId
    requires a.instanceIdEx == body[i].resourceIdEx && a.supplierAccount == owner && a.businessId == body[i].bizId
    requires |a.layers| == |body[i].parentLayers|
    requires forall j | 0 <= j < |a.layers| ::
      && a.layers[j].kind == body[i].parentLayers[j].kind && a.layers[j].action == Meta.EmptyAction && a.layers[j].name == ""
      && a.layers[j].instanceId == body[i].parentLayers[j].resourceId
      && a.layers[j].instanceIdEx == body[i].parentLayers[j].resourceIdEx
    ensures |reply.results| == |body| && reply.results[i].resource == body[i]
    ensures a.action.SkipAction? || Adapt(a).Ok?
    ensures a.action.SkipAction? || Adapt(a).value.0 == Skip ==> reply.results[i].passed
    ensures !a.action.SkipAction? && Adapt(a).value.0 != Skip ==>
      var item := AuthBatch(Adapt(a).value.0, Adapt(a).value.1);
      && (body[i].resourceId > 0 || |body[i].resourceIdEx| > 0 || body[i].bizId > 0 || |body[i].parentLayers| > 0 ==>
            reply.results[i].passed == exactVerdict(item))
      && (body[i].resourceId <= 0 && body[i].resourceIdEx == "" && body[i].bizId <= 0 && body[i].parentLayers == [] ==>
            reply.results[i].passed == anyVerdict(item))
  {
    EachOwnVerdict(body, TreatFor(owner), exactServer, anyServer, exactVerdict, anyVerdict, reply);
    assert a.layers == ToAttribute(body[i], owner).layers;
    assert a == ToAttribute(body[i], owner);
  }

  // The request fails exactly when a resource cannot be adapted or a server that has to be asked does not answer.
  lemma FailsExactlyWhen(body: seq<AuthResource>, owner: string, exactServer: Server, anyServer: Server,
                         exactVerdict: AuthBatch -> bool, anyVerdict: AuthBatch -> bool, reply: Reply)
    requires Positional(exactServer, exactVerdict) && Positional(anyServer, anyVerdict)
    requires GoodReply(body, TreatFor(owner), exactServer, anyServer, reply)
    ensures reply == ServerError <==>
      || (exists r <- body :: !r.action.SkipAction? && Adapt(ToAttribute(r, owner)).Err?)
      || Unanswered(Attributes(Part(body, true), owner), exactServer)
      || Unanswered(Attributes(Part(body, false), owner), anyServer)
  {
    DecidePointwise(Part(body, true), TreatFor(owner), exactServer, exactVerdict);
    DecidePointwise(Part(body, false), TreatFor(owner), anyServer, anyVerdict);
    DecideFails(Part(body, true), owner, exactServer);
    DecideFails(Part(body, false), owner, anyServer);
    PartsKeepAll(body);
    forall r
      ensures r in body <==> r in Part(body, true) || r in Part(body, false)
    {
      assert r in multiset(body) <==> r in multiset(Part(body, true)) || r in multiset(Part(body, false));
    }
  }

  lemma DecideFails(rs: seq<AuthResource>, owner: string, server: Server)
    ensures Decide(rs, TreatFor(owner), server) == Failed <==>
      || (exists r <- rs :: !r.action.SkipAction? && Adapt(ToAttribute(r, owner)).Err?)
      || Unanswered(Attributes(rs, owner), server)
  {
    var attributes := Attributes(rs, owner);
    FailsExactly(attributes, server);
    assert ClassifyAll(attributes) == Treated(rs, TreatFor(owner));
    forall r | r in rs
      ensures ToAttribute(r, owner) in attributes
    {
      var i :| 0 <= i < |rs| && rs[i] == r;
      assert attributes[i] == ToAttribute(r, owner);
    }
    forall a | a in attributes
      ensures exists r <- rs :: ToAttribute(r, owner) == a
    {
      var i :| 0 <= i < |attributes| && attributes[i] == a;
      assert rs[i] in rs;
    }
  }
}
