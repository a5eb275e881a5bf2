/**
 The gateway's permission check, `authFilter` (src/apiserver/service/filter.go:136-230) over
 `ParseAttribute` (src/ac/parser/parser.go:30-59): parse the request into resources, authorize them as
 one batch, and forward the request only when every decision is positive.
 */
module Gate {
  import opened Common
  import opened Framework
  import opened ParseChain
  import opened ChainTheorems
  import opened UriRows
  import opened Authorizer
  import Meta

  // `CheckFailed` also answers a failing lookup of the permissions to apply for.
  datatype GateReply = Forwarded | ParseFailed | CheckFailed | NoPermission | Crashed

  datatype Request = Request(verb: string, path: string, user: string, owner: string)

  function ContextOf(request: Request): RequestContext {
    RequestContext(request.verb, request.path, if IsApi(request.path) then Elements(request.path) else [],
                   request.user, request.owner)
  }

  // What the request is about, by the chain of handlers `hs`.
  function Attributes(hs: Handlers, request: Request): Result<AuthAttribute> {
    if IsApi(request.path) then ParseSpec(hs, ContextOf(request)) else Err
  }

  method ParseAttribute(hs: Handlers, request: Request) returns (r: Result<AuthAttribute>)
    ensures r == Attributes(hs, request)
  {
    var elements := UrlParse(request.path);
    if elements.Err? {
      return Err;
    }
    UrlParseIsRegex(request.path);
    var stream := new ParseStream(ContextOf(request));
    r := stream.Parse(hs);
  }

  type Server = seq<AuthBatch> -> Result<seq<bool>>

  predicate AllAuthorized(decisions: seq<bool>) {
    forall d <- decisions :: d
  }

  method AuthFilter(enabled: bool, hs: Handlers, request: Request, server: Server, lookup: Resources -> Result<()>)
    returns (reply: GateReply)
    ensures !enabled ==> reply == Forwarded
    ensures request.path in ["/api/v3/auth/verify", "/api/v3/auth/business_list", "/api/v3/auth/skip_url"] ==> reply == Forwarded
    ensures enabled && request.path !in ["/api/v3/auth/verify", "/api/v3/auth/business_list", "/api/v3/auth/skip_url"] ==>
      GoodReply(Attributes(hs, request), Classifier(), server, lookup, reply)
  {
    if !enabled {
      return Forwarded;
    }
    if request.path == "/api/v3/auth/verify" {
      return Forwarded;
    }
    if request.path == "/api/v3/auth/business_list" {
      return Forwarded;
    }
    if request.path == "/api/v3/auth/skip_url" {
      return Forwarded;
    }
    var attribute := ParseAttribute(hs, request);
    if attribute.Err? {
      return ParseFailed;
    }
    var decisions := AuthorizeBatch(true, attribute.value.resources, server);
    reply := Decide(decisions, lookup, attribute.value.resources);
  }

  // From the decisions on.
  method Decide(decisions: Outcome<seq<bool>>, lookup: Resources -> Result<()>, resources: Resources) returns (reply: GateReply)
    ensures reply == ReplyTo(decisions, lookup(resources))
  {
    if decisions.Failed? {
      return CheckFailed;
    } else if decisions.Panicked? {
      return Crashed;
    }
    var authorized := true;
    for i := 0 to |decisions.value|
      invariant authorized && AllAuthorized(decisions.value[..i])
    {
      if !decisions.value[i] {
        assert decisions.value[i] in decisions.value;
        authorized := false;
        break;
      }
      assert decisions.value[..i + 1] == decisions.value[..i] + [decisions.value[i]];
    }
    if !authorized {
      var permission := lookup(resources);
      if permission.Err? {
        return CheckFailed;
      }
      return NoPermission;
    }
    assert decisions.value[..|decisions.value|] == decisions.value;
    return Forwarded;
  }

  function ReplyTo(decisions: Outcome<seq<bool>>, permission: Result<()>): GateReply {
    match decisions
    case Failed => CheckFailed
    case Panicked => Crashed
    case Done(ds) =>
      if AllAuthorized(ds) then Forwarded
      else if permission.Err? then CheckFailed else NoPermission
  }

  // What is to happen to a resource.
  type Treat = Meta.ResourceAttribute -> Treatment

  ghost predicate GoodReply(a: Result<AuthAttribute>, treat: Treat, server: Server, lookup: Resources -> Result<()>, reply: GateReply) {
    match a
    case Err => reply == ParseFailed
    case Ok(attribute) =>
      reply == ReplyTo(AuthorizeSpec(true, Treated(attribute.resources, treat), server), lookup(attribute.resources))
  }

  // A resource that the server does not refuse when asked about it alone.
  ghost predicate Deserves(resource: Meta.ResourceAttribute, treat: Treat, verdict: AuthBatch -> bool) {
    !treat(resource).Refuse? && PointVerdict(treat(resource), verdict)
  }

  // The server was not needed, or it answered.
  predicate Answered(ts: seq<Treatment>, server: Server) {
    Batch(ts) == [] || server(Batch(ts)).Ok?
  }

  // Against a server that answers position by position the filter never crashes, and a request goes
  // through exactly when it parses, the server answers, and every resource of it would be let through
  // alone.
  lemma ForwardsExactlyTheDeserving(a: Result<AuthAttribute>, treat: Treat, server: Server, verdict: AuthBatch -> bool,
                                    lookup: Resources -> Result<()>, reply: GateReply)
    requires Positional(server, verdict) && GoodReply(a, treat, server, lookup, reply)
    ensures !reply.Crashed?
    ensures reply == Forwarded <==>
      && a.Ok? && Answered(Treated(a.value.resources, treat), server)
      && forall r <- a.value.resources :: Deserves(r, treat, verdict)
  {
    if a.Ok? {
      var resources := a.value.resources;
      var ts := Treated(resources, treat);
      BatchRefinesPointwise(ts, server, verdict);
      var outcome := AuthorizeSpec(true, ts, server);
      if outcome.Done? {
        assert forall i | 0 <= i < |resources| :: ts[i] == treat(resources[i]) && ts[i] in ts;
        assert AllAuthorized(outcome.value) ==> forall i | 0 <= i < |resources| :: outcome.value[i] in outcome.value;
        assert forall i | 0 <= i < |resources| :: resources[i] in resources;
      } else if Answered(ts, server) {
        var t :| t in ts && t.Refuse?;
        var i :| 0 <= i < |ts| && ts[i] == t;
        assert resources[i] in resources && !Deserves(resources[i], treat, verdict);
      }
    }
  }

  // Every reply in the terms of a request. Lookup is that of the permissions to apply for.
  lemma RepliesExactly(a: Result<AuthAttribute>, server: Server, verdict: AuthBatch -> bool,
                       lookup: Resources -> Result<()>, reply: GateReply)
    requires Positional(server, verdict) && GoodReply(a, Classifier(), server, lookup, reply)
    ensures reply == ParseFailed <==> a.Err?
    ensures a.Ok? ==>
      var rs := a.value.resources;
      var checked := !Unadaptable(rs) && !Unanswered(rs, server);
      && (reply == Forwarded <==> checked && forall r <- rs :: Granted(r, verdict))
      && (reply == NoPermission <==> checked && (exists r <- rs :: !Granted(r, verdict)) && lookup(rs).Ok?)
      && (reply == CheckFailed <==> !checked || ((exists r <- rs :: !Granted(r, verdict)) && lookup(rs).Err?))
  {
    if a.Ok? {
      var rs := a.value.resources;
      var outcome := AuthorizeSpec(true, ClassifyAll(rs), server);
      FailsExactly(rs, server);
      BatchRefinesPointwise(ClassifyAll(rs), server, verdict);
      if outcome.Done? {
        GrantedIsDecided(rs, server, verdict);
      }
    }
  }

  lemma GrantedIsDecided(rs: Resources, server: Server, verdict: AuthBatch -> bool)
    requires Positional(server, verdict) && AuthorizeSpec(true, ClassifyAll(rs), server).Done?
    ensures AllAuthorized(AuthorizeSpec(true, ClassifyAll(rs), server).value) <==> forall r <- rs :: Granted(r, verdict)
  {
    var decisions := AuthorizeSpec(true, ClassifyAll(rs), server).value;
    BatchRefinesPointwise(ClassifyAll(rs), server, verdict);
    forall i | 0 <= i < |rs|
      ensures (decisions[i] <==> Granted(rs[i], verdict)) && decisions[i] in decisions && rs[i] in rs
    {
      DecisionIsItsOwn(rs, server, verdict, i);
    }
    forall r | r in rs
      ensures exists i :: 0 <= i < |rs| && rs[i] == r
    {
    }
    forall d | d in decisions
      ensures exists i :: 0 <= i < |decisions| && decisions[i] == d
    {
    }
  }

  // Whatever the server answers, and however many answers it gives, nothing gets through without one:
  // every resource of a forwarded request that is not skipped has a positive answer of its own.
  lemma NothingPassesUnasked(a: Result<AuthAttribute>, treat: Treat, server: Server, lookup: Resources -> Result<()>)
    requires GoodReply(a, treat, server, lookup, Forwarded)
    ensures a.Ok?
    ensures
      var ts := Treated(a.value.resources, treat);
      forall i | 0 <= i < |ts| ::
        && !ts[i].Refuse?
        && (ts[i].Send? ==>
              && server(Batch(ts)).Ok?
              && Rank(ts, i) < |server(Batch(ts)).value|
              && server(Batch(ts)).value[Rank(ts, i)]
              && Rank(ts, i) < |Batch(ts)| && Batch(ts)[Rank(ts, i)] == ts[i].item)
  {
    var ts := Treated(a.value.resources, treat);
    var decisions := AuthorizeSpec(true, ts, server).value;
    forall i | 0 <= i < |ts|
      ensures !ts[i].Refuse?
      ensures ts[i].Send? ==>
        && server(Batch(ts)).Ok? && Rank(ts, i) < |server(Batch(ts)).value| && server(Batch(ts)).value[Rank(ts, i)]
        && Rank(ts, i) < |Batch(ts)| && Batch(ts)[Rank(ts, i)] == ts[i].item
    {
      assert ts[i] in ts;
      if ts[i].Send? {
        BatchAt(ts, i);
        assert decisions[i] in decisions && decisions[i] == Merged(ts, server(Batch(ts)).value, i);
      }
    }
  }

  // A forwarded request names at least one resource, and all of them belong to the supplier account of
  // its header.
  lemma ForwardedIsTagged(hs: Handlers, request: Request, treat: Treat, server: Server, lookup: Resources -> Result<()>)
    requires GoodReply(Attributes(hs, request), treat, server, lookup, Forwarded)
    ensures request.owner != "" && request.user != ""
    ensures
      var resources := Attributes(hs, request).value.resources;
      resources != [] && forall r <- resources :: r.supplierAccount == request.owner
  {
    SuccessIsTagged(hs, ContextOf(request));
  }
}
