/**
 The parse chain (src/ac/parser/chain.go): groups of handlers over one mutable stream.

 Handlers written by hand look at the stream first and leave it alone once there is an error or a
 resource (`shouldReturn`). Handlers driven by a table (`ParseStreamWithFramework`) do not; only the
 group they belong to checks, once, on entry.
 */
module ParseChain {
  import opened Common
  import opened Framework
  import Meta

  // Handlers written by hand, with the outcome on the request at hand left open.
  datatype CustomHandler =
    | CacheTopology | HostHandler | HostTransfer | DynamicGrouping | UserCustom | HostFavorite | HostSnapshot
    | FindObjectIdentifier | Business | Mainline | Object | ObjectAttributeGroup | ObjectModule | ObjectSet
    | Audit | FullTextSearch | CloudArea | ObjectUniqueLatest | AssociationTypeLatest | ObjectAssociationLatest
    | ObjectInstanceAssociationLatest | ObjectInstanceLatest | ObjectLatest | ObjectClassificationLatest
    | ObjectAttributeGroupLatest | ObjectAttributeLatest | MainlineLatest | NetCollector | NetDevice | NetProperty
    | NetReport | Subscribe | CloudResourceDirectory

  // Handlers driven by a table. The extra pattern at the start of ServiceInstance is its first row.
  datatype TableHandler =
    | ConfigAdmin | HostApply | SetTemplate | ServiceInstance | ServiceTemplate | ServiceCategory | ProcessTemplate
    | ProcessInstance | OperationStatistic | CloudAccount | CloudResourceTask

  datatype Handler = Custom(custom: CustomHandler) | Table(table: TableHandler)

  type Resources = seq<Meta.ResourceAttribute>

  // The two fields of the stream that decide what happens next.
  datatype State = State(err: bool, resources: Resources) {
    // shouldReturn
    predicate Busy() {
      err || resources != []
    }
  }

  const CLEAN := State(false, [])

  // What the handlers do with the request at hand: an outcome for each one written by hand, a table for
  // each of the others.
  datatype Handlers = Handlers(custom: CustomHandler -> State, tables: TableHandler -> seq<AuthConfig>)

  // The groups in the order of Parse (chain.go:91-105).
  function Groups(): seq<seq<Handler>> {
    [
      [Custom(CacheTopology)],
      [Table(ConfigAdmin)],
      [Custom(HostHandler), Custom(HostTransfer), Custom(DynamicGrouping), Custom(UserCustom), Custom(HostFavorite),
       Custom(HostSnapshot), Custom(FindObjectIdentifier), Table(HostApply)],
      [Custom(Business), Custom(Mainline), Custom(Object), Custom(ObjectAttributeGroup), Custom(ObjectModule),
       Custom(ObjectSet), Custom(Audit), Custom(FullTextSearch), Custom(CloudArea)],
      [Custom(ObjectUniqueLatest), Custom(AssociationTypeLatest), Custom(ObjectAssociationLatest),
       Custom(ObjectInstanceAssociationLatest), Custom(ObjectInstanceLatest), Custom(ObjectLatest),
       Custom(ObjectClassificationLatest), Custom(ObjectAttributeGroupLatest), Custom(ObjectAttributeLatest),
       Custom(MainlineLatest), Table(SetTemplate)],
      [Custom(NetCollector), Custom(NetDevice), Custom(NetProperty), Custom(NetReport)],
      [Table(ServiceInstance), Table(ServiceTemplate), Table(ServiceCategory), Table(ProcessTemplate),
       Table(ProcessInstance), Table(OperationStatistic)],
      [Custom(Subscribe)],
      [Table(CloudAccount), Table(CloudResourceTask), Custom(CloudResourceDirectory)]
    ]
  }

  /******* The stream as a value *******/

  function Effect(hs: Handlers, request: RequestContext, h: Handler, s: State): State {
    match h
    case Custom(c) => if s.Busy() then s else hs.custom(c)
    case Table(t) =>
      match TableResult(hs.tables(t), request)
      case Err => s.(err := true)
      case Ok(None) => s
      case Ok(Some(resources)) => s.(resources := resources)
  }

  function GroupMembers(hs: Handlers, request: RequestContext, group: seq<Handler>, s: State): State {
    if group == [] then s else GroupMembers(hs, request, group[1..], Effect(hs, request, group[0], s))
  }

  function GroupEffect(hs: Handlers, request: RequestContext, group: seq<Handler>, s: State): State {
    if s.Busy() then s else GroupMembers(hs, request, group, s)
  }

  function ChainEffect(hs: Handlers, request: RequestContext, groups: seq<seq<Handler>>, s: State): State {
    if groups == [] then s else ChainEffect(hs, request, groups[1..], GroupEffect(hs, request, groups[0], s))
  }

  // validateAPI, validateVersion, validateUserAndSupplier
  predicate HeaderOk(request: RequestContext) {
    && |request.elements| >= 3 && request.elements[0] == "api" && request.elements[1] == "v3"
    && request.user != "" && request.owner != ""
  }

  datatype AuthAttribute = AuthAttribute(user: string, supplier: string, resources: Resources)

  function WithSupplier(resources: Resources, supplier: string): Resources {
    seq(|resources|, i requires 0 <= i < |resources| => resources[i].(supplierAccount := supplier))
  }

  function ParseSpec(hs: Handlers, request: RequestContext): Result<AuthAttribute> {
    if !HeaderOk(request) then Err
    else
      var s := ChainEffect(hs, request, Groups(), CLEAN);
      if s.err || s.resources == [] then Err
      else Ok(AuthAttribute(request.user, request.owner, WithSupplier(s.resources, request.owner)))
  }

  /******* The code *******/

  class ParseStream {
    const request: RequestContext
    var err: bool
    var action: Meta.Action
    var user: string
    var supplier: string
    var resources: Resources

    constructor (request: RequestContext)
      ensures this.request == request && Current() == CLEAN
    {
      this.request := request;
      err, action, user, supplier, resources := false, Meta.EmptyAction, "", "", [];
    }

    function Current(): State
      reads this
    {
      State(err, resources)
    }

    predicate ShouldReturn()
      reads this
    {
      err || |resources| > 0
    }

    method ValidateApi()
      requires |request.elements| >= 1
      modifies `err
      ensures err == (old(err) || (!old(ShouldReturn()) && request.elements[0] != "api"))
    {
      if ShouldReturn() { return; }
      if request.elements[0] != "api" {
        err := true;
      }
    }

    method ValidateVersion()
      requires |request.elements| >= 2
      modifies `err
      ensures err == (old(err) || (!old(ShouldReturn()) && request.elements[1] != "v3"))
    {
      if ShouldReturn() { return; }
      if request.elements[1] != "v3" {
        err := true;
      }
    }

    // An action that is none of the eight is not an error.
    method ValidateResourceAction()
      requires |request.elements| >= 3
      modifies `action
      ensures action == if old(ShouldReturn()) then old(action) else ActionOf(request.elements[2])
    {
      if ShouldReturn() { return; }
      action := ActionOf(request.elements[2]);
    }

    method ValidateUserAndSupplier()
      modifies `err, `user, `supplier
      ensures err == (old(err) || (!old(ShouldReturn()) && (request.user == "" || request.owner == "")))
      ensures !old(ShouldReturn()) && !err ==> user == request.user && supplier == request.owner
    {
      if ShouldReturn() { return; }
      if |request.user| == 0 {
        err := true;
        return;
      }
      user := request.user;
      if |request.owner| == 0 {
        err := true;
        return;
      }
      supplier := request.owner;
    }

    // One handler written by hand.
    method RunCustom(hs: Handlers, c: CustomHandler)
      modifies `err, `resources
      ensures Current() == Effect(hs, request, Custom(c), old(Current()))
    {
      if ShouldReturn() { return; }
      var outcome := hs.custom(c);
      err, resources := outcome.err, outcome.resources;
    }

    // ParseStreamWithFramework: no check, and a nil slice is told apart from an empty one.
    method ParseWithFramework(hs: Handlers, t: TableHandler)
      modifies `err, `resources
      ensures Current() == Effect(hs, request, Table(t), old(Current()))
    {
      var r := MatchAndGenerateIAMResource(hs.tables(t), request);
      match r {
        case Err => err := true;
        case Ok(None) =>
        case Ok(Some(rs)) => resources := rs;
      }
    }

    method RunGroup(hs: Handlers, group: seq<Handler>)
      modifies `err, `resources
      ensures Current() == GroupEffect(hs, request, group, old(Current()))
    {
      if ShouldReturn() { return; }
      for i := 0 to |group|
        invariant GroupMembers(hs, request, group, old(Current())) == GroupMembers(hs, request, group[i..], Current())
      {
        assert group[i..][1..] == group[i + 1..];
        match group[i] {
          case Custom(c) => RunCustom(hs, c);
          case Table(t) => ParseWithFramework(hs, t);
        }
      }
    }

    method Finalizer()
      modifies `err
      ensures err == (old(err) || resources == [])
    {
      if ShouldReturn() { return; }
      if |resources| <= 0 {
        err := true;
      }
    }

    method Parse(hs: Handlers) returns (r: Result<AuthAttribute>)
      requires |request.elements| >= 3 && Current() == CLEAN
      modifies this
      ensures r == ParseSpec(hs, request)
    {
      ValidateApi();
      ValidateVersion();
      ValidateResourceAction();
      ValidateUserAndSupplier();
      var groups := Groups();
      ghost var start := Current();
      assert start.err <==> !HeaderOk(request);
      for g := 0 to |groups|
        invariant ChainEffect(hs, request, groups, start) == ChainEffect(hs, request, groups[g..], Current())
        invariant start.err ==> err
        invariant !start.err ==> user == request.user && supplier == request.owner
      {
        assert groups[g..][1..] == groups[g + 1..];
        RunGroup(hs, groups[g]);
      }
      assert groups[|groups|..] == [];
      Finalizer();
      if err {
        return Err;
      }
      var tagged: Resources := resources;
      for index := 0 to |tagged|
        invariant |tagged| == |resources|
        invariant forall k | 0 <= k < |tagged| ::
          tagged[k] == if k < index then resources[k].(supplierAccount := supplier) else resources[k]
      {
        tagged := tagged[index := tagged[index].(supplierAccount := supplier)];
      }
      assert tagged == WithSupplier(resources, supplier);
      resources := tagged;
      return Ok(AuthAttribute(user, supplier, tagged));
    }
  }

  function ActionOf(text: string): Meta.Action {
    match text
    case "find" => Meta.Find
    case "findMany" => Meta.FindMany
    case "create" => Meta.Create
    case "createMany" => Meta.CreateMany
    case "update" => Meta.Update
    case "updateMany" => Meta.UpdateMany
    case "delete" => Meta.Delete
    case "deleteMany" => Meta.DeleteMany
    case _ => Meta.Unknown
  }
}
