/** What the parse chain guarantees, and when it is the same as "the first handler that fires". */
module ChainTheorems {
  import opened Common
  import opened Framework
  import opened ParseChain
  import Meta

  /******* Errors are final *******/

  lemma {:induction false} ErrorSurvivesGroup(hs: Handlers, request: RequestContext, group: seq<Handler>, s: State)
    requires s.err
    ensures GroupMembers(hs, request, group, s).err
  {
    if group != [] {
      ErrorSurvivesGroup(hs, request, group[1..], Effect(hs, request, group[0], s));
    }
  }

  lemma {:induction false} ErrorSurvivesChain(hs: Handlers, request: RequestContext, groups: seq<seq<Handler>>, s: State)
    requires s.err
    ensures ChainEffect(hs, request, groups, s).err
  {
    if groups != [] {
      ErrorSurvivesChain(hs, request, groups[1..], s);
    }
  }

  lemma {:induction false} GroupConcat(hs: Handlers, request: RequestContext, a: seq<Handler>, b: seq<Handler>, s: State)
    ensures GroupMembers(hs, request, a + b, s) == GroupMembers(hs, request, b, GroupMembers(hs, request, a, s))
  {
    if a == [] {
      assert a + b == b;
    } else {
      assert (a + b)[1..] == a[1..] + b;
      GroupConcat(hs, request, a[1..], b, Effect(hs, request, a[0], s));
    }
  }

  lemma {:induction false} ChainConcat(hs: Handlers, request: RequestContext, a: seq<seq<Handler>>, b: seq<seq<Handler>>, s: State)
    ensures ChainEffect(hs, request, a + b, s) == ChainEffect(hs, request, b, ChainEffect(hs, request, a, s))
  {
    if a == [] {
      assert a + b == b;
    } else {
      assert (a + b)[1..] == a[1..] + b;
      ChainConcat(hs, request, a[1..], b, GroupEffect(hs, request, a[0], s));
    }
  }

  // The stream right after member `p` of group `g`.
  function StreamAt(hs: Handlers, request: RequestContext, g: nat, p: nat): State
    requires g < |Groups()| && p < |Groups()[g]|
  {
    var before := ChainEffect(hs, request, Groups()[..g], CLEAN);
    if before.Busy() then before else GroupMembers(hs, request, Groups()[g][..p + 1], before)
  }

  // An error left by any handler of any group fails the whole parse, whatever runs later.
  lemma ErrorIsFinal(hs: Handlers, request: RequestContext, g: nat, p: nat)
    requires g < |Groups()| && p < |Groups()[g]| && StreamAt(hs, request, g, p).err
    ensures ParseSpec(hs, request) == Err
  {
    var groups := Groups();
    var group := groups[g];
    var before := ChainEffect(hs, request, groups[..g], CLEAN);
    ChainConcat(hs, request, groups[..g], groups[g..], CLEAN);
    assert groups[..g] + groups[g..] == groups;
    if before.Busy() {
      ErrorSurvivesChain(hs, request, groups[g..], before);
    } else {
      GroupConcat(hs, request, group[..p + 1], group[p + 1..], before);
      assert group[..p + 1] + group[p + 1..] == group;
      ErrorSurvivesGroup(hs, request, group[p + 1..], StreamAt(hs, request, g, p));
      ErrorSurvivesChain(hs, request, groups[g..][1..], GroupEffect(hs, request, group, before));
    }
  }

  // The same resource under another account.
  ghost predicate SameButAccount(r: Meta.ResourceAttribute, s: Meta.ResourceAttribute, account: string) {
    && r.kind == s.kind && r.action == s.action && r.name == s.name && r.instanceId == s.instanceId
    && r.instanceIdEx == s.instanceIdEx && r.businessId == s.businessId && r.layers == s.layers
    && r.supplierAccount == account
  }

  // A successful parse carries the headers' identity and at least one resource, and on every one of them
  // the header's supplier account; all else is what the chain left.
  lemma SuccessIsTagged(hs: Handlers, request: RequestContext)
    requires ParseSpec(hs, request).Ok?
    ensures
      var attribute := ParseSpec(hs, request).value;
      var left := ChainEffect(hs, request, Groups(), CLEAN).resources;
      && attribute.user == request.user != "" && attribute.supplier == request.owner != ""
      && attribute.resources != [] && |attribute.resources| == |left|
      && (forall r <- attribute.resources :: r.supplierAccount == request.owner)
      && forall i | 0 <= i < |left| :: SameButAccount(attribute.resources[i], left[i], request.owner)
  {
  }

  // A parse fails exactly for a path that does not start with these words, for a missing header, for an
  // error of the chain, and for a chain that found nothing.
  lemma ParseFailsExactly(hs: Handlers, request: RequestContext)
    ensures ParseSpec(hs, request) == Err <==>
      || |request.elements| < 3 || request.elements[0] != "api" || request.elements[1] != "v3"
      || request.user == "" || request.owner == ""
      || ChainEffect(hs, request, Groups(), CLEAN).err || |ChainEffect(hs, request, Groups(), CLEAN).resources| == 0
  {
    assert "api" == ['a', 'p', 'i'] && "v3" == ['v', '3'];
  }

  // Where each handler runs: the number of its group and its place there.
  function PlaceOf(h: Handler): (nat, nat) {
    match h
    case Custom(c) => PlaceOfCustom(c)
    case Table(ConfigAdmin) => (1, 0)
    case Table(HostApply) => (2, 7)
    case Table(SetTemplate) => (4, 10)
    case Table(ServiceInstance) => (6, 0)
    case Table(ServiceTemplate) => (6, 1)
    case Table(ServiceCategory) => (6, 2)
    case Table(ProcessTemplate) => (6, 3)
    case Table(ProcessInstance) => (6, 4)
    case Table(OperationStatistic) => (6, 5)
    case Table(CloudAccount) => (8, 0)
    case Table(CloudResourceTask) => (8, 1)
  }

  function PlaceOfCustom(c: CustomHandler): (nat, nat) {
    match c
    case CacheTopology => (0, 0)
    case HostHandler => (2, 0)
    case HostTransfer => (2, 1)
    case DynamicGrouping => (2, 2)
    case UserCustom => (2, 3)
    case HostFavorite => (2, 4)
    case HostSnapshot => (2, 5)
    case FindObjectIdentifier => (2, 6)
    case Business => (3, 0)
    case Mainline => (3, 1)
    case Object => (3, 2)
    case ObjectAttributeGroup => (3, 3)
    case ObjectModule => (3, 4)
    case ObjectSet => (3, 5)
    case Audit => (3, 6)
    case FullTextSearch => (3, 7)
    case CloudArea => (3, 8)
    case ObjectUniqueLatest => (4, 0)
    case AssociationTypeLatest => (4, 1)
    case ObjectAssociationLatest => (4, 2)
    case ObjectInstanceAssociationLatest => (4, 3)
    case ObjectInstanceLatest => (4, 4)
    case ObjectLatest => (4, 5)
    case ObjectClassificationLatest => (4, 6)
    case ObjectAttributeGroupLatest => (4, 7)
    case ObjectAttributeLatest => (4, 8)
    case MainlineLatest => (4, 9)
    case NetCollector => (5, 0)
    case NetDevice => (5, 1)
    case NetProperty => (5, 2)
    case NetReport => (5, 3)
    case Subscribe => (7, 0)
    case CloudResourceDirectory => (8, 2)
  }

  // Every handler runs once in the chain, at its place.
  lemma EveryHandlerOnce(g: nat, p: nat, h: Handler)
    ensures g < |Groups()| && p < |Groups()[g]| && Groups()[g][p] == h <==> (g, p) == PlaceOf(h)
  {
    if g < |Groups()| && p < |Groups()[g]| {
      MemberKnowsPlace(g, p);
    }
    PlaceHasMember(h);
  }

  lemma MemberKnowsPlace(g: nat, p: nat)
    requires g < |Groups()| && p < |Groups()[g]|
    ensures PlaceOf(Groups()[g][p]) == (g, p)
  {
  }

  lemma PlaceHasMember(h: Handler)
    ensures var (g, p) := PlaceOf(h); g < |Groups()| && p < |Groups()[g]| && Groups()[g][p] == h
  {
  }

  /******* The first handler that fires *******/

  // What a handler does to a clean stream.
  function Alone(hs: Handlers, request: RequestContext, h: Handler): State {
    Effect(hs, request, h, CLEAN)
  }

  // A handler fires when it leaves an error or a resource behind.
  predicate Fires(hs: Handlers, request: RequestContext, h: Handler) {
    Alone(hs, request, h).Busy()
  }

  // A table speaks up when a row matches, even if it yields no resource.
  predicate Speaks(hs: Handlers, request: RequestContext, h: Handler) {
    h.Table? && TableResult(hs.tables(h.table), request) != Ok(None)
  }

  // It finds nothing and reports nothing.
  predicate Silent(hs: Handlers, request: RequestContext, h: Handler) {
    if h.Custom? then !hs.custom(h.custom).err && hs.custom(h.custom).resources == []
    else
      && TableResult(hs.tables(h.table), request).Ok?
      && (TableResult(hs.tables(h.table), request).value.None? || TableResult(hs.tables(h.table), request).value.value == [])
  }

  function FirstFire(hs: Handlers, request: RequestContext, handlers: seq<Handler>): State {
    if handlers == [] then CLEAN
    else if Fires(hs, request, handlers[0]) then Alone(hs, request, handlers[0])
    else FirstFire(hs, request, handlers[1..])
  }

  function Flatten(groups: seq<seq<Handler>>): seq<Handler> {
    if groups == [] then [] else groups[0] + Flatten(groups[1..])
  }

  // In every group, no table speaks up after a handler of the group has fired.
  ghost predicate Undisturbed(hs: Handlers, request: RequestContext, group: seq<Handler>) {
    forall p, q | 0 <= p < q < |group| && Fires(hs, request, group[p]) :: !Speaks(hs, request, group[q])
  }

  lemma {:induction false} BusyGroup(hs: Handlers, request: RequestContext, group: seq<Handler>, s: State)
    requires s.Busy() && forall h <- group :: !Speaks(hs, request, h)
    ensures GroupMembers(hs, request, group, s) == s
  {
    if group != [] {
      assert group[0] in group;
      BusyGroup(hs, request, group[1..], s);
    }
  }

  lemma {:induction false} UndisturbedGroup(hs: Handlers, request: RequestContext, group: seq<Handler>)
    requires Undisturbed(hs, request, group)
    ensures GroupMembers(hs, request, group, CLEAN) == FirstFire(hs, request, group)
  {
    if group != [] {
      var rest := group[1..];
      if Fires(hs, request, group[0]) {
        forall h | h in rest
          ensures !Speaks(hs, request, h)
        {
          var q :| 0 <= q < |rest| && rest[q] == h;
          assert group[q + 1] == h;
        }
        BusyGroup(hs, request, rest, Alone(hs, request, group[0]));
      } else {
        assert Undisturbed(hs, request, rest) by {
          forall p, q | 0 <= p < q < |rest| && Fires(hs, request, rest[p])
            ensures !Speaks(hs, request, rest[q])
          {
            assert group[p + 1] == rest[p] && group[q + 1] == rest[q];
          }
        }
        UndisturbedGroup(hs, request, rest);
      }
    }
  }

  lemma {:induction false} BusyChain(hs: Handlers, request: RequestContext, groups: seq<seq<Handler>>, s: State)
    requires s.Busy()
    ensures ChainEffect(hs, request, groups, s) == s
  {
    if groups != [] {
      BusyChain(hs, request, groups[1..], s);
    }
  }

  lemma {:induction false} FirstFireConcat(hs: Handlers, request: RequestContext, a: seq<Handler>, b: seq<Handler>)
    ensures FirstFire(hs, request, a + b)
         == if FirstFire(hs, request, a).Busy() then FirstFire(hs, request, a) else FirstFire(hs, request, b)
    ensures FirstFire(hs, request, a).Busy() || FirstFire(hs, request, a) == CLEAN
  {
    if a == [] {
      assert a + b == b;
    } else {
      assert (a + b)[1..] == a[1..] + b;
      FirstFireConcat(hs, request, a[1..], b);
    }
  }

  // The search in plain terms: the first handler that is not silent decides with its own error or with its
  // own resources.
  lemma {:induction false} FirstHitDecides(hs: Handlers, request: RequestContext, handlers: seq<Handler>, k: nat)
    requires k < |handlers| && !Silent(hs, request, handlers[k]) && forall j | 0 <= j < k :: Silent(hs, request, handlers[j])
    ensures
      match handlers[k]
      case Custom(c) => FirstFire(hs, request, handlers) == hs.custom(c)
      case Table(t) =>
        match TableResult(hs.tables(t), request)
        case Err => FirstFire(hs, request, handlers) == State(true, [])
        case Ok(None) => false
        case Ok(Some(resources)) => FirstFire(hs, request, handlers) == State(false, resources)
  {
    if k > 0 {
      assert Silent(hs, request, handlers[0]);
      FirstHitDecides(hs, request, handlers[1..], k - 1);
    }
  }

  lemma {:induction false} NoHitNoResult(hs: Handlers, request: RequestContext, handlers: seq<Handler>)
    requires forall h <- handlers :: Silent(hs, request, h)
    ensures FirstFire(hs, request, handlers) == State(false, [])
  {
    if handlers != [] {
      assert Silent(hs, request, handlers[0]);
      NoHitNoResult(hs, request, handlers[1..]);
    }
  }

  // When no table speaks up after a hit in its own group, the whole chain is a search for the first
  // handler that fires.
  lemma {:induction false} ChainIsFirstFire(hs: Handlers, request: RequestContext, groups: seq<seq<Handler>>)
    requires forall group <- groups :: Undisturbed(hs, request, group)
    ensures ChainEffect(hs, request, groups, CLEAN) == FirstFire(hs, request, Flatten(groups))
  {
    if groups != [] {
      assert groups[0] in groups;
      UndisturbedGroup(hs, request, groups[0]);
      FirstFireConcat(hs, request, groups[0], Flatten(groups[1..]));
      if FirstFire(hs, request, groups[0]).Busy() {
        BusyChain(hs, request, groups[1..], FirstFire(hs, request, groups[0]));
      } else {
        ChainIsFirstFire(hs, request, groups[1..]);
      }
    }
  }

  lemma ParseIsFirstFire(hs: Handlers, request: RequestContext)
    requires HeaderOk(request) && forall group <- Groups() :: Undisturbed(hs, request, group)
    ensures
      var first := FirstFire(hs, request, Flatten(Groups()));
      ParseSpec(hs, request) == if first.err || first.resources == [] then Err
                                else Ok(AuthAttribute(request.user, request.owner, WithSupplier(first.resources, request.owner)))
  {
    ChainIsFirstFire(hs, request, Groups());
  }

  /******* Without the premise: the last table that speaks up decides *******/

  // Nothing after position `q` of the group changes the stream.
  ghost predicate LastWord(hs: Handlers, request: RequestContext, group: seq<Handler>, q: nat) {
    && q < |group| && group[q].Table?
    && (exists rs: Resources :: rs != [] && TableResult(hs.tables(group[q].table), request) == Ok(Some(rs)))
    && forall p | q < p < |group| :: !Speaks(hs, request, group[p])
  }

  // In a group where some table yields resources and no later one speaks up, the resources are that
  // table's, whatever other handlers of the group fired before.
  lemma LastTableDecides(hs: Handlers, request: RequestContext, group: seq<Handler>, q: nat)
    requires LastWord(hs, request, group, q)
    ensures TableResult(hs.tables(group[q].table), request)
         == Ok(Some(GroupMembers(hs, request, group, CLEAN).resources))
  {
    var before := GroupMembers(hs, request, group[..q], CLEAN);
    assert group == group[..q] + group[q..] && group[q..][1..] == group[q + 1..];
    GroupConcat(hs, request, group[..q], group[q..], CLEAN);
    var after := Effect(hs, request, group[q], before);
    forall h | h in group[q + 1..]
      ensures !Speaks(hs, request, h)
    {
      var i :| 0 <= i < |group[q + 1..]| && group[q + 1..][i] == h;
      assert group[q + 1 + i] == h;
    }
    BusyGroup(hs, request, group[q + 1..], after);
  }

  // A hit can be lost altogether: a later table whose row matches but yields no resource wipes it out, and
  // whatever comes next runs as if nothing had been found.
  lemma EmptyMatchErases(hs: Handlers, request: RequestContext, group: seq<Handler>, p: nat, q: nat)
    requires p < q < |group| && group[q].Table?
    requires TableResult(hs.tables(group[q].table), request) == Ok(Some([]))
    requires !GroupMembers(hs, request, group[..q], CLEAN).err
    requires Fires(hs, request, group[p])
    ensures GroupMembers(hs, request, group, CLEAN) == GroupMembers(hs, request, group[q + 1..], CLEAN)
    ensures FirstFire(hs, request, group).Busy()
  {
    assert group == group[..q] + ([group[q]] + group[q + 1..]);
    GroupConcat(hs, request, group[..q], [group[q]] + group[q + 1..], CLEAN);
    GroupConcat(hs, request, [group[q]], group[q + 1..], GroupMembers(hs, request, group[..q], CLEAN));
    assert [group[q]][1..] == [];
    FireFound(hs, request, group, p);
  }

  lemma {:induction false} FireFound(hs: Handlers, request: RequestContext, group: seq<Handler>, p: nat)
    requires p < |group| && Fires(hs, request, group[p])
    ensures FirstFire(hs, request, group).Busy()
  {
    if !Fires(hs, request, group[0]) {
      FireFound(hs, request, group[1..], p - 1);
    }
  }
}
