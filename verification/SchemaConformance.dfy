/**
 The request side meets the schema that the registration side declares: what `Adapt` builds for an
 attribute (gen_id.go) against the resource types and selections of the action it names
 (initial_actions.go, initial_instance_selections.go).
 */
module SchemaConformance {
  import opened Common
  import opened IamTypes
  import opened IamTables
  import opened Adaptor
  import opened Text
  import opened Registration
  import opened RegistrationTheorems
  import ActionRule
  import Meta

  function KindsOf(resources: seq<Resource>): seq<TypeId> {
    seq(|resources|, i requires 0 <= i < |resources| => resources[i].kind)
  }

  // The level above the attribute's instance, where the attribute has one: its business for a
  // dynamic group, its first layer for everything else.
  function ParentId(a: Meta.ResourceAttribute): Option<int> {
    if a.kind == Meta.DynamicGrouping then Some(a.businessId)
    else if a.layers != [] then Some(a.layers[0].instanceId)
    else None
  }

  function ExpectedPath(a: Meta.ResourceAttribute, action: ActionId): Option<seq<string>> {
    match (DeclaredParent(action), ParentId(a))
    case (Some(parent), Some(id)) => Some([PathOf(parent, id)])
    case _ => None
  }

  /******* What the table of actions says of each kind of attribute *******/

  // Looking at the model topology is the one read that needs the permission to edit.
  predicate KindFits(kind: Meta.Kind, verb: Meta.Action, t: ActionType) {
    match verb
    case Create => t == CreateType || t == EditType
    case Update => t == EditType
    case Delete => t == DeleteType || t == EditType
    case Find => t == if kind.ModelTopology? then EditType else ViewType
    case _ => t != DeleteType
  }

  // The action of the table, for kinds and verbs without a rule of their own.
  ghost predicate Mapped(kind: Meta.Kind, verb: Meta.Action, id: ActionId) {
    MappedAction(kind, verb) == Some(id) && id != Skip && id != Unsupported
  }

  // Kinds whose actions relate to nothing, to the business, and to the instance unless it is created.
  predicate RelatesToNothing(kind: Meta.Kind) {
    kind.EventWatch? || kind.OperationStatistic? || kind.AuditLog? || kind.ConfigAdmin? || kind.MainlineModel?
    || kind.ModelTopology? || kind.SystemBase?
  }

  predicate RelatesToBusiness(kind: Meta.Kind) {
    kind.HostApply? || kind.ProcessServiceInstance? || kind.Process? || kind.ModelModule? || kind.ModelSet?
    || kind.MainlineInstance? || kind.ProcessServiceCategory? || kind.BizTopology?
  }

  // The creation of an instance of the kind, and its type, where only the creation relates to nothing.
  function OwnRow(kind: Meta.Kind): Option<(ActionId, TypeId)> {
    match kind
    case Business => Some((CreateBusiness, TypeId.Business))
    case EventPushing => Some((CreateEventPushing, SysEventPushing))
    case CloudAreaInstance => Some((CreateCloudArea, SysCloudArea))
    case CloudAccount => Some((CreateCloudAccount, SysCloudAccount))
    case CloudResourceTask => Some((CreateCloudResourceTask, SysCloudResourceTask))
    case ResourcePoolDirectory => Some((CreateResourcePoolDirectory, SysResourcePoolDirectory))
    case ModelClassification => Some((CreateModelGroup, SysModelGroup))
    case AssociationType => Some((CreateAssociationType, SysAssociationType))
    case _ => None
  }

  predicate IsModel(kind: Meta.Kind) {
    kind.Model? || kind.ModelAssociation? || kind.ModelUnique? || kind.ModelAttributeGroup? || kind.ModelAttribute?
  }

  predicate IsModelInstance(kind: Meta.Kind) {
    kind.ModelInstance? || kind.ModelInstanceAssociation?
  }

  function CreationOfTemplate(kind: Meta.Kind): ActionId {
    if kind.SetTemplate? then CreateBusinessSetTemplate else CreateBusinessServiceTemplate
  }

  predicate IsTemplate(kind: Meta.Kind) {
    kind.ProcessServiceTemplate? || kind.ProcessTemplate? || kind.SetTemplate?
  }

  // One resource of one type.
  ghost predicate RelatesTo(id: ActionId, t: TypeId) {
    RelationsOf(id).One? && RelationsOf(id).only.t == t
  }

  // The level above a subject that counts for authorization.
  function LevelAbove(s: Subject): Option<TypeId> {
    match s
    case BusinessHosts | CustomQueries => Some(Business)
    case PoolHosts => Some(SysHostRscPoolDirectory)
    case SysInstances => Some(SysInstanceModel)
    case _ => None
  }

  // A path is about the four subjects above, and never part of a creation.
  lemma ParentIsLevelAbove(id: ActionId)
    ensures DeclaredParent(id) == if id.Editing? || id.Deleting? || id.Finding? then LevelAbove(id.subject) else None
  {
  }

  lemma WatchMapped(verb: Meta.Action, id: ActionId)
    requires Mapped(Meta.EventWatch, verb, id)
    ensures Known(id) && RelationsOf(id) == Nothing && KindFits(Meta.EventWatch, verb, DeclaredKind(id))
  {
  }

  lemma StatisticMapped(kind: Meta.Kind, verb: Meta.Action, id: ActionId)
    requires (kind.OperationStatistic? || kind.AuditLog? || kind.ConfigAdmin?) && Mapped(kind, verb, id)
    ensures Known(id) && RelationsOf(id) == Nothing && KindFits(kind, verb, DeclaredKind(id))
  {
  }

  lemma LayoutMapped(kind: Meta.Kind, verb: Meta.Action, id: ActionId)
    requires (kind.MainlineModel? || kind.ModelTopology? || kind.SystemBase?) && Mapped(kind, verb, id)
    ensures Known(id) && RelationsOf(id) == Nothing && KindFits(kind, verb, DeclaredKind(id))
  {
  }

  lemma NothingMapped(kind: Meta.Kind, verb: Meta.Action, id: ActionId)
    requires RelatesToNothing(kind) && Mapped(kind, verb, id)
    ensures Known(id) && RelationsOf(id) == Nothing && KindFits(kind, verb, DeclaredKind(id))
  {
    match kind
    case EventWatch => WatchMapped(verb, id);
    case OperationStatistic | AuditLog | ConfigAdmin => StatisticMapped(kind, verb, id);
    case _ => LayoutMapped(kind, verb, id);
  }

  lemma BusinessMapped(kind: Meta.Kind, verb: Meta.Action, id: ActionId)
    requires RelatesToBusiness(kind) && Mapped(kind, verb, id)
    ensures Known(id)
    ensures RelatesTo(id, Business) && KindFits(kind, verb, DeclaredKind(id))
  {
  }

  ghost predicate FitsOwnRow(kind: Meta.Kind, verb: Meta.Action, id: ActionId) {
    && Known(id) && KindFits(kind, verb, DeclaredKind(id)) && OwnRow(kind).Some?
    && var (creation, t) := OwnRow(kind).value;
    if id == creation then RelationsOf(id) == Nothing else RelatesTo(id, t)
  }

  lemma CloudAccountMapped(verb: Meta.Action, id: ActionId)
    requires Mapped(Meta.CloudAccount, verb, id)
    ensures FitsOwnRow(Meta.CloudAccount, verb, id)
  {
  }

  lemma CloudTaskMapped(verb: Meta.Action, id: ActionId)
    requires Mapped(Meta.CloudResourceTask, verb, id)
    ensures FitsOwnRow(Meta.CloudResourceTask, verb, id)
  {
  }

  lemma AreaOrPoolMapped(kind: Meta.Kind, verb: Meta.Action, id: ActionId)
    requires kind.CloudAreaInstance? || kind.ResourcePoolDirectory?
    requires Mapped(kind, verb, id)
    ensures FitsOwnRow(kind, verb, id)
  {
  }

  lemma BusinessOrPushingMapped(kind: Meta.Kind, verb: Meta.Action, id: ActionId)
    requires kind.Business? || kind.EventPushing?
    requires Mapped(kind, verb, id)
    ensures FitsOwnRow(kind, verb, id)
  {
  }

  lemma ModelSideMapped(kind: Meta.Kind, verb: Meta.Action, id: ActionId)
    requires kind.ModelClassification? || kind.AssociationType?
    requires Mapped(kind, verb, id)
    ensures FitsOwnRow(kind, verb, id)
  {
  }

  lemma OwnRowMapped(kind: Meta.Kind, verb: Meta.Action, id: ActionId)
    requires OwnRow(kind).Some? && Mapped(kind, verb, id)
    ensures FitsOwnRow(kind, verb, id)
  {
    match kind
    case CloudAccount => CloudAccountMapped(verb, id);
    case CloudResourceTask => CloudTaskMapped(verb, id);
    case CloudAreaInstance | ResourcePoolDirectory => AreaOrPoolMapped(kind, verb, id);
    case Business | EventPushing => BusinessOrPushingMapped(kind, verb, id);
    case _ => ModelSideMapped(kind, verb, id);
  }

  lemma TemplateMapped(kind: Meta.Kind, verb: Meta.Action, id: ActionId)
    requires IsTemplate(kind) && Mapped(kind, verb, id)
    ensures Known(id) && KindFits(kind, verb, DeclaredKind(id))
    ensures RelatesTo(id, if id.Creating? then TypeId.Business
                          else if kind.SetTemplate? then BizSetTemplate else BizProcessServiceTemplate)
    ensures id.Creating? ==> id == CreationOfTemplate(kind)
  {
  }

  // A dynamic group is created, and looked at, within its business.
  predicate OnWholeBusiness(id: ActionId) {
    id == CreateBusinessCustomQuery || id == ViewBusinessResource
  }

  lemma DynamicGroupMapped(verb: Meta.Action, id: ActionId)
    requires Mapped(Meta.DynamicGrouping, verb, id)
    ensures Known(id) && KindFits(Meta.DynamicGrouping, verb, DeclaredKind(id))
    ensures RelatesTo(id, if OnWholeBusiness(id) then Business else BizCustomQuery)
    ensures OnWholeBusiness(id) || id == EditBusinessCustomQuery || id == DeleteBusinessCustomQuery
  {
  }

  lemma ModelMapped(kind: Meta.Kind, verb: Meta.Action, bizId: int, id: ActionId)
    requires IsModel(kind) && Mapped(kind, verb, id) && OwnRule(kind, verb, bizId) == None
    ensures kind.Model? || kind.ModelAssociation? || kind.ModelUnique?
    ensures Known(id)
    ensures RelatesTo(id, if id == CreateSysModel then SysModelGroup else SysModel)
    ensures id == CreateSysModel <==> kind.Model? && verb.Create?
    ensures KindFits(kind, verb, DeclaredKind(id))
  {
  }

  lemma ModelInstanceMapped(kind: Meta.Kind, verb: Meta.Action, id: ActionId)
    requires IsModelInstance(kind) && Mapped(kind, verb, id)
    ensures Known(id)
    ensures id.Creating? || id.Editing? || id.Deleting?
    ensures id.subject == SysInstances && RelatesTo(id, if id == CreateSysInstance then SysInstanceModel else SysInstance)
    ensures id == CreateSysInstance <==> kind.ModelInstance? && verb.Create?
    ensures KindFits(kind, verb, DeclaredKind(id))
  {
  }

  predicate IsTransfer(id: ActionId) {
    || id == ResourcePoolHostTransferToBusiness || id == ResourcePoolHostTransferToDirectory
    || id == BusinessHostTransferToResourcePool || id == HostTransferAcrossBusiness
  }

  predicate IsHostAction(id: ActionId) {
    || IsTransfer(id) || id == CreateResourcePoolHost || id == EditResourcePoolHost || id == DeleteResourcePoolHost
    || id == EditBusinessHost
  }

  lemma HostMapped(verb: Meta.Action, id: ActionId)
    requires Mapped(Meta.HostInstance, verb, id)
    ensures Known(id)
    ensures IsHostAction(id)
    ensures KindFits(Meta.HostInstance, verb, DeclaredKind(id))
  {
  }

  lemma OwnRulesEdit(kind: Meta.Kind, verb: Meta.Action, bizId: int)
    ensures OwnRule(kind, verb, bizId).Some? ==>
      var id := OwnRule(kind, verb, bizId).value;
      Known(id) && KindFits(kind, verb, DeclaredKind(id))
  {
  }

  lemma NoOwnRule(kind: Meta.Kind, action: Meta.Action, bizId: int, id: ActionId)
    requires ConvertResourceAction(kind, action, bizId) == Ok(id) && id != Skip
    requires OwnRule(kind, SingleForm(action), bizId) == None
    ensures Mapped(kind, SingleForm(action), id)
  {
  }

  lemma UnusedMapped(kind: Meta.Kind, verb: Meta.Action, id: ActionId)
    requires kind.ModelInstanceTopology? || kind.HostFavorite? || kind.UserCustom? || kind.NetDataCollector? || kind.InstallBK?
             || kind.SystemConfig? || kind.MainlineModelTopology? || kind.MainlineInstanceTopology? || kind.OtherKind?
    ensures !Mapped(kind, verb, id)
  {
  }

  // The permission that a request needs is of the kind its verb asks for: an update never passes on the
  // permission to view, and nothing but a deletion needs the permission to delete. Only reads need none,
  // and whatever is done to six kinds that nobody checks.
  lemma PermissionFitsVerb(kind: Meta.Kind, action: Meta.Action, bizId: int, id: ActionId)
    requires ConvertResourceAction(kind, action, bizId) == Ok(id)
    ensures id == Skip ==>
      || action.SkipAction? || action.Find? || action.FindMany?
      || kind.UserCustom? || kind.ModelInstanceTopology? || kind.HostFavorite? || kind.MainlineInstanceTopology?
      || kind.InstallBK? || kind.SystemConfig?
    ensures id != Skip ==> Known(id) && KindFits(kind, SingleForm(action), DeclaredKind(id))
  {
    if id == Skip {
      ActionRule.OnlyReadsAreFree(kind, action, bizId);
      return;
    }
    var verb := SingleForm(action);
    OwnRulesEdit(kind, verb, bizId);
    if OwnRule(kind, verb, bizId) == None {
      NoOwnRule(kind, action, bizId, id);
      TableFitsVerb(kind, verb, bizId, id);
    }
  }

  lemma TableFitsVerb(kind: Meta.Kind, verb: Meta.Action, bizId: int, id: ActionId)
    requires Mapped(kind, verb, id) && OwnRule(kind, verb, bizId) == None
    ensures Known(id) && KindFits(kind, verb, DeclaredKind(id))
  {
    if RelatesToNothing(kind) {
      NothingMapped(kind, verb, id);
    } else if RelatesToBusiness(kind) {
      BusinessMapped(kind, verb, id);
    } else if OwnRow(kind).Some? {
      OwnRowMapped(kind, verb, id);
    } else if IsTemplate(kind) {
      TemplateMapped(kind, verb, id);
    } else if kind.DynamicGrouping? {
      DynamicGroupMapped(verb, id);
    } else if IsModel(kind) {
      ModelMapped(kind, verb, bizId, id);
    } else if IsModelInstance(kind) {
      ModelInstanceMapped(kind, verb, id);
    } else if kind.HostInstance? {
      HostMapped(verb, id);
    } else {
      UnusedMapped(kind, verb, id);
    }
  }

  /******* What the request carries *******/

  // A model or an instance is to be created and no layer says where.
  predicate MissesLayer(a: Meta.ResourceAttribute) {
    a.layers == [] && (a.action.Create? || a.action.CreateMany?) && (a.kind.Model? || a.kind.ModelInstance?)
  }

  ghost predicate Conforms(a: Meta.ResourceAttribute, action: ActionId, resources: seq<Resource>) {
    && (KindsOf(resources) == Declared(action) <==> !MissesLayer(a))
    && (forall r <- resources :: r.path == ExpectedPath(a, action))
  }

  ghost predicate Adapted(a: Meta.ResourceAttribute, action: ActionId, resources: seq<Resource>) {
    Adapt(a) == Ok((action, resources)) && action != Skip
  }

  // The part of `Adapt` that comes after the action is chosen.
  ghost predicate Generated(a: Meta.ResourceAttribute, t: TypeId, action: ActionId, resources: seq<Resource>) {
    && ConvertResourceType(a.kind, a.businessId) == Ok(t)
    && GenIamResource(action, t, a) == Ok(resources) && action != Skip
  }

  lemma DeclaredIs(action: ActionId)
    ensures Declared(action)
         == match RelationsOf(action) case Nothing => [] case One(r) => [r.t] case Two(r, s) => [r.t, s.t]
  {
  }

  lemma KindsAre(r: Resource, s: Resource)
    ensures KindsOf([]) == [] && KindsOf([r]) == [r.kind] && KindsOf([r, s]) == [r.kind, s.kind]
  {
  }

  lemma OneOnly<T>(x: T, y: T)
    ensures [x] == [y] <==> x == y
  {
    assert [x][0] == x;
  }

  lemma NoneConforms(a: Meta.ResourceAttribute, action: ActionId)
    requires RelationsOf(action) == Nothing && !MissesLayer(a)
    ensures Conforms(a, action, [])
  {
    DeclaredIs(action);
  }

  lemma OneConforms(a: Meta.ResourceAttribute, action: ActionId, r: Resource)
    requires RelationsOf(action).One? && (RelationsOf(action).only.t == r.kind <==> !MissesLayer(a))
    requires r.path == ExpectedPath(a, action)
    ensures Conforms(a, action, [r])
  {
    DeclaredIs(action);
    KindsAre(r, r);
    OneOnly(r.kind, RelationsOf(action).only.t);
  }

  lemma TwoConform(a: Meta.ResourceAttribute, action: ActionId, r: Resource, s: Resource)
    requires RelationsOf(action).Two? && RelationsOf(action).first.t == r.kind && RelationsOf(action).second.t == s.kind
    requires r.path == s.path == None && !MissesLayer(a)
    ensures Conforms(a, action, [r, s])
  {
    DeclaredIs(action);
    KindsAre(r, s);
  }

  lemma NothingShape(a: Meta.ResourceAttribute, t: TypeId, action: ActionId, resources: seq<Resource>)
    requires RelatesToNothing(a.kind) && Generated(a, t, action, resources)
    ensures resources == [] && !MissesLayer(a)
  {
  }

  lemma NothingConforms(a: Meta.ResourceAttribute, t: TypeId, action: ActionId, resources: seq<Resource>)
    requires RelatesToNothing(a.kind) && Generated(a, t, action, resources) && RelationsOf(action) == Nothing
    ensures Conforms(a, action, resources)
  {
    NothingShape(a, t, action, resources);
    NoneConforms(a, action);
  }

  // A resource without a path, for an action without a level above.
  lemma PlainConforms(a: Meta.ResourceAttribute, action: ActionId, r: Resource)
    requires RelatesTo(action, r.kind) && DeclaredParent(action) == None && r.path == None && !MissesLayer(a)
    ensures Conforms(a, action, [r])
  {
    OneConforms(a, action, r);
  }

  lemma BusinessShape(a: Meta.ResourceAttribute, t: TypeId, action: ActionId, resources: seq<Resource>)
    requires (RelatesToBusiness(a.kind) || a.kind.MainlineInstanceTopology?) && Generated(a, t, action, resources)
    ensures resources == [InBusiness(a)] && !MissesLayer(a)
  {
  }

  lemma TemplateShape(a: Meta.ResourceAttribute, t: TypeId, action: ActionId, resources: seq<Resource>)
    requires IsTemplate(a.kind) && Generated(a, t, action, resources)
    ensures |resources| == 1 && resources == [resources[0]] && resources[0].path == None && !MissesLayer(a)
    ensures resources[0].kind == if action == CreationOfTemplate(a.kind) then Business
                                 else if a.kind.SetTemplate? then BizSetTemplate else BizProcessServiceTemplate
  {
  }

  lemma OwnRowShape(a: Meta.ResourceAttribute, t: TypeId, action: ActionId, resources: seq<Resource>)
    requires OwnRow(a.kind).Some? && Generated(a, t, action, resources)
    ensures !MissesLayer(a)
    ensures if action == OwnRow(a.kind).value.0 then resources == []
            else |resources| == 1 && resources == [resources[0]] && resources[0].kind == OwnRow(a.kind).value.1
                 && resources[0].path == None
  {
  }

  lemma DynamicGroupShape(a: Meta.ResourceAttribute, t: TypeId, action: ActionId, resources: seq<Resource>)
    requires a.kind.DynamicGrouping? && Generated(a, t, action, resources)
    ensures |resources| == 1 && resources == [resources[0]] && !MissesLayer(a)
    ensures resources[0].kind == if OnWholeBusiness(action) then Business else BizCustomQuery
    ensures resources[0].path == if OnWholeBusiness(action) then None else Some([PathOf(Business, a.businessId)])
  {
  }

  lemma DynamicGroupConforms(a: Meta.ResourceAttribute, t: TypeId, action: ActionId, resources: seq<Resource>)
    requires a.kind.DynamicGrouping? && Generated(a, t, action, resources)
    requires RelatesTo(action, if OnWholeBusiness(action) then Business else BizCustomQuery)
    requires OnWholeBusiness(action) || action == EditBusinessCustomQuery || action == DeleteBusinessCustomQuery
    ensures Conforms(a, action, resources)
  {
    DynamicGroupShape(a, t, action, resources);
    ParentIsLevelAbove(action);
    OneConforms(a, action, resources[0]);
  }

  lemma ModelShape(a: Meta.ResourceAttribute, t: TypeId, action: ActionId, resources: seq<Resource>)
    requires IsModel(a.kind) && Generated(a, t, action, resources)
    requires action == CreateSysModel <==> a.kind.Model? && SingleForm(a.action).Create?
    ensures |resources| == 1 && resources == [resources[0]] && resources[0].path == None
    ensures resources[0].kind
         == if MissesLayer(a) then SysModel
            else if action == CreateSysModel then SysModelGroup
            else if a.businessId > 0 && (a.kind.ModelAttribute? || a.kind.ModelAttributeGroup?) then Business
            else SysModel
    ensures MissesLayer(a) ==> action == CreateSysModel
  {
  }

  lemma ModelInstanceConforms(a: Meta.ResourceAttribute, t: TypeId, action: ActionId, resources: seq<Resource>)
    requires IsModelInstance(a.kind) && Generated(a, t, action, resources)
    requires action == CreateSysInstance <==> a.kind.ModelInstance? && SingleForm(a.action).Create?
    requires RelatesTo(action, if action == CreateSysInstance then SysInstanceModel else SysInstance)
    requires (action.Creating? || action.Editing? || action.Deleting?) && action.subject == SysInstances
    ensures Conforms(a, action, resources)
  {
    ParentIsLevelAbove(action);
    OneConforms(a, action, resources[0]);
  }

  lemma TransferShape(a: Meta.ResourceAttribute, t: TypeId, action: ActionId, resources: seq<Resource>)
    requires a.kind.HostInstance? && Generated(a, t, action, resources) && IsTransfer(action)
    ensures |resources| == 2 && resources == [resources[0], resources[1]] && RelationsOf(action).Two?
    ensures resources[0].kind == RelationsOf(action).first.t && resources[1].kind == RelationsOf(action).second.t
    ensures resources[0].path == resources[1].path == None
  {
  }

  lemma PoolHostShape(a: Meta.ResourceAttribute, t: TypeId, resources: seq<Resource>)
    requires a.kind.HostInstance? && Generated(a, t, CreateResourcePoolHost, resources)
    ensures |resources| == 1 && resources == [resources[0]]
    ensures resources[0].kind == SysResourcePoolDirectory && resources[0].path == None
  {
  }

  lemma HostUnderConforms(a: Meta.ResourceAttribute, action: ActionId, parent: TypeId)
    requires a.kind.HostInstance? && RelatesTo(action, Host) && DeclaredParent(action) == Some(parent)
    ensures Conforms(a, action, [HostUnder(parent, Host, a)])
  {
    OneConforms(a, action, HostUnder(parent, Host, a));
  }

  lemma TransferConforms(a: Meta.ResourceAttribute, t: TypeId, action: ActionId, resources: seq<Resource>)
    requires a.kind.HostInstance? && Generated(a, t, action, resources) && IsTransfer(action)
    ensures Conforms(a, action, resources)
  {
    TransferShape(a, t, action, resources);
    TwoConform(a, action, resources[0], resources[1]);
  }

  lemma PoolHostConforms(a: Meta.ResourceAttribute, t: TypeId, resources: seq<Resource>)
    requires a.kind.HostInstance? && Generated(a, t, CreateResourcePoolHost, resources)
    ensures Conforms(a, CreateResourcePoolHost, resources)
  {
    PoolHostShape(a, t, resources);
    ParentByType(CreateResourcePoolHost, SysResourcePoolDirectory);
    PlainConforms(a, CreateResourcePoolHost, resources[0]);
  }

  lemma HostEditShape(a: Meta.ResourceAttribute, t: TypeId, action: ActionId, resources: seq<Resource>)
    requires a.kind.HostInstance? && Generated(a, t, action, resources)
    requires action == EditResourcePoolHost || action == DeleteResourcePoolHost || action == EditBusinessHost
    ensures resources == [HostUnder(if action == EditBusinessHost then Business else SysHostRscPoolDirectory, Host, a)]
    ensures RelatesTo(action, Host)
  {
  }

  lemma HostEditConforms(a: Meta.ResourceAttribute, t: TypeId, action: ActionId, resources: seq<Resource>)
    requires a.kind.HostInstance? && Generated(a, t, action, resources)
    requires action == EditResourcePoolHost || action == DeleteResourcePoolHost || action == EditBusinessHost
    ensures Conforms(a, action, resources)
  {
    HostEditShape(a, t, action, resources);
    ParentIsLevelAbove(action);
    HostUnderConforms(a, action, if action == EditBusinessHost then Business else SysHostRscPoolDirectory);
  }

  lemma HostConforms(a: Meta.ResourceAttribute, t: TypeId, action: ActionId, resources: seq<Resource>)
    requires a.kind.HostInstance? && Generated(a, t, action, resources) && IsHostAction(action)
    ensures Conforms(a, action, resources)
  {
    if IsTransfer(action) {
      TransferConforms(a, t, action, resources);
    } else if action == CreateResourcePoolHost {
      PoolHostConforms(a, t, resources);
    } else {
      HostEditConforms(a, t, action, resources);
    }
  }

  lemma AdaptedConforms(a: Meta.ResourceAttribute, action: ActionId, resources: seq<Resource>)
    requires Adapted(a, action, resources)
    ensures Conforms(a, action, resources)
  {
    var t := AdaptedIsGenerated(a, action, resources);
    var verb := SingleForm(a.action);
    if OwnRule(a.kind, verb, a.businessId).Some? {
      OwnRuleConforms(a, t, action, resources);
    } else {
      NoOwnRule(a.kind, a.action, a.businessId, action);
      MappedConforms(a, t, action, resources);
    }
  }

  lemma AdaptedIsGenerated(a: Meta.ResourceAttribute, action: ActionId, resources: seq<Resource>) returns (t: TypeId)
    requires Adapted(a, action, resources)
    ensures Generated(a, t, action, resources) && ConvertResourceAction(a.kind, a.action, a.businessId) == Ok(action)
  {
    t := ConvertResourceType(a.kind, a.businessId).value;
  }

  lemma OwnRuleConforms(a: Meta.ResourceAttribute, t: TypeId, action: ActionId, resources: seq<Resource>)
    requires OwnRule(a.kind, SingleForm(a.action), a.businessId) == Some(action) && Generated(a, t, action, resources)
    ensures Conforms(a, action, resources)
  {
    ParentIsLevelAbove(action);
    if a.kind.HostInstance? {
      HostConforms(a, t, action, resources);
    } else {
      ModelShape(a, t, action, resources);
      PlainConforms(a, action, resources[0]);
    }
  }

  // Only these types are picked under another one that counts.
  lemma ParentByType(id: ActionId, t: TypeId)
    requires RelatesTo(id, t)
    ensures t != Host && t != BizCustomQuery && t != SysInstance ==> DeclaredParent(id) == None
  {
  }

  lemma BusinessAdapted(a: Meta.ResourceAttribute, t: TypeId, action: ActionId, resources: seq<Resource>)
    requires RelatesToBusiness(a.kind) && Mapped(a.kind, SingleForm(a.action), action) && Generated(a, t, action, resources)
    ensures Conforms(a, action, resources)
  {
    BusinessMapped(a.kind, SingleForm(a.action), action);
    ParentByType(action, Business);
    BusinessShape(a, t, action, resources);
    PlainConforms(a, action, resources[0]);
  }

  lemma OwnRowConforms(a: Meta.ResourceAttribute, t: TypeId, action: ActionId, resources: seq<Resource>)
    requires Generated(a, t, action, resources) && FitsOwnRow(a.kind, SingleForm(a.action), action)
    ensures Conforms(a, action, resources)
  {
    OwnRowShape(a, t, action, resources);
    if resources == [] {
      NoneConforms(a, action);
    } else {
      ParentByType(action, resources[0].kind);
      PlainConforms(a, action, resources[0]);
    }
  }

  lemma TemplateAdapted(a: Meta.ResourceAttribute, t: TypeId, action: ActionId, resources: seq<Resource>)
    requires IsTemplate(a.kind) && Mapped(a.kind, SingleForm(a.action), action) && Generated(a, t, action, resources)
    ensures Conforms(a, action, resources)
  {
    TemplateMapped(a.kind, SingleForm(a.action), action);
    TemplateShape(a, t, action, resources);
    ParentByType(action, resources[0].kind);
    PlainConforms(a, action, resources[0]);
  }

  lemma ModelConforms(a: Meta.ResourceAttribute, t: TypeId, action: ActionId, resources: seq<Resource>)
    requires a.kind.Model? || a.kind.ModelAssociation? || a.kind.ModelUnique?
    requires Generated(a, t, action, resources)
    requires RelatesTo(action, if action == CreateSysModel then SysModelGroup else SysModel)
    requires action == CreateSysModel <==> a.kind.Model? && SingleForm(a.action).Create?
    ensures Conforms(a, action, resources)
  {
    ModelShape(a, t, action, resources);
    ParentByType(action, if action == CreateSysModel then SysModelGroup else SysModel);
    OneConforms(a, action, resources[0]);
  }

  lemma MappedConforms(a: Meta.ResourceAttribute, t: TypeId, action: ActionId, resources: seq<Resource>)
    requires Mapped(a.kind, SingleForm(a.action), action) && OwnRule(a.kind, SingleForm(a.action), a.businessId) == None
    requires Generated(a, t, action, resources)
    ensures Conforms(a, action, resources)
  {
    var verb := SingleForm(a.action);
    if RelatesToNothing(a.kind) {
      NothingMapped(a.kind, verb, action);
      NothingConforms(a, t, action, resources);
    } else if RelatesToBusiness(a.kind) {
      BusinessAdapted(a, t, action, resources);
    } else if OwnRow(a.kind).Some? {
      OwnRowMapped(a.kind, verb, action);
      OwnRowConforms(a, t, action, resources);
    } else if IsTemplate(a.kind) {
      TemplateAdapted(a, t, action, resources);
    } else if a.kind.DynamicGrouping? {
      DynamicGroupMapped(verb, action);
      DynamicGroupConforms(a, t, action, resources);
    } else if IsModel(a.kind) {
      ModelMapped(a.kind, verb, a.businessId, action);
      ModelConforms(a, t, action, resources);
    } else if IsModelInstance(a.kind) {
      ModelInstanceMapped(a.kind, verb, action);
      ModelInstanceConforms(a, t, action, resources);
    } else if a.kind.HostInstance? {
      HostMapped(verb, action);
      HostConforms(a, t, action, resources);
    } else {
      UnusedMapped(a.kind, verb, action);
    }
  }

  // What `Adapt` produces has the declared types in the declared order, exactly unless a model or an
  // instance is to be created and no layer says where.
  lemma AdaptConforms(a: Meta.ResourceAttribute)
    requires Adapt(a).Ok? && Adapt(a).value.0 != Skip
    ensures
      var (action, resources) := Adapt(a).value;
      KindsOf(resources) == Declared(action)
      <==> !(a.layers == [] && (a.action.Create? || a.action.CreateMany?) && (a.kind.Model? || a.kind.ModelInstance?))
  {
    var (action, resources) := Adapt(a).value;
    AdaptedConforms(a, action, resources);
  }

  // Such a request: it asks about the model itself where the action declares a model group.
  lemma ModelWithoutGroup(a: Meta.ResourceAttribute)
    requires a.kind.Model? && a.action.Create? && a.layers == []
    ensures Adapt(a) == Ok((CreateSysModel, [Resource(SysModel, "", None)]))
    ensures Declared(CreateSysModel) == [SysModelGroup]
  {
    assert ConvertResourceAction(a.kind, a.action, a.businessId) == Ok(CreateSysModel);
    assert GenIamResource(CreateSysModel, SysModel, a) == Ok([Resource(SysModel, "", None)]);
    DeclaredIs(CreateSysModel);
  }

  // A path is sent exactly for the actions whose selection leads through one parent type and counts for
  // authorization, and it names that parent: `DeclaredParent` is read off the selection's chain.
  lemma PathsFollowSelections(a: Meta.ResourceAttribute, r: Resource)
    requires Adapt(a).Ok? && Adapt(a).value.0 != Skip && r in Adapt(a).value.1
    ensures r.path == ExpectedPath(a, Adapt(a).value.0)
  {
    var (action, resources) := Adapt(a).value;
    AdaptedConforms(a, action, resources);
  }

  /******* Whose ids the resources carry *******/

  datatype Entity = Itself | ItsBusiness | ItsLayer

  // The entity of type `t` that the attribute is about: itself when it is of the type, else its business
  // or the layer that stands for it.
  function EntityOf(kind: Meta.Kind, t: TypeId): Entity {
    match t
    case Business => if kind == Meta.Business then Itself else if kind == Meta.HostInstance then ItsLayer else ItsBusiness
    case SysModel => if kind == Meta.Model || kind == Meta.ModelAssociation then Itself else ItsLayer
    case SysModelGroup => if kind == Meta.ModelClassification then Itself else ItsLayer
    case SysResourcePoolDirectory => if kind == Meta.ResourcePoolDirectory then Itself else ItsLayer
    case SysInstanceModel | SysHostRscPoolDirectory | BusinessForHostTrans => ItsLayer
    case _ => Itself
  }

  // A model that is created, and an instance, are only named together with a layer.
  predicate NeedsLayer(act: ActionId, kind: Meta.Kind) {
    || ((kind.Model? || kind.ModelAssociation?) && act == CreateSysModel)
    || kind.ModelInstance? || kind.ModelInstanceAssociation?
  }

  // The id is the decimal text of the number; that of the attribute itself or of its business only when it
  // is positive, save for cloud accounts and instances of models. A dynamic group has a text of its own.
  ghost predicate NamesEntity(act: ActionId, a: Meta.ResourceAttribute, r: Resource, i: nat) {
    if r.kind == BizCustomQuery then r.id == a.instanceIdEx
    else
      match EntityOf(a.kind, r.kind)
      case ItsLayer => r.id == if i < |a.layers| then FormatInt(a.layers[i].instanceId) else ""
      case ItsBusiness => r.id == if a.businessId > 0 then FormatInt(a.businessId) else ""
      case Itself =>
        if NeedsLayer(act, a.kind) && a.layers == [] then r.id == ""
        else if a.kind.CloudAccount? || a.kind.ModelInstance? || a.kind.ModelInstanceAssociation? then
          r.id == FormatInt(a.instanceId)
        else r.id == if a.instanceId > 0 then FormatInt(a.instanceId) else ""
  }

  // Every resource carries the id of the entity of its own type, or no id where there is none to name.
  lemma IdsFitTheirTypes(act: ActionId, t: TypeId, a: Meta.ResourceAttribute, i: nat)
    requires ConvertResourceType(a.kind, a.businessId) == Ok(t) && act != Skip
    requires GenIamResource(act, t, a).Ok? && i < |GenIamResource(act, t, a).value|
    ensures NamesEntity(act, a, GenIamResource(act, t, a).value[i], i)
  {
    if a.kind.HostInstance? {
      HostIdsFit(act, a, i);
    } else if OwnRow(a.kind).Some? {
      OwnIdsFit(act, t, a, i);
    } else if IsModel(a.kind) {
      ModelIdsFit(act, t, a, i);
    } else if IsModelInstance(a.kind) {
      ModelInstanceIdsFit(act, t, a, i);
    } else if IsTemplate(a.kind) {
      TemplateIdsFit(act, t, a, i);
    } else if a.kind.DynamicGrouping? {
      DynamicGroupIdsFit(act, t, a, i);
    } else if RelatesToBusiness(a.kind) || a.kind.MainlineInstanceTopology? {
      BusinessIdsFit(act, t, a, i);
    } else {
      NothingGenerated(act, t, a);
    }
  }

  lemma OwnIdsFit(act: ActionId, t: TypeId, a: Meta.ResourceAttribute, i: nat)
    requires OwnRow(a.kind).Some? && ConvertResourceType(a.kind, a.businessId) == Ok(t) && act != Skip
    requires GenIamResource(act, t, a).Ok? && i < |GenIamResource(act, t, a).value|
    ensures NamesEntity(act, a, GenIamResource(act, t, a).value[i], i)
  {
    var resources := GenIamResource(act, t, a).value;
    OwnRowIs(act, t, a);
    assert resources[i] == resources[0];
  }

  lemma OwnRowIs(act: ActionId, t: TypeId, a: Meta.ResourceAttribute)
    requires OwnRow(a.kind).Some? && ConvertResourceType(a.kind, a.businessId) == Ok(t) && act != Skip
    requires GenIamResource(act, t, a).Ok? && GenIamResource(act, t, a).value != []
    ensures GenIamResource(act, t, a).value == [if a.kind.CloudAccount? then Resource(t, FormatInt(a.instanceId), None) else Instance(t, a)]
    ensures EntityOf(a.kind, t) == Itself && t != BizCustomQuery && !NeedsLayer(act, a.kind)
  {
  }

  lemma BusinessIdsFit(act: ActionId, t: TypeId, a: Meta.ResourceAttribute, i: nat)
    requires (RelatesToBusiness(a.kind) || a.kind.MainlineInstanceTopology?) && ConvertResourceType(a.kind, a.businessId) == Ok(t) && act != Skip
    requires GenIamResource(act, t, a).Ok? && i < |GenIamResource(act, t, a).value|
    ensures NamesEntity(act, a, GenIamResource(act, t, a).value[i], i)
  {
    BusinessShape(a, t, act, GenIamResource(act, t, a).value);
  }

  lemma TemplateIdsFit(act: ActionId, t: TypeId, a: Meta.ResourceAttribute, i: nat)
    requires IsTemplate(a.kind) && ConvertResourceType(a.kind, a.businessId) == Ok(t) && act != Skip
    requires GenIamResource(act, t, a).Ok? && i < |GenIamResource(act, t, a).value|
    ensures NamesEntity(act, a, GenIamResource(act, t, a).value[i], i)
  {
  }

  lemma DynamicGroupIdsFit(act: ActionId, t: TypeId, a: Meta.ResourceAttribute, i: nat)
    requires a.kind.DynamicGrouping? && ConvertResourceType(a.kind, a.businessId) == Ok(t) && act != Skip
    requires GenIamResource(act, t, a).Ok? && i < |GenIamResource(act, t, a).value|
    ensures NamesEntity(act, a, GenIamResource(act, t, a).value[i], i)
  {
  }

  lemma NothingGenerated(act: ActionId, t: TypeId, a: Meta.ResourceAttribute)
    requires OwnRow(a.kind).None? && !IsModel(a.kind) && !IsModelInstance(a.kind) && !a.kind.HostInstance?
    requires !RelatesToBusiness(a.kind) && !a.kind.MainlineInstanceTopology? && !IsTemplate(a.kind) && !a.kind.DynamicGrouping?
    requires GenIamResource(act, t, a).Ok? && act != Skip
    ensures GenIamResource(act, t, a).value == []
  {
  }

  lemma ModelIdsFit(act: ActionId, t: TypeId, a: Meta.ResourceAttribute, i: nat)
    requires IsModel(a.kind) && ConvertResourceType(a.kind, a.businessId) == Ok(t) && act != Skip
    requires GenIamResource(act, t, a).Ok? && i < |GenIamResource(act, t, a).value|
    ensures NamesEntity(act, a, GenIamResource(act, t, a).value[i], i)
  {
  }

  lemma ModelInstanceIdsFit(act: ActionId, t: TypeId, a: Meta.ResourceAttribute, i: nat)
    requires IsModelInstance(a.kind) && ConvertResourceType(a.kind, a.businessId) == Ok(t) && act != Skip
    requires GenIamResource(act, t, a).Ok? && i < |GenIamResource(act, t, a).value|
    ensures NamesEntity(act, a, GenIamResource(act, t, a).value[i], i)
  {
  }

  lemma HostIdsFit(act: ActionId, a: Meta.ResourceAttribute, i: nat)
    requires a.kind.HostInstance? && act != Skip
    requires GenHostInstance(act, Host, a).Ok? && i < |GenHostInstance(act, Host, a).value|
    ensures NamesEntity(act, a, GenHostInstance(act, Host, a).value[i], i)
  {
  }

  /******* Against the registry *******/

  // On a registry that a successful `RegisterSystem` left, every adapted request names a registered
  // action of the kind that its verb asks for, and its resources are of registered types; they are the
  // types registered for the action exactly unless a layer is missing.
  lemma RequestsMeetRegistry(host: string, registry: Registry, a: Meta.ResourceAttribute)
    requires Converged(GeneratedTables(), host, registry)
    requires Adapt(a).Ok? && Adapt(a).value.0 != Skip
    ensures
      var (action, resources) := Adapt(a).value;
      && ActionKey(action) in registry.entries
      && registry.entries[ActionKey(action)] == ActionEntry(Row(action))
      && KindFits(a.kind, SingleForm(a.action), Row(action).kind)
      && (KindsOf(resources) == RelatedIds(Row(action)) <==> !MissesLayer(a))
      && forall r <- resources :: TypeKey(r.kind) in registry.entries
  {
    var (action, resources) := Adapt(a).value;
    AdaptedConforms(a, action, resources);
    PermissionFitsVerb(a.kind, a.action, a.businessId, action);
    RegisteredAction(host, registry, action);
    forall r | r in resources
      ensures TypeKey(r.kind) in registry.entries
    {
      ResourceTypesAreRows(a, action, resources, r);
      RegisteredType(host, registry, r.kind);
    }
  }

  // The type of a resource is a declared one, or that of the model or instance that misses its layer.
  lemma ResourceTypesAreRows(a: Meta.ResourceAttribute, action: ActionId, resources: seq<Resource>, r: Resource)
    requires Adapted(a, action, resources) && r in resources
    ensures TypePos(r.kind) < 25
  {
    AdaptedConforms(a, action, resources);
    var i :| 0 <= i < |resources| && resources[i] == r;
    if MissesLayer(a) {
      MissingLayerTypes(a, action, resources, i);
    } else {
      assert KindsOf(resources)[i] == r.kind && Related(action)[i].id == r.kind;
      RelatedFit(action);
      assert RelatedOk(Related(action)[i]);
    }
  }

  lemma MissingLayerTypes(a: Meta.ResourceAttribute, action: ActionId, resources: seq<Resource>, i: nat)
    requires Adapted(a, action, resources) && MissesLayer(a) && i < |resources|
    ensures resources[i].kind == SysModel || resources[i].kind == SysInstance
  {
  }

  lemma RegisteredAction(host: string, registry: Registry, action: ActionId)
    requires Converged(GeneratedTables(), host, registry) && Known(action)
    ensures ActionKey(action) in registry.entries && registry.entries[ActionKey(action)] == ActionEntry(Row(action))
  {
    ActionAt(action);
    TablesAreWellFormed();
    assert ActionTable()[ActionPos(action)] == ActionEntry(Row(action));
    WantedHolds(GeneratedTables(), ActionEntry(Row(action)));
  }

  lemma RegisteredType(host: string, registry: Registry, t: TypeId)
    requires Converged(GeneratedTables(), host, registry) && TypePos(t) < 25
    ensures TypeKey(t) in registry.entries
  {
    TypeAt(t);
    TablesAreWellFormed();
    var e := TypeTable()[TypePos(t)];
    assert e in TypeTable() && KeyOf(e) == TypeKey(t);
    WantedHolds(GeneratedTables(), e);
  }
}
