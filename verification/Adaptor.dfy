/**
 How an attribute becomes an IAM action with resources (src/ac/iam/adaptor.go and gen_id.go).
 */
module Adaptor {
  import opened Common
  import opened IamTypes
  import opened Text
  import Meta

  // types.Resource. `path` is the value of the IAM path attribute, when the resource has one.
  datatype Resource = Resource(kind: TypeId, id: string, path: Option<seq<string>>)

  /******* Paths *******/

  function TypeText(t: TypeId): string {
    match t
    case SysEventPushing => "sys_event_pushing"
    case SysModelGroup => "sys_model_group"
    case SysInstanceModel => "sys_instance_model"
    case SysModel => "sys_model"
    case SysInstance => "sys_instance"
    case SysAssociationType => "sys_association_type"
    case SysAuditLog => "sys_audit_log"
    case SysOperationStatistic => "sys_operation_statistic"
    case SysResourcePoolDirectory => "sys_resource_pool_directory"
    case SysHostRscPoolDirectory => "sys_host_rsc_pool_directory"
    case SysCloudArea => "sys_cloud_area"
    case SysCloudAccount => "sys_cloud_account"
    case SysCloudResourceTask => "sys_cloud_resource_task"
    case SysEventWatch => "event_watch"
    case Host => "host"
    case UserCustom => "usercustom"
    case SkipType => "skip_type"
    case Business => "biz"
    case BusinessForHostTrans => "biz_for_host_trans"
    case BizCustomQuery => "biz_custom_query"
    case BizTopology => "biz_topology"
    case BizCustomField => "biz_custom_field"
    case BizProcessServiceTemplate => "biz_process_service_template"
    case BizProcessServiceCategory => "biz_process_service_category"
    case BizProcessServiceInstance => "biz_process_service_instance"
    case BizSetTemplate => "biz_set_template"
    case BizHostApply => "biz_host_apply"
    case NoType => ""
    case OtherType(name) => name
  }

  // One level of a path: a type and an id.
  function PathOf(t: TypeId, id: int): string {
    "/" + TypeText(t) + "," + FormatInt(id) + "/"
  }

  /******* Actions and types *******/

  // The entries of a kind that knows no other verbs.
  function Crud(verb: Meta.Action, create: Option<ActionId>, update: Option<ActionId>, delete: Option<ActionId>,
                find: Option<ActionId>, findMany: Option<ActionId>): Option<ActionId>
  {
    match verb
    case Create => create
    case Update => update
    case Delete => delete
    case Find => find
    case FindMany => findMany
    case _ => None
  }

  // resourceActionMap
  function MappedAction(kind: Meta.Kind, action: Meta.Action): Option<ActionId> {
    match kind {
      case ModelInstance =>
        Crud(action, Some(CreateSysInstance), Some(EditSysInstance), Some(DeleteSysInstance), Some(Skip), Some(Skip))
      case ModelAttributeGroup | ModelUnique =>
        Crud(action, Some(EditSysModel), Some(EditSysModel), Some(EditSysModel), Some(Skip), Some(Skip))
      case Business =>
        match action {
          case Archive => Some(ArchiveBusiness)
          case Create => Some(CreateBusiness)
          case Update => Some(EditBusiness)
          case Find => Some(FindBusiness)
          case ViewBusinessResource => Some(ViewBusinessResource)
          case _ => None
        }
      case DynamicGrouping =>
        match action {
          case Delete => Some(DeleteBusinessCustomQuery)
          case Update => Some(EditBusinessCustomQuery)
          case Create => Some(CreateBusinessCustomQuery)
          case Find | FindMany | Execute => Some(ViewBusinessResource)
          case _ => None
        }
      case MainlineModel => Crud(action, Some(EditBusinessLayer), None, Some(EditBusinessLayer), Some(Skip), None)
      case ModelTopology => Crud(action, None, Some(EditModelTopologyView), None, Some(EditModelTopologyView), None)
      case MainlineModelTopology => Crud(action, None, None, None, Some(Skip), None)
      case Process =>
        Crud(action, Some(EditBusinessServiceInstance), Some(EditBusinessServiceInstance), Some(EditBusinessServiceInstance), Some(Skip), None)
      case HostInstance =>
        match action {
          case MoveResPoolHostToBizIdleModule => Some(ResourcePoolHostTransferToBusiness)
          case MoveResPoolHostToDirectory => Some(ResourcePoolHostTransferToDirectory)
          case MoveBizHostFromModuleToResPool => Some(BusinessHostTransferToResourcePool)
          case AddHostToResourcePool | Create => Some(CreateResourcePoolHost)
          case Delete => Some(DeleteResourcePoolHost)
          case MoveHostToAnotherBizModule => Some(HostTransferAcrossBusiness)
          case Find | FindMany => Some(Skip)
          case _ => None
        }
      case ProcessServiceCategory =>
        Crud(action, Some(CreateBusinessServiceCategory), Some(EditBusinessServiceCategory), Some(DeleteBusinessServiceCategory), Some(Skip), None)
      case ProcessServiceInstance =>
        Crud(action, Some(CreateBusinessServiceInstance), Some(EditBusinessServiceInstance), Some(DeleteBusinessServiceInstance), Some(Skip), Some(Skip))
      case ProcessServiceTemplate =>
        Crud(action, Some(CreateBusinessServiceTemplate), Some(EditBusinessServiceTemplate), Some(DeleteBusinessServiceTemplate), Some(Skip), Some(Skip))
      case SetTemplate =>
        Crud(action, Some(CreateBusinessSetTemplate), Some(EditBusinessSetTemplate), Some(DeleteBusinessSetTemplate), Some(Skip), Some(Skip))
      case ModelModule | ModelSet | MainlineInstance =>
        Crud(action, Some(CreateBusinessTopology), Some(EditBusinessTopology), Some(DeleteBusinessTopology), Some(Skip), Some(Skip))
      case MainlineInstanceTopology => Crud(action, Some(Skip), Some(Skip), Some(Skip), Some(Skip), None)
      case HostApply =>
        Crud(action, Some(EditBusinessHostApply), Some(EditBusinessHostApply), Some(EditBusinessHostApply), Some(Skip), None)
      case ResourcePoolDirectory =>
        match action {
          case Delete => Some(DeleteResourcePoolDirectory)
          case Update => Some(EditResourcePoolDirectory)
          case Create => Some(CreateResourcePoolDirectory)
          case AddHostToResourcePool => Some(CreateResourcePoolHost)
          case Find => Some(Skip)
          case _ => None
        }
      case CloudAreaInstance =>
        Crud(action, Some(CreateCloudArea), Some(EditCloudArea), Some(DeleteCloudArea), Some(Skip), Some(Skip))
      case EventPushing =>
        Crud(action, Some(CreateEventPushing), Some(EditEventPushing), Some(DeleteEventPushing), Some(FindEventPushing), Some(FindEventPushing))
      case CloudAccount =>
        Crud(action, Some(CreateCloudAccount), Some(EditCloudAccount), Some(DeleteCloudAccount), Some(FindCloudAccount), Some(FindCloudAccount))
      case CloudResourceTask =>
        Crud(action, Some(CreateCloudResourceTask), Some(EditCloudResourceTask), Some(DeleteCloudResourceTask), Some(FindCloudResourceTask), None)
      case Model =>
        Crud(action, Some(CreateSysModel), Some(EditSysModel), Some(DeleteSysModel), Some(Skip), Some(Skip))
      case AssociationType =>
        Crud(action, Some(CreateAssociationType), Some(EditAssociationType), Some(DeleteAssociationType), Some(Skip), Some(Skip))
      case ModelClassification =>
        Crud(action, Some(CreateModelGroup), Some(EditModelGroup), Some(DeleteModelGroup), Some(Skip), Some(Skip))
      case OperationStatistic =>
        Crud(action, Some(EditOperationStatistic), Some(EditOperationStatistic), Some(EditOperationStatistic), Some(FindOperationStatistic), Some(FindOperationStatistic))
      case AuditLog => Crud(action, None, None, None, Some(FindAuditLog), Some(FindAuditLog))
      case SystemBase =>
        match action {
          case ModelTopologyView => Some(EditModelTopologyView)
          case ModelTopologyOperation => Some(EditBusinessLayer)
          case _ => None
        }
      case EventWatch =>
        match action {
          case WatchHost => Some(WatchHostEvent)
          case WatchHostRelation => Some(WatchHostRelationEvent)
          case WatchBiz => Some(WatchBizEvent)
          case WatchSet => Some(WatchSetEvent)
          case WatchModule => Some(WatchModuleEvent)
          case WatchSetTemplate => Some(WatchSetTemplateEvent)
          case WatchProcess => Some(WatchProcessEvent)
          case _ => None
        }
      case UserCustom | ModelInstanceTopology | HostFavorite =>
        Crud(action, Some(Skip), Some(Skip), Some(Skip), Some(Skip), None)
      case ModelInstanceAssociation =>
        Crud(action, Some(EditSysInstance), Some(EditSysInstance), Some(EditSysInstance), Some(Skip), Some(Skip))
      case ModelAssociation =>
        Crud(action, Some(EditSysModel), Some(EditSysModel), Some(EditSysModel), Some(Skip), Some(Skip))
      case ModelAttribute =>
        Crud(action, Some(CreateSysModel), Some(EditSysModel), Some(DeleteSysModel), Some(Skip), None)
      case ProcessTemplate =>
        Crud(action, Some(CreateBusinessServiceTemplate), Some(EditBusinessServiceTemplate), Some(DeleteBusinessServiceTemplate), Some(Skip), None)
      case BizTopology =>
        Crud(action, Some(CreateBusinessTopology), Some(EditBusinessTopology), Some(DeleteBusinessTopology), Some(Skip), None)
      case NetDataCollector =>
        Crud(action, Some(Unsupported), Some(Unsupported), Some(Unsupported), Some(Unsupported), None)
      case InstallBK => Crud(action, None, Some(Skip), None, None, None)
      case SystemConfig => Crud(action, Some(Skip), Some(Skip), Some(Skip), Some(Skip), Some(Skip))
      case ConfigAdmin => Crud(action, Some(Unsupported), Some(GlobalSettings), Some(Unsupported), Some(Skip), None)
      case _ => None
    }
  }

  function SingleForm(action: Meta.Action): Meta.Action {
    match action
    case CreateMany => Meta.Create
    case FindMany => Meta.Find
    case DeleteMany => Meta.Delete
    case UpdateMany => Meta.Update
    case _ => action
  }

  // Attributes of models and hosts have rules of their own for some verbs.
  function OwnRule(kind: Meta.Kind, verb: Meta.Action, businessId: int): Option<ActionId> {
    if (kind == Meta.ModelAttribute || kind == Meta.ModelAttributeGroup)
       && (verb == Meta.Delete || verb == Meta.Update || verb == Meta.Create) then
      Some(if businessId > 0 then EditBusinessCustomField else EditSysModel)
    else if kind == Meta.HostInstance && verb == Meta.Update then
      Some(if businessId > 0 then EditBusinessHost else EditResourcePoolHost)
    else None
  }

  function ConvertResourceAction(kind: Meta.Kind, action: Meta.Action, businessId: int): Result<ActionId> {
    if action == Meta.SkipAction then Ok(Skip)
    else
      match OwnRule(kind, SingleForm(action), businessId)
      case Some(id) => Ok(id)
      case None =>
        match MappedAction(kind, SingleForm(action))
        case Some(id) => if id == Unsupported then Err else Ok(id)
        case None => Err
  }

  function ConvertResourceType(kind: Meta.Kind, businessId: int): Result<TypeId> {
    match kind
    case Business => Ok(Business)
    case Model | ModelUnique | ModelAttributeGroup => Ok(SysModel)
    case ModelAttribute => Ok(if businessId > 0 then BizCustomField else SysModel)
    case ModelModule | ModelSet | MainlineInstance | MainlineInstanceTopology => Ok(BizTopology)
    case MainlineModel | ModelTopology => Ok(NoType)
    case ModelClassification => Ok(SysModelGroup)
    case AssociationType => Ok(SysAssociationType)
    case ModelAssociation => Ok(SysModel)
    case ModelInstanceAssociation => Ok(SysInstance)
    case MainlineModelTopology => Ok(NoType)
    case ModelInstance => Ok(SysInstance)
    case ModelInstanceTopology => Ok(SkipType)
    case CloudAreaInstance => Ok(SysCloudArea)
    case HostInstance => Ok(Host)
    case HostFavorite => Ok(SkipType)
    case Process => Ok(BizProcessServiceInstance)
    case EventPushing => Ok(SysEventPushing)
    case DynamicGrouping => Ok(BizCustomQuery)
    case AuditLog => Ok(SysAuditLog)
    case SystemBase => Ok(NoType)
    case UserCustom => Ok(UserCustom)
    case NetDataCollector => Err
    case ProcessServiceTemplate => Ok(BizProcessServiceTemplate)
    case ProcessServiceCategory => Ok(BizProcessServiceCategory)
    case ProcessServiceInstance => Ok(BizProcessServiceInstance)
    case BizTopology => Ok(BizTopology)
    case SetTemplate => Ok(BizSetTemplate)
    case OperationStatistic => Ok(SysOperationStatistic)
    case HostApply => Ok(BizHostApply)
    case ResourcePoolDirectory => Ok(SysResourcePoolDirectory)
    case CloudAccount => Ok(SysCloudAccount)
    case CloudResourceTask => Ok(SysCloudResourceTask)
    case EventWatch => Ok(SysEventWatch)
    case ConfigAdmin | SystemConfig => Ok(NoType)
    case _ => Err
  }

  /******* Resources *******/

  function IdIfPositive(n: int): string {
    if n > 0 then FormatInt(n) else ""
  }

  // A resource that may stand for one instance.
  function Instance(t: TypeId, a: Meta.ResourceAttribute): Resource {
    Resource(t, IdIfPositive(a.instanceId), None)
  }

  // A resource that stands for the attribute's business.
  function InBusiness(a: Meta.ResourceAttribute): Resource {
    Resource(Business, IdIfPositive(a.businessId), None)
  }

  function Layer(t: TypeId, a: Meta.ResourceAttribute, i: nat): Resource
    requires i < |a.layers|
  {
    Resource(t, FormatInt(a.layers[i].instanceId), None)
  }

  // genBusinessResource, genEventSubscribeResource, genPlat, genCloudResourceTaskResource,
  // genResourcePoolDirectoryResource, genModelClassificationResource and genAssociationTypeResource:
  // creation relates to no instance.
  function InstanceUnlessCreated(act: ActionId, creation: ActionId, t: TypeId, a: Meta.ResourceAttribute): seq<Resource> {
    if act == creation then [] else [Instance(t, a)]
  }

  function GenDynamicGrouping(act: ActionId, t: TypeId, a: Meta.ResourceAttribute): Result<seq<Resource>> {
    if a.businessId <= 0 then Err
    else if act == CreateBusinessCustomQuery || act == ViewBusinessResource then
      Ok([Resource(Business, FormatInt(a.businessId), None)])
    else
      Ok([Resource(t, a.instanceIdEx, Some([PathOf(Business, a.businessId)]))])
  }

  // genServiceTemplateResource and genSetTemplateResource
  function GenTemplate(act: ActionId, creation: ActionId, t: TypeId, a: Meta.ResourceAttribute): Result<seq<Resource>> {
    if act == creation then
      if a.businessId <= 0 then Err else Ok([Resource(Business, FormatInt(a.businessId), None)])
    else
      Ok([Instance(t, a)])
  }

  function GenCloudAccount(act: ActionId, t: TypeId, a: Meta.ResourceAttribute): seq<Resource> {
    if act == CreateCloudAccount then [] else [Resource(t, FormatInt(a.instanceId), None)]
  }

  function GenModel(act: ActionId, t: TypeId, a: Meta.ResourceAttribute): seq<Resource> {
    if act == CreateSysModel then
      if |a.layers| > 0 then [Layer(SysModelGroup, a, 0)] else [Resource(t, "", None)]
    else
      [Instance(t, a)]
  }

  // genModelRelatedResource and genModelAttributeResource
  function GenModelRelated(a: Meta.ResourceAttribute): Result<seq<Resource>> {
    if |a.layers| == 0 then Err else Ok([Layer(SysModel, a, 0)])
  }

  function GenModelInstance(act: ActionId, t: TypeId, a: Meta.ResourceAttribute): seq<Resource> {
    if |a.layers| == 0 then [Resource(t, "", None)]
    else if act == CreateSysInstance then [Layer(SysInstanceModel, a, 0)]
    else [Resource(t, FormatInt(a.instanceId), Some([PathOf(SysInstanceModel, a.layers[0].instanceId)]))]
  }

  function TwoLayers(first: TypeId, second: TypeId, a: Meta.ResourceAttribute): Result<seq<Resource>> {
    if |a.layers| != 2 then Err else Ok([Layer(first, a, 0), Layer(second, a, 1)])
  }

  function HostUnder(parent: TypeId, t: TypeId, a: Meta.ResourceAttribute): Resource {
    Resource(t, IdIfPositive(a.instanceId),
             if |a.layers| > 0 then Some([PathOf(parent, a.layers[0].instanceId)]) else None)
  }

  function GenHostInstance(act: ActionId, t: TypeId, a: Meta.ResourceAttribute): Result<seq<Resource>> {
    if act == Skip then Ok([Resource(t, "", None)])
    else if act == ResourcePoolHostTransferToDirectory then TwoLayers(SysHostRscPoolDirectory, SysResourcePoolDirectory, a)
    else if act == ResourcePoolHostTransferToBusiness then TwoLayers(SysHostRscPoolDirectory, Business, a)
    else if act == BusinessHostTransferToResourcePool then TwoLayers(Business, SysResourcePoolDirectory, a)
    else if act == HostTransferAcrossBusiness then TwoLayers(BusinessForHostTrans, Business, a)
    else if act == CreateResourcePoolHost then
      Ok([if |a.layers| > 0 then Layer(SysResourcePoolDirectory, a, 0) else Resource(SysResourcePoolDirectory, "", None)])
    else if act == EditResourcePoolHost || act == DeleteResourcePoolHost then Ok([HostUnder(SysHostRscPoolDirectory, t, a)])
    else if act == EditBusinessHost then Ok([HostUnder(Business, t, a)])
    else Ok([])
  }

  function GenIamResource(act: ActionId, t: TypeId, a: Meta.ResourceAttribute): Result<seq<Resource>> {
    if act == Skip then Ok([])
    else
      match a.kind
      case Business => Ok(InstanceUnlessCreated(act, CreateBusiness, t, a))
      case DynamicGrouping => GenDynamicGrouping(act, t, a)
      case EventPushing => Ok(InstanceUnlessCreated(act, CreateEventPushing, t, a))
      case EventWatch => Ok([])
      case ProcessServiceTemplate | ProcessTemplate => GenTemplate(act, CreateBusinessServiceTemplate, t, a)
      case SetTemplate => GenTemplate(act, CreateBusinessSetTemplate, t, a)
      case OperationStatistic => Ok([])
      case AuditLog => Ok([])
      case CloudAreaInstance => Ok(InstanceUnlessCreated(act, CreateCloudArea, t, a))
      case HostApply => Ok([InBusiness(a)])
      case CloudAccount => Ok(GenCloudAccount(act, t, a))
      case CloudResourceTask => Ok(InstanceUnlessCreated(act, CreateCloudResourceTask, t, a))
      case ResourcePoolDirectory => Ok(InstanceUnlessCreated(act, CreateResourcePoolDirectory, t, a))
      case ProcessServiceInstance | Process => Ok([InBusiness(a)])
      case ModelModule | ModelSet | MainlineInstance | MainlineInstanceTopology => Ok([InBusiness(a)])
      case Model | ModelAssociation => Ok(GenModel(act, t, a))
      case ModelUnique => GenModelRelated(a)
      case ModelAttributeGroup | ModelAttribute => if a.businessId > 0 then Ok([InBusiness(a)]) else GenModelRelated(a)
      case ModelClassification => Ok(InstanceUnlessCreated(act, CreateModelGroup, t, a))
      case ModelInstance | ModelInstanceAssociation => Ok(GenModelInstance(act, t, a))
      case AssociationType => Ok(InstanceUnlessCreated(act, CreateAssociationType, t, a))
      case ModelInstanceTopology | MainlineModelTopology | UserCustom => Ok([])
      case ConfigAdmin | MainlineModel | ModelTopology | SystemBase => Ok([])
      case HostInstance => GenHostInstance(act, t, a)
      case ProcessServiceCategory => Ok([InBusiness(a)])
      case _ => Err
  }

  // AdaptAuthOptions
  function Adapt(a: Meta.ResourceAttribute): Result<(ActionId, seq<Resource>)> {
    match ConvertResourceAction(a.kind, a.action, a.businessId)
    case Err => Err
    case Ok(action) =>
      match ConvertResourceType(a.kind, a.businessId)
      case Err => Err
      case Ok(t) =>
        match GenIamResource(action, t, a)
        case Err => Err
        case Ok(resources) => Ok((action, resources))
  }
}
