/** The records of the IAM registry and their ids (src/ac/iam/types.go). */
module IamTypes {

  // `NoType` is the empty id; `OtherType` covers ids that this code base does not name.
  datatype TypeId =
    | SysEventPushing | SysModelGroup | SysInstanceModel | SysModel | SysInstance
    | SysAssociationType | SysAuditLog | SysOperationStatistic | SysResourcePoolDirectory
    | SysHostRscPoolDirectory | SysCloudArea | SysCloudAccount | SysCloudResourceTask
    | SysEventWatch | Host | UserCustom | SkipType
    | Business | BusinessForHostTrans | BizCustomQuery | BizTopology | BizCustomField
    | BizProcessServiceTemplate | BizProcessServiceCategory | BizProcessServiceInstance
    | BizSetTemplate | BizHostApply
    | NoType | OtherType(name: string)

  datatype SelectionId =
    | BusinessSelection | BusinessHostTransferSelection | BizHostInstanceSelection
    | BizCustomQuerySelection | BizProcessServiceTemplateSelection | BizSetTemplateSelection
    | SysHostInstanceSelection | SysEventPushingSelection | SysModelGroupSelection
    | SysModelSelection | SysInstanceSelection | SysInstanceModelSelection
    | SysAssociationTypeSelection | SysCloudAreaSelection | SysCloudAccountSelection
    | SysCloudResourceTaskSelection | SysResourcePoolDirectorySelection
    | SysHostRscPoolDirectorySelection
    | OtherSelection(name: string)

  // What most actions are about. An action id of the source is a verb and such a subject.
  datatype Subject =
    | CustomQueries | ServiceCategories | ServiceInstances | ServiceTemplates | SetTemplates | Topologies
    | BusinessHosts | CustomFields | HostApplies | PoolHosts | PoolDirectories | Businesses | CloudAreas
    | SysInstances | EventPushings | CloudAccounts | CloudTasks | SysModels | AssociationTypes
    | ModelGroups | BusinessLayers | TopologyViews | Statistics | AuditLogs | Settings

  datatype WatchedEvent = OfHost | OfHostRelation | OfBiz | OfSet | OfModule | OfSetTemplate | OfProcess

  datatype ActionId =
    | Creating(subject: Subject) | Editing(subject: Subject) | Deleting(subject: Subject) | Finding(subject: Subject)
    | Watching(event: WatchedEvent)
    | BusinessHostTransferToResourcePool | HostTransferAcrossBusiness
    | ResourcePoolHostTransferToBusiness | ResourcePoolHostTransferToDirectory
    | ArchiveBusiness | ViewBusinessResource
    | Unsupported | Skip | OtherAction(name: string)

  const EditBusinessHost := Editing(BusinessHosts)
  const CreateBusinessCustomQuery := Creating(CustomQueries)
  const EditBusinessCustomQuery := Editing(CustomQueries)
  const DeleteBusinessCustomQuery := Deleting(CustomQueries)
  const EditBusinessCustomField := Editing(CustomFields)
  const CreateBusinessServiceCategory := Creating(ServiceCategories)
  const EditBusinessServiceCategory := Editing(ServiceCategories)
  const DeleteBusinessServiceCategory := Deleting(ServiceCategories)
  const CreateBusinessServiceInstance := Creating(ServiceInstances)
  const EditBusinessServiceInstance := Editing(ServiceInstances)
  const DeleteBusinessServiceInstance := Deleting(ServiceInstances)
  const CreateBusinessServiceTemplate := Creating(ServiceTemplates)
  const EditBusinessServiceTemplate := Editing(ServiceTemplates)
  const DeleteBusinessServiceTemplate := Deleting(ServiceTemplates)
  const CreateBusinessSetTemplate := Creating(SetTemplates)
  const EditBusinessSetTemplate := Editing(SetTemplates)
  const DeleteBusinessSetTemplate := Deleting(SetTemplates)
  const CreateBusinessTopology := Creating(Topologies)
  const EditBusinessTopology := Editing(Topologies)
  const DeleteBusinessTopology := Deleting(Topologies)
  const EditBusinessHostApply := Editing(HostApplies)
  const CreateResourcePoolHost := Creating(PoolHosts)
  const EditResourcePoolHost := Editing(PoolHosts)
  const DeleteResourcePoolHost := Deleting(PoolHosts)
  const CreateResourcePoolDirectory := Creating(PoolDirectories)
  const EditResourcePoolDirectory := Editing(PoolDirectories)
  const DeleteResourcePoolDirectory := Deleting(PoolDirectories)
  const CreateBusiness := Creating(Businesses)
  const EditBusiness := Editing(Businesses)
  const FindBusiness := Finding(Businesses)
  const CreateCloudArea := Creating(CloudAreas)
  const EditCloudArea := Editing(CloudAreas)
  const DeleteCloudArea := Deleting(CloudAreas)
  const CreateSysInstance := Creating(SysInstances)
  const EditSysInstance := Editing(SysInstances)
  const DeleteSysInstance := Deleting(SysInstances)
  const CreateEventPushing := Creating(EventPushings)
  const EditEventPushing := Editing(EventPushings)
  const DeleteEventPushing := Deleting(EventPushings)
  const FindEventPushing := Finding(EventPushings)
  const CreateCloudAccount := Creating(CloudAccounts)
  const EditCloudAccount := Editing(CloudAccounts)
  const DeleteCloudAccount := Deleting(CloudAccounts)
  const FindCloudAccount := Finding(CloudAccounts)
  const CreateCloudResourceTask := Creating(CloudTasks)
  const EditCloudResourceTask := Editing(CloudTasks)
  const DeleteCloudResourceTask := Deleting(CloudTasks)
  const FindCloudResourceTask := Finding(CloudTasks)
  const CreateSysModel := Creating(SysModels)
  const EditSysModel := Editing(SysModels)
  const DeleteSysModel := Deleting(SysModels)
  const CreateAssociationType := Creating(AssociationTypes)
  const EditAssociationType := Editing(AssociationTypes)
  const DeleteAssociationType := Deleting(AssociationTypes)
  const CreateModelGroup := Creating(ModelGroups)
  const EditModelGroup := Editing(ModelGroups)
  const DeleteModelGroup := Deleting(ModelGroups)
  const EditBusinessLayer := Editing(BusinessLayers)
  const EditModelTopologyView := Editing(TopologyViews)
  const FindOperationStatistic := Finding(Statistics)
  const EditOperationStatistic := Editing(Statistics)
  const FindAuditLog := Finding(AuditLogs)
  const WatchHostEvent := Watching(OfHost)
  const WatchHostRelationEvent := Watching(OfHostRelation)
  const WatchBizEvent := Watching(OfBiz)
  const WatchSetEvent := Watching(OfSet)
  const WatchModuleEvent := Watching(OfModule)
  const WatchSetTemplateEvent := Watching(OfSetTemplate)
  const WatchProcessEvent := Watching(OfProcess)
  const GlobalSettings := Editing(Settings)

  datatype ActionType = CreateType | DeleteType | ViewType | EditType | ListType

  datatype ResourceType = ResourceType(id: TypeId, parents: seq<TypeId>)

  // `chain` lists the resource types a user picks through, root first.
  datatype InstanceSelection = InstanceSelection(id: SelectionId, chain: seq<TypeId>)

  datatype RelatedResource = RelatedResource(id: TypeId, selections: seq<SelectionId>, ignorePath: bool)

  datatype ResourceAction = ResourceAction(id: ActionId, kind: ActionType,
                                           related: seq<RelatedResource>, relatedActions: seq<ActionId>)

  /******* The three layers of the registry seen as one keyed store *******/

  datatype Layer = TypeLayer | SelectionLayer | ActionLayer

  datatype Key = TypeKey(t: TypeId) | SelectionKey(s: SelectionId) | ActionKey(a: ActionId)

  datatype Entry =
    | TypeEntry(resourceType: ResourceType)
    | SelectionEntry(selection: InstanceSelection)
    | ActionEntry(action: ResourceAction)

  function LayerOf(k: Key): Layer {
    match k
    case TypeKey(_) => TypeLayer
    case SelectionKey(_) => SelectionLayer
    case ActionKey(_) => ActionLayer
  }

  function KeyOf(e: Entry): Key {
    match e
    case TypeEntry(t) => TypeKey(t.id)
    case SelectionEntry(s) => SelectionKey(s.id)
    case ActionEntry(a) => ActionKey(a.id)
  }

  // The objects of other layers that an entry names.
  ghost function Refs(e: Entry): set<Key> {
    match e
    case TypeEntry(_) => {}
    case SelectionEntry(s) => set t <- s.chain :: TypeKey(t)
    case ActionEntry(a) =>
      (set r <- a.related :: TypeKey(r.id)) + (set r <- a.related, s <- r.selections :: SelectionKey(s))
  }
}
