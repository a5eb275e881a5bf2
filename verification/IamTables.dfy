/**
 The tables that `RegisterSystem` registers (src/ac/iam/initial_resources.go,
 initial_instance_selections.go and initial_actions.go), and the proof that they fit together:
 ids are unique, and every reference between layers is to something the tables define.
 Display names, descriptions and versions are not modelled.
 */
module IamTables {
  import opened Common
  import opened IamTypes
  import opened Registration

  /******* Resource types *******/

  function PublicResources(): seq<ResourceType> {
    [
      ResourceType(Business, []),
      ResourceType(BusinessForHostTrans, []),
      ResourceType(SysCloudArea, []),
      ResourceType(SysResourcePoolDirectory, []),
      ResourceType(SysHostRscPoolDirectory, []),
      ResourceType(SysModelGroup, []),
      ResourceType(SysInstanceModel, []),
      ResourceType(SysModel, []),
      ResourceType(SysInstance, [SysModel]),
      ResourceType(SysAssociationType, []),
      ResourceType(SysEventPushing, []),
      ResourceType(SysOperationStatistic, []),
      ResourceType(SysAuditLog, []),
      ResourceType(SysCloudAccount, []),
      ResourceType(SysCloudResourceTask, []),
      ResourceType(SysEventWatch, [])
    ]
  }

  function BusinessResources(): seq<ResourceType> {
    [
      ResourceType(Host, [Business, SysResourcePoolDirectory]),
      ResourceType(BizHostApply, [Business]),
      ResourceType(BizCustomQuery, [Business]),
      ResourceType(BizCustomField, [Business]),
      ResourceType(BizProcessServiceInstance, [Business]),
      ResourceType(BizProcessServiceCategory, [Business]),
      ResourceType(BizSetTemplate, [Business]),
      ResourceType(BizTopology, [Business]),
      ResourceType(BizProcessServiceTemplate, [Business])
    ]
  }

  function GenerateResourceTypes(): seq<ResourceType> {
    PublicResources() + BusinessResources()
  }

  // The position of a registered type; 25 for every other id.
  function TypePos(t: TypeId): nat {
    match t
    case Business => 0
    case BusinessForHostTrans => 1
    case SysCloudArea => 2
    case SysResourcePoolDirectory => 3
    case SysHostRscPoolDirectory => 4
    case SysModelGroup => 5
    case SysInstanceModel => 6
    case SysModel => 7
    case SysInstance => 8
    case SysAssociationType => 9
    case SysEventPushing => 10
    case SysOperationStatistic => 11
    case SysAuditLog => 12
    case SysCloudAccount => 13
    case SysCloudResourceTask => 14
    case SysEventWatch => 15
    case Host => 16
    case BizHostApply => 17
    case BizCustomQuery => 18
    case BizCustomField => 19
    case BizProcessServiceInstance => 20
    case BizProcessServiceCategory => 21
    case BizSetTemplate => 22
    case BizTopology => 23
    case BizProcessServiceTemplate => 24
    case _ => 25
  }

  /******* Instance selections *******/

  // The levels a user picks through: one, or one under another.
  datatype Levels = Top(t: TypeId) | Under(parent: TypeId, t: TypeId) | NoLevels

  function LevelsOf(s: SelectionId): Levels {
    match s
    case BusinessSelection => Top(Business)
    case BusinessHostTransferSelection => Top(BusinessForHostTrans)
    case SysResourcePoolDirectorySelection => Top(SysResourcePoolDirectory)
    case SysHostRscPoolDirectorySelection => Top(SysHostRscPoolDirectory)
    case BizHostInstanceSelection => Under(Business, Host)
    case BizCustomQuerySelection => Under(Business, BizCustomQuery)
    case BizProcessServiceTemplateSelection => Under(Business, BizProcessServiceTemplate)
    case BizSetTemplateSelection => Under(Business, BizSetTemplate)
    case SysHostInstanceSelection => Under(SysHostRscPoolDirectory, Host)
    case SysCloudAreaSelection => Top(SysCloudArea)
    case SysInstanceSelection => Under(SysInstanceModel, SysInstance)
    case SysInstanceModelSelection => Top(SysInstanceModel)
    case SysEventPushingSelection => Top(SysEventPushing)
    case SysCloudAccountSelection => Top(SysCloudAccount)
    case SysCloudResourceTaskSelection => Top(SysCloudResourceTask)
    case SysModelSelection => Top(SysModel)
    case SysAssociationTypeSelection => Top(SysAssociationType)
    case SysModelGroupSelection => Top(SysModelGroup)
    case _ => NoLevels
  }

  // The chain a selection declares.
  function ChainOf(s: SelectionId): seq<TypeId> {
    match LevelsOf(s)
    case Top(t) => [t]
    case Under(parent, t) => [parent, t]
    case NoLevels => []
  }

  function SelectionIds(): seq<SelectionId> {
    [
      BusinessSelection, BusinessHostTransferSelection, SysResourcePoolDirectorySelection,
      SysHostRscPoolDirectorySelection, BizHostInstanceSelection, BizCustomQuerySelection,
      BizProcessServiceTemplateSelection, BizSetTemplateSelection, SysHostInstanceSelection,
      SysCloudAreaSelection, SysInstanceSelection, SysInstanceModelSelection, SysEventPushingSelection,
      SysCloudAccountSelection, SysCloudResourceTaskSelection, SysModelSelection,
      SysAssociationTypeSelection, SysModelGroupSelection
    ]
  }

  function GenerateInstanceSelections(): seq<InstanceSelection> {
    var ids := SelectionIds();
    seq(|ids|, i requires 0 <= i < |ids| => InstanceSelection(ids[i], ChainOf(ids[i])))
  }

  function SelectionPos(s: SelectionId): nat {
    match s
    case BusinessSelection => 0
    case BusinessHostTransferSelection => 1
    case SysResourcePoolDirectorySelection => 2
    case SysHostRscPoolDirectorySelection => 3
    case BizHostInstanceSelection => 4
    case BizCustomQuerySelection => 5
    case BizProcessServiceTemplateSelection => 6
    case BizSetTemplateSelection => 7
    case SysHostInstanceSelection => 8
    case SysCloudAreaSelection => 9
    case SysInstanceSelection => 10
    case SysInstanceModelSelection => 11
    case SysEventPushingSelection => 12
    case SysCloudAccountSelection => 13
    case SysCloudResourceTaskSelection => 14
    case SysModelSelection => 15
    case SysAssociationTypeSelection => 16
    case SysModelGroupSelection => 17
    case _ => 18
  }

  /******* Actions: the columns of a row *******/

  // The kind of permission an action declares.
  function DeclaredKind(a: ActionId): ActionType {
    match a
    case Creating(_) => CreateType
    case Deleting(_) => DeleteType
    case Finding(_) | Watching(_) | ViewBusinessResource => ViewType
    case _ => EditType
  }

  // A resource picked through one selection.
  datatype Relation = On(t: TypeId, selection: SelectionId, ignorePath: bool) {
    function Resource(): RelatedResource {
      RelatedResource(t, [selection], ignorePath)
    }

    // The type above the selected one, when the selection counts for authorization and has exactly one
    // level above: this is the level an IAM path must name.
    function Parent(): Option<TypeId> {
      var levels := LevelsOf(selection);
      if !ignorePath && levels.Under? && levels.t == t then Some(levels.parent) else None
    }
  }

  // What an action relates to: at most two resources.
  datatype Relations = Nothing | One(only: Relation) | Two(first: Relation, second: Relation)

  const OnBusiness := On(Business, BusinessSelection, false)
  const OnPoolDirectory := On(SysResourcePoolDirectory, SysResourcePoolDirectorySelection, false)

  function RelationsOf(a: ActionId): Relations {
    match a
    case Creating(s) => WhenCreated(s)
    case Editing(s) => Itself(s)
    case Deleting(s) => Itself(s)
    case Finding(s) => Itself(s)
    case ArchiveBusiness | ViewBusinessResource => One(OnBusiness)
    case BusinessHostTransferToResourcePool => Two(OnBusiness, OnPoolDirectory)
    case HostTransferAcrossBusiness => Two(On(BusinessForHostTrans, BusinessHostTransferSelection, false), OnBusiness)
    case ResourcePoolHostTransferToBusiness =>
      Two(On(SysHostRscPoolDirectory, SysHostRscPoolDirectorySelection, false), OnBusiness)
    case ResourcePoolHostTransferToDirectory =>
      Two(On(SysHostRscPoolDirectory, SysHostRscPoolDirectorySelection, false), OnPoolDirectory)
    case _ => Nothing
  }

  // Something is created within something else, if at all.
  function WhenCreated(s: Subject): Relations {
    match s
    case CustomQueries | ServiceCategories | ServiceInstances | ServiceTemplates | SetTemplates | Topologies => One(OnBusiness)
    case PoolHosts => One(OnPoolDirectory)
    case SysInstances => One(On(SysInstanceModel, SysInstanceModelSelection, false))
    case SysModels => One(On(SysModelGroup, SysModelGroupSelection, false))
    case _ => Nothing
  }

  // All other verbs are about the subject itself, or about the business it is in.
  function Itself(s: Subject): Relations {
    match s
    case Businesses | CustomFields | ServiceCategories | ServiceInstances | Topologies | HostApplies => One(OnBusiness)
    case BusinessHosts => One(On(Host, BizHostInstanceSelection, false))
    case CustomQueries => One(On(BizCustomQuery, BizCustomQuerySelection, false))
    case ServiceTemplates => One(On(BizProcessServiceTemplate, BizProcessServiceTemplateSelection, true))
    case SetTemplates => One(On(BizSetTemplate, BizSetTemplateSelection, true))
    case PoolHosts => One(On(Host, SysHostInstanceSelection, false))
    case PoolDirectories => One(OnPoolDirectory)
    case CloudAreas => One(On(SysCloudArea, SysCloudAreaSelection, false))
    case SysInstances => One(On(SysInstance, SysInstanceSelection, false))
    case EventPushings => One(On(SysEventPushing, SysEventPushingSelection, false))
    case CloudAccounts => One(On(SysCloudAccount, SysCloudAccountSelection, false))
    case CloudTasks => One(On(SysCloudResourceTask, SysCloudResourceTaskSelection, false))
    case SysModels => One(On(SysModel, SysModelSelection, false))
    case AssociationTypes => One(On(SysAssociationType, SysAssociationTypeSelection, false))
    case ModelGroups => One(On(SysModelGroup, SysModelGroupSelection, false))
    case _ => Nothing
  }

  // The resources an action relates to, in order.
  function Related(a: ActionId): seq<RelatedResource> {
    match RelationsOf(a)
    case Nothing => []
    case One(r) => [r.Resource()]
    case Two(r, s) => [r.Resource(), s.Resource()]
  }

  function RelatedActions(a: ActionId): seq<ActionId> {
    match a
    case Creating(s) =>
      match s {
        case CustomQueries | ServiceTemplates | SetTemplates => [ViewBusinessResource]
        case ServiceCategories | ServiceInstances | Topologies => [ViewBusinessResource, Editing(s), Deleting(s)]
        case _ => []
      }
    case Editing(s) => if s == Statistics then [Finding(s)] else Prerequisite(s)
    case Deleting(s) => Prerequisite(s)
    case ArchiveBusiness => [Finding(Businesses)]
    case BusinessHostTransferToResourcePool | HostTransferAcrossBusiness => [ViewBusinessResource]
    case _ => []
  }

  // What must be visible before a subject is edited or deleted.
  function Prerequisite(s: Subject): seq<ActionId> {
    match s
    case BusinessHosts | CustomQueries | CustomFields | ServiceCategories | ServiceInstances | ServiceTemplates
       | SetTemplates | Topologies | HostApplies =>
      [ViewBusinessResource]
    case Businesses | EventPushings | CloudAccounts | CloudTasks => [Finding(s)]
    case _ => []
  }

  function Row(a: ActionId): ResourceAction {
    ResourceAction(a, DeclaredKind(a), Related(a), RelatedActions(a))
  }

  function RelatedIds(a: ResourceAction): seq<TypeId> {
    seq(|a.related|, i requires 0 <= i < |a.related| => a.related[i].id)
  }

  // The resource types an action declares, in order.
  function Declared(a: ActionId): seq<TypeId> {
    RelatedIds(Row(a))
  }

  // The parent of the one related resource that an IAM path is about, if there is one.
  function DeclaredParent(a: ActionId): Option<TypeId> {
    match RelationsOf(a)
    case One(r) => r.Parent()
    case _ => None
  }

  /******* Actions: the order of the rows *******/

  // The position of a registered action; 76 for every other id.
  function ActionPos(a: ActionId): nat {
    match a
    case Creating(s) => CreatingPos(s)
    case Editing(s) => EditingPos(s)
    case Deleting(s) => DeletingPos(s)
    case Finding(s) => FindingPos(s)
    case Watching(e) => WatchingPos(e)
    case BusinessHostTransferToResourcePool => 1
    case HostTransferAcrossBusiness => 2
    case ResourcePoolHostTransferToBusiness => 26
    case ResourcePoolHostTransferToDirectory => 27
    case ArchiveBusiness => 33
    case ViewBusinessResource => 35
    case _ => 76
  }

  function CreatingPos(s: Subject): nat {
    match s
    case CustomQueries => 3
    case ServiceCategories => 7
    case ServiceInstances => 10
    case ServiceTemplates => 13
    case SetTemplates => 16
    case Topologies => 19
    case PoolHosts => 23
    case PoolDirectories => 28
    case Businesses => 31
    case CloudAreas => 36
    case SysInstances => 39
    case EventPushings => 42
    case CloudAccounts => 46
    case CloudTasks => 50
    case SysModels => 54
    case AssociationTypes => 57
    case ModelGroups => 60
    case _ => 76
  }

  function EditingPos(s: Subject): nat {
    match s
    case BusinessHosts => 0
    case CustomQueries => 4
    case CustomFields => 6
    case ServiceCategories => 8
    case ServiceInstances => 11
    case ServiceTemplates => 14
    case SetTemplates => 17
    case Topologies => 20
    case HostApplies => 22
    case PoolHosts => 24
    case PoolDirectories => 29
    case Businesses => 32
    case CloudAreas => 37
    case SysInstances => 40
    case EventPushings => 43
    case CloudAccounts => 47
    case CloudTasks => 51
    case SysModels => 55
    case AssociationTypes => 58
    case ModelGroups => 61
    case BusinessLayers => 63
    case TopologyViews => 64
    case Statistics => 66
    case Settings => 75
    case _ => 76
  }

  function DeletingPos(s: Subject): nat {
    match s
    case CustomQueries => 5
    case ServiceCategories => 9
    case ServiceInstances => 12
    case ServiceTemplates => 15
    case SetTemplates => 18
    case Topologies => 21
    case PoolHosts => 25
    case PoolDirectories => 30
    case CloudAreas => 38
    case SysInstances => 41
    case EventPushings => 44
    case CloudAccounts => 48
    case CloudTasks => 52
    case SysModels => 56
    case AssociationTypes => 59
    case ModelGroups => 62
    case _ => 76
  }

  function FindingPos(s: Subject): nat {
    match s
    case Businesses => 34
    case EventPushings => 45
    case CloudAccounts => 49
    case CloudTasks => 53
    case Statistics => 65
    case AuditLogs => 67
    case _ => 76
  }

  function WatchingPos(e: WatchedEvent): nat {
    match e
    case OfHost => 68
    case OfHostRelation => 69
    case OfBiz => 70
    case OfSet => 71
    case OfModule => 72
    case OfSetTemplate => 73
    case OfProcess => 74
  }

  // An id that the tables have.
  predicate Known(a: ActionId) {
    ActionPos(a) < 76
  }

  // The ids are those at the positions that start at `base`, in order.
  ghost predicate Section(ids: seq<ActionId>, base: nat) {
    && (forall i | 0 <= i < |ids| :: ActionPos(ids[i]) == base + i)
    && (forall a | base <= ActionPos(a) < base + |ids| :: a in ids)
  }

  lemma SectionConcat(a: seq<ActionId>, b: seq<ActionId>, base: nat)
    requires Section(a, base) && Section(b, base + |a|)
    ensures Section(a + b, base)
  {
  }

  function BusinessHostActions(): (r: seq<ActionId>)
    ensures Section(r, 0) && |r| == 3
  {
    [EditBusinessHost, BusinessHostTransferToResourcePool, HostTransferAcrossBusiness]
  }

  function BusinessCustomQueryActions(): (r: seq<ActionId>)
    ensures Section(r, 3) && |r| == 3
  {
    [CreateBusinessCustomQuery, EditBusinessCustomQuery, DeleteBusinessCustomQuery]
  }

  function BusinessCustomFieldActions(): (r: seq<ActionId>)
    ensures Section(r, 6) && |r| == 1
  {
    [EditBusinessCustomField]
  }

  function BusinessServiceCategoryActions(): (r: seq<ActionId>)
    ensures Section(r, 7) && |r| == 3
  {
    [CreateBusinessServiceCategory, EditBusinessServiceCategory, DeleteBusinessServiceCategory]
  }

  function BusinessServiceInstanceActions(): (r: seq<ActionId>)
    ensures Section(r, 10) && |r| == 3
  {
    [CreateBusinessServiceInstance, EditBusinessServiceInstance, DeleteBusinessServiceInstance]
  }

  function BusinessServiceTemplateActions(): (r: seq<ActionId>)
    ensures Section(r, 13) && |r| == 3
  {
    [CreateBusinessServiceTemplate, EditBusinessServiceTemplate, DeleteBusinessServiceTemplate]
  }

  function BusinessSetTemplateActions(): (r: seq<ActionId>)
    ensures Section(r, 16) && |r| == 3
  {
    [CreateBusinessSetTemplate, EditBusinessSetTemplate, DeleteBusinessSetTemplate]
  }

  function BusinessTopologyActions(): (r: seq<ActionId>)
    ensures Section(r, 19) && |r| == 3
  {
    [CreateBusinessTopology, EditBusinessTopology, DeleteBusinessTopology]
  }

  function BusinessHostApplyActions(): (r: seq<ActionId>)
    ensures Section(r, 22) && |r| == 1
  {
    [EditBusinessHostApply]
  }

  function BusinessObjectActions(): (r: seq<ActionId>)
    ensures Section(r, 0) && |r| == 10
  {
    BusinessHostActions()
    + BusinessCustomQueryActions()
    + BusinessCustomFieldActions()
    + BusinessServiceCategoryActions()
  }

  function BusinessServiceActions(): (r: seq<ActionId>)
    ensures Section(r, 10) && |r| == 13
  {
    BusinessServiceInstanceActions()
    + BusinessServiceTemplateActions()
    + BusinessSetTemplateActions()
    + BusinessTopologyActions()
    + BusinessHostApplyActions()
  }

  function BusinessSideActions(): (r: seq<ActionId>)
    ensures Section(r, 0) && |r| == 23
  {
    BusinessObjectActions() + BusinessServiceActions()
  }

  function ResourcePoolHostActions(): (r: seq<ActionId>)
    ensures Section(r, 23) && |r| == 5
  {
    [
      CreateResourcePoolHost, EditResourcePoolHost, DeleteResourcePoolHost,
      ResourcePoolHostTransferToBusiness, ResourcePoolHostTransferToDirectory
    ]
  }

  function ResourcePoolDirectoryActions(): (r: seq<ActionId>)
    ensures Section(r, 28) && |r| == 3
  {
    [CreateResourcePoolDirectory, EditResourcePoolDirectory, DeleteResourcePoolDirectory]
  }

  function BusinessActions(): (r: seq<ActionId>)
    ensures Section(r, 31) && |r| == 5
  {
    [CreateBusiness, EditBusiness, ArchiveBusiness, FindBusiness, ViewBusinessResource]
  }

  function CloudAreaActions(): (r: seq<ActionId>)
    ensures Section(r, 36) && |r| == 3
  {
    [CreateCloudArea, EditCloudArea, DeleteCloudArea]
  }

  function ModelInstanceActions(): (r: seq<ActionId>)
    ensures Section(r, 39) && |r| == 3
  {
    [CreateSysInstance, EditSysInstance, DeleteSysInstance]
  }

  function EventPushingActions(): (r: seq<ActionId>)
    ensures Section(r, 42) && |r| == 4
  {
    [CreateEventPushing, EditEventPushing, DeleteEventPushing, FindEventPushing]
  }

  function CloudAccountActions(): (r: seq<ActionId>)
    ensures Section(r, 46) && |r| == 4
  {
    [CreateCloudAccount, EditCloudAccount, DeleteCloudAccount, FindCloudAccount]
  }

  function CloudResourceTaskActions(): (r: seq<ActionId>)
    ensures Section(r, 50) && |r| == 4
  {
    [CreateCloudResourceTask, EditCloudResourceTask, DeleteCloudResourceTask, FindCloudResourceTask]
  }

  function PublicActions(): (r: seq<ActionId>)
    ensures Section(r, 23) && |r| == 31
  {
    ResourcePoolHostActions()
    + ResourcePoolDirectoryActions()
    + BusinessActions()
    + CloudAreaActions()
    + ModelInstanceActions()
    + EventPushingActions()
    + CloudAccountActions()
    + CloudResourceTaskActions()
  }

  function ModelActions(): (r: seq<ActionId>)
    ensures Section(r, 54) && |r| == 3
  {
    [CreateSysModel, EditSysModel, DeleteSysModel]
  }

  function AssociationTypeActions(): (r: seq<ActionId>)
    ensures Section(r, 57) && |r| == 3
  {
    [CreateAssociationType, EditAssociationType, DeleteAssociationType]
  }

  function ModelGroupActions(): (r: seq<ActionId>)
    ensures Section(r, 60) && |r| == 3
  {
    [CreateModelGroup, EditModelGroup, DeleteModelGroup]
  }

  function BusinessLayerActions(): (r: seq<ActionId>)
    ensures Section(r, 63) && |r| == 1
  {
    [EditBusinessLayer]
  }

  function ModelTopologyViewActions(): (r: seq<ActionId>)
    ensures Section(r, 64) && |r| == 1
  {
    [EditModelTopologyView]
  }

  function OperationStatisticActions(): (r: seq<ActionId>)
    ensures Section(r, 65) && |r| == 2
  {
    [FindOperationStatistic, EditOperationStatistic]
  }

  function AuditLogActions(): (r: seq<ActionId>)
    ensures Section(r, 67) && |r| == 1
  {
    [FindAuditLog]
  }

  function EventWatchActions(): (r: seq<ActionId>)
    ensures Section(r, 68) && |r| == 7
  {
    HostEvents() + TopologyEvents()
  }

  function HostEvents(): (r: seq<ActionId>)
    ensures Section(r, 68) && |r| == 3
  {
    [WatchHostEvent, WatchHostRelationEvent, WatchBizEvent]
  }

  function TopologyEvents(): (r: seq<ActionId>)
    ensures Section(r, 71) && |r| == 4
  {
    [WatchSetEvent, WatchModuleEvent, WatchSetTemplateEvent, WatchProcessEvent]
  }

  function ConfigAdminActions(): (r: seq<ActionId>)
    ensures Section(r, 75) && |r| == 1
  {
    [GlobalSettings]
  }

  function ModelActionsAndRest(): (r: seq<ActionId>)
    ensures Section(r, 54) && |r| == 22
  {
    ModelActions()
    + AssociationTypeActions()
    + ModelGroupActions()
    + BusinessLayerActions()
    + ModelTopologyViewActions()
    + OperationStatisticActions()
    + AuditLogActions()
    + EventWatchActions()
    + ConfigAdminActions()
  }

  function ActionIds(): (r: seq<ActionId>)
    ensures Section(r, 0) && |r| == 76
  {
    SectionConcat(BusinessSideActions(), PublicActions(), 0);
    SectionConcat(BusinessSideActions() + PublicActions(), ModelActionsAndRest(), 0);
    BusinessSideActions() + PublicActions() + ModelActionsAndRest()
  }

  function GenerateActions(): (r: seq<ResourceAction>)
    ensures |r| == 76 && forall i | 0 <= i < 76 :: ActionPos(r[i].id) == i && r[i] == Row(r[i].id)
  {
    var ids := ActionIds();
    seq(|ids|, i requires 0 <= i < |ids| => Row(ids[i]))
  }

  /******* The tables fit together *******/

  ghost predicate RelatedOk(r: RelatedResource) {
    TypePos(r.id) < 25 && forall s <- r.selections :: SelectionPos(s) < 18
  }

  lemma RelatedFit(a: ActionId)
    ensures forall r <- Related(a) :: RelatedOk(r)
  {
  }

  lemma RelatedActionsFit(a: ActionId)
    ensures forall x <- RelatedActions(a) :: Known(x)
  {
  }

  lemma TypeRows(i: nat)
    requires i < |GenerateResourceTypes()|
    ensures |GenerateResourceTypes()| == 25
    ensures TypePos(GenerateResourceTypes()[i].id) == i
    ensures forall p <- GenerateResourceTypes()[i].parents :: TypePos(p) < 25
  {
    if i < 16 {
      PublicRows(i);
      assert GenerateResourceTypes()[i] == PublicResources()[i];
    } else {
      BusinessRows(i - 16);
      assert GenerateResourceTypes()[i] == BusinessResources()[i - 16];
    }
  }

  lemma PublicRows(i: nat)
    requires i < |PublicResources()|
    ensures TypePos(PublicResources()[i].id) == i && forall p <- PublicResources()[i].parents :: TypePos(p) < 25
  {
  }

  lemma BusinessRows(i: nat)
    requires i < |BusinessResources()|
    ensures TypePos(BusinessResources()[i].id) == 16 + i && forall p <- BusinessResources()[i].parents :: TypePos(p) < 25
  {
  }

  lemma SelectionRows(i: nat)
    requires i < |GenerateInstanceSelections()|
    ensures |GenerateInstanceSelections()| == 18 && SelectionPos(GenerateInstanceSelections()[i].id) == i
    ensures forall t <- GenerateInstanceSelections()[i].chain :: TypePos(t) < 25
  {
    SelectionIdAt(i);
    ChainsFit(SelectionIds()[i]);
  }

  lemma SelectionIdAt(i: nat)
    requires i < |SelectionIds()|
    ensures |SelectionIds()| == 18 && SelectionPos(SelectionIds()[i]) == i
  {
  }

  lemma ChainsFit(s: SelectionId)
    ensures forall t <- ChainOf(s) :: TypePos(t) < 25
  {
  }

  // Every position is taken by the id that has it.
  lemma TypeAt(t: TypeId)
    requires TypePos(t) < 25
    ensures |GenerateResourceTypes()| == 25 && GenerateResourceTypes()[TypePos(t)].id == t
  {
  }

  lemma SelectionAt(s: SelectionId)
    requires SelectionPos(s) < 18
    ensures |GenerateInstanceSelections()| == 18 && GenerateInstanceSelections()[SelectionPos(s)].id == s
  {
  }

  lemma ActionAt(a: ActionId)
    requires Known(a)
    ensures GenerateActions()[ActionPos(a)] == Row(a)
  {
    SectionHas(ActionIds(), a);
  }

  lemma SectionHas(ids: seq<ActionId>, a: ActionId)
    requires Section(ids, 0) && ActionPos(a) < |ids|
    ensures ids[ActionPos(a)] == a
  {
    assert 0 <= ActionPos(a) < 0 + |ids|;
    var i :| 0 <= i < |ids| && ids[i] == a;
    assert ActionPos(ids[i]) == 0 + i;
  }

  /******* As tables of the reconciliation *******/

  function TypeTable(): seq<Entry> {
    var rows := GenerateResourceTypes();
    seq(|rows|, i requires 0 <= i < |rows| => TypeEntry(rows[i]))
  }

  function SelectionTable(): seq<Entry> {
    var rows := GenerateInstanceSelections();
    seq(|rows|, i requires 0 <= i < |rows| => SelectionEntry(rows[i]))
  }

  function ActionTable(): seq<Entry> {
    var rows := GenerateActions();
    seq(|rows|, i requires 0 <= i < |rows| => ActionEntry(rows[i]))
  }

  function GeneratedTables(): Tables {
    Tables(TypeTable(), SelectionTable(), ActionTable())
  }

  lemma TypeKeyGenerated(t: TypeId)
    ensures TypeKey(t) in KeysOf(TypeTable()) <==> TypePos(t) < 25
  {
    if TypePos(t) < 25 {
      TypeAt(t);
      assert TypeTable()[TypePos(t)] in TypeTable();
    } else if TypeKey(t) in KeysOf(TypeTable()) {
      var e :| e in TypeTable() && KeyOf(e) == TypeKey(t);
      var i :| 0 <= i < |TypeTable()| && TypeTable()[i] == e;
      TypeRows(i);
    }
  }

  lemma SelectionKeyGenerated(s: SelectionId)
    ensures SelectionKey(s) in KeysOf(SelectionTable()) <==> SelectionPos(s) < 18
  {
    if SelectionPos(s) < 18 {
      SelectionAt(s);
      assert SelectionTable()[SelectionPos(s)] in SelectionTable();
    } else if SelectionKey(s) in KeysOf(SelectionTable()) {
      var e :| e in SelectionTable() && KeyOf(e) == SelectionKey(s);
      var i :| 0 <= i < |SelectionTable()| && SelectionTable()[i] == e;
      SelectionRows(i);
    }
  }

  lemma TypesDistinct()
    ensures Distinct(TypeTable()) && InLayer(TypeTable(), TypeLayer)
    ensures forall e <- TypeTable() :: Refs(e) == {}
  {
    forall i, j | 0 <= i < j < |TypeTable()|
      ensures KeyOf(TypeTable()[i]) != KeyOf(TypeTable()[j])
    {
      TypeRows(i);
      TypeRows(j);
    }
  }

  lemma SelectionsDistinct()
    ensures Distinct(SelectionTable()) && InLayer(SelectionTable(), SelectionLayer)
  {
    forall i, j | 0 <= i < j < |SelectionTable()|
      ensures KeyOf(SelectionTable()[i]) != KeyOf(SelectionTable()[j])
    {
      SelectionRows(i);
      SelectionRows(j);
    }
  }

  lemma ActionRowAt(i: nat)
    requires i < |ActionTable()|
    ensures KeyOf(ActionTable()[i]).ActionKey? && ActionPos(KeyOf(ActionTable()[i]).a) == i
  {
    assert ActionPos(GenerateActions()[i].id) == i;
  }

  lemma ActionsDistinct()
    ensures Distinct(ActionTable()) && InLayer(ActionTable(), ActionLayer)
  {
    forall i, j | 0 <= i < j < |ActionTable()|
      ensures KeyOf(ActionTable()[i]) != KeyOf(ActionTable()[j])
    {
      ActionRowAt(i);
      ActionRowAt(j);
    }
  }

  lemma SelectionsClosed(e: Entry)
    requires e in SelectionTable()
    ensures Refs(e) <= KeysOf(TypeTable())
  {
    var i :| 0 <= i < |SelectionTable()| && SelectionTable()[i] == e;
    SelectionRows(i);
    forall t | t in GenerateInstanceSelections()[i].chain
      ensures TypeKey(t) in KeysOf(TypeTable())
    {
      TypeKeyGenerated(t);
    }
  }

  lemma ActionsClosed(e: Entry)
    requires e in ActionTable()
    ensures Refs(e) <= KeysOf(TypeTable()) + KeysOf(SelectionTable())
  {
    var i :| 0 <= i < |ActionTable()| && ActionTable()[i] == e;
    RowIsClosed(GenerateActions()[i]);
  }

  lemma RowIsClosed(a: ResourceAction)
    requires a == Row(a.id)
    ensures Refs(ActionEntry(a)) <= KeysOf(TypeTable()) + KeysOf(SelectionTable())
  {
    RelatedFit(a.id);
    forall r | r in a.related
      ensures TypeKey(r.id) in KeysOf(TypeTable())
      ensures forall s <- r.selections :: SelectionKey(s) in KeysOf(SelectionTable())
    {
      TypeKeyGenerated(r.id);
      forall s | s in r.selections
        ensures SelectionKey(s) in KeysOf(SelectionTable())
      {
        SelectionKeyGenerated(s);
      }
    }
  }

  // The generated tables are what the reconciliation needs: unique ids and no reference out of them.
  lemma TablesAreWellFormed()
    ensures GeneratedTables().WellFormed()
  {
    TypesDistinct();
    SelectionsDistinct();
    ActionsDistinct();
    forall e | e in SelectionTable()
      ensures Refs(e) <= KeysOf(TypeTable())
    {
      SelectionsClosed(e);
    }
    forall e | e in ActionTable()
      ensures Refs(e) <= KeysOf(TypeTable()) + KeysOf(SelectionTable())
    {
      ActionsClosed(e);
    }
  }
}
