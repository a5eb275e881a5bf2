/**
 The rule behind the table of actions (src/ac/iam/adaptor.go:130-456): which permission a verb on a kind of
 resource needs, from the subject that the kind is about. Verbs are taken as they arrive, in their single
 or many form.
 */
module ActionRule {
  import opened Common
  import opened IamTypes
  import opened IamTables
  import opened Adaptor
  import Meta

  predicate Creates(action: Meta.Action) {
    action.Create? || action.CreateMany?
  }

  predicate Updates(action: Meta.Action) {
    action.Update? || action.UpdateMany?
  }

  predicate Deletes(action: Meta.Action) {
    action.Delete? || action.DeleteMany?
  }

  predicate Reads(action: Meta.Action) {
    action.Find? || action.FindMany?
  }

  predicate IsCommon(action: Meta.Action) {
    Creates(action) || Updates(action) || Deletes(action) || Reads(action) || action.SkipAction?
  }

  // What the actions of a kind are about.
  function SubjectOf(kind: Meta.Kind): Option<Subject> {
    match kind
    case Business => Some(Businesses)
    case EventPushing => Some(EventPushings)
    case CloudAreaInstance => Some(CloudAreas)
    case CloudAccount => Some(CloudAccounts)
    case CloudResourceTask => Some(CloudTasks)
    case ResourcePoolDirectory => Some(PoolDirectories)
    case HostInstance => Some(PoolHosts)
    case ModelClassification => Some(ModelGroups)
    case AssociationType => Some(AssociationTypes)
    case Model | ModelAssociation | ModelUnique | ModelAttributeGroup | ModelAttribute => Some(SysModels)
    case ModelInstance | ModelInstanceAssociation => Some(SysInstances)
    case DynamicGrouping => Some(CustomQueries)
    case Process | ProcessServiceInstance => Some(ServiceInstances)
    case ProcessServiceCategory => Some(ServiceCategories)
    case ProcessServiceTemplate | ProcessTemplate => Some(ServiceTemplates)
    case SetTemplate => Some(SetTemplates)
    case ModelModule | ModelSet | MainlineInstance | BizTopology => Some(Topologies)
    case HostApply => Some(HostApplies)
    case OperationStatistic => Some(Statistics)
    case AuditLog => Some(AuditLogs)
    case ConfigAdmin => Some(Settings)
    case MainlineModel => Some(BusinessLayers)
    case ModelTopology => Some(TopologyViews)
    case _ => None
  }

  // Parts of something larger: to create or to delete one is to edit the whole.
  predicate IsPart(kind: Meta.Kind) {
    kind.ModelAssociation? || kind.ModelUnique? || kind.ModelAttributeGroup? || kind.ModelAttribute?
    || kind.ModelInstanceAssociation? || kind.Process? || kind.HostApply? || kind.OperationStatistic? || kind.MainlineModel?
  }

  // The subject of a change: in a business, attributes are its custom fields.
  function ChangedIn(kind: Meta.Kind, bizId: int): Subject
    requires SubjectOf(kind).Some?
  {
    if bizId > 0 && (kind.ModelAttribute? || kind.ModelAttributeGroup?) then CustomFields else SubjectOf(kind).value
  }

  /******* Changes *******/

  // The entries of the table for the three verbs of change, wherever no verb of its own stands before them.
  predicate HasOwnRule(kind: Meta.Kind) {
    kind.ModelAttribute? || kind.ModelAttributeGroup?
  }

  lemma CreationEntries(kind: Meta.Kind)
    requires SubjectOf(kind).Some? && !HasOwnRule(kind)
    ensures
      MappedAction(kind, Meta.Create)
      == if kind.ModelTopology? || kind.AuditLog? then None
         else if kind.ConfigAdmin? then Some(Unsupported)
         else Some(if IsPart(kind) then Editing(SubjectOf(kind).value) else Creating(SubjectOf(kind).value))
  {
  }

  lemma UpdateEntries(kind: Meta.Kind)
    requires SubjectOf(kind).Some? && !HasOwnRule(kind) && !kind.HostInstance?
    ensures
      MappedAction(kind, Meta.Update)
      == if kind.MainlineModel? || kind.AuditLog? then None else Some(Editing(SubjectOf(kind).value))
  {
  }

  lemma DeletionEntries(kind: Meta.Kind)
    requires SubjectOf(kind).Some? && !HasOwnRule(kind)
    ensures
      MappedAction(kind, Meta.Delete)
      == if kind.ModelTopology? || kind.AuditLog? || kind.Business? then None
         else if kind.ConfigAdmin? then Some(Unsupported)
         else Some(if IsPart(kind) then Editing(SubjectOf(kind).value) else Deleting(SubjectOf(kind).value))
  {
  }

  // A verb on many is the verb on one.
  lemma ManyIsOne(kind: Meta.Kind, action: Meta.Action, bizId: int)
    ensures ConvertResourceAction(kind, action, bizId) == ConvertResourceAction(kind, SingleForm(action), bizId)
  {
    assert SingleForm(SingleForm(action)) == SingleForm(action);
  }

  lemma CreationFollowsRule(kind: Meta.Kind, bizId: int)
    requires SubjectOf(kind).Some?
    ensures
      var s := ChangedIn(kind, bizId);
      ConvertResourceAction(kind, Meta.Create, bizId)
      == if kind.ModelTopology? || kind.AuditLog? || kind.ConfigAdmin? then Err
         else Ok(if IsPart(kind) then Editing(s) else Creating(s))
  {
    if !HasOwnRule(kind) {
      CreationEntries(kind);
    }
  }

  lemma CreationsFollowRule(kind: Meta.Kind, action: Meta.Action, bizId: int)
    requires SubjectOf(kind).Some? && Creates(action)
    ensures
      var s := ChangedIn(kind, bizId);
      ConvertResourceAction(kind, action, bizId)
      == if kind.ModelTopology? || kind.AuditLog? || kind.ConfigAdmin? then Err
         else Ok(if IsPart(kind) then Editing(s) else Creating(s))
  {
    ManyIsOne(kind, action, bizId);
    CreationFollowsRule(kind, bizId);
  }

  lemma UpdatesFollowRule(kind: Meta.Kind, action: Meta.Action, bizId: int)
    requires SubjectOf(kind).Some? && Updates(action)
    ensures
      ConvertResourceAction(kind, action, bizId)
      == if kind.MainlineModel? || kind.AuditLog? then Err
         else Ok(Editing(if kind.HostInstance? && bizId > 0 then BusinessHosts else ChangedIn(kind, bizId)))
  {
    if !HasOwnRule(kind) && !kind.HostInstance? {
      UpdateEntries(kind);
    }
  }

  lemma DeletionsFollowRule(kind: Meta.Kind, action: Meta.Action, bizId: int)
    requires SubjectOf(kind).Some? && Deletes(action)
    ensures
      var s := ChangedIn(kind, bizId);
      ConvertResourceAction(kind, action, bizId)
      == if kind.ModelTopology? || kind.AuditLog? || kind.ConfigAdmin? || kind.Business? then Err
         else Ok(if IsPart(kind) then Editing(s) else Deleting(s))
  {
    if !HasOwnRule(kind) {
      DeletionEntries(kind);
    }
  }

  /******* Reads *******/

  predicate IsViewed(kind: Meta.Kind) {
    kind.Business? || kind.EventPushing? || kind.CloudAccount? || kind.CloudResourceTask? || kind.OperationStatistic?
    || kind.AuditLog?
  }

  lemma ReadEntries(kind: Meta.Kind)
    requires SubjectOf(kind).Some?
    ensures
      MappedAction(kind, Meta.Find)
      == Some(if IsViewed(kind) then Finding(SubjectOf(kind).value)
              else if kind.DynamicGrouping? then ViewBusinessResource
              else if kind.ModelTopology? then Editing(TopologyViews)
              else Skip)
  {
  }

  // Reads are free, but for the subjects with a permission to view, and for dynamic groups and the topology.
  lemma ReadsFollowRule(kind: Meta.Kind, action: Meta.Action, bizId: int)
    requires SubjectOf(kind).Some? && Reads(action)
    ensures
      ConvertResourceAction(kind, action, bizId)
      == Ok(if IsViewed(kind) then Finding(SubjectOf(kind).value)
            else if kind.DynamicGrouping? then ViewBusinessResource
            else if kind.ModelTopology? then Editing(TopologyViews)
            else Skip)
  {
    ReadEntries(kind);
  }

  /******* Other verbs *******/

  predicate Moves(action: Meta.Action) {
    action.MoveResPoolHostToBizIdleModule? || action.MoveResPoolHostToDirectory? || action.MoveBizHostFromModuleToResPool?
    || action.MoveHostToAnotherBizModule?
  }

  // Where a move starts and ends.
  predicate FromPool(action: Meta.Action) {
    action.MoveResPoolHostToBizIdleModule? || action.MoveResPoolHostToDirectory?
  }

  predicate IntoBusiness(action: Meta.Action) {
    action.MoveResPoolHostToBizIdleModule? || action.MoveHostToAnotherBizModule?
  }

  // A move of hosts relates to where it starts and where it ends, in this order.
  lemma MovesRelateToBothEnds(action: Meta.Action, bizId: int)
    requires Moves(action)
    ensures ConvertResourceAction(Meta.HostInstance, action, bizId).Ok?
    ensures
      var ends := RelationsOf(ConvertResourceAction(Meta.HostInstance, action, bizId).value);
      && ends.Two?
      && (if FromPool(action) then ends.first.t == SysHostRscPoolDirectory
          else ends.first.t == if IntoBusiness(action) then BusinessForHostTrans else Business)
      && ends.second.t == if IntoBusiness(action) then Business else SysResourcePoolDirectory
  {
  }

  predicate KnowsOtherVerbs(kind: Meta.Kind) {
    kind.Business? || kind.DynamicGrouping? || kind.HostInstance? || kind.ResourcePoolDirectory? || kind.SystemBase?
    || kind.EventWatch?
  }

  lemma NoOtherEntries(kind: Meta.Kind, verb: Meta.Action)
    requires !IsCommon(verb) && !KnowsOtherVerbs(kind)
    ensures MappedAction(kind, verb) == None
  {
    if SubjectOf(kind).None? {
      NoOtherWithoutSubject(kind, verb);
    } else if IsPart(kind) {
      NoOtherForParts(kind, verb);
    } else if IsViewed(kind) {
      NoOtherForViewed(kind, verb);
    } else {
      NoOtherForWholes(kind, verb);
    }
  }

  lemma NoOtherWithoutSubject(kind: Meta.Kind, verb: Meta.Action)
    requires !IsCommon(verb) && !KnowsOtherVerbs(kind) && SubjectOf(kind).None?
    ensures MappedAction(kind, verb) == None
  {
  }

  lemma NoOtherForParts(kind: Meta.Kind, verb: Meta.Action)
    requires !IsCommon(verb) && !KnowsOtherVerbs(kind) && IsPart(kind)
    ensures MappedAction(kind, verb) == None
  {
  }

  lemma NoOtherForViewed(kind: Meta.Kind, verb: Meta.Action)
    requires !IsCommon(verb) && !KnowsOtherVerbs(kind) && IsViewed(kind)
    ensures MappedAction(kind, verb) == None
  {
  }

  lemma NoOtherForWholes(kind: Meta.Kind, verb: Meta.Action)
    requires !IsCommon(verb) && !KnowsOtherVerbs(kind) && SubjectOf(kind).Some? && !IsPart(kind) && !IsViewed(kind)
    ensures MappedAction(kind, verb) == None
  {
  }

  lemma OtherEntries(kind: Meta.Kind, verb: Meta.Action)
    requires !IsCommon(verb) && !kind.EventWatch? && !(kind.HostInstance? && Moves(verb))
    ensures
      MappedAction(kind, verb)
      == if kind.Business? && verb.Archive? then Some(ArchiveBusiness)
         else if kind.Business? && verb.ViewBusinessResource? then Some(ViewBusinessResource)
         else if kind.DynamicGrouping? && verb.Execute? then Some(ViewBusinessResource)
         else if (kind.HostInstance? || kind.ResourcePoolDirectory?) && verb.AddHostToResourcePool? then Some(Creating(PoolHosts))
         else if kind.SystemBase? && verb.ModelTopologyView? then Some(Editing(TopologyViews))
         else if kind.SystemBase? && verb.ModelTopologyOperation? then Some(Editing(BusinessLayers))
         else None
  {
    if !KnowsOtherVerbs(kind) {
      NoOtherEntries(kind, verb);
    }
  }

  // All other verbs are known to one or two kinds each.
  lemma OtherVerbs(kind: Meta.Kind, action: Meta.Action, bizId: int)
    requires !IsCommon(action) && !kind.EventWatch? && !(kind.HostInstance? && Moves(action))
    ensures
      ConvertResourceAction(kind, action, bizId)
      == if kind.Business? && action.Archive? then Ok(ArchiveBusiness)
         else if kind.Business? && action.ViewBusinessResource? then Ok(ViewBusinessResource)
         else if kind.DynamicGrouping? && action.Execute? then Ok(ViewBusinessResource)
         else if (kind.HostInstance? || kind.ResourcePoolDirectory?) && action.AddHostToResourcePool? then Ok(Creating(PoolHosts))
         else if kind.SystemBase? && action.ModelTopologyView? then Ok(Editing(TopologyViews))
         else if kind.SystemBase? && action.ModelTopologyOperation? then Ok(Editing(BusinessLayers))
         else Err
  {
    OtherEntries(kind, action);
  }

  /******* What nobody checks *******/

  predicate IsUnchecked(kind: Meta.Kind) {
    kind.UserCustom? || kind.ModelInstanceTopology? || kind.HostFavorite? || kind.MainlineInstanceTopology?
    || kind.InstallBK? || kind.SystemConfig?
  }

  lemma FreeEntries(kind: Meta.Kind, verb: Meta.Action)
    requires SubjectOf(kind).None? && !kind.EventWatch? && (verb.Create? || verb.Update? || verb.Delete? || verb.Find?)
    ensures
      || MappedAction(kind, verb) == None || MappedAction(kind, verb) == Some(Skip)
      || MappedAction(kind, verb) == Some(Unsupported)
    ensures MappedAction(kind, verb) == Some(Skip) <==>
      || (kind.MainlineModelTopology? && verb.Find?)
      || (kind.InstallBK? && verb.Update?)
      || (IsUnchecked(kind) && !kind.InstallBK?)
  {
  }

  // Kinds without a subject are granted no action: they are free or refused.
  lemma NoSubjectNoAction(kind: Meta.Kind, action: Meta.Action, bizId: int)
    requires SubjectOf(kind).None? && !kind.EventWatch? && IsCommon(action)
    ensures
      ConvertResourceAction(kind, action, bizId)
      == if || action.SkipAction?
            || (kind.MainlineModelTopology? && Reads(action))
            || (kind.InstallBK? && Updates(action))
            || (IsUnchecked(kind) && !kind.InstallBK?)
         then Ok(Skip) else Err
  {
    if !action.SkipAction? {
      ManyIsOne(kind, action, bizId);
      FreeEntries(kind, SingleForm(action));
    }
  }

  lemma NothingFreeWithoutSubject(kind: Meta.Kind, verb: Meta.Action)
    requires SubjectOf(kind).None? && !IsUnchecked(kind) && !Reads(verb)
    ensures MappedAction(kind, verb) != Some(Skip)
  {
  }

  lemma FreeWithoutSubject(kind: Meta.Kind, action: Meta.Action, bizId: int)
    requires SubjectOf(kind).None? && !IsUnchecked(kind) && !Reads(action) && !action.SkipAction?
    ensures ConvertResourceAction(kind, action, bizId) != Ok(Skip)
  {
    NothingFreeWithoutSubject(kind, SingleForm(action));
  }

  lemma MovesAreAsked(verb: Meta.Action)
    requires Moves(verb)
    ensures MappedAction(Meta.HostInstance, verb) != Some(Skip)
  {
  }

  lemma ChangesAreAsked(kind: Meta.Kind, action: Meta.Action, bizId: int)
    requires SubjectOf(kind).Some? && (Creates(action) || Updates(action) || Deletes(action))
    ensures ConvertResourceAction(kind, action, bizId) != Ok(Skip)
  {
    if Creates(action) {
      CreationsFollowRule(kind, action, bizId);
    } else if Updates(action) {
      UpdatesFollowRule(kind, action, bizId);
    } else {
      DeletionsFollowRule(kind, action, bizId);
    }
  }

  // No change of anything that has a permission goes unasked.
  lemma OnlyReadsAreFree(kind: Meta.Kind, action: Meta.Action, bizId: int)
    requires ConvertResourceAction(kind, action, bizId) == Ok(Skip)
    ensures action.SkipAction? || Reads(action) || IsUnchecked(kind)
  {
    if action.SkipAction? || Reads(action) || IsUnchecked(kind) {
    } else if SubjectOf(kind).None? {
      FreeWithoutSubject(kind, action, bizId);
    } else if Creates(action) || Updates(action) || Deletes(action) {
      ChangesAreAsked(kind, action, bizId);
    } else if kind.HostInstance? && Moves(action) {
      MovesAreAsked(action);
    } else {
      OtherVerbs(kind, action, bizId);
    }
  }

  /******* Watching *******/

  // The text of a watch verb.
  function VerbText(action: Meta.Action): Option<string> {
    match action
    case WatchHost => Some("host")
    case WatchHostRelation => Some("host_relation")
    case WatchBiz => Some("biz")
    case WatchSet => Some("set")
    case WatchModule => Some("module")
    case WatchSetTemplate => Some("set_template")
    case WatchProcess => Some("process")
    case _ => None
  }

  // What stands between "watch_" and "_event" in the id of a watch action.
  function WatchedName(e: WatchedEvent): string {
    match e
    case OfHost => "host"
    case OfHostRelation => "host_relation"
    case OfBiz => "biz"
    case OfSet => "set"
    case OfModule => "module"
    case OfSetTemplate => "set_template"
    case OfProcess => "process"
  }

  function EventOf(action: Meta.Action): Option<WatchedEvent> {
    match action
    case WatchHost => Some(OfHost)
    case WatchHostRelation => Some(OfHostRelation)
    case WatchBiz => Some(OfBiz)
    case WatchSet => Some(OfSet)
    case WatchModule => Some(OfModule)
    case WatchSetTemplate => Some(OfSetTemplate)
    case WatchProcess => Some(OfProcess)
    case _ => None
  }

  lemma WatchEntries(action: Meta.Action, bizId: int)
    requires !action.SkipAction?
    ensures
      ConvertResourceAction(Meta.EventWatch, action, bizId)
      == if EventOf(action).Some? then Ok(Watching(EventOf(action).value)) else Err
  {
  }

  // A watch verb needs the action that carries its name, and nothing but a watch verb needs one.
  lemma WatchesGoByName(action: Meta.Action, bizId: int)
    requires !action.SkipAction?
    ensures
      var id := ConvertResourceAction(Meta.EventWatch, action, bizId);
      match VerbText(action)
      case None => id == Err
      case Some(text) => id.Ok? && id.value.Watching? && WatchedName(id.value.event) == text
  {
    WatchEntries(action, bizId);
  }

  /******* What cannot be adapted *******/

  // Why no resources can be made for an action, once it is chosen.
  predicate LacksContext(a: Meta.ResourceAttribute) {
    || a.kind.BizTopology?
    || (a.kind.DynamicGrouping? && a.businessId <= 0)
    || ((a.kind.ProcessServiceTemplate? || a.kind.SetTemplate?) && Creates(a.action) && a.businessId <= 0)
    || (a.kind.ModelUnique? && a.layers == [])
    || ((a.kind.ModelAttribute? || a.kind.ModelAttributeGroup?) && a.businessId <= 0 && a.layers == [])
    || (a.kind.HostInstance? && Moves(a.action) && |a.layers| != 2)
  }

  lemma TypeFailsExactly(kind: Meta.Kind, bizId: int)
    ensures ConvertResourceType(kind, bizId).Err?
       <==> kind.ProcessTemplate? || kind.InstallBK? || kind.NetDataCollector? || kind.OtherKind?
  {
  }

  lemma TemplateFailsExactly(a: Meta.ResourceAttribute, t: TypeId, act: ActionId)
    requires ConvertResourceAction(a.kind, a.action, a.businessId) == Ok(act) && act != Skip
    requires a.kind.ProcessServiceTemplate? || a.kind.SetTemplate?
    ensures GenIamResource(act, t, a).Err? <==> Creates(a.action) && a.businessId <= 0
  {
    ActOfTemplate(a, act);
  }

  lemma ActOfTemplate(a: Meta.ResourceAttribute, act: ActionId)
    requires ConvertResourceAction(a.kind, a.action, a.businessId) == Ok(act) && act != Skip
    requires a.kind.ProcessServiceTemplate? || a.kind.SetTemplate?
    ensures act.Creating? <==> Creates(a.action)
    ensures act.Creating? ==> act.subject == if a.kind.SetTemplate? then SetTemplates else ServiceTemplates
  {
  }

  lemma HostFailsExactly(a: Meta.ResourceAttribute, t: TypeId, act: ActionId)
    requires ConvertResourceAction(a.kind, a.action, a.businessId) == Ok(act) && act != Skip && a.kind.HostInstance?
    ensures GenIamResource(act, t, a).Err? <==> Moves(a.action) && |a.layers| != 2
  {
    ActOfHost(a, act);
  }

  lemma ActOfHost(a: Meta.ResourceAttribute, act: ActionId)
    requires ConvertResourceAction(a.kind, a.action, a.businessId) == Ok(act) && act != Skip && a.kind.HostInstance?
    ensures Moves(a.action) <==>
      || act == ResourcePoolHostTransferToDirectory || act == ResourcePoolHostTransferToBusiness
      || act == BusinessHostTransferToResourcePool || act == HostTransferAcrossBusiness
  {
  }

  lemma OthersFailExactly(a: Meta.ResourceAttribute, t: TypeId, act: ActionId)
    requires ConvertResourceAction(a.kind, a.action, a.businessId) == Ok(act) && act != Skip
    requires !a.kind.ProcessServiceTemplate? && !a.kind.SetTemplate? && !a.kind.HostInstance?
    requires ConvertResourceType(a.kind, a.businessId).Ok?
    ensures GenIamResource(act, t, a).Err? <==> LacksContext(a)
  {
    if IsUnchecked(a.kind) {
      NeverAsked(a, act);
    }
  }

  lemma NeverAsked(a: Meta.ResourceAttribute, act: ActionId)
    requires ConvertResourceAction(a.kind, a.action, a.businessId) == Ok(act) && IsUnchecked(a.kind)
    ensures act == Skip
  {
  }

  // An attribute cannot be adapted exactly when its kind does not know the verb, when its kind has no type,
  // or when something has to be asked and the attribute does not say about what.
  lemma UnadaptableExactly(a: Meta.ResourceAttribute)
    ensures Adapt(a).Err? <==>
      || ConvertResourceAction(a.kind, a.action, a.businessId).Err?
      || a.kind.ProcessTemplate? || a.kind.InstallBK? || a.kind.NetDataCollector? || a.kind.OtherKind?
      || (ConvertResourceAction(a.kind, a.action, a.businessId) != Ok(Skip) && LacksContext(a))
  {
    TypeFailsExactly(a.kind, a.businessId);
    match (ConvertResourceAction(a.kind, a.action, a.businessId), ConvertResourceType(a.kind, a.businessId))
    case (Ok(act), Ok(t)) =>
      if act != Skip {
        if a.kind.ProcessServiceTemplate? || a.kind.SetTemplate? {
          TemplateFailsExactly(a, t, act);
        } else if a.kind.HostInstance? {
          HostFailsExactly(a, t, act);
        } else {
          OthersFailExactly(a, t, act);
        }
      }
    case _ =>
  }
}
