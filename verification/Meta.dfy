/** The attributes that the gateway derives from a request (src/ac/meta/meta.go and resource.go). */
module Meta {

  // meta.ResourceType. `OtherKind` is any text that is none of the constants.
  datatype Kind =
    | Business | Model | ModelModule | ModelSet | MainlineModel | MainlineModelTopology
    | MainlineInstanceTopology | MainlineInstance | AssociationType | ModelAssociation | ModelInstanceAssociation | ModelInstance
    | ModelInstanceTopology | ModelTopology | ModelClassification | ModelAttributeGroup | ModelAttribute | ModelUnique
    | HostFavorite | Process | ProcessServiceCategory | ProcessServiceTemplate | ProcessTemplate | ProcessServiceInstance
    | BizTopology | HostInstance | NetDataCollector | DynamicGrouping | EventPushing | EventWatch
    | CloudAreaInstance | AuditLog | UserCustom | SystemBase | InstallBK | SystemConfig
    | SetTemplate | OperationStatistic | HostApply | ResourcePoolDirectory | CloudAccount | CloudResourceTask
    | ConfigAdmin
    | OtherKind(text: string)

  // meta.Action.
  datatype Action =
    | Create | CreateMany | Update | UpdateMany | Delete | DeleteMany
    | Archive | Find | FindMany | Unknown | EmptyAction | SkipAction
    | Execute | MoveResPoolHostToBizIdleModule | MoveResPoolHostToDirectory | AddHostToResourcePool | MoveBizHostFromModuleToResPool | MoveHostToAnotherBizModule
    | ModelTopologyView | ModelTopologyOperation | WatchHost | WatchHostRelation | WatchBiz | WatchSet
    | WatchModule | WatchSetTemplate | WatchProcess | ViewBusinessResource
    | OtherAction(text: string)

  datatype Item = Item(kind: Kind, action: Action, name: string, instanceId: int, instanceIdEx: string)

  datatype ResourceAttribute = ResourceAttribute(
    kind: Kind, action: Action, name: string, instanceId: int, instanceIdEx: string,
    supplierAccount: string, businessId: int, layers: seq<Item>)
}
