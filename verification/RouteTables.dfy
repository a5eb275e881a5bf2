/**
 The tables of the table-driven handlers (src/ac/parser/settemplate.go, hostapply.go, the six tables of
 process.go, cloud.go). No request path is matched by rows of two tables, and the business id that a row
 takes from the path is the number it captures there.
 */
module RouteTables {
  import opened Common
  import opened Text
  import opened Framework
  import opened ParseChain
  import opened ChainTheorems
  import opened UriRows

  const CREATE: Word := "create"
  const TOPO: Word := "topo"
  const SET_TEMPLATE: Word := "set_template"
  const UPDATE: Word := "update"
  const DELETEMANY: Word := "deletemany"
  const FIND: Word := "find"
  const FINDMANY: Word := "findmany"
  const WEB: Word := "web"
  const SERVICE_TEMPLATES: Word := "service_templates"
  const WITH_STATISTICS: Word := "with_statistics"
  const SETS: Word := "sets"
  const DIFF_WITH_INSTANCES: Word := "diff_with_instances"
  const UPDATEMANY: Word := "updatemany"
  const SYNC_TO_INSTANCES: Word := "sync_to_instances"
  const INSTANCES_SYNC_STATUS: Word := "instances_sync_status"
  const SET_TEMPLATE_SYNC_STATUS: Word := "set_template_sync_status"
  const SET_TEMPLATE_SYNC_HISTORY: Word := "set_template_sync_history"
  const SET_TEMPLATE_STATUS: Word := "set_template_status"
  const HOST_APPLY_RULE: Word := "host_apply_rule"
  const CREATEMANY: Word := "createmany"
  const BATCH_CREATE_OR_UPDATE: Word := "batch_create_or_update"
  const HOST_APPLY_PLAN: Word := "host_apply_plan"
  const PREVIEW: Word := "preview"
  const RUN: Word := "run"
  const HOST_RELATED_RULES: Word := "host_related_rules"
  const PROC: Word := "proc"
  const SERVICE: Word := "service"
  const LIST_SERVICE_INSTANCE: Word := "list_service_instance"
  const SERVICE_INSTANCE: Word := "service_instance"
  const DETAILS: Word := "details"
  const WITH_HOST: Word := "with_host"
  const DIFFERENCE: Word := "difference"
  const SYNC: Word := "sync"
  const LABELS: Word := "labels"
  const AGGREGATION: Word := "aggregation"
  const DELETE: Word := "delete"
  const PROCESS: Word := "process"
  const SERVICE_TEMPLATE: Word := "service_template"
  const DETAIL: Word := "detail"
  const TEMPLATE_BINDING_ON_MODULE: Word := "template_binding_on_module"
  const COUNT_INFO: Word := "count_info"
  const SERVICE_CATEGORY: Word := "service_category"
  const PROC_TEMPLATE: Word := "proc_template"
  const ID: Word := "id"
  const PROCESS_INSTANCE: Word := "process_instance"
  const BY_IDS: Word := "by_ids"
  const PROCESS_RELATED_INFO: Word := "process_related_info"
  const NAME_IDS: Word := "name_ids"
  const OPERATION: Word := "operation"
  const CHART: Word := "chart"
  const DATA: Word := "data"
  const POSITION: Word := "position"
  const CLOUD: Word := "cloud"
  const ACCOUNT: Word := "account"
  const VERIFY: Word := "verify"
  const VALIDITY: Word := "validity"
  const VPC: Word := "vpc"
  const TASK: Word := "task"
  const HISTORY: Word := "history"
  const REGION: Word := "region"

  /******* Whose path is it *******/

  // The table that the fourth, fifth and sixth words of a path speak for.
  function OwnerBy(fourth: string, fifth: string, sixth: string): Option<TableHandler> {
    if fourth == HOST_APPLY_RULE || fourth == HOST_APPLY_PLAN then Some(HostApply)
    else if fourth == TOPO then Some(SetTemplate)
    else if fifth == SERVICE || fifth == SERVICE_INSTANCE || fifth == WEB then Some(ServiceInstance)
    else if fifth == SERVICE_TEMPLATE || fifth == TEMPLATE_BINDING_ON_MODULE then Some(ServiceTemplate)
    else if fifth == SERVICE_CATEGORY then Some(ServiceCategory)
    else if fifth == PROC_TEMPLATE then Some(ProcessTemplate)
    else if fifth == PROCESS_INSTANCE || fifth == PROCESS_RELATED_INFO then Some(ProcessInstance)
    else if fifth == CHART then Some(OperationStatistic)
    else if fifth == VERIFY then Some(CloudAccount)
    else if fifth == SYNC then Some(CloudResourceTask)
    else if fifth == ACCOUNT then if sixth == VPC then Some(CloudResourceTask) else Some(CloudAccount)
    else None
  }

  function OwnerOf(parts: seq<string>): Option<TableHandler> {
    if |parts| < 5 then None else OwnerBy(parts[3], parts[4], if |parts| > 5 then parts[5] else "")
  }

  // A number is no word of any table.
  function WordOf(s: Segment): string {
    match s
    case Lit(text) => text
    case Num => "0"
  }

  function Owner(segments: seq<Segment>): Option<TableHandler> {
    if |segments| < 5 then None
    else OwnerBy(WordOf(segments[3]), WordOf(segments[4]), if |segments| > 5 then WordOf(segments[5]) else "")
  }

  predicate IsVerb(word: string) {
    word == CREATE || word == UPDATE || word == DELETEMANY || word == FIND || word == FINDMANY || word == CREATEMANY
    || word == UPDATEMANY
  }

  // What a row of table `t` looks like: "api" first and nowhere else, two more words, and words of the
  // table's own; its BizIndex, if any, points behind the word for a business.
  ghost predicate RowOk(row: Row, t: TableHandler) {
    && |row.segments| >= 5 && row.segments[0] == Lit(API) && row.segments[2].Lit? && row.segments[3].Lit?
    && (forall i | 0 < i < |row.segments| :: row.segments[i] != Lit(API))
    && Owner(row.segments) == Some(t) && (t == HostApply ==> IsVerb(row.segments[2].text))
    && (row.bizIndex.Some? ==> BizRow(row))
  }

  lemma UpToThree(rows: seq<Row>, t: TableHandler)
    requires |rows| <= 3
    requires |rows| > 0 ==> RowOk(rows[0], t)
    requires |rows| > 1 ==> RowOk(rows[1], t)
    requires |rows| > 2 ==> RowOk(rows[2], t)
    ensures forall r <- rows :: RowOk(r, t)
  {
  }

  function SetTemplateRows1(): (rows: seq<Row>)
    ensures forall r <- rows :: RowOk(r, SetTemplate)
  {
    var rows := [
      Row("POST", true, true, Api([Lit(CREATE), Lit(TOPO), Lit(SET_TEMPLATE), Lit(BK_BIZ_ID), Num]), Some(6)),
      Row("PUT", true, true, Api([Lit(UPDATE), Lit(TOPO), Lit(SET_TEMPLATE), Num, Lit(BK_BIZ_ID), Num]), Some(7))
    ];
    UpToThree(rows, SetTemplate);
    rows
  }

  function SetTemplateRows2(): (rows: seq<Row>)
    ensures forall r <- rows :: RowOk(r, SetTemplate)
  {
    var rows := [
      Row("DELETE", true, true, Api([Lit(DELETEMANY), Lit(TOPO), Lit(SET_TEMPLATE), Lit(BK_BIZ_ID), Num]), Some(6)),
      Row("GET", true, true, Api([Lit(FIND), Lit(TOPO), Lit(SET_TEMPLATE), Num, Lit(BK_BIZ_ID), Num]), Some(7))
    ];
    UpToThree(rows, SetTemplate);
    rows
  }

  function SetTemplateRows3(): (rows: seq<Row>)
    ensures forall r <- rows :: RowOk(r, SetTemplate)
  {
    var rows := [
      Row("POST", true, true, Api([Lit(FINDMANY), Lit(TOPO), Lit(SET_TEMPLATE), Lit(BK_BIZ_ID), Num]), Some(6)),
      Row("POST", true, true, Api([Lit(FINDMANY), Lit(TOPO), Lit(SET_TEMPLATE), Lit(BK_BIZ_ID), Num, Lit(WEB)]), Some(6))
    ];
    UpToThree(rows, SetTemplate);
    rows
  }

  function SetTemplateRows4(): (rows: seq<Row>)
    ensures forall r <- rows :: RowOk(r, SetTemplate)
  {
    var rows := [
      Row("GET", true, true, Api([Lit(FINDMANY), Lit(TOPO), Lit(SET_TEMPLATE), Num, Lit(BK_BIZ_ID), Num, Lit(SERVICE_TEMPLATES)]), Some(7)),
      Row("GET", true, true, Api([Lit(FINDMANY), Lit(TOPO), Lit(SET_TEMPLATE), Num, Lit(BK_BIZ_ID), Num, Lit(SERVICE_TEMPLATES), Lit(WITH_STATISTICS)]), Some(7))
    ];
    UpToThree(rows, SetTemplate);
    rows
  }

  function SetTemplateRows5(): (rows: seq<Row>)
    ensures forall r <- rows :: RowOk(r, SetTemplate)
  {
    var rows := [
      Row("POST", true, true, Api([Lit(FINDMANY), Lit(TOPO), Lit(SET_TEMPLATE), Num, Lit(BK_BIZ_ID), Num, Lit(SETS), Lit(WEB)]), Some(7)),
      Row("POST", true, true, Api([Lit(FINDMANY), Lit(TOPO), Lit(SET_TEMPLATE), Num, Lit(BK_BIZ_ID), Num, Lit(DIFF_WITH_INSTANCES)]), Some(7))
    ];
    UpToThree(rows, SetTemplate);
    rows
  }

  function SetTemplateRows6(): (rows: seq<Row>)
    ensures forall r <- rows :: RowOk(r, SetTemplate)
  {
    var rows := [
      Row("POST", true, true, Api([Lit(UPDATEMANY), Lit(TOPO), Lit(SET_TEMPLATE), Num, Lit(BK_BIZ_ID), Num, Lit(SYNC_TO_INSTANCES)]), Some(7)),
      Row("POST", true, true, Api([Lit(FINDMANY), Lit(TOPO), Lit(SET_TEMPLATE), Num, Lit(BK_BIZ_ID), Num, Lit(INSTANCES_SYNC_STATUS)]), Some(7))
    ];
    UpToThree(rows, SetTemplate);
    rows
  }

  function SetTemplateRows7(): (rows: seq<Row>)
    ensures forall r <- rows :: RowOk(r, SetTemplate)
  {
    var rows := [
      Row("POST", true, true, Api([Lit(FINDMANY), Lit(TOPO), Lit(SET_TEMPLATE_SYNC_STATUS), Lit(BK_BIZ_ID), Num]), Some(6)),
      Row("POST", true, true, Api([Lit(FINDMANY), Lit(TOPO), Lit(SET_TEMPLATE_SYNC_HISTORY), Lit(BK_BIZ_ID), Num]), Some(6))
    ];
    UpToThree(rows, SetTemplate);
    rows
  }

  function SetTemplateRows8(): (rows: seq<Row>)
    ensures forall r <- rows :: RowOk(r, SetTemplate)
  {
    var rows := [
      Row("GET", true, true, Api([Lit(FINDMANY), Lit(TOPO), Lit(SET_TEMPLATE), Num, Lit(BK_BIZ_ID), Num, Lit(SET_TEMPLATE_STATUS)]), Some(7)),
      Row("POST", true, true, Api([Lit(FINDMANY), Lit(TOPO), Lit(SET_TEMPLATE), Lit(BK_BIZ_ID), Num, Lit(SET_TEMPLATE_STATUS)]), Some(6))
    ];
    UpToThree(rows, SetTemplate);
    rows
  }

  function SetTemplateRows(): (rows: seq<Row>)
    ensures forall r <- rows :: RowOk(r, SetTemplate)
  {
    SetTemplateRows1() + SetTemplateRows2() + SetTemplateRows3() + SetTemplateRows4()
    + SetTemplateRows5() + SetTemplateRows6() + SetTemplateRows7() + SetTemplateRows8()
  }

  function HostApplyRows1(): (rows: seq<Row>)
    ensures forall r <- rows :: RowOk(r, HostApply)
  {
    var rows := [
      Row("POST", true, true, Api([Lit(CREATE), Lit(HOST_APPLY_RULE), Lit(BK_BIZ_ID), Num]), Some(5)),
      Row("PUT", true, true, Api([Lit(UPDATE), Lit(HOST_APPLY_RULE), Num, Lit(BK_BIZ_ID), Num]), Some(6)),
      Row("DELETE", true, true, Api([Lit(DELETEMANY), Lit(HOST_APPLY_RULE), Lit(BK_BIZ_ID), Num]), Some(5))
    ];
    UpToThree(rows, HostApply);
    rows
  }

  function HostApplyRows2(): (rows: seq<Row>)
    ensures forall r <- rows :: RowOk(r, HostApply)
  {
    var rows := [
      Row("GET", true, true, Api([Lit(FIND), Lit(HOST_APPLY_RULE), Num, Lit(BK_BIZ_ID), Num]), Some(6)),
      Row("POST", true, true, Api([Lit(FINDMANY), Lit(HOST_APPLY_RULE), Lit(BK_BIZ_ID), Num]), Some(5)),
      Row("POST", true, true, Api([Lit(CREATEMANY), Lit(HOST_APPLY_RULE), Lit(BK_BIZ_ID), Num, Lit(BATCH_CREATE_OR_UPDATE)]), Some(5))
    ];
    UpToThree(rows, HostApply);
    rows
  }

  function HostApplyRows3(): (rows: seq<Row>)
    ensures forall r <- rows :: RowOk(r, HostApply)
  {
    var rows := [
      Row("POST", true, true, Api([Lit(CREATEMANY), Lit(HOST_APPLY_PLAN), Lit(BK_BIZ_ID), Num, Lit(PREVIEW)]), Some(5)),
      Row("POST", true, true, Api([Lit(UPDATEMANY), Lit(HOST_APPLY_PLAN), Lit(BK_BIZ_ID), Num, Lit(RUN)]), Some(5)),
      Row("POST", true, true, Api([Lit(FINDMANY), Lit(HOST_APPLY_RULE), Lit(BK_BIZ_ID), Num, Lit(HOST_RELATED_RULES)]), Some(5))
    ];
    UpToThree(rows, HostApply);
    rows
  }

  function HostApplyRows(): (rows: seq<Row>)
    ensures forall r <- rows :: RowOk(r, HostApply)
  {
    HostApplyRows1() + HostApplyRows2() + HostApplyRows3()
  }

  function ServiceInstanceRows1(): (rows: seq<Row>)
    ensures forall r <- rows :: RowOk(r, ServiceInstance)
  {
    var rows := [
      Row("POST", true, true, Api([Lit(FINDMANY), Lit(PROC), Lit(SERVICE), Lit(SET_TEMPLATE), Lit(LIST_SERVICE_INSTANCE), Lit(BIZ), Num]), None),
      Row("POST", true, false, Api([Lit(CREATE), Lit(PROC), Lit(SERVICE_INSTANCE)]), None)
    ];
    UpToThree(rows, ServiceInstance);
    rows
  }

  function ServiceInstanceRows2(): (rows: seq<Row>)
    ensures forall r <- rows :: RowOk(r, ServiceInstance)
  {
    var rows := [
      Row("POST", true, false, Api([Lit(CREATE), Lit(PROC), Lit(SERVICE_INSTANCE), Lit(PREVIEW)]), None),
      Row("POST", true, false, Api([Lit(FINDMANY), Lit(PROC), Lit(SERVICE_INSTANCE)]), None)
    ];
    UpToThree(rows, ServiceInstance);
    rows
  }

  function ServiceInstanceRows3(): (rows: seq<Row>)
    ensures forall r <- rows :: RowOk(r, ServiceInstance)
  {
    var rows := [
      Row("POST", true, false, Api([Lit(FINDMANY), Lit(PROC), Lit(WEB), Lit(SERVICE_INSTANCE)]), None),
      Row("POST", true, false, Api([Lit(FINDMANY), Lit(PROC), Lit(SERVICE_INSTANCE), Lit(DETAILS)]), None)
    ];
    UpToThree(rows, ServiceInstance);
    rows
  }

  function ServiceInstanceRows4(): (rows: seq<Row>)
    ensures forall r <- rows :: RowOk(r, ServiceInstance)
  {
    var rows := [
      Row("POST", true, false, Api([Lit(FINDMANY), Lit(PROC), Lit(SERVICE_INSTANCE), Lit(WITH_HOST)]), None),
      Row("POST", true, false, Api([Lit(FINDMANY), Lit(PROC), Lit(WEB), Lit(SERVICE_INSTANCE), Lit(WITH_HOST)]), None)
    ];
    UpToThree(rows, ServiceInstance);
    rows
  }

  function ServiceInstanceRows5(): (rows: seq<Row>)
    ensures forall r <- rows :: RowOk(r, ServiceInstance)
  {
    var rows := [
      Row("PUT", true, true, Api([Lit(UPDATEMANY), Lit(PROC), Lit(SERVICE_INSTANCE), Lit(BIZ), Num]), Some(6)),
      Row("DELETE", true, false, Api([Lit(DELETEMANY), Lit(PROC), Lit(SERVICE_INSTANCE)]), None)
    ];
    UpToThree(rows, ServiceInstance);
    rows
  }

  function ServiceInstanceRows6(): (rows: seq<Row>)
    ensures forall r <- rows :: RowOk(r, ServiceInstance)
  {
    var rows := [
      Row("POST", true, false, Api([Lit(FIND), Lit(PROC), Lit(SERVICE_INSTANCE), Lit(DIFFERENCE)]), None),
      Row("PUT", true, false, Api([Lit(UPDATE), Lit(PROC), Lit(SERVICE_INSTANCE), Lit(SYNC)]), None)
    ];
    UpToThree(rows, ServiceInstance);
    rows
  }

  function ServiceInstanceRows7(): (rows: seq<Row>)
    ensures forall r <- rows :: RowOk(r, ServiceInstance)
  {
    var rows := [
      Row("POST", true, false, Api([Lit(FINDMANY), Lit(PROC), Lit(SERVICE_INSTANCE), Lit(WITH_HOST)]), None),
      Row("POST", true, false, Api([Lit(FINDMANY), Lit(PROC), Lit(SERVICE_INSTANCE), Lit(LABELS), Lit(AGGREGATION)]), None)
    ];
    UpToThree(rows, ServiceInstance);
    rows
  }

  function ServiceInstanceRows8(): (rows: seq<Row>)
    ensures forall r <- rows :: RowOk(r, ServiceInstance)
  {
    var rows := [
      Row("POST", true, false, Api([Lit(CREATEMANY), Lit(PROC), Lit(SERVICE_INSTANCE), Lit(LABELS)]), None),
      Row("DELETE", true, false, Api([Lit(DELETEMANY), Lit(PROC), Lit(SERVICE_INSTANCE), Lit(LABELS)]), None)
    ];
    UpToThree(rows, ServiceInstance);
    rows
  }

  function ServiceInstanceRows9(): (rows: seq<Row>)
    ensures forall r <- rows :: RowOk(r, ServiceInstance)
  {
    var rows := [
      Row("DELETE", false, true, Api([Lit(DELETE), Lit(PROC), Lit(SERVICE_INSTANCE), Num, Lit(PROCESS)]), None),
      Row("POST", false, true, Api([Lit(DELETEMANY), Lit(PROC), Lit(SERVICE_INSTANCE), Lit(PREVIEW)]), None)
    ];
    UpToThree(rows, ServiceInstance);
    rows
  }

  function ServiceInstanceRows(): (rows: seq<Row>)
    ensures forall r <- rows :: RowOk(r, ServiceInstance)
  {
    ServiceInstanceRows1() + ServiceInstanceRows2() + ServiceInstanceRows3() + ServiceInstanceRows4()
    + ServiceInstanceRows5() + ServiceInstanceRows6() + ServiceInstanceRows7() + ServiceInstanceRows8()
    + ServiceInstanceRows9()
  }

  function ServiceTemplateRows1(): (rows: seq<Row>)
    ensures forall r <- rows :: RowOk(r, ServiceTemplate)
  {
    var rows := [
      Row("POST", true, false, Api([Lit(CREATE), Lit(PROC), Lit(SERVICE_TEMPLATE)]), None),
      Row("PUT", true, false, Api([Lit(UPDATE), Lit(PROC), Lit(SERVICE_TEMPLATE)]), None),
      Row("GET", true, false, Api([Lit(FIND), Lit(PROC), Lit(SERVICE_TEMPLATE), Num]), None)
    ];
    UpToThree(rows, ServiceTemplate);
    rows
  }

  function ServiceTemplateRows2(): (rows: seq<Row>)
    ensures forall r <- rows :: RowOk(r, ServiceTemplate)
  {
    var rows := [
      Row("GET", true, false, Api([Lit(FIND), Lit(PROC), Lit(SERVICE_TEMPLATE), Num, Lit(DETAIL)]), None),
      Row("POST", true, false, Api([Lit(FINDMANY), Lit(PROC), Lit(SERVICE_TEMPLATE)]), None),
      Row("DELETE", true, false, Api([Lit(DELETE), Lit(PROC), Lit(TEMPLATE_BINDING_ON_MODULE)]), None)
    ];
    UpToThree(rows, ServiceTemplate);
    rows
  }

  function ServiceTemplateRows3(): (rows: seq<Row>)
    ensures forall r <- rows :: RowOk(r, ServiceTemplate)
  {
    var rows := [
      Row("DELETE", true, false, Api([Lit(DELETE), Lit(PROC), Lit(SERVICE_TEMPLATE)]), None),
      Row("POST", true, true, Api([Lit(FINDMANY), Lit(PROC), Lit(SERVICE_TEMPLATE), Lit(COUNT_INFO), Lit(BIZ), Num]), Some(7))
    ];
    UpToThree(rows, ServiceTemplate);
    rows
  }

  function ServiceTemplateRows(): (rows: seq<Row>)
    ensures forall r <- rows :: RowOk(r, ServiceTemplate)
  {
    ServiceTemplateRows1() + ServiceTemplateRows2() + ServiceTemplateRows3()
  }

  function ServiceCategoryRows1(): (rows: seq<Row>)
    ensures forall r <- rows :: RowOk(r, ServiceCategory)
  {
    var rows := [
      Row("POST", true, false, Api([Lit(FINDMANY), Lit(PROC), Lit(SERVICE_CATEGORY)]), None),
      Row("POST", true, false, Api([Lit(FINDMANY), Lit(PROC), Lit(SERVICE_CATEGORY), Lit(WITH_STATISTICS)]), None),
      Row("POST", true, false, Api([Lit(CREATE), Lit(PROC), Lit(SERVICE_CATEGORY)]), None)
    ];
    UpToThree(rows, ServiceCategory);
    rows
  }

  function ServiceCategoryRows2(): (rows: seq<Row>)
    ensures forall r <- rows :: RowOk(r, ServiceCategory)
  {
    var rows := [
      Row("PUT", true, false, Api([Lit(UPDATE), Lit(PROC), Lit(SERVICE_CATEGORY)]), None),
      Row("DELETE", true, false, Api([Lit(DELETE), Lit(PROC), Lit(SERVICE_CATEGORY)]), None)
    ];
    UpToThree(rows, ServiceCategory);
    rows
  }

  function ServiceCategoryRows(): (rows: seq<Row>)
    ensures forall r <- rows :: RowOk(r, ServiceCategory)
  {
    ServiceCategoryRows1() + ServiceCategoryRows2()
  }

  function ProcessTemplateRows1(): (rows: seq<Row>)
    ensures forall r <- rows :: RowOk(r, ProcessTemplate)
  {
    var rows := [
      Row("POST", true, false, Api([Lit(CREATEMANY), Lit(PROC), Lit(PROC_TEMPLATE)]), None),
      Row("PUT", true, false, Api([Lit(UPDATE), Lit(PROC), Lit(PROC_TEMPLATE)]), None),
      Row("DELETE", true, false, Api([Lit(DELETEMANY), Lit(PROC), Lit(PROC_TEMPLATE)]), None)
    ];
    UpToThree(rows, ProcessTemplate);
    rows
  }

  function ProcessTemplateRows2(): (rows: seq<Row>)
    ensures forall r <- rows :: RowOk(r, ProcessTemplate)
  {
    var rows := [
      Row("POST", true, false, Api([Lit(FINDMANY), Lit(PROC), Lit(PROC_TEMPLATE)]), None),
      Row("POST", false, true, Api([Lit(FIND), Lit(PROC), Lit(PROC_TEMPLATE), Lit(ID), Num]), None)
    ];
    UpToThree(rows, ProcessTemplate);
    rows
  }

  function ProcessTemplateRows(): (rows: seq<Row>)
    ensures forall r <- rows :: RowOk(r, ProcessTemplate)
  {
    ProcessTemplateRows1() + ProcessTemplateRows2()
  }

  function ProcessInstanceRows1(): (rows: seq<Row>)
    ensures forall r <- rows :: RowOk(r, ProcessInstance)
  {
    var rows := [
      Row("POST", true, false, Api([Lit(CREATE), Lit(PROC), Lit(PROCESS_INSTANCE)]), None),
      Row("PUT", true, false, Api([Lit(UPDATE), Lit(PROC), Lit(PROCESS_INSTANCE)]), None)
    ];
    UpToThree(rows, ProcessInstance);
    rows
  }

  function ProcessInstanceRows2(): (rows: seq<Row>)
    ensures forall r <- rows :: RowOk(r, ProcessInstance)
  {
    var rows := [
      Row("PUT", true, false, Api([Lit(UPDATE), Lit(PROC), Lit(PROCESS_INSTANCE), Lit(BY_IDS)]), None),
      Row("DELETE", true, false, Api([Lit(DELETE), Lit(PROC), Lit(PROCESS_INSTANCE)]), None)
    ];
    UpToThree(rows, ProcessInstance);
    rows
  }

  function ProcessInstanceRows3(): (rows: seq<Row>)
    ensures forall r <- rows :: RowOk(r, ProcessInstance)
  {
    var rows := [
      Row("POST", true, false, Api([Lit(FINDMANY), Lit(PROC), Lit(PROCESS_INSTANCE)]), None),
      Row("POST", true, true, Api([Lit(FINDMANY), Lit(PROC), Lit(PROCESS_RELATED_INFO), Lit(BIZ), Num]), Some(6))
    ];
    UpToThree(rows, ProcessInstance);
    rows
  }

  function ProcessInstanceRows4(): (rows: seq<Row>)
    ensures forall r <- rows :: RowOk(r, ProcessInstance)
  {
    var rows := [
      Row("POST", true, false, Api([Lit(FINDMANY), Lit(PROC), Lit(PROCESS_INSTANCE), Lit(NAME_IDS)]), None),
      Row("POST", true, true, Api([Lit(FINDMANY), Lit(PROC), Lit(PROCESS_INSTANCE), Lit(DETAIL), Lit(BIZ), Num]), Some(7))
    ];
    UpToThree(rows, ProcessInstance);
    rows
  }

  function ProcessInstanceRows5(): (rows: seq<Row>)
    ensures forall r <- rows :: RowOk(r, ProcessInstance)
  {
    var rows := [
      Row("POST", true, false, Api([Lit(FINDMANY), Lit(PROC), Lit(PROCESS_INSTANCE), Lit(DETAIL), Lit(BY_IDS)]), None)
    ];
    UpToThree(rows, ProcessInstance);
    rows
  }

  function ProcessInstanceRows(): (rows: seq<Row>)
    ensures forall r <- rows :: RowOk(r, ProcessInstance)
  {
    ProcessInstanceRows1() + ProcessInstanceRows2() + ProcessInstanceRows3() + ProcessInstanceRows4()
    + ProcessInstanceRows5()
  }

  function OperationStatisticRows1(): (rows: seq<Row>)
    ensures forall r <- rows :: RowOk(r, OperationStatistic)
  {
    var rows := [
      Row("POST", true, true, Api([Lit(CREATE), Lit(OPERATION), Lit(CHART)]), None),
      Row("DELETE", true, true, Api([Lit(DELETE), Lit(OPERATION), Lit(CHART), Num]), None),
      Row("POST", true, true, Api([Lit(UPDATE), Lit(OPERATION), Lit(CHART)]), None)
    ];
    UpToThree(rows, OperationStatistic);
    rows
  }

  function OperationStatisticRows2(): (rows: seq<Row>)
    ensures forall r <- rows :: RowOk(r, OperationStatistic)
  {
    var rows := [
      Row("GET", true, true, Api([Lit(FINDMANY), Lit(OPERATION), Lit(CHART)]), None),
      Row("POST", true, true, Api([Lit(FIND), Lit(OPERATION), Lit(CHART), Lit(DATA)]), None),
      Row("POST", true, true, Api([Lit(UPDATE), Lit(OPERATION), Lit(CHART), Lit(POSITION)]), None)
    ];
    UpToThree(rows, OperationStatistic);
    rows
  }

  function OperationStatisticRows(): (rows: seq<Row>)
    ensures forall r <- rows :: RowOk(r, OperationStatistic)
  {
    OperationStatisticRows1() + OperationStatisticRows2()
  }

  function CloudAccountRows1(): (rows: seq<Row>)
    ensures forall r <- rows :: RowOk(r, CloudAccount)
  {
    var rows := [
      Row("POST", true, false, Api([Lit(CLOUD), Lit(ACCOUNT), Lit(VERIFY)]), None),
      Row("POST", true, false, Api([Lit(FINDMANY), Lit(CLOUD), Lit(ACCOUNT), Lit(VALIDITY)]), None),
      Row("POST", true, false, Api([Lit(FINDMANY), Lit(CLOUD), Lit(ACCOUNT)]), None)
    ];
    UpToThree(rows, CloudAccount);
    rows
  }

  function CloudAccountRows2(): (rows: seq<Row>)
    ensures forall r <- rows :: RowOk(r, CloudAccount)
  {
    var rows := [
      Row("POST", true, false, Api([Lit(CREATE), Lit(CLOUD), Lit(ACCOUNT)]), None),
      Row("PUT", true, false, Api([Lit(UPDATE), Lit(CLOUD), Lit(ACCOUNT), Num]), None),
      Row("DELETE", true, false, Api([Lit(DELETE), Lit(CLOUD), Lit(ACCOUNT), Num]), None)
    ];
    UpToThree(rows, CloudAccount);
    rows
  }

  function CloudAccountRows(): (rows: seq<Row>)
    ensures forall r <- rows :: RowOk(r, CloudAccount)
  {
    CloudAccountRows1() + CloudAccountRows2()
  }

  function CloudResourceTaskRows1(): (rows: seq<Row>)
    ensures forall r <- rows :: RowOk(r, CloudResourceTask)
  {
    var rows := [
      Row("POST", true, false, Api([Lit(FINDMANY), Lit(CLOUD), Lit(ACCOUNT), Lit(VPC), Num]), None),
      Row("POST", true, false, Api([Lit(FINDMANY), Lit(CLOUD), Lit(SYNC), Lit(TASK)]), None),
      Row("POST", true, false, Api([Lit(CREATE), Lit(CLOUD), Lit(SYNC), Lit(TASK)]), None)
    ];
    UpToThree(rows, CloudResourceTask);
    rows
  }

  function CloudResourceTaskRows2(): (rows: seq<Row>)
    ensures forall r <- rows :: RowOk(r, CloudResourceTask)
  {
    var rows := [
      Row("PUT", true, false, Api([Lit(UPDATE), Lit(CLOUD), Lit(SYNC), Lit(TASK), Num]), None),
      Row("DELETE", true, false, Api([Lit(DELETE), Lit(CLOUD), Lit(SYNC), Lit(TASK), Num]), None),
      Row("POST", true, false, Api([Lit(FINDMANY), Lit(CLOUD), Lit(SYNC), Lit(HISTORY)]), None)
    ];
    UpToThree(rows, CloudResourceTask);
    rows
  }

  function CloudResourceTaskRows3(): (rows: seq<Row>)
    ensures forall r <- rows :: RowOk(r, CloudResourceTask)
  {
    var rows := [
      Row("POST", true, false, Api([Lit(FINDMANY), Lit(CLOUD), Lit(SYNC), Lit(REGION)]), None)
    ];
    UpToThree(rows, CloudResourceTask);
    rows
  }

  function CloudResourceTaskRows(): (rows: seq<Row>)
    ensures forall r <- rows :: RowOk(r, CloudResourceTask)
  {
    CloudResourceTaskRows1() + CloudResourceTaskRows2() + CloudResourceTaskRows3()
  }

  function RowsOf(t: TableHandler): (rows: seq<Row>)
    ensures forall r <- rows :: RowOk(r, t)
  {
    match t
    case HostApply => HostApplyRows()
    case SetTemplate => SetTemplateRows()
    case ServiceInstance => ServiceInstanceRows()
    case ServiceTemplate => ServiceTemplateRows()
    case ServiceCategory => ServiceCategoryRows()
    case ProcessTemplate => ProcessTemplateRows()
    case ProcessInstance => ProcessInstanceRows()
    case OperationStatistic => OperationStatisticRows()
    case CloudAccount => CloudAccountRows()
    case CloudResourceTask => CloudResourceTaskRows()
    case ConfigAdmin => []
  }

  // For every row of these tables with a BizIndex and every path it accepts: the path splits into more
  // elements than that, the element there is the number captured, and the getter returns its value.
  lemma BizIdComesFromPath(t: TableHandler, row: Row, uri: string, parts: seq<string>, request: RequestContext)
    requires row in RowsOf(t) && row.bizIndex.Some? && Reads(row, uri, parts) && request.elements == Elements(uri)
    ensures
      var i := row.bizIndex.value;
      && UrlParse(uri) == Ok(Elements(uri))
      && i < |Elements(uri)| && (parts[i - 1] == "bk_biz_id" || parts[i - 1] == "biz")
      && Elements(uri)[i] == parts[i] && AllDigits(parts[i])
      && BizIdFromUrl(request, i) == if Value(parts[i]) <= MAX_INT64 then Ok(Value(parts[i])) else Err
  {
    BizIdIsCaptured(row, uri, parts, request);
  }

  /******* A path is read in one way *******/

  lemma DigitsAreNoWord(s: string, word: string)
    requires s != "" && AllDigits(s) && word != "" && !IsDigit(word[0])
    ensures s != word
  {
    assert s[0] in s;
  }

  lemma PartsArePlain(row: Row, t: TableHandler, uri: string, parts: seq<string>)
    requires RowOk(row, t) && Reads(row, uri, parts)
    ensures Segments(parts) && parts[0] == "api" && forall i | 0 < i < |parts| :: parts[i] != "api"
    ensures OwnerOf(parts) == Some(t)
  {
    ReadIsSegments(row, uri, parts);
    assert Fits(row.segments[0], parts[0]);
    forall i | 0 < i < |parts|
      ensures parts[i] != "api"
    {
      assert Fits(row.segments[i], parts[i]);
      if row.segments[i].Num? {
        DigitsAreNoWord(parts[i], "api");
      }
    }
    OwnerReads(row, t, parts);
  }

  lemma OwnerReads(row: Row, t: TableHandler, parts: seq<string>)
    requires RowOk(row, t) && |parts| == |row.segments| && forall i | 0 <= i < |parts| :: Fits(row.segments[i], parts[i])
    ensures OwnerOf(parts) == Some(t)
  {
    assert Fits(row.segments[3], parts[3]) && Fits(row.segments[4], parts[4]);
    if |parts| > 5 {
      assert Fits(row.segments[5], parts[5]);
      if row.segments[5].Num? {
        DigitsAreNoWord(parts[5], VPC);
      }
    }
  }

  // Splitting a path that ends in plain parts gives those parts last.
  lemma SplitEnds(prefix: string, parts: seq<string>)
    requires Segments(parts)
    ensures Split(prefix + Path(parts), '/') == Split(prefix, '/') + parts
    ensures Split(prefix + Path(parts) + "/", '/') == Split(prefix, '/') + parts + [""]
  {
    var whole := prefix + Path(parts);
    SplitJoin(parts, '/');
    SplitAt(prefix, '/', Join(parts, '/'));
    assert whole == prefix + ['/'] + Join(parts, '/');
    SplitFree("", '/');
    SplitAt(whole, '/', "");
    assert whole + "/" == whole + ['/'] + "";
  }

  lemma TailOff(pieces: seq<string>, parts: seq<string>)
    requires Segments(parts)
    ensures WithoutTail(pieces + parts) == WithoutTail(pieces + parts + [""]) == pieces + parts
  {
    var last := |parts| - 1;
    assert parts[last] in parts && (pieces + parts)[|pieces| + last] == parts[last];
  }

  // The last elements of the path, an empty one at the end aside, are the parts.
  lemma PathEnds(row: Row, uri: string, parts: seq<string>)
    requires Segments(parts) && Reads(row, uri, parts)
    ensures
      var pieces := WithoutTail(Split(uri, '/'));
      |pieces| >= |parts| && pieces[|pieces| - |parts|..] == parts
  {
    var prefix := EndPrefix(row, uri, parts);
    SplitEnds(prefix, parts);
    TailOff(Split(prefix, '/'), parts);
  }

  lemma EndPrefix(row: Row, uri: string, parts: seq<string>) returns (prefix: string)
    requires Reads(row, uri, parts)
    ensures uri == prefix + Path(parts) || uri == prefix + Path(parts) + "/"
  {
    prefix :| (row.anchored ==> prefix == "")
              && (uri == prefix + Path(parts) || (row.slash && uri == prefix + Path(parts) + "/"));
  }

  lemma ReadingsAgree(r1: Row, t1: TableHandler, p1: seq<string>, r2: Row, t2: TableHandler, p2: seq<string>, uri: string)
    requires RowOk(r1, t1) && Reads(r1, uri, p1)
    requires RowOk(r2, t2) && Reads(r2, uri, p2)
    requires |p1| <= |p2|
    ensures p1 == p2
  {
    PartsArePlain(r1, t1, uri, p1);
    PartsArePlain(r2, t2, uri, p2);
    PathEnds(r1, uri, p1);
    PathEnds(r2, uri, p2);
    var shift := |p2| - |p1|;
    assert p2[shift..] == p1;
    assert p2[shift] == p1[0] == "api";
  }

  // No path is matched by rows of two tables.
  lemma OneTableOnly(r1: Row, t1: TableHandler, p1: seq<string>, r2: Row, t2: TableHandler, p2: seq<string>, uri: string)
    requires r1 in RowsOf(t1) && Reads(r1, uri, p1)
    requires r2 in RowsOf(t2) && Reads(r2, uri, p2)
    ensures t1 == t2
  {
    if |p1| <= |p2| {
      ReadingsAgree(r1, t1, p1, r2, t2, p2, uri);
    } else {
      ReadingsAgree(r2, t2, p2, r1, t1, p1, uri);
    }
    PartsArePlain(r1, t1, uri, p1);
    PartsArePlain(r2, t2, uri, p2);
  }
}
