/**
 Resources for a list of instances, `MakeResourcesByInstances` and `collectObjectsByInstances`
 (src/ac/extensions/instance.go:59-209, src/ac/extensions/model.go:31-81): instances are grouped by
 business to look up their models, regrouped by model, and turned into resources group by group. The
 groups are Go maps, iterated in any order.
 */
module Instances {
  import opened Common
  import Meta

  datatype Instance = Instance(id: int, name: string, bizId: int, objectId: string)

  datatype Object = Object(id: int, objectId: string, name: string)

  // ReadModel: the models of a business with the given object ids.
  type Store = (int, seq<string>) -> Result<seq<Object>>

  /******* Looking up models *******/

  function ObjectIds(xs: seq<Instance>, bizId: int): seq<string> {
    if xs == [] then []
    else ObjectIds(xs[..|xs| - 1], bizId) + (if xs[|xs| - 1].bizId == bizId then [xs[|xs| - 1].objectId] else [])
  }

  function Unique(a: seq<string>): seq<string> {
    if a == [] then []
    else
      var rest := Unique(a[..|a| - 1]);
      if a[|a| - 1] in rest then rest else rest + [a[|a| - 1]]
  }

  // Of several models with the object id, the last one.
  function LastModel(objects: seq<Object>, objectId: string): Option<Object> {
    if objects == [] then None
    else if objects[|objects| - 1].objectId == objectId then Some(objects[|objects| - 1])
    else LastModel(objects[..|objects| - 1], objectId)
  }

  // One model for each object id that is asked for, or an error.
  function Fetched(ids: seq<string>, bizId: int, store: Store): Result<seq<Object>> {
    match store(bizId, ids)
    case Err => Err
    case Ok(objects) => if objects == [] || |objects| != |ids| then Err else Ok(objects)
  }

  // The model for the business and the object id of `x`.
  function ModelFor(xs: seq<Instance>, store: Store, x: Instance): Option<Object> {
    match Fetched(Unique(ObjectIds(xs, x.bizId)), x.bizId, store)
    case Err => None
    case Ok(objects) => LastModel(objects, x.objectId)
  }

  predicate Known(xs: seq<Instance>, store: Store) {
    forall x <- xs :: ModelFor(xs, store, x).Some?
  }

  // Each object id of the business is asked for once.
  lemma {:induction false} AskedIds(xs: seq<Instance>, b: int)
    ensures forall s :: s in ObjectIds(xs, b) <==> exists x <- xs :: x.bizId == b && x.objectId == s
  {
    if xs != [] {
      var n := |xs| - 1;
      AskedIds(xs[..n], b);
      assert xs[n] in xs && forall x <- xs :: x in xs[..n] || x == xs[n];
    }
  }

  lemma {:induction false} UniqueOnce(a: seq<string>)
    ensures forall s :: s in Unique(a) <==> s in a
    ensures forall i, j | 0 <= i < j < |Unique(a)| :: Unique(a)[i] != Unique(a)[j]
  {
    if a != [] {
      assert a == a[..|a| - 1] + [a[|a| - 1]];
      UniqueOnce(a[..|a| - 1]);
    }
  }

  lemma {:induction false} LastModelIs(objects: seq<Object>, objectId: string)
    ensures LastModel(objects, objectId).None? ==> forall o <- objects :: o.objectId != objectId
    ensures LastModel(objects, objectId).Some? ==>
      exists i ::
        && 0 <= i < |objects| && objects[i] == LastModel(objects, objectId).value && objects[i].objectId == objectId
        && forall j | i < j < |objects| :: objects[j].objectId != objectId
  {
    if objects != [] {
      var n := |objects| - 1;
      LastModelIs(objects[..n], objectId);
      assert forall o <- objects :: o in objects[..n] || o == objects[n];
      if objects[n].objectId != objectId && LastModel(objects, objectId).Some? {
        var i :| 0 <= i < n && objects[..n][i] == LastModel(objects, objectId).value && objects[..n][i].objectId == objectId
                 && forall j | i < j < n :: objects[..n][j].objectId != objectId;
        assert forall j | i < j < |objects| :: objects[j].objectId != objectId by {
          assert forall j | i < j < n :: objects[j] == objects[..n][j];
        }
        assert objects[i] == objects[..n][i];
      }
    }
  }

  // The model of an instance is found exactly when the store answers for its business with as many models
  // as there are object ids to ask for, and one of them has its object id; the last such model is taken.
  lemma ModelFound(xs: seq<Instance>, store: Store, x: Instance)
    requires x in xs
    ensures
      var ids := Unique(ObjectIds(xs, x.bizId));
      var answer := store(x.bizId, ids);
      && (forall s :: s in ids <==> exists y <- xs :: y.bizId == x.bizId && y.objectId == s)
      && (forall i, j | 0 <= i < j < |ids| :: ids[i] != ids[j])
      && (ModelFor(xs, store, x).Some? <==>
            answer.Ok? && |answer.value| == |ids| && exists o <- answer.value :: o.objectId == x.objectId)
      && (ModelFor(xs, store, x).Some? ==>
            exists i ::
              && 0 <= i < |answer.value| && answer.value[i] == ModelFor(xs, store, x).value
              && answer.value[i].objectId == x.objectId
              && forall j | i < j < |answer.value| :: answer.value[j].objectId != x.objectId)
  {
    var ids := Unique(ObjectIds(xs, x.bizId));
    AskedIds(xs, x.bizId);
    UniqueOnce(ObjectIds(xs, x.bizId));
    assert x.objectId in ids;
    var answer := store(x.bizId, ids);
    if answer.Ok? {
      LastModelIs(answer.value, x.objectId);
    }
  }

  /******* The last instance with an id *******/

  // The maps are keyed by instance id: the last instance with an id speaks for all of them.
  function Speaker(xs: seq<Instance>, id: int): Option<Instance> {
    if xs == [] then None
    else if xs[|xs| - 1].id == id then Some(xs[|xs| - 1])
    else Speaker(xs[..|xs| - 1], id)
  }

  lemma {:induction false} SpeakerIsThere(xs: seq<Instance>, x: Instance)
    requires x in xs
    ensures Speaker(xs, x.id).Some? && Speaker(xs, x.id).value in xs && Speaker(xs, x.id).value.id == x.id
  {
    var n := |xs| - 1;
    assert xs == xs[..n] + [xs[n]];
    if xs[n].id != x.id {
      SpeakerIsThere(xs[..n], x);
    }
  }

  // A map from instance ids that holds for each id what its speaker says.
  ghost predicate Spoken<T(!new)>(m: map<int, T>, xs: seq<Instance>, says: Instance -> T) {
    && (forall x <- xs :: x.id in m)
    && forall id <- m :: Speaker(xs, id).Some? && m[id] == says(Speaker(xs, id).value)
  }

  lemma SpokenMore<T(!new)>(m: map<int, T>, xs: seq<Instance>, says: Instance -> T, n: nat)
    requires n < |xs| && Spoken(m, xs[..n], says)
    ensures Spoken(m[xs[n].id := says(xs[n])], xs[..n + 1], says)
  {
    assert xs[..n + 1][..n] == xs[..n];
    assert forall x <- xs[..n + 1] :: x in xs[..n] || x == xs[n];
  }

  // The model that the code takes for `x`: that of its speaker.
  function Taken(xs: seq<Instance>, store: Store, x: Instance): Object {
    match Speaker(xs, x.id)
    case None => Object(0, "", "")
    case Some(y) => Chosen(xs, store, y)
  }

  type Model = Instance -> Object

  function Models(xs: seq<Instance>, store: Store): Model {
    x => Taken(xs, store, x)
  }

  /******* Grouping *******/

  // Of the instances whose model has one of the ids, in order, what `f` makes of them.
  function Pick<R>(xs: seq<Instance>, model: Model, f: Instance -> R, ids: set<int>): seq<R> {
    if xs == [] then []
    else
      var last := xs[|xs| - 1];
      Pick(xs[..|xs| - 1], model, f, ids) + (if model(last).id in ids then [f(last)] else [])
  }

  function Members(xs: seq<Instance>, model: Model, id: int): seq<Instance> {
    if xs == [] then []
    else
      var last := xs[|xs| - 1];
      Members(xs[..|xs| - 1], model, id) + (if model(last).id == id then [last] else [])
  }

  // The model that the group of `id` keeps: that of its last member.
  function Kept(xs: seq<Instance>, model: Model, id: int): Option<Object> {
    if xs == [] then None
    else if model(xs[|xs| - 1]).id == id then Some(model(xs[|xs| - 1]))
    else Kept(xs[..|xs| - 1], model, id)
  }

  lemma {:induction false} KeptIsThere(xs: seq<Instance>, model: Model, x: Instance)
    requires x in xs
    ensures Kept(xs, model, model(x).id).Some?
    ensures exists y <- xs :: model(y) == Kept(xs, model, model(x).id).value && model(y).id == model(x).id
  {
    var n := |xs| - 1;
    assert xs == xs[..n] + [xs[n]];
    assert xs[n] in xs;
    if model(xs[n]).id != model(x).id {
      KeptIsThere(xs[..n], model, x);
    }
  }

  // Taking the groups one after the other, in any order, takes every instance once.
  lemma {:induction false} OneMoreGroup<R>(xs: seq<Instance>, model: Model, f: Instance -> R, ids: set<int>, id: int)
    requires id !in ids
    ensures multiset(Pick(xs, model, f, ids + {id})) == multiset(Pick(xs, model, f, ids)) + multiset(Pick(xs, model, f, {id}))
  {
    if xs != [] {
      OneMoreGroup(xs[..|xs| - 1], model, f, ids, id);
    }
  }

  lemma {:induction false} AllGroups<R>(xs: seq<Instance>, model: Model, f: Instance -> R, ids: set<int>)
    requires forall x <- xs :: model(x).id in ids
    ensures Pick(xs, model, f, ids) == Mapped(xs, f)
  {
    if xs != [] {
      var n := |xs| - 1;
      assert xs[n] in xs;
      AllGroups(xs[..n], model, f, ids);
      assert Mapped(xs, f) == Mapped(xs[..n], f) + [f(xs[n])];
    }
  }

  function Mapped<R>(xs: seq<Instance>, f: Instance -> R): seq<R> {
    seq(|xs|, i requires 0 <= i < |xs| => f(xs[i]))
  }

  // A group maps as its members do.
  lemma {:induction false} GroupIsPick<R>(xs: seq<Instance>, model: Model, f: Instance -> R, id: int)
    ensures Mapped(Members(xs, model, id), f) == Pick(xs, model, f, {id})
    ensures forall x <- Members(xs, model, id) :: x in xs && model(x).id == id
  {
    if xs != [] {
      var n := |xs| - 1;
      GroupIsPick(xs[..n], model, f, id);
      assert Members(xs, model, id) == Members(xs[..n], model, id) + (if model(xs[n]).id == id then [xs[n]] else []);
    }
  }

  /******* What each instance gets *******/

  // `mainline` holds the object ids of the mainline.
  datatype Context = Context(action: Meta.Action, owner: string, mainline: seq<string>)

  function KindOf(c: Context, o: Object): Meta.Kind {
    if o.objectId in c.mainline then Meta.MainlineInstance else Meta.ModelInstance
  }

  function Layer(o: Object): Meta.Item {
    Meta.Item(Meta.Model, Meta.EmptyAction, o.name, o.id, "")
  }

  function Resource(c: Context, x: Instance, bizId: int, o: Object): Meta.ResourceAttribute {
    Meta.ResourceAttribute(KindOf(c, o), c.action, x.name, x.id, "", c.owner, bizId, [Layer(o)])
  }

  // What the code makes for `x`.
  function Due(xs: seq<Instance>, store: Store, c: Context, x: Instance): Meta.ResourceAttribute {
    var model := Models(xs, store);
    var kept, speaker := Kept(xs, model, model(x).id), Speaker(xs, x.id);
    Resource(c, x, if speaker.Some? then speaker.value.bizId else 0, if kept.Some? then kept.value else Object(0, "", ""))
  }

  function Dues(xs: seq<Instance>, store: Store, c: Context): Instance -> Meta.ResourceAttribute {
    x => Due(xs, store, c, x)
  }

  // Nothing is made unless every model is found. Otherwise there is one resource for each instance; only
  // their order is left open.
  ghost predicate Made(xs: seq<Instance>, store: Store, c: Context, r: Result<seq<Meta.ResourceAttribute>>) {
    if !Known(xs, store) then r.Err?
    else r.Ok? && multiset(r.value) == multiset(Mapped(xs, Dues(xs, store, c)))
  }

  /******* The code *******/

  method ExtractBusinessIds(xs: seq<Instance>) returns (m: map<int, int>)
    ensures Spoken(m, xs, (x: Instance) => x.bizId)
  {
    m := map[];
    for i := 0 to |xs|
      invariant Spoken(m, xs[..i], (x: Instance) => x.bizId)
    {
      SpokenMore(m, xs, (x: Instance) => x.bizId, i);
      m := m[xs[i].id := xs[i].bizId];
    }
    assert xs[..|xs|] == xs;
  }

  lemma {:induction false} UniqueTwice(a: seq<string>)
    ensures forall s :: s in Unique(a) <==> s in a
    ensures Unique(Unique(a)) == Unique(a)
  {
    if a != [] {
      var n := |a| - 1;
      assert a == a[..n] + [a[n]];
      UniqueTwice(a[..n]);
      var rest := Unique(a[..n]);
      assert (rest + [a[n]])[..|rest|] == rest;
    }
  }

  method CollectByObjectIds(bizId: int, objectIds: seq<string>, store: Store) returns (r: Result<seq<Object>>)
    ensures r == Fetched(Unique(objectIds), bizId, store)
  {
    var ids := Unique(objectIds);
    var objects := store(bizId, ids);
    if objects.Err? { return Err; }
    if |objects.value| == 0 { return Err; }
    if |objects.value| != |ids| { return Err; }
    return objects;
  }

  ghost predicate ByBusiness(m: map<int, seq<string>>, xs: seq<Instance>) {
    && (forall b <- m :: m[b] != [])
    && forall b :: (if b in m then m[b] else []) == ObjectIds(xs, b)
  }

  lemma BusinessMore(m: map<int, seq<string>>, xs: seq<Instance>, n: nat)
    requires n < |xs| && ByBusiness(m, xs[..n])
    ensures
      var b := xs[n].bizId;
      ByBusiness(m[b := (if b in m then m[b] else []) + [xs[n].objectId]], xs[..n + 1])
  {
    assert xs[..n + 1][..n] == xs[..n];
  }

  // A business has object ids when an instance has the business.
  lemma {:induction false} BusinessHasIds(xs: seq<Instance>, b: int)
    ensures ObjectIds(xs, b) != [] <==> exists x <- xs :: x.bizId == b
  {
    if xs != [] {
      var n := |xs| - 1;
      BusinessHasIds(xs[..n], b);
      assert xs[n] in xs && forall x <- xs :: x in xs[..n] || x == xs[n];
    }
  }

  method GroupByBusiness(xs: seq<Instance>) returns (m: map<int, seq<string>>)
    ensures ByBusiness(m, xs)
  {
    m := map[];
    for i := 0 to |xs|
      invariant ByBusiness(m, xs[..i])
    {
      BusinessMore(m, xs, i);
      var b := xs[i].bizId;
      m := m[b := (if b in m then m[b] else []) + [xs[i].objectId]];
    }
    assert xs[..|xs|] == xs;
  }

  // A model map for one business.
  ghost predicate Indexes(m: map<string, Object>, objects: seq<Object>) {
    forall o :: if o in m then LastModel(objects, o) == Some(m[o]) else LastModel(objects, o) == None
  }

  method IndexObjects(objects: seq<Object>) returns (m: map<string, Object>)
    ensures Indexes(m, objects)
  {
    m := map[];
    for i := 0 to |objects|
      invariant Indexes(m, objects[..i])
    {
      assert objects[..i + 1][..i] == objects[..i];
      m := m[objects[i].objectId := objects[i]];
    }
    assert objects[..|objects|] == objects;
  }

  ghost predicate FetchedFor(models: map<int, map<string, Object>>, xs: seq<Instance>, store: Store, b: int) {
    var r := Fetched(Unique(ObjectIds(xs, b)), b, store);
    r.Ok? && b in models && Indexes(models[b], r.value)
  }

  lemma UnfetchedIsUnknown(xs: seq<Instance>, store: Store, b: int)
    requires ObjectIds(xs, b) != [] && Fetched(Unique(ObjectIds(xs, b)), b, store).Err?
    ensures !Known(xs, store)
  {
    BusinessHasIds(xs, b);
    var x :| x in xs && x.bizId == b;
    assert ModelFor(xs, store, x) == None;
  }

  ghost predicate AllFetched(models: map<int, map<string, Object>>, xs: seq<Instance>, store: Store,
                             byBusiness: map<int, seq<string>>, todo: set<(int, seq<string>)>)
  {
    forall b | b in byBusiness && (b, byBusiness[b]) !in todo :: FetchedFor(models, xs, store, b)
  }

  lemma OneMoreFetched(models: map<int, map<string, Object>>, xs: seq<Instance>, store: Store,
                       byBusiness: map<int, seq<string>>, todo: set<(int, seq<string>)>, b: int, m: map<string, Object>)
    requires AllFetched(models, xs, store, byBusiness, todo) && b in byBusiness
    requires FetchedFor(models[b := m], xs, store, b)
    ensures AllFetched(models[b := m], xs, store, byBusiness, todo - {(b, byBusiness[b])})
  {
    forall c | c in byBusiness && (c, byBusiness[c]) !in todo - {(b, byBusiness[b])}
      ensures FetchedFor(models[b := m], xs, store, c)
    {
      if c != b {
        assert FetchedFor(models, xs, store, c);
      }
    }
  }

  // Businesses are taken in any order.
  method FetchEach(ghost xs: seq<Instance>, store: Store, byBusiness: map<int, seq<string>>)
    returns (r: Result<map<int, map<string, Object>>>)
    requires ByBusiness(byBusiness, xs)
    ensures r.Ok? ==> AllFetched(r.value, xs, store, byBusiness, {})
    ensures r.Err? ==> !Known(xs, store)
  {
    var models: map<int, map<string, Object>> := map[];
    var todo := byBusiness.Items;
    while todo != {}
      invariant todo <= byBusiness.Items && AllFetched(models, xs, store, byBusiness, todo)
    {
      var entry :| entry in todo;
      var b := entry.0;
      var objects := FetchBusiness(b, byBusiness[b], store);
      if objects.Err? {
        UnfetchedIsUnknown(xs, store, b);
        return Err;
      }
      OneMoreFetched(models, xs, store, byBusiness, todo, b, objects.value);
      todo := todo - {entry};
      models := models[b := objects.value];
    }
    return Ok(models);
  }

  method FetchBusiness(b: int, objectIds: seq<string>, store: Store) returns (r: Result<map<string, Object>>)
    ensures r.Ok? <==> Fetched(Unique(objectIds), b, store).Ok?
    ensures r.Ok? ==> Indexes(r.value, Fetched(Unique(objectIds), b, store).value)
  {
    var ids := Unique(objectIds);
    UniqueTwice(objectIds);
    var objects := CollectByObjectIds(b, ids, store);
    if objects.Err? || |ids| != |objects.value| {
      return Err;
    }
    var index := IndexObjects(objects.value);
    return Ok(index);
  }

  method FetchModels(xs: seq<Instance>, store: Store) returns (r: Result<map<int, map<string, Object>>>)
    ensures r.Ok? ==> forall x <- xs :: FetchedFor(r.value, xs, store, x.bizId)
    ensures r.Err? ==> !Known(xs, store)
  {
    var byBusiness := GroupByBusiness(xs);
    r := FetchEach(xs, store, byBusiness);
    forall x | x in xs
      ensures x.bizId in byBusiness
    {
      BusinessHasIds(xs, x.bizId);
    }
  }

  // collectObjectsByInstances
  method CollectObjects(xs: seq<Instance>, store: Store) returns (r: Result<map<int, Object>>)
    ensures r.Ok? <==> Known(xs, store)
    ensures r.Ok? ==> Spoken(r.value, xs, x => Chosen(xs, store, x))
  {
    var models := FetchModels(xs, store);
    if models.Err? {
      return Err;
    }
    var m: map<int, Object> := map[];
    for i := 0 to |xs|
      invariant Spoken(m, xs[..i], x => Chosen(xs, store, x))
      invariant forall x <- xs[..i] :: ModelFor(xs, store, x).Some?
    {
      var x := xs[i];
      assert x in xs && FetchedFor(models.value, xs, store, x.bizId);
      var objects := models.value[x.bizId];
      if x.objectId !in objects {
        return Err;
      }
      SpokenMore(m, xs, y => Chosen(xs, store, y), i);
      m := m[x.id := objects[x.objectId]];
      assert forall y <- xs[..i + 1] :: y in xs[..i] || y == x;
    }
    assert xs[..|xs|] == xs;
    return Ok(m);
  }

  function Chosen(xs: seq<Instance>, store: Store, x: Instance): Object {
    var model := ModelFor(xs, store, x);
    if model.Some? then model.value else Object(0, "", "")
  }

  // What the two maps hold for one model id.
  ghost predicate GroupIs(groups: map<int, seq<Instance>>, kept: map<int, Object>, xs: seq<Instance>, model: Model, id: int) {
    && (if id in groups then groups[id] else []) == Members(xs, model, id)
    && (if id in kept then Some(kept[id]) else None) == Kept(xs, model, id)
  }

  ghost predicate Grouped(groups: map<int, seq<Instance>>, kept: map<int, Object>, xs: seq<Instance>, model: Model) {
    groups.Keys == kept.Keys && forall id :: GroupIs(groups, kept, xs, model, id)
  }

  method GroupByModel(xs: seq<Instance>, objectOf: map<int, Object>, ghost model: Model)
    returns (groups: map<int, seq<Instance>>, kept: map<int, Object>)
    requires forall x <- xs :: x.id in objectOf && objectOf[x.id] == model(x)
    ensures Grouped(groups, kept, xs, model)
  {
    groups, kept := map[], map[];
    for i := 0 to |xs|
      invariant Grouped(groups, kept, xs[..i], model)
    {
      assert xs[i] in xs;
      var found := objectOf[xs[i].id];
      assert GroupIs(groups, kept, xs[..i], model, found.id);
      ghost var groups0, kept0 := groups, kept;
      groups := groups[found.id := (if found.id in groups then groups[found.id] else []) + [xs[i]]];
      kept := kept[found.id := found];
      ghost var seen := xs[..i + 1];
      forall id
        ensures GroupIs(groups, kept, seen, model, id)
      {
        assert GroupIs(groups0, kept0, xs[..i], model, id);
        OneMoreInstance(xs, model, i, id);
      }
    }
    assert xs[..|xs|] == xs;
  }

  lemma OneMoreInstance(xs: seq<Instance>, model: Model, n: nat, id: int)
    requires n < |xs|
    ensures Members(xs[..n + 1], model, id) == Members(xs[..n], model, id) + (if id == model(xs[n]).id then [xs[n]] else [])
    ensures Kept(xs[..n + 1], model, id) == if id == model(xs[n]).id then Some(model(xs[n])) else Kept(xs[..n], model, id)
  {
    assert xs[..n + 1][..n] == xs[..n];
  }

  method MakeResourcesByObjects(action: Meta.Action, owner: string, objects: seq<Object>) returns (r: seq<Meta.ResourceAttribute>)
    ensures |r| == |objects|
    ensures forall i | 0 <= i < |r| ::
      r[i] == Meta.ResourceAttribute(Meta.Model, action, objects[i].name, objects[i].id, "", owner, 0, [])
  {
    r := [];
    for i := 0 to |objects|
      invariant |r| == i
      invariant forall k | 0 <= k < i ::
        r[k] == Meta.ResourceAttribute(Meta.Model, action, objects[k].name, objects[k].id, "", owner, 0, [])
    {
      r := r + [Meta.ResourceAttribute(Meta.Model, action, objects[i].name, objects[i].id, "", owner, 0, [])];
    }
  }

  // One round of the loop over the groups. A group has one parent resource, so the error for any other
  // number cannot arise.
  method MakeGroup(c: Context, members: seq<Instance>, o: Object, bizIds: map<int, int>, ghost f: Instance -> Meta.ResourceAttribute)
    returns (resources: seq<Meta.ResourceAttribute>)
    requires forall x <- members :: x.id in bizIds && f(x) == Resource(c, x, bizIds[x.id], o)
    ensures resources == Mapped(members, f)
  {
    var kind := Meta.ModelInstance;
    for i := 0 to |c.mainline|
      invariant kind == if o.objectId in c.mainline[..i] then Meta.MainlineInstance else Meta.ModelInstance
    {
      if o.objectId == c.mainline[i] {
        kind := Meta.MainlineInstance;
      }
    }
    assert c.mainline[..|c.mainline|] == c.mainline;
    var parents := MakeResourcesByObjects(Meta.EmptyAction, c.owner, [o]);
    var parent := parents[0];
    resources := [];
    for i := 0 to |members|
      invariant |resources| == i
      invariant forall k | 0 <= k < i :: resources[k] == f(members[k])
    {
      assert members[i] in members;
      var layers := parent.layers + [Meta.Item(parent.kind, parent.action, parent.name, parent.instanceId, "")];
      assert layers == [Layer(o)];
      resources := resources
        + [Meta.ResourceAttribute(kind, c.action, members[i].name, members[i].id, "", c.owner, bizIds[members[i].id], layers)];
    }
  }

  // `mainline` answers the lookup of the mainline associations.
  method MakeResourcesByInstances(action: Meta.Action, owner: string, xs: seq<Instance>, store: Store, mainline: Result<seq<string>>)
    returns (r: Result<seq<Meta.ResourceAttribute>>)
    ensures xs == [] ==> r == Ok([])
    ensures xs != [] ==> if mainline.Err? then r.Err? else Made(xs, store, Context(action, owner, mainline.value), r)
  {
    if |xs| == 0 {
      return Ok([]);
    }
    var bizIds := ExtractBusinessIds(xs);
    var objectOf := CollectObjects(xs, store);
    if objectOf.Err? {
      return Err;
    }
    ghost var model := Models(xs, store);
    SpokenModels(objectOf.value, xs, store);
    var groups, kept := GroupByModel(xs, objectOf.value, model);
    if mainline.Err? {
      return Err;
    }
    var c := Context(action, owner, mainline.value);
    var result := MakeGroups(c, xs, store, bizIds, groups, kept);
    return Ok(result);
  }

  // The loop over the groups, which are taken in any order.
  method MakeGroups(c: Context, xs: seq<Instance>, ghost store: Store, bizIds: map<int, int>,
                    groups: map<int, seq<Instance>>, kept: map<int, Object>)
    returns (result: seq<Meta.ResourceAttribute>)
    requires Spoken(bizIds, xs, (x: Instance) => x.bizId) && Grouped(groups, kept, xs, Models(xs, store))
    ensures multiset(result) == multiset(Mapped(xs, Dues(xs, store, c)))
  {
    ghost var model, f := Models(xs, store), Dues(xs, store, c);
    result := [];
    ghost var done: set<int> := {};
    var todo := groups.Items;
    PickNothing(xs, model, f);
    while todo != {}
      invariant todo <= groups.Items && forall g :: g in done <==> g in groups && (g, groups[g]) !in todo
      invariant multiset(result) == multiset(Pick(xs, model, f, done))
    {
      var entry :| entry in todo;
      var g := entry.0;
      assert GroupIs(groups, kept, xs, model, g);
      MembersDue(xs, store, c, bizIds, g);
      var resources := MakeGroup(c, groups[g], kept[g], bizIds, f);
      GroupIsPick(xs, model, f, g);
      OneMoreGroup(xs, model, f, done, g);
      result := result + resources;
      todo, done := todo - {entry}, done + {g};
    }
    forall x | x in xs
      ensures model(x).id in done
    {
      KeptIsThere(xs, model, x);
      assert GroupIs(groups, kept, xs, model, model(x).id);
    }
    AllGroups(xs, model, f, done);
  }

  lemma SpokenModels(objectOf: map<int, Object>, xs: seq<Instance>, store: Store)
    requires Spoken(objectOf, xs, x => Chosen(xs, store, x))
    ensures forall x <- xs :: x.id in objectOf && objectOf[x.id] == Models(xs, store)(x)
  {
  }

  lemma {:induction false} PickNothing<R>(xs: seq<Instance>, model: Model, f: Instance -> R)
    ensures Pick(xs, model, f, {}) == []
  {
    if xs != [] {
      PickNothing(xs[..|xs| - 1], model, f);
    }
  }

  lemma MembersDue(xs: seq<Instance>, store: Store, c: Context, bizIds: map<int, int>, g: int)
    requires Spoken(bizIds, xs, (x: Instance) => x.bizId) && Kept(xs, Models(xs, store), g).Some?
    ensures forall x <- Members(xs, Models(xs, store), g) ::
      x.id in bizIds && Dues(xs, store, c)(x) == Resource(c, x, bizIds[x.id], Kept(xs, Models(xs, store), g).value)
  {
    var model := Models(xs, store);
    GroupIsPick(xs, model, x => x, g);
  }

  /******* One resource for each instance, about itself *******/

  // Whatever the orders of the maps, there are as many resources as instances, and the two can be paired
  // off.
  lemma ResultIsPermutation(xs: seq<Instance>, store: Store, c: Context, r: Result<seq<Meta.ResourceAttribute>>)
    requires Known(xs, store) && Made(xs, store, c, r)
    ensures |r.value| == |xs|
    ensures forall a :: multiset(r.value)[a] > 0 <==> exists x <- xs :: a == Due(xs, store, c, x)
  {
    var all := Mapped(xs, Dues(xs, store, c));
    assert |multiset(r.value)| == |multiset(all)|;
    forall a
      ensures multiset(r.value)[a] == multiset(all)[a]
      ensures a in all <==> exists x <- xs :: a == Due(xs, store, c, x)
    {
      if a in all {
        var i :| 0 <= i < |xs| && all[i] == a;
        assert xs[i] in xs && a == Due(xs, store, c, xs[i]);
      }
      if x :| x in xs && a == Due(xs, store, c, x) {
        var i :| 0 <= i < |xs| && xs[i] == x;
        assert all[i] == a;
      }
    }
  }

  // Instances are told apart by their ids ...
  ghost predicate DifferentIds(xs: seq<Instance>) {
    forall x, y | x in xs && y in xs && x.id == y.id :: x == y
  }

  // ... and models by theirs.
  ghost predicate DifferentModels(xs: seq<Instance>, store: Store) {
    forall x, y | x in xs && y in xs && Chosen(xs, store, x).id == Chosen(xs, store, y).id ::
      Chosen(xs, store, x) == Chosen(xs, store, y)
  }

  // Each resource has the business of its instance and one layer, which names the model found for the
  // instance's business and object id.
  lemma OwnBusinessOwnModel(xs: seq<Instance>, store: Store, c: Context, x: Instance)
    requires Known(xs, store) && DifferentIds(xs) && x in xs
    ensures
      var r, model := Due(xs, store, c, x), ModelFor(xs, store, x).value;
      && r.instanceId == x.id && r.name == x.name && r.businessId == x.bizId
      && r.action == c.action && r.supplierAccount == c.owner && r.instanceIdEx == ""
      && |r.layers| == 1 && r.layers[0].kind == Meta.Model && r.layers[0].instanceId == model.id
      && r.layers[0].action == Meta.EmptyAction && r.layers[0].instanceIdEx == ""
      && (DifferentModels(xs, store) ==>
            && r.layers[0].name == model.name
            && r.kind == if x.objectId in c.mainline then Meta.MainlineInstance else Meta.ModelInstance)
  {
    ModelFound(xs, store, x);
    var model := Models(xs, store);
    forall y | y in xs ensures Speaker(xs, y.id) == Some(y) && model(y) == Chosen(xs, store, y) {
      SpeakerIsThere(xs, y);
    }
    KeptIsThere(xs, model, x);
  }

  // The business ids are right exactly when no two instances share an id across businesses.
  lemma OwnBusinessIff(xs: seq<Instance>, store: Store, c: Context)
    ensures (forall x <- xs :: Due(xs, store, c, x).businessId == x.bizId)
       <==> (forall x, y | x in xs && y in xs && x.id == y.id :: x.bizId == y.bizId)
  {
    forall x | x in xs ensures Speaker(xs, x.id).Some? && Speaker(xs, x.id).value in xs && Speaker(xs, x.id).value.id == x.id {
      SpeakerIsThere(xs, x);
    }
    if forall x <- xs :: Due(xs, store, c, x).businessId == x.bizId {
      forall x, y | x in xs && y in xs && x.id == y.id ensures x.bizId == y.bizId {
        assert Due(xs, store, c, x).businessId == x.bizId && Due(xs, store, c, y).businessId == y.bizId;
      }
    }
  }
}
