/**
 The reconciliation of the IAM registry, `Iam.RegisterSystem` (src/ac/iam/iam.go).

 The remote registry holds three layers of objects. Instance selections name resource types;
 actions name resource types and instance selections. A run reads the registry once, then sends
 calls computed from that snapshot until one fails. A failing call may have applied any part of
 its batch. The next run starts from a fresh snapshot.

 `Plan` is the list of calls a run wants to send, `IsRun` says which traces a run can leave, and
 the theorems speak about every trace of every sequence of runs.
 */
module Registration {
  import opened Common
  import opened IamTypes

  /******* The remote registry *******/

  // The three documents that are registered as a whole: action groups, resource creator actions
  // and common actions. `Foreign` stands for any content that is not the generated one.
  datatype Doc = Absent | Generated | Foreign(text: string)

  datatype Registry = Registry(found: bool, host: string, entries: map<Key, Entry>,
                               groups: Doc, creators: Doc, commons: Doc)

  // Objects are stored under their own id, and nothing is stored under an unknown system.
  ghost predicate Valid(r: Registry) {
    && (forall k <- r.entries :: KeyOf(r.entries[k]) == k)
    && (!r.found ==> r.entries == map[] && r.groups == r.creators == r.commons == Absent)
  }

  // Every reference between layers points at something registered.
  ghost predicate Closed(entries: map<Key, Entry>) {
    forall k <- entries :: Refs(entries[k]) <= entries.Keys
  }

  /******* The generated tables *******/

  datatype Tables = Tables(types: seq<Entry>, selections: seq<Entry>, actions: seq<Entry>) {
    ghost predicate WellFormed() {
      && InLayer(types, TypeLayer) && Distinct(types)
      && InLayer(selections, SelectionLayer) && Distinct(selections)
      && InLayer(actions, ActionLayer) && Distinct(actions)
      && (forall e <- types :: Refs(e) == {})
      && (forall e <- selections :: Refs(e) <= KeysOf(types))
      && (forall e <- actions :: Refs(e) <= KeysOf(types) + KeysOf(selections))
    }

    // What the registry should hold: the three tables keyed by id.
    ghost function Wanted(): map<Key, Entry> {
      Put(Put(Put(map[], types), selections), actions)
    }
  }

  ghost predicate InLayer(table: seq<Entry>, layer: Layer) {
    forall e <- table :: LayerOf(KeyOf(e)) == layer
  }

  ghost predicate Distinct(table: seq<Entry>) {
    forall i, j | 0 <= i < j < |table| :: KeyOf(table[i]) != KeyOf(table[j])
  }

  ghost function KeysOf(table: seq<Entry>): set<Key> {
    set e <- table :: KeyOf(e)
  }

  // Stores the entries one after the other.
  function Put(m: map<Key, Entry>, es: seq<Entry>): map<Key, Entry> {
    if es == [] then m else Put(m, es[..|es| - 1])[KeyOf(es[|es| - 1]) := es[|es| - 1]]
  }

  /******* Remote calls *******/

  datatype Slot = Groups | Creators | Commons

  datatype Call =
    | RegisterSystem(host: string)
    | UpdateHost(host: string)
    | Update(entry: Entry)
    | Create(entries: seq<Entry>)
    | Remove(keys: set<Key>)
    | RegisterDoc(slot: Slot)
    | UpdateDoc(slot: Slot)

  function StoreDoc(r: Registry, slot: Slot): Registry {
    match slot
    case Groups => r.(groups := Generated)
    case Creators => r.(creators := Generated)
    case Commons => r.(commons := Generated)
  }

  // The effect of a call that succeeds.
  function Apply(c: Call, r: Registry): Registry {
    match c
    case RegisterSystem(h) => r.(found := true, host := h)
    case UpdateHost(h) => r.(host := h)
    case Update(e) => r.(entries := Put(r.entries, [e]))
    case Create(es) => r.(entries := Put(r.entries, es))
    case Remove(ks) => r.(entries := r.entries - ks)
    case RegisterDoc(slot) => StoreDoc(r, slot)
    case UpdateDoc(slot) => StoreDoc(r, slot)
  }

  // The effect of a call that fails: any part of its batch may have been stored.
  ghost predicate Partial(c: Call, r: Registry, r': Registry) {
    match c
    case Create(es) =>
      exists some: seq<Entry> :: (forall e <- some :: e in es) && r' == r.(entries := Put(r.entries, some))
    case Remove(ks) =>
      exists some: set<Key> :: some <= ks && r' == r.(entries := r.entries - some)
    case _ => r' == r || r' == Apply(c, r)
  }

  // Either way.
  ghost predicate Effect(c: Call, r: Registry, r': Registry) {
    r' == Apply(c, r) || Partial(c, r, r')
  }

  // What the remote side demands of a call: updates and removals hit existing objects, creations do not.
  ghost predicate Applicable(c: Call, r: Registry) {
    match c
    case RegisterSystem(_) => !r.found
    case UpdateHost(_) => r.found
    case Update(e) => r.found && KeyOf(e) in r.entries
    case Create(es) => r.found && KeysOf(es) !! r.entries.Keys && Distinct(es) && es != []
    case Remove(ks) => r.found && ks <= r.entries.Keys && ks != {}
    case RegisterDoc(slot) => r.found && DocIn(r, slot) == Absent
    case UpdateDoc(slot) => r.found && DocIn(r, slot) != Absent
  }

  function DocIn(r: Registry, slot: Slot): Doc {
    match slot
    case Groups => r.groups
    case Creators => r.creators
    case Commons => r.commons
  }

  /******* The plan of a run *******/

  ghost function SystemCalls(snapshot: Registry, host: string): seq<Call> {
    if !snapshot.found then [RegisterSystem(host)]
    else if snapshot.host != host then [UpdateHost(host)]
    else []
  }

  // One update for each table entry that the snapshot already holds, in table order.
  ghost function Updates(table: seq<Entry>, known: set<Key>): seq<Call> {
    if table == [] then []
    else
      var last := table[|table| - 1];
      Updates(table[..|table| - 1], known) + (if KeyOf(last) in known then [Update(last)] else [])
  }

  // The table entries the snapshot does not hold, in table order.
  ghost function Fresh(table: seq<Entry>, known: set<Key>): seq<Entry> {
    if table == [] then []
    else
      var last := table[|table| - 1];
      Fresh(table[..|table| - 1], known) + (if KeyOf(last) in known then [] else [last])
  }

  ghost function Sync(table: seq<Entry>, known: set<Key>): seq<Call> {
    Updates(table, known) + CreateCalls(Fresh(table, known))
  }

  ghost function CreateCalls(es: seq<Entry>): seq<Call> {
    if es == [] then [] else [Create(es)]
  }

  // The snapshot's objects of one layer that the table no longer has.
  ghost function Stale(snapshot: Registry, table: seq<Entry>, layer: Layer): set<Key> {
    set k <- snapshot.entries | LayerOf(k) == layer && k !in KeysOf(table)
  }

  ghost function RemoveCalls(ks: set<Key>): seq<Call> {
    if ks == {} then [] else [Remove(ks)]
  }

  ghost function DocCalls(snapshot: Registry, slot: Slot): seq<Call> {
    if DocIn(snapshot, slot) == Absent then [RegisterDoc(slot)] else [UpdateDoc(slot)]
  }

  ghost function Docs(snapshot: Registry): seq<Call> {
    DocCalls(snapshot, Groups) + DocCalls(snapshot, Creators) + DocCalls(snapshot, Commons)
  }

  ghost function Syncs(t: Tables, known: set<Key>): seq<Call> {
    Sync(t.types, known) + Sync(t.selections, known) + Sync(t.actions, known)
  }

  ghost function Removals(t: Tables, s: Registry): seq<Call> {
    RemoveCalls(Stale(s, t.actions, ActionLayer))
    + RemoveCalls(Stale(s, t.selections, SelectionLayer))
    + RemoveCalls(Stale(s, t.types, TypeLayer))
  }

  ghost function Plan(t: Tables, s: Registry, host: string): seq<Call> {
    SystemCalls(s, host) + Syncs(t, s.entries.Keys) + Removals(t, s) + Docs(s)
  }

  /******* Traces *******/

  datatype Run = Run(calls: seq<Call>, states: seq<Registry>, ok: bool)

  // `states[0]` is the registry the snapshot was taken from, `states[i + 1]` the one left by
  // `calls[i]`. A run without calls that is not ok is one whose snapshot could not be read.
  ghost predicate IsRun(t: Tables, host: string, run: Run) {
    run.states != [] && Follows(Plan(t, run.states[0], host), run)
  }

  // The run sends the planned calls in order until one fails.
  ghost predicate Follows(plan: seq<Call>, run: Run) {
    && |run.states| == |run.calls| + 1
    && run.calls <= plan
    && (run.ok ==> run.calls == plan)
    && (forall i | 0 <= i < |run.calls| :: Step(run, i))
  }

  // All calls succeed, save the last one of a run that fails.
  ghost predicate Step(run: Run, i: nat)
    requires i < |run.calls| < |run.states|
  {
    if run.ok || i < |run.calls| - 1 then run.states[i + 1] == Apply(run.calls[i], run.states[i])
    else Partial(run.calls[i], run.states[i], run.states[i + 1])
  }

  ghost function Last<T>(s: seq<T>): T
    requires s != []
  {
    s[|s| - 1]
  }

  // Runs of one process after another, each from the registry the one before left behind.
  ghost predicate IsHistory(t: Tables, host: string, runs: seq<Run>) {
    && (forall i | 0 <= i < |runs| :: IsRun(t, host, runs[i]))
    && (forall i | 0 <= i < |runs| - 1 :: Resumes(runs[i], runs[i + 1]))
  }

  ghost predicate Resumes(a: Run, b: Run) {
    a.states != [] && b.states != [] && b.states[0] == Last(a.states)
  }

  ghost predicate Converged(t: Tables, host: string, r: Registry) {
    && r.found && r.host == host
    && r.entries == t.Wanted()
    && r.groups == r.creators == r.commons == Generated
  }
}
