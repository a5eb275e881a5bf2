/**
 In which order a run sends its calls (src/ac/iam/iam.go:75-273): from the system to the layers in order of
 dependency, then the leftovers against it, then the documents.
 */
module RegistrationOrder {
  import opened IamTypes
  import opened Registration

  // What a call is for. A batch is of the layer of its entries.
  function Phase(c: Call): nat {
    match c
    case RegisterSystem(_) => 0
    case UpdateHost(_) => 0
    case Update(e) => (match LayerOf(KeyOf(e)) case TypeLayer => 1 case SelectionLayer => 3 case ActionLayer => 5)
    case Create(es) =>
      if es == [] then 0
      else (match LayerOf(KeyOf(es[0])) case TypeLayer => 2 case SelectionLayer => 4 case ActionLayer => 6)
    case Remove(ks) =>
      if exists k <- ks :: LayerOf(k) == ActionLayer then 7
      else if exists k <- ks :: LayerOf(k) == SelectionLayer then 8
      else 9
    case RegisterDoc(slot) => PhaseOfDoc(slot)
    case UpdateDoc(slot) => PhaseOfDoc(slot)
  }

  function PhaseOfDoc(slot: Slot): nat {
    match slot
    case Groups => 10
    case Creators => 11
    case Commons => 12
  }

  ghost predicate Ascends(cs: seq<Call>, from: nat, to: nat) {
    && (forall i | 0 <= i < |cs| :: from <= Phase(cs[i]) < to)
    && (forall i, j | 0 <= i < j < |cs| :: Phase(cs[i]) <= Phase(cs[j]))
    && (forall i, j | 0 <= i < j < |cs| && Phase(cs[i]) == Phase(cs[j]) :: cs[i].Update? && cs[j].Update?)
  }

  lemma AscendOn(a: seq<Call>, b: seq<Call>, from: nat, mid: nat, to: nat)
    requires from <= mid <= to && Ascends(a, from, mid) && Ascends(b, mid, to)
    ensures Ascends(a + b, from, to)
  {
  }

  lemma {:induction false} UpdatesAscend(table: seq<Entry>, known: set<Key>, layer: Layer, from: nat)
    requires InLayer(table, layer)
    requires from == match layer case TypeLayer => 1 case SelectionLayer => 3 case ActionLayer => 5
    ensures Ascends(Updates(table, known), from, from + 1)
    ensures forall c <- Updates(table, known) :: c.Update?
  {
    if table != [] {
      assert forall e <- table[..|table| - 1] :: e in table;
      assert table[|table| - 1] in table;
      UpdatesAscend(table[..|table| - 1], known, layer, from);
    }
  }

  lemma {:induction false} FreshIsOfTable(table: seq<Entry>, known: set<Key>)
    ensures forall e <- Fresh(table, known) :: e in table
  {
    if table != [] {
      FreshIsOfTable(table[..|table| - 1], known);
    }
  }

  lemma SyncAscends(table: seq<Entry>, known: set<Key>, layer: Layer, from: nat)
    requires InLayer(table, layer)
    requires from == match layer case TypeLayer => 1 case SelectionLayer => 3 case ActionLayer => 5
    ensures Ascends(Sync(table, known), from, from + 2)
  {
    UpdatesAscend(table, known, layer, from);
    FreshIsOfTable(table, known);
    var added := Fresh(table, known);
    assert added != [] ==> added[0] in added;
    AscendOn(Updates(table, known), CreateCalls(added), from, from + 1, from + 2);
  }

  lemma RemovalAscends(s: Registry, table: seq<Entry>, layer: Layer, from: nat)
    requires from == match layer case ActionLayer => 7 case SelectionLayer => 8 case TypeLayer => 9
    ensures Ascends(RemoveCalls(Stale(s, table, layer)), from, from + 1)
  {
    var ks := Stale(s, table, layer);
    if ks != {} {
      var k :| k in ks;
      assert LayerOf(k) == layer;
    }
  }

  // The calls of a run go through these phases in order, and only updates share one.
  lemma PhasesAscend(t: Tables, host: string, run: Run, i: nat, j: nat)
    requires t.WellFormed() && IsRun(t, host, run) && i < j < |run.calls|
    ensures Phase(run.calls[i]) <= Phase(run.calls[j])
    ensures Phase(run.calls[i]) == Phase(run.calls[j]) ==> run.calls[i].Update? && run.calls[j].Update?
  {
    var s := run.states[0];
    PlanAscends(t, s, host);
    assert run.calls[i] == Plan(t, s, host)[i] && run.calls[j] == Plan(t, s, host)[j];
  }

  lemma PlanAscends(t: Tables, s: Registry, host: string)
    requires t.WellFormed()
    ensures Ascends(Plan(t, s, host), 0, 13)
  {
    var known := s.entries.Keys;
    SyncAscends(t.types, known, TypeLayer, 1);
    SyncAscends(t.selections, known, SelectionLayer, 3);
    SyncAscends(t.actions, known, ActionLayer, 5);
    AscendOn(Sync(t.types, known), Sync(t.selections, known), 1, 3, 5);
    AscendOn(Sync(t.types, known) + Sync(t.selections, known), Sync(t.actions, known), 1, 5, 7);
    RemovalsAscend(t, s);
    DocsAscend(s);
    AscendOn(SystemCalls(s, host), Syncs(t, known), 0, 1, 7);
    AscendOn(SystemCalls(s, host) + Syncs(t, known), Removals(t, s), 0, 7, 10);
    AscendOn(SystemCalls(s, host) + Syncs(t, known) + Removals(t, s), Docs(s), 0, 10, 13);
  }

  lemma RemovalsAscend(t: Tables, s: Registry)
    ensures Ascends(Removals(t, s), 7, 10)
  {
    var a, b, c := RemoveCalls(Stale(s, t.actions, ActionLayer)), RemoveCalls(Stale(s, t.selections, SelectionLayer)),
                   RemoveCalls(Stale(s, t.types, TypeLayer));
    RemovalAscends(s, t.actions, ActionLayer, 7);
    RemovalAscends(s, t.selections, SelectionLayer, 8);
    RemovalAscends(s, t.types, TypeLayer, 9);
    AscendOn(a, b, 7, 8, 9);
    AscendOn(a + b, c, 7, 9, 10);
  }

  lemma DocsAscend(s: Registry)
    ensures Ascends(Docs(s), 10, 13)
  {
    AscendOn(DocCalls(s, Groups), DocCalls(s, Creators), 10, 11, 12);
    AscendOn(DocCalls(s, Groups) + DocCalls(s, Creators), DocCalls(s, Commons), 10, 12, 13);
  }
}
