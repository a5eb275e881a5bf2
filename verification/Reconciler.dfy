/**
 `RegisterSystem` itself (src/ac/iam/iam.go:75-273), sending calls to a remote registry that may
 fail at any of them. Its contract is that the calls it sends and the registries it leaves behind
 are a run in the sense of `Registration.IsRun`, so every theorem of RegistrationTheorems applies.
 */
module Reconciler {
  import opened Common
  import opened IamTypes
  import opened Registration

  // The client and the registry behind it. `sent` and `seen` record every call and every registry.
  class IamClient {
    var registry: Registry
    ghost var sent: seq<Call>
    ghost var seen: seq<Registry>

    constructor (initial: Registry)
      ensures registry == initial && sent == [] && seen == [initial] && Logged()
    {
      registry := initial;
      sent, seen := [], [initial];
    }

    ghost predicate Logged()
      reads this
    {
      |seen| == |sent| + 1 && seen[|sent|] == registry
    }

    // The part of the record that starts at call number `from`.
    ghost function Trace(from: nat, ok: bool): Run
      reads this
      requires from <= |sent| < |seen|
    {
      Run(sent[from..], seen[from..], ok)
    }

    // GetSystemInfo either fails or answers with the current registry.
    method GetSystemInfo() returns (r: Result<Registry>)
      ensures r.Ok? ==> r.value == registry
    {
      if * {
        r := Ok(registry);
      } else {
        r := Err;
      }
    }

    // Every other client method: it succeeds in full, or fails having stored any part of its batch.
    method Send(c: Call) returns (ok: bool)
      requires Logged()
      modifies this
      ensures Logged()
      ensures sent == old(sent) + [c] && seen == old(seen) + [registry]
      ensures ok ==> registry == Apply(c, old(registry))
      ensures !ok ==> Partial(c, old(registry), registry)
    {
      if * {
        ok := true;
        registry := Apply(c, registry);
      } else {
        ok := false;
        match c {
          case Create(es) =>
            var some := AnyOf(es);
            registry := Apply(Create(some), registry);
          case Remove(ks) =>
            var some :| some <= ks;
            registry := Apply(Remove(some), registry);
          case _ =>
            if * {
              registry := Apply(c, registry);
            }
        }
      }
      sent, seen := sent + [c], seen + [registry];
    }

    static method AnyOf(es: seq<Entry>) returns (some: seq<Entry>)
      ensures forall e <- some :: e in es
    {
      some := [];
      for i := 0 to |es|
        invariant forall e <- some :: e in es
      {
        if * {
          some := some + [es[i]];
        }
      }
    }
  }

  // Since the log was (sent0, seen0), the calls `done` have been sent and all of them succeeded.
  ghost predicate Done(client: IamClient, sent0: seq<Call>, seen0: seq<Registry>, done: seq<Call>)
    reads client
  {
    && client.Logged() && |seen0| == |sent0| + 1
    && client.sent == sent0 + done && seen0 <= client.seen
    && forall i | 0 <= i < |done| :: client.seen[|sent0| + i + 1] == Apply(done[i], client.seen[|sent0| + i])
  }

  // ... and all but the last one succeeded.
  ghost predicate Stopped(client: IamClient, sent0: seq<Call>, seen0: seq<Registry>, done: seq<Call>)
    reads client
  {
    && client.Logged() && |seen0| == |sent0| + 1
    && client.sent == sent0 + done && seen0 <= client.seen && done != []
    && (forall i | 0 <= i < |done| - 1 :: client.seen[|sent0| + i + 1] == Apply(done[i], client.seen[|sent0| + i]))
    && Partial(done[|done| - 1], client.seen[|sent0| + |done| - 1], client.registry)
  }

  method SendNext(client: IamClient, c: Call, ghost sent0: seq<Call>, ghost seen0: seq<Registry>, ghost done: seq<Call>)
    returns (ok: bool)
    requires Done(client, sent0, seen0, done)
    modifies client
    ensures if ok then Done(client, sent0, seen0, done + [c]) else Stopped(client, sent0, seen0, done + [c])
  {
    ok := client.Send(c);
  }

  lemma {:induction false} PrefixLists(table: seq<Entry>, known: set<Key>, i: nat)
    requires i <= |table|
    ensures Updates(table[..i], known) <= Updates(table, known)
  {
    if i < |table| {
      PrefixLists(table[..|table| - 1], known, i);
      assert table[..|table| - 1][..i] == table[..i];
    } else {
      assert table[..i] == table;
    }
  }

  lemma PrefixGrows(table: seq<Entry>, known: set<Key>, i: nat)
    requires i < |table|
    ensures KeysOf(table[..i + 1]) == KeysOf(table[..i]) + {KeyOf(table[i])}
    ensures Updates(table[..i + 1], known)
         == Updates(table[..i], known) + (if KeyOf(table[i]) in known then [Update(table[i])] else [])
    ensures Fresh(table[..i + 1], known) == Fresh(table[..i], known) + (if KeyOf(table[i]) in known then [] else [table[i]])
  {
    assert table[..i + 1][..i] == table[..i];
  }

  // One layer (lines 111-136, 138-163 and 165-190): update what exists, create the rest in one
  // batch, and report what is left over.
  method SyncLayer(client: IamClient, table: seq<Entry>, known: set<Key>, layer: Layer,
                   ghost sent0: seq<Call>, ghost seen0: seq<Registry>, ghost done: seq<Call>)
    returns (ok: bool, removed: set<Key>, ghost part: seq<Call>)
    requires Done(client, sent0, seen0, done)
    modifies client
    ensures ok ==> removed == set k <- known | LayerOf(k) == layer && k !in KeysOf(table)
    ensures ok ==> part == Sync(table, known) && Done(client, sent0, seen0, done + part)
    ensures !ok ==> part <= Sync(table, known) && Stopped(client, sent0, seen0, done + part)
  {
    removed := set k <- known | LayerOf(k) == layer;
    var missing: seq<Entry> := [];
    part := [];
    for i := 0 to |table|
      invariant missing == Fresh(table[..i], known)
      invariant part == Updates(table[..i], known)
      invariant removed == set k <- known | LayerOf(k) == layer && k !in KeysOf(table[..i])
      invariant Done(client, sent0, seen0, done + part)
    {
      PrefixGrows(table, known, i);
      PrefixLists(table, known, i + 1);
      removed := removed - {KeyOf(table[i])};
      if KeyOf(table[i]) in known {
        ok := SendNext(client, Update(table[i]), sent0, seen0, done + part);
        Reassociate(done, part, [Update(table[i])]);
        part := part + [Update(table[i])];
        if !ok {
          return;
        }
      } else {
        missing := missing + [table[i]];
      }
    }
    assert table[..|table|] == table;
    ghost var more;
    ok, more := CreateMissing(client, missing, sent0, seen0, done + part);
    Reassociate(done, part, more);
    part := part + more;
  }

  method CreateMissing(client: IamClient, missing: seq<Entry>,
                       ghost sent0: seq<Call>, ghost seen0: seq<Registry>, ghost done: seq<Call>)
    returns (ok: bool, ghost part: seq<Call>)
    requires Done(client, sent0, seen0, done)
    modifies client
    ensures part == CreateCalls(missing)
    ensures if ok then Done(client, sent0, seen0, done + part) else Stopped(client, sent0, seen0, done + part)
  {
    if |missing| > 0 {
      ok := SendNext(client, Create(missing), sent0, seen0, done);
      part := [Create(missing)];
    } else {
      ok, part := true, [];
      assert done + [] == done;
    }
  }

  // Lines 193-228: drop the leftovers of one layer, if there are any.
  method RemoveLayer(client: IamClient, removed: set<Key>,
                     ghost sent0: seq<Call>, ghost seen0: seq<Registry>, ghost done: seq<Call>)
    returns (ok: bool)
    requires Done(client, sent0, seen0, done)
    modifies client
    ensures ok ==> Done(client, sent0, seen0, done + RemoveCalls(removed))
    ensures !ok ==> removed != {} && Stopped(client, sent0, seen0, done + RemoveCalls(removed))
  {
    if removed != {} {
      ok := SendNext(client, Remove(removed), sent0, seen0, done);
    } else {
      ok := true;
      assert done + [] == done;
    }
  }

  // Lines 230-270: register the document when the snapshot has none, update it otherwise.
  method StoreDocument(client: IamClient, snapshot: Registry, slot: Slot,
                       ghost sent0: seq<Call>, ghost seen0: seq<Registry>, ghost done: seq<Call>)
    returns (ok: bool)
    requires Done(client, sent0, seen0, done)
    modifies client
    ensures ok ==> Done(client, sent0, seen0, done + DocCalls(snapshot, slot))
    ensures !ok ==> Stopped(client, sent0, seen0, done + DocCalls(snapshot, slot))
  {
    if DocIn(snapshot, slot) == Absent {
      ok := SendNext(client, RegisterDoc(slot), sent0, seen0, done);
    } else {
      ok := SendNext(client, UpdateDoc(slot), sent0, seen0, done);
    }
  }

  // Lines 76-109: register the system, or correct its host.
  method PrepareSystem(client: IamClient, snapshot: Registry, host: string,
                       ghost sent0: seq<Call>, ghost seen0: seq<Registry>)
    returns (ok: bool)
    requires Done(client, sent0, seen0, [])
    modifies client
    ensures ok ==> Done(client, sent0, seen0, SystemCalls(snapshot, host))
    ensures !ok ==> Stopped(client, sent0, seen0, SystemCalls(snapshot, host))
  {
    ok := true;
    if !snapshot.found {
      ok := SendNext(client, Call.RegisterSystem(host), sent0, seen0, []);
      assert [] + [Call.RegisterSystem(host)] == [Call.RegisterSystem(host)];
    } else if snapshot.host != host {
      ok := SendNext(client, UpdateHost(host), sent0, seen0, []);
      assert [] + [UpdateHost(host)] == [UpdateHost(host)];
    }
  }

  lemma DoneIsRun(client: IamClient, sent0: seq<Call>, seen0: seq<Registry>, plan: seq<Call>)
    requires Done(client, sent0, seen0, plan)
    ensures Follows(plan, client.Trace(|sent0|, true))
    ensures client.Trace(|sent0|, true).states[0] == seen0[|sent0|]
  {
    assert client.sent[|sent0|..] == plan;
    forall i | 0 <= i < |plan|
      ensures Step(client.Trace(|sent0|, true), i)
    {
    }
  }

  lemma StoppedIsRun(client: IamClient, sent0: seq<Call>, seen0: seq<Registry>, plan: seq<Call>, done: seq<Call>)
    requires Stopped(client, sent0, seen0, done) && done <= plan
    ensures Follows(plan, client.Trace(|sent0|, false))
    ensures client.Trace(|sent0|, false).states[0] == seen0[|sent0|]
  {
    assert client.sent[|sent0|..] == done;
    forall i | 0 <= i < |done|
      ensures Step(client.Trace(|sent0|, false), i)
    {
    }
  }

  // Lines 111-190.
  method WriteLayers(client: IamClient, t: Tables, known: set<Key>,
                     ghost sent0: seq<Call>, ghost seen0: seq<Registry>, ghost done: seq<Call>)
    returns (ok: bool, types: set<Key>, selections: set<Key>, actions: set<Key>, ghost part: seq<Call>)
    requires Done(client, sent0, seen0, done)
    modifies client
    ensures ok ==> part == Syncs(t, known) && Done(client, sent0, seen0, done + part)
    ensures ok ==> types == set k <- known | LayerOf(k) == TypeLayer && k !in KeysOf(t.types)
    ensures ok ==> selections == set k <- known | LayerOf(k) == SelectionLayer && k !in KeysOf(t.selections)
    ensures ok ==> actions == set k <- known | LayerOf(k) == ActionLayer && k !in KeysOf(t.actions)
    ensures !ok ==> part <= Syncs(t, known) && Stopped(client, sent0, seen0, done + part)
  {
    selections, actions := {}, {};
    ghost var more;
    ghost var a, b, c := Sync(t.types, known), Sync(t.selections, known), Sync(t.actions, known);
    assert Syncs(t, known) == a + b + c;
    ok, types, part := SyncLayer(client, t.types, known, TypeLayer, sent0, seen0, done);
    if !ok { return; }
    ok, selections, more := SyncLayer(client, t.selections, known, SelectionLayer, sent0, seen0, done + part);
    Reassociate(done, part, more);
    part := part + more;
    if !ok { return; }
    ok, actions, more := SyncLayer(client, t.actions, known, ActionLayer, sent0, seen0, done + part);
    Reassociate(done, part, more);
    part := part + more;
  }

  lemma Reassociate(a: seq<Call>, b: seq<Call>, c: seq<Call>)
    ensures a + b + c == a + (b + c)
  {
  }

  // Lines 192-228: leftovers go in the reverse order of dependency.
  method RemoveLeftovers(client: IamClient, types: set<Key>, selections: set<Key>, actions: set<Key>,
                         ghost sent0: seq<Call>, ghost seen0: seq<Registry>, ghost done: seq<Call>)
    returns (ok: bool, ghost part: seq<Call>)
    requires Done(client, sent0, seen0, done)
    modifies client
    ensures var plan := RemoveCalls(actions) + RemoveCalls(selections) + RemoveCalls(types);
      if ok then part == plan && Done(client, sent0, seen0, done + part)
      else part <= plan && Stopped(client, sent0, seen0, done + part)
  {
    part := RemoveCalls(actions);
    ok := RemoveLayer(client, actions, sent0, seen0, done);
    if !ok { return; }
    ok := RemoveLayer(client, selections, sent0, seen0, done + part);
    assert done + part + RemoveCalls(selections) == done + (part + RemoveCalls(selections));
    part := part + RemoveCalls(selections);
    if !ok { return; }
    ok := RemoveLayer(client, types, sent0, seen0, done + part);
    assert done + part + RemoveCalls(types) == done + (part + RemoveCalls(types));
    part := part + RemoveCalls(types);
  }

  method StoreDocuments(client: IamClient, snapshot: Registry,
                        ghost sent0: seq<Call>, ghost seen0: seq<Registry>, ghost done: seq<Call>)
    returns (ok: bool, ghost part: seq<Call>)
    requires Done(client, sent0, seen0, done)
    modifies client
    ensures if ok then part == Docs(snapshot) && Done(client, sent0, seen0, done + part)
            else part <= Docs(snapshot) && Stopped(client, sent0, seen0, done + part)
  {
    part := DocCalls(snapshot, Groups);
    ok := StoreDocument(client, snapshot, Groups, sent0, seen0, done);
    if !ok { return; }
    ok := StoreDocument(client, snapshot, Creators, sent0, seen0, done + part);
    assert done + part + DocCalls(snapshot, Creators) == done + (part + DocCalls(snapshot, Creators));
    part := part + DocCalls(snapshot, Creators);
    if !ok { return; }
    ok := StoreDocument(client, snapshot, Commons, sent0, seen0, done + part);
    assert done + part + DocCalls(snapshot, Commons) == done + (part + DocCalls(snapshot, Commons));
    part := part + DocCalls(snapshot, Commons);
  }

  // The whole method.
  method RegisterSystem(client: IamClient, t: Tables, host: string) returns (ok: bool)
    requires client.Logged()
    modifies client
    ensures client.Logged() && old(client.sent) <= client.sent && old(client.seen) <= client.seen
    ensures IsRun(t, host, client.Trace(|old(client.sent)|, ok))
    ensures client.Trace(|old(client.sent)|, ok).states[0] == old(client.registry)
  {
    ghost var sent0, seen0 := client.sent, client.seen;
    var info := client.GetSystemInfo();
    if info.Err? {
      assert client.sent[|sent0|..] == [];
      return false;
    }
    var snapshot := info.value;
    ghost var done := [];
    ok, done := Carry(client, t, snapshot, host, sent0, seen0);
    if ok {
      DoneIsRun(client, sent0, seen0, done);
    } else {
      StoppedIsRun(client, sent0, seen0, Plan(t, snapshot, host), done);
    }
  }

  // The four phases in order, each given by the calls it plans.
  method Carry(client: IamClient, t: Tables, snapshot: Registry, host: string,
               ghost sent0: seq<Call>, ghost seen0: seq<Registry>)
    returns (ok: bool, ghost done: seq<Call>)
    requires Done(client, sent0, seen0, [])
    modifies client
    ensures if ok then done == Plan(t, snapshot, host) && Done(client, sent0, seen0, done)
            else done <= Plan(t, snapshot, host) && Stopped(client, sent0, seen0, done)
  {
    done := SystemCalls(snapshot, host);
    ok := PrepareSystem(client, snapshot, host, sent0, seen0);
    if !ok { return; }
    ghost var part;
    ok, part := CarryLayers(client, t, snapshot, sent0, seen0, done);
    ghost var middle := Syncs(t, snapshot.entries.Keys) + Removals(t, snapshot);
    Reassociate(done, Syncs(t, snapshot.entries.Keys), Removals(t, snapshot));
    assert Plan(t, snapshot, host) == done + middle + Docs(snapshot);
    PrefixUnder(done, part, middle, Docs(snapshot));
    done := done + part;
    if !ok { return; }
    ok, part := StoreDocuments(client, snapshot, sent0, seen0, done);
    done := done + part;
  }

  lemma PrefixFirst(part: seq<Call>, b: seq<Call>, c: seq<Call>)
    requires part <= b
    ensures part <= b + c
  {
  }

  lemma PrefixUnder(a: seq<Call>, part: seq<Call>, b: seq<Call>, c: seq<Call>)
    requires part <= b
    ensures a + part <= a + b + c
  {
  }

  method CarryLayers(client: IamClient, t: Tables, snapshot: Registry,
                     ghost sent0: seq<Call>, ghost seen0: seq<Registry>, ghost done: seq<Call>)
    returns (ok: bool, ghost part: seq<Call>)
    requires Done(client, sent0, seen0, done)
    modifies client
    ensures part <= Syncs(t, snapshot.entries.Keys) + Removals(t, snapshot)
    ensures ok ==> part == Syncs(t, snapshot.entries.Keys) + Removals(t, snapshot)
    ensures if ok then Done(client, sent0, seen0, done + part) else Stopped(client, sent0, seen0, done + part)
  {
    var types, selections, actions;
    ok, types, selections, actions, part := WriteLayers(client, t, snapshot.entries.Keys, sent0, seen0, done);
    if !ok {
      PrefixFirst(part, Syncs(t, snapshot.entries.Keys), Removals(t, snapshot));
      return;
    }
    assert types == Stale(snapshot, t.types, TypeLayer);
    assert selections == Stale(snapshot, t.selections, SelectionLayer);
    assert actions == Stale(snapshot, t.actions, ActionLayer);
    ghost var more;
    ok, more := RemoveLeftovers(client, types, selections, actions, sent0, seen0, done + part);
    Reassociate(done, part, more);
    part := part + more;
  }
}
