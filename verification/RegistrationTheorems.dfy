/** The main results about `RegisterSystem`: safety in every state, convergence, stability. */
module RegistrationTheorems {
  import opened IamTypes
  import opened Registration
  import opened RegistrationProofs

  /******* Closedness, layer by layer *******/

  lemma RefsLayers(e: Entry, k: Key)
    requires k in Refs(e)
    ensures LayerOf(k) != ActionLayer
    ensures LayerOf(k) == SelectionLayer ==> e.ActionEntry?
    ensures !e.TypeEntry?
  {
  }

  lemma BetweenClosed(table: seq<Entry>, r: Registry, r': Registry)
    requires Between(table, r, r') && Closed(r.entries)
    requires forall e <- table :: Refs(e) <= r.entries.Keys
    ensures Closed(r'.entries)
  {
  }

  // The table entry is the one stored under its id.
  ghost predicate Settled(m: map<Key, Entry>, table: seq<Entry>) {
    forall e <- table :: KeyOf(e) in m && m[KeyOf(e)] == e
  }

  lemma PutSettles(m: map<Key, Entry>, table: seq<Entry>)
    requires Distinct(table)
    ensures Settled(Put(m, table), table)
  {
    PutKeys(m, table);
    forall e | e in table
      ensures KeyOf(e) in Put(m, table) && Put(m, table)[KeyOf(e)] == e
    {
      assert KeyOf(e) in KeysOf(table);
      PutValue(m, table, KeyOf(e));
      DistinctIndex(table, Put(m, table)[KeyOf(e)], e);
    }
  }

  lemma PutKeeps(m: map<Key, Entry>, table: seq<Entry>, other: seq<Entry>)
    requires Settled(m, table) && KeysOf(table) !! KeysOf(other)
    ensures Settled(Put(m, other), table)
  {
    PutKeys(m, other);
    forall e | e in table
      ensures KeyOf(e) in Put(m, other) && Put(m, other)[KeyOf(e)] == e
    {
      assert KeyOf(e) in KeysOf(table);
      PutValue(m, other, KeyOf(e));
    }
  }

  lemma LayersDisjoint(t: Tables)
    requires t.WellFormed()
    ensures KeysOf(t.types) !! KeysOf(t.selections)
    ensures KeysOf(t.types) !! KeysOf(t.actions)
    ensures KeysOf(t.selections) !! KeysOf(t.actions)
  {
  }

  ghost function AllKeys(t: Tables): set<Key> {
    KeysOf(t.types) + KeysOf(t.selections) + KeysOf(t.actions)
  }

  // The store once all three layers are written and nothing is removed yet.
  ghost function Full(t: Tables, s: Registry): map<Key, Entry> {
    Put(Put(Put(s.entries, t.types), t.selections), t.actions)
  }

  lemma FullSettled(t: Tables, s: Registry)
    requires t.WellFormed()
    ensures Full(t, s).Keys == s.entries.Keys + AllKeys(t)
    ensures Settled(Full(t, s), t.types) && Settled(Full(t, s), t.selections) && Settled(Full(t, s), t.actions)
  {
    LayersDisjoint(t);
    var m1 := Put(s.entries, t.types);
    var m2 := Put(m1, t.selections);
    PutKeys(s.entries, t.types);
    PutKeys(m1, t.selections);
    PutKeys(m2, t.actions);
    PutSettles(s.entries, t.types);
    PutSettles(m1, t.selections);
    PutSettles(m2, t.actions);
    PutKeeps(m1, t.types, t.selections);
    PutKeeps(m2, t.types, t.actions);
    PutKeeps(m2, t.selections, t.actions);
  }

  // A layer may lose objects only after the layers that name it have lost theirs.
  ghost predicate RemovalOrder(t: Tables, s: Registry, gone: set<Key>) {
    var a, b, c := Stale(s, t.actions, ActionLayer), Stale(s, t.selections, SelectionLayer), Stale(s, t.types, TypeLayer);
    && gone <= a + b + c
    && (gone <= a || a <= gone)
    && (gone <= a + b || a + b <= gone)
  }

  ghost predicate KeyedById(m: map<Key, Entry>) {
    forall k <- m :: KeyOf(m[k]) == k
  }

  lemma PutKeyed(m: map<Key, Entry>, es: seq<Entry>)
    requires KeyedById(m)
    ensures KeyedById(Put(m, es))
  {
    forall k | k in Put(m, es)
      ensures KeyOf(Put(m, es)[k]) == k
    {
      PutValue(m, es, k);
    }
  }

  lemma FullKeyed(t: Tables, s: Registry)
    requires Valid(s)
    ensures KeyedById(Full(t, s))
  {
    PutKeyed(s.entries, t.types);
    PutKeyed(Put(s.entries, t.types), t.selections);
    PutKeyed(Put(Put(s.entries, t.types), t.selections), t.actions);
  }

  lemma TrimmedClosed(t: Tables, s: Registry, gone: set<Key>)
    requires t.WellFormed() && Valid(s) && Closed(Full(t, s)) && RemovalOrder(t, s, gone)
    ensures Closed(Full(t, s) - gone)
  {
    FullSettled(t, s);
    FullKeyed(t, s);
    var full := Full(t, s);
    forall k, x | k in full - gone && x in Refs(full[k])
      ensures x in full - gone
    {
      RefsLayers(full[k], x);
      if k in KeysOf(t.actions) {
        SettledRefs(full, t.actions, k, KeysOf(t.types) + KeysOf(t.selections));
      } else if k in KeysOf(t.selections) {
        SettledRefs(full, t.selections, k, KeysOf(t.types));
      }
    }
  }

  lemma SettledRefs(m: map<Key, Entry>, table: seq<Entry>, k: Key, targets: set<Key>)
    requires Settled(m, table) && k in KeysOf(table)
    requires forall e <- table :: Refs(e) <= targets
    ensures k in m && Refs(m[k]) <= targets
  {
    var e :| e in table && KeyOf(e) == k;
  }

  lemma SettledAgree(m: map<Key, Entry>, m': map<Key, Entry>, table: seq<Entry>, k: Key)
    requires Settled(m, table) && Settled(m', table) && k in KeysOf(table)
    ensures k in m && k in m' && m[k] == m'[k]
  {
    var e :| e in table && KeyOf(e) == k;
  }

  lemma FullClosed(t: Tables, s: Registry)
    requires t.WellFormed() && Closed(s.entries)
    ensures Closed(Put(s.entries, t.types))
    ensures Closed(Put(Put(s.entries, t.types), t.selections))
    ensures Closed(Full(t, s))
  {
    var r1 := s.(entries := Put(s.entries, t.types));
    var r2 := r1.(entries := Put(r1.entries, t.selections));
    PutBetween(t.types, s, t.types);
    PutKeys(s.entries, t.types);
    PutBetween(t.selections, r1, t.selections);
    PutKeys(r1.entries, t.selections);
    PutBetween(t.actions, r2, t.actions);
    BetweenClosed(t.types, s, r1);
    BetweenClosed(t.selections, r1, r2);
    BetweenClosed(t.actions, r2, r2.(entries := Put(r2.entries, t.actions)));
  }

  /******* Where a run can be *******/

  lemma SyncsReach(t: Tables, r: Registry, known: set<Key>, r': Registry)
    requires t.WellFormed() && Closed(r.entries) && KeyedById(r.entries)
    requires Reaches(Syncs(t, known), r, r')
    ensures Closed(r'.entries) && KeyedById(r'.entries)
  {
    var a, b, c := Sync(t.types, known), Sync(t.selections, known), Sync(t.actions, known);
    FullClosed(t, r);
    SyncAll(t.types, known, r);
    var r1 := r.(entries := Put(r.entries, t.types));
    var r2 := r1.(entries := Put(r1.entries, t.selections));
    SyncAll(t.selections, known, r1);
    ApplyAllConcat(a, b, r);
    PutKeys(r.entries, t.types);
    PutKeys(r1.entries, t.selections);
    PutKeyed(r.entries, t.types);
    PutKeyed(r1.entries, t.selections);
    ReachesConcat(a + b, c, r, r');
    if Reaches(c, r2, r') {
      SyncReaches(t.actions, known, r2, r');
      BetweenClosed(t.actions, r2, r');
    } else {
      ReachesConcat(a, b, r, r');
      if Reaches(a, r, r') {
        SyncReaches(t.types, known, r, r');
        BetweenClosed(t.types, r, r');
      } else {
        SyncReaches(t.selections, known, r1, r');
        BetweenClosed(t.selections, r1, r');
      }
    }
  }

  lemma SyncsAll(t: Tables, r: Registry, known: set<Key>)
    requires t.WellFormed()
    ensures ApplyAll(Syncs(t, known), r) == r.(entries := Full(t, r))
  {
    SyncAll(t.types, known, r);
    var r1 := r.(entries := Put(r.entries, t.types));
    SyncAll(t.selections, known, r1);
    var r2 := r1.(entries := Put(r1.entries, t.selections));
    SyncAll(t.actions, known, r2);
    ApplyAllConcat(Sync(t.types, known), Sync(t.selections, known), r);
    ApplyAllConcat(Sync(t.types, known) + Sync(t.selections, known), Sync(t.actions, known), r);
  }

  lemma MinusMinus(m: map<Key, Entry>, a: set<Key>, b: set<Key>)
    ensures (m - a) - b == m - (a + b)
  {
  }

  // While leftovers are removed the store is the full one less a set that respects the layer order.
  lemma RemovalsReach(t: Tables, s: Registry, r: Registry, r': Registry)
    requires r.entries == Full(t, s) && Reaches(Removals(t, s), r, r')
    ensures exists gone :: RemovalOrder(t, s, gone) && r'.entries == r.entries - gone
  {
    var a, b, c := Stale(s, t.actions, ActionLayer), Stale(s, t.selections, SelectionLayer), Stale(s, t.types, TypeLayer);
    var ca, cb, cc := RemoveCalls(a), RemoveCalls(b), RemoveCalls(c);
    RemoveAll(a, r);
    var r1 := r.(entries := r.entries - a);
    RemoveAll(b, r1);
    var r2 := r1.(entries := r1.entries - b);
    ApplyAllConcat(ca, cb, r);
    ReachesConcat(ca + cb, cc, r, r');
    if Reaches(cc, r2, r') {
      RemoveReaches(c, r2, r');
      var some :| some <= c && r' == r2.(entries := r2.entries - some);
      MinusMinus(r.entries, a, b);
      MinusMinus(r.entries, a + b, some);
      assert RemovalOrder(t, s, a + b + some);
    } else {
      ReachesConcat(ca, cb, r, r');
      if Reaches(ca, r, r') {
        RemoveReaches(a, r, r');
        var some :| some <= a && r' == r.(entries := r.entries - some);
        assert RemovalOrder(t, s, some);
      } else {
        RemoveReaches(b, r1, r');
        var some :| some <= b && r' == r1.(entries := r1.entries - some);
        MinusMinus(r.entries, a, some);
        assert RemovalOrder(t, s, a + some);
      }
    }
  }

  lemma RemovalsAll(t: Tables, s: Registry, r: Registry)
    ensures ApplyAll(Removals(t, s), r)
            == r.(entries := r.entries - (Stale(s, t.actions, ActionLayer) + Stale(s, t.selections, SelectionLayer)
                                          + Stale(s, t.types, TypeLayer)))
  {
    var a, b, c := Stale(s, t.actions, ActionLayer), Stale(s, t.selections, SelectionLayer), Stale(s, t.types, TypeLayer);
    RemoveAll(a, r);
    var r1 := r.(entries := r.entries - a);
    RemoveAll(b, r1);
    var r2 := r1.(entries := r1.entries - b);
    RemoveAll(c, r2);
    ApplyAllConcat(RemoveCalls(a), RemoveCalls(b), r);
    ApplyAllConcat(RemoveCalls(a) + RemoveCalls(b), RemoveCalls(c), r);
    MinusMinus(r.entries, a, b);
    MinusMinus(r.entries, a + b, c);
  }

  lemma TrimmedIsWanted(t: Tables, s: Registry)
    requires t.WellFormed() && Valid(s)
    ensures Full(t, s) - (Stale(s, t.actions, ActionLayer) + Stale(s, t.selections, SelectionLayer)
                          + Stale(s, t.types, TypeLayer)) == t.Wanted()
  {
    var empty := Registry(false, "", map[], Absent, Absent, Absent);
    var stale := Stale(s, t.actions, ActionLayer) + Stale(s, t.selections, SelectionLayer) + Stale(s, t.types, TypeLayer);
    FullSettled(t, s);
    FullSettled(t, empty);
    var trimmed, wanted := Full(t, s) - stale, t.Wanted();
    TrimmedKeys(t, s);
    assert wanted == Full(t, empty);
    assert trimmed.Keys == AllKeys(t) == wanted.Keys;
    forall k | k in trimmed
      ensures trimmed[k] == wanted[k]
    {
      if k in KeysOf(t.types) {
        SettledAgree(Full(t, s), wanted, t.types, k);
      } else if k in KeysOf(t.selections) {
        SettledAgree(Full(t, s), wanted, t.selections, k);
      } else {
        SettledAgree(Full(t, s), wanted, t.actions, k);
      }
    }
  }

  lemma TrimmedKeys(t: Tables, s: Registry)
    requires t.WellFormed()
    ensures s.entries.Keys + AllKeys(t) - (Stale(s, t.actions, ActionLayer) + Stale(s, t.selections, SelectionLayer)
                                           + Stale(s, t.types, TypeLayer)) == AllKeys(t)
  {
    var stale := Stale(s, t.actions, ActionLayer) + Stale(s, t.selections, SelectionLayer) + Stale(s, t.types, TypeLayer);
    forall k | k in s.entries && k !in AllKeys(t)
      ensures k in stale
    {
      assert LayerOf(k) == ActionLayer || LayerOf(k) == SelectionLayer || LayerOf(k) == TypeLayer;
    }
    forall k | k in AllKeys(t)
      ensures k !in stale
    {
      StaleOutside(t, s, k);
    }
  }

  lemma StaleOutside(t: Tables, s: Registry, k: Key)
    requires t.WellFormed() && k in AllKeys(t)
    ensures k !in Stale(s, t.actions, ActionLayer)
    ensures k !in Stale(s, t.selections, SelectionLayer)
    ensures k !in Stale(s, t.types, TypeLayer)
  {
  }

  lemma SystemAll(s: Registry, host: string)
    ensures ApplyAll(SystemCalls(s, host), s) == s.(found := true, host := host)
  {
    if !s.found {
      ApplyOne(RegisterSystem(host), s);
    } else if s.host != host {
      ApplyOne(UpdateHost(host), s);
    }
  }

  lemma FourPhases(a: seq<Call>, b: seq<Call>, c: seq<Call>, d: seq<Call>, s: Registry, r1: Registry, r2: Registry,
                   r3: Registry, r': Registry)
    requires Reaches(a + b + c + d, s, r')
    requires r1 == ApplyAll(a, s) && r2 == ApplyAll(b, r1) && r3 == ApplyAll(c, r2)
    ensures Reaches(a, s, r') || Reaches(b, r1, r') || Reaches(c, r2, r') || Reaches(d, r3, r')
  {
    ApplyAllConcat(a, b, s);
    ApplyAllConcat(a + b, c, s);
    ReachesConcat(a + b + c, d, s, r');
    if !Reaches(d, r3, r') {
      ReachesConcat(a + b, c, s, r');
      if !Reaches(c, r2, r') {
        ReachesConcat(a, b, s, r');
      }
    }
  }

  lemma SystemPhase(s: Registry, host: string, r': Registry)
    requires Reaches(SystemCalls(s, host), s, r')
    ensures r'.entries == s.entries
  {
    OtherReaches(SystemCalls(s, host), s, r');
  }

  lemma RemovalPhase(t: Tables, s: Registry, r: Registry, r': Registry)
    requires t.WellFormed() && Valid(s) && Closed(s.entries) && r.entries == Full(t, s)
    requires Reaches(Removals(t, s), r, r')
    ensures Closed(r'.entries) && KeyedById(r'.entries)
  {
    FullClosed(t, s);
    FullKeyed(t, s);
    RemovalsReach(t, s, r, r');
    var gone :| RemovalOrder(t, s, gone) && r'.entries == r.entries - gone;
    TrimmedClosed(t, s, gone);
  }

  lemma DocPhase(s: Registry, trimmed: Registry, r': Registry)
    requires Reaches(Docs(s), trimmed, r') && Closed(trimmed.entries) && KeyedById(trimmed.entries)
    ensures Closed(r'.entries) && KeyedById(r'.entries)
  {
    OtherReaches(Docs(s), trimmed, r');
  }

  lemma RemovalsDone(t: Tables, s: Registry, r: Registry)
    requires t.WellFormed() && Valid(s) && Closed(s.entries) && r.entries == Full(t, s)
    ensures Closed(ApplyAll(Removals(t, s), r).entries) && KeyedById(ApplyAll(Removals(t, s), r).entries)
  {
    AllReached(Removals(t, s), r);
    RemovalPhase(t, s, r, ApplyAll(Removals(t, s), r));
  }

  lemma AllReached(calls: seq<Call>, r: Registry)
    ensures Reaches(calls, r, ApplyAll(calls, r))
  {
    assert calls[..|calls|] == calls;
    assert StopsAt(calls, |calls|, r, ApplyAll(calls, r));
  }

  lemma PlanReach(t: Tables, s: Registry, host: string, r': Registry)
    requires t.WellFormed() && Valid(s) && Closed(s.entries)
    requires Reaches(Plan(t, s, host), s, r')
    ensures Closed(r'.entries) && KeyedById(r'.entries)
  {
    var known := s.entries.Keys;
    var r1 := s.(found := true, host := host);
    var r2 := r1.(entries := Full(t, s));
    SystemAll(s, host);
    SyncsAll(t, r1, known);
    FourPhases(SystemCalls(s, host), Syncs(t, known), Removals(t, s), Docs(s), s, r1, r2, ApplyAll(Removals(t, s), r2), r');
    if Reaches(SystemCalls(s, host), s, r') {
      SystemPhase(s, host, r');
    } else if Reaches(Syncs(t, known), r1, r') {
      SyncsReach(t, r1, known, r');
    } else if Reaches(Removals(t, s), r2, r') {
      RemovalPhase(t, s, r2, r');
    } else {
      RemovalsDone(t, s, r2);
      DocPhase(s, ApplyAll(Removals(t, s), r2), r');
    }
  }

  /******* Safety *******/

  // No run, cut short anywhere and by any partly applied call, shows a dangling reference between layers.
  lemma EveryStateIsClosed(t: Tables, host: string, run: Run, i: nat)
    requires t.WellFormed() && IsRun(t, host, run) && i < |run.states|
    requires Valid(run.states[0]) && Closed(run.states[0].entries)
    ensures Closed(run.states[i].entries) && Valid(run.states[i])
  {
    RunReaches(Plan(t, run.states[0], host), run, i);
    PlanReach(t, run.states[0], host, run.states[i]);
    RunValid(t, host, run, i);
  }

  // An unregistered system holds nothing: the registration is the first call of a run that finds none.
  lemma RunValid(t: Tables, host: string, run: Run, i: nat)
    requires IsRun(t, host, run) && i < |run.states|
    requires Valid(run.states[0])
    requires KeyedById(run.states[i].entries)
    ensures Valid(run.states[i])
  {
    var plan := Plan(t, run.states[0], host);
    assert run.states[0].found || plan[0] == RegisterSystem(host) by {
      if !run.states[0].found {
        assert plan[0] == SystemCalls(run.states[0], host)[0];
      }
    }
    FoundOrUnchanged(plan, host, run, i);
  }

  lemma {:induction false} FoundOrUnchanged(plan: seq<Call>, host: string, run: Run, i: nat)
    requires Follows(plan, run) && i < |run.states| && plan != []
    requires run.states[0].found || plan[0] == RegisterSystem(host)
    ensures run.states[i].found || run.states[i] == run.states[0]
  {
    if i > 0 {
      FoundOrUnchanged(plan, host, run, i - 1);
      assert Step(run, i - 1);
      if i == 1 {
        assert run.calls[0] == plan[0];
      } else {
        FoundAfterFirst(plan, host, run, i - 1);
      }
    }
  }

  lemma {:induction false} FoundAfterFirst(plan: seq<Call>, host: string, run: Run, i: nat)
    requires Follows(plan, run) && 0 < i < |run.calls| && plan != []
    requires run.states[0].found || plan[0] == RegisterSystem(host)
    ensures run.states[i].found
  {
    assert Step(run, i - 1);
    if i == 1 {
      assert run.calls[0] == plan[0];
    } else {
      FoundAfterFirst(plan, host, run, i - 1);
    }
  }

  ghost predicate Good(r: Registry) {
    Valid(r) && Closed(r.entries)
  }

  ghost predicate KeepsGood(run: Run) {
    run.states != [] && (Good(run.states[0]) ==> forall i | 0 <= i < |run.states| :: Good(run.states[i]))
  }

  // The same over any number of runs, each started from what the one before left behind.
  lemma HistoryIsClosed(t: Tables, host: string, runs: seq<Run>, n: nat, i: nat)
    requires t.WellFormed() && IsHistory(t, host, runs) && n < |runs| && i < |runs[n].states|
    requires Valid(runs[0].states[0]) && Closed(runs[0].states[0].entries)
    ensures Closed(runs[n].states[i].entries) && Valid(runs[n].states[i])
  {
    forall l | 0 <= l < |runs|
      ensures KeepsGood(runs[l])
    {
      if Good(runs[l].states[0]) {
        forall k | 0 <= k < |runs[l].states|
          ensures Good(runs[l].states[k])
        {
          EveryStateIsClosed(t, host, runs[l], k);
        }
      }
    }
    GoodAlong(runs, n, i);
  }

  lemma {:induction false} GoodAlong(runs: seq<Run>, n: nat, i: nat)
    requires forall l | 0 <= l < |runs| :: KeepsGood(runs[l])
    requires forall l | 0 <= l < |runs| - 1 :: Resumes(runs[l], runs[l + 1])
    requires n < |runs| && i < |runs[n].states| && runs[0].states != [] && Good(runs[0].states[0])
    ensures Good(runs[n].states[i])
  {
    if n > 0 {
      GoodAlong(runs, n - 1, |runs[n - 1].states| - 1);
      assert Resumes(runs[n - 1], runs[n - 1 + 1]);
    }
  }

  /******* Convergence *******/

  // A run that succeeds leaves exactly the generated registry, whatever it started from.
  lemma SuccessConverges(t: Tables, host: string, run: Run)
    requires t.WellFormed() && IsRun(t, host, run) && run.ok && Valid(run.states[0])
    ensures Converged(t, host, Last(run.states))
  {
    RunAppliesAll(Plan(t, run.states[0], host), run);
    PlanAll(t, run.states[0], host);
  }

  lemma RunAppliesAll(plan: seq<Call>, run: Run)
    requires run.states != [] && Follows(plan, run) && run.ok
    ensures Last(run.states) == ApplyAll(plan, run.states[0])
  {
    ApplyPrefix(plan, run, |run.calls|);
    assert plan[..|plan|] == plan;
  }

  lemma PlanAll(t: Tables, s: Registry, host: string)
    requires t.WellFormed() && Valid(s)
    ensures Converged(t, host, ApplyAll(Plan(t, s, host), s))
  {
    var a, b, c, d := SystemCalls(s, host), Syncs(t, s.entries.Keys), Removals(t, s), Docs(s);
    var r0 := s.(found := true, host := host);
    SystemAll(s, host);
    SyncsAll(t, r0, s.entries.Keys);
    var r1 := r0.(entries := Full(t, s));
    RemovalsAll(t, s, r1);
    TrimmedIsWanted(t, s);
    var r2 := r1.(entries := t.Wanted());
    ApplyAllConcat(a, b, s);
    ApplyAllConcat(a + b, c, s);
    ApplyAllConcat(a + b + c, d, s);
    assert ApplyAll(a + b + c, s) == r2;
    DocsAll(s, r2);
    assert Plan(t, s, host) == a + b + c + d;
  }

  lemma DocsAll(s: Registry, r: Registry)
    ensures ApplyAll(Docs(s), r) == r.(groups := Generated, creators := Generated, commons := Generated)
  {
    var r1 := StoreDoc(r, Groups);
    var r2 := StoreDoc(r1, Creators);
    ApplyOne(DocCalls(s, Groups)[0], r);
    ApplyOne(DocCalls(s, Creators)[0], r1);
    ApplyOne(DocCalls(s, Commons)[0], r2);
    ApplyAllConcat(DocCalls(s, Groups), DocCalls(s, Creators), r);
    ApplyAllConcat(DocCalls(s, Groups) + DocCalls(s, Creators), DocCalls(s, Commons), r);
  }

  lemma EffectKeyed(c: Call, r: Registry, r': Registry)
    requires KeyedById(r.entries) && Effect(c, r, r')
    ensures KeyedById(r'.entries)
  {
    match c
    case Update(e) => PutKeyed(r.entries, [e]);
    case Create(es) =>
      PutKeyed(r.entries, es);
      if r' != Apply(c, r) {
        var some :| (forall e <- some :: e in es) && r' == r.(entries := Put(r.entries, some));
        PutKeyed(r.entries, some);
      }
    case _ =>
  }

  lemma {:induction false} RunKeyed(plan: seq<Call>, run: Run, i: nat)
    requires Follows(plan, run) && i < |run.states| && KeyedById(run.states[0].entries)
    ensures KeyedById(run.states[i].entries)
  {
    if i > 0 {
      RunKeyed(plan, run, i - 1);
      assert Step(run, i - 1);
      EffectKeyed(run.calls[i - 1], run.states[i - 1], run.states[i]);
    }
  }

  lemma RunStaysValid(t: Tables, host: string, run: Run, i: nat)
    requires IsRun(t, host, run) && i < |run.states| && Valid(run.states[0])
    ensures Valid(run.states[i])
  {
    RunKeyed(Plan(t, run.states[0], host), run, i);
    RunValid(t, host, run, i);
  }

  ghost predicate KeepsValid(run: Run) {
    run.states != [] && (Valid(run.states[0]) ==> forall i | 0 <= i < |run.states| :: Valid(run.states[i]))
  }

  lemma HistoryIsValid(t: Tables, host: string, runs: seq<Run>, n: nat, i: nat)
    requires IsHistory(t, host, runs) && n < |runs| && i < |runs[n].states| && Valid(runs[0].states[0])
    ensures Valid(runs[n].states[i])
  {
    forall l | 0 <= l < |runs|
      ensures KeepsValid(runs[l])
    {
      if Valid(runs[l].states[0]) {
        forall k | 0 <= k < |runs[l].states|
          ensures Valid(runs[l].states[k])
        {
          RunStaysValid(t, host, runs[l], k);
        }
      }
    }
    ValidAlong(runs, n, i);
  }

  lemma {:induction false} ValidAlong(runs: seq<Run>, n: nat, i: nat)
    requires forall l | 0 <= l < |runs| :: KeepsValid(runs[l])
    requires forall l | 0 <= l < |runs| - 1 :: Resumes(runs[l], runs[l + 1])
    requires n < |runs| && i < |runs[n].states| && runs[0].states != [] && Valid(runs[0].states[0])
    ensures Valid(runs[n].states[i])
  {
    if n > 0 {
      ValidAlong(runs, n - 1, |runs[n - 1].states| - 1);
      assert Resumes(runs[n - 1], runs[n - 1 + 1]);
    }
    assert KeepsValid(runs[n]);
  }

  lemma WantedClosed(t: Tables)
    requires t.WellFormed()
    ensures Closed(t.Wanted())
  {
    var empty := Registry(false, "", map[], Absent, Absent, Absent);
    FullClosed(t, empty);
    FullSettled(t, empty);
    assert Full(t, empty) == t.Wanted();
  }

  // However many runs failed before, the first one that succeeds converges, and leaves no dangling
  // reference between layers even when there were some at the start.
  lemma RetriesConverge(t: Tables, host: string, runs: seq<Run>)
    requires t.WellFormed() && IsHistory(t, host, runs) && runs != []
    requires Valid(runs[0].states[0]) && Last(runs).ok
    ensures Converged(t, host, Last(Last(runs).states))
    ensures Closed(Last(Last(runs).states).entries)
  {
    var last := |runs| - 1;
    assert IsRun(t, host, runs[last]);
    HistoryIsValid(t, host, runs, last, 0);
    SuccessConverges(t, host, runs[last]);
    WantedClosed(t);
  }

  /******* Stability *******/

  ghost predicate InTables(t: Tables, e: Entry) {
    e in t.types || e in t.selections || e in t.actions
  }

  // Two generated entries with one id are the same entry.
  lemma TablesDistinct(t: Tables, e: Entry, f: Entry)
    requires t.WellFormed() && InTables(t, e) && InTables(t, f) && KeyOf(e) == KeyOf(f)
    ensures e == f
  {
    if e in t.types {
      DistinctIndex(t.types, e, f);
    } else if e in t.selections {
      DistinctIndex(t.selections, e, f);
    } else {
      DistinctIndex(t.actions, e, f);
    }
  }

  // What every planned call has in common: it stores generated entries or removes others.
  ghost predicate Harmless(t: Tables, c: Call) {
    match c
    case Update(e) => InTables(t, e)
    case Create(es) => forall e <- es :: InTables(t, e)
    case Remove(ks) => ks !! AllKeys(t)
    case _ => true
  }

  ghost predicate AllHarmless(t: Tables, calls: seq<Call>) {
    forall c <- calls :: Harmless(t, c)
  }

  lemma HarmlessConcat(t: Tables, a: seq<Call>, b: seq<Call>)
    requires AllHarmless(t, a) && AllHarmless(t, b)
    ensures AllHarmless(t, a + b)
  {
  }

  lemma SyncIsHarmless(t: Tables, table: seq<Entry>, known: set<Key>)
    requires forall e <- table :: InTables(t, e)
    ensures AllHarmless(t, Sync(table, known))
  {
    SyncStores(table, known);
    forall c | c in Sync(table, known)
      ensures Harmless(t, c)
    {
      assert Stores(c, table);
    }
  }

  lemma RemoveIsHarmless(t: Tables, ks: set<Key>)
    requires ks !! AllKeys(t)
    ensures AllHarmless(t, RemoveCalls(ks))
  {
  }

  lemma SyncsAreHarmless(t: Tables, known: set<Key>)
    ensures AllHarmless(t, Syncs(t, known))
  {
    SyncIsHarmless(t, t.types, known);
    SyncIsHarmless(t, t.selections, known);
    SyncIsHarmless(t, t.actions, known);
    HarmlessConcat(t, Sync(t.types, known), Sync(t.selections, known));
    HarmlessConcat(t, Sync(t.types, known) + Sync(t.selections, known), Sync(t.actions, known));
  }

  lemma RemovalsAreHarmless(t: Tables, s: Registry)
    requires t.WellFormed()
    ensures AllHarmless(t, Removals(t, s))
  {
    var x, y, z := Stale(s, t.actions, ActionLayer), Stale(s, t.selections, SelectionLayer), Stale(s, t.types, TypeLayer);
    forall k | k in AllKeys(t)
      ensures k !in x + y + z
    {
      StaleOutside(t, s, k);
    }
    RemoveIsHarmless(t, x);
    RemoveIsHarmless(t, y);
    RemoveIsHarmless(t, z);
    HarmlessConcat(t, RemoveCalls(x), RemoveCalls(y));
    HarmlessConcat(t, RemoveCalls(x) + RemoveCalls(y), RemoveCalls(z));
  }

  lemma HarmlessFour(t: Tables, a: seq<Call>, b: seq<Call>, c: seq<Call>, d: seq<Call>)
    requires AllHarmless(t, a) && AllHarmless(t, b) && AllHarmless(t, c) && AllHarmless(t, d)
    ensures AllHarmless(t, a + b + c + d)
  {
  }

  lemma PlanIsHarmless(t: Tables, s: Registry, host: string)
    requires t.WellFormed()
    ensures AllHarmless(t, Plan(t, s, host))
  {
    SyncsAreHarmless(t, s.entries.Keys);
    RemovalsAreHarmless(t, s);
    assert AllHarmless(t, SystemCalls(s, host)) && AllHarmless(t, Docs(s));
    HarmlessFour(t, SystemCalls(s, host), Syncs(t, s.entries.Keys), Removals(t, s), Docs(s));
  }

  ghost predicate Holds(r: Registry, e: Entry) {
    KeyOf(e) in r.entries && r.entries[KeyOf(e)] == e
  }

  lemma CallKeeps(t: Tables, c: Call, r: Registry, r': Registry, e: Entry)
    requires t.WellFormed() && InTables(t, e) && Holds(r, e) && Harmless(t, c)
    requires Effect(c, r, r')
    ensures Holds(r', e)
  {
    assert KeyOf(e) in AllKeys(t);
    match c
    case Update(f) =>
      PutHolds(t, r.entries, [f], e);
    case Create(es) =>
      PutHolds(t, r.entries, es, e);
      if r' != Apply(c, r) {
        var some: seq<Entry> :| (forall f <- some :: f in es) && r' == r.(entries := Put(r.entries, some));
        PutHolds(t, r.entries, some, e);
      }
    case _ =>
  }

  lemma PutHolds(t: Tables, m: map<Key, Entry>, es: seq<Entry>, e: Entry)
    requires t.WellFormed() && InTables(t, e) && KeyOf(e) in m && m[KeyOf(e)] == e
    requires forall f <- es :: InTables(t, f)
    ensures KeyOf(e) in Put(m, es) && Put(m, es)[KeyOf(e)] == e
  {
    PutKeys(m, es);
    PutValue(m, es, KeyOf(e));
    if KeyOf(e) in KeysOf(es) {
      TablesDistinct(t, e, Put(m, es)[KeyOf(e)]);
    }
  }

  lemma {:induction false} HarmlessKeeps(t: Tables, plan: seq<Call>, run: Run, i: nat, j: nat, e: Entry)
    requires t.WellFormed() && AllHarmless(t, plan) && Follows(plan, run) && i <= j < |run.states|
    requires InTables(t, e) && Holds(run.states[i], e)
    ensures Holds(run.states[j], e)
  {
    if i < j {
      HarmlessKeeps(t, plan, run, i, j - 1, e);
      assert Step(run, j - 1) && run.calls[j - 1] == plan[j - 1];
      CallKeeps(t, run.calls[j - 1], run.states[j - 1], run.states[j], e);
    }
  }

  // A generated entry, once in place, is in place in every later state of the run.
  lemma SettledStays(t: Tables, host: string, run: Run, e: Entry)
    requires t.WellFormed() && IsRun(t, host, run) && InTables(t, e)
    ensures Keeps(run, e)
  {
    var plan := Plan(t, run.states[0], host);
    PlanIsHarmless(t, run.states[0], host);
    forall i, j | 0 <= i <= j < |run.states| && Holds(run.states[i], e)
      ensures Holds(run.states[j], e)
    {
      HarmlessKeeps(t, plan, run, i, j, e);
    }
  }

  ghost predicate Keeps(run: Run, e: Entry) {
    forall i, j | 0 <= i <= j < |run.states| && Holds(run.states[i], e) :: Holds(run.states[j], e)
  }

  // ... and in every state of every later run: failed runs never lose ground.
  lemma ProgressIsKept(t: Tables, host: string, runs: seq<Run>, n: nat, i: nat, m: nat, j: nat, e: Entry)
    requires t.WellFormed() && IsHistory(t, host, runs)
    requires n <= m < |runs| && i < |runs[n].states| && j < |runs[m].states| && (n == m ==> i <= j)
    requires InTables(t, e) && Holds(runs[n].states[i], e)
    ensures Holds(runs[m].states[j], e)
  {
    forall l | 0 <= l < |runs|
      ensures Keeps(runs[l], e) && runs[l].states != []
    {
      SettledStays(t, host, runs[l], e);
    }
    KeptAlong(runs, n, i, m, j, e);
  }

  lemma {:induction false} KeptAlong(runs: seq<Run>, n: nat, i: nat, m: nat, j: nat, e: Entry)
    requires forall l | 0 <= l < |runs| :: Keeps(runs[l], e) && runs[l].states != []
    requires forall l | 0 <= l < |runs| - 1 :: Resumes(runs[l], runs[l + 1])
    requires n <= m < |runs| && i < |runs[n].states| && j < |runs[m].states| && (n == m ==> i <= j)
    requires Holds(runs[n].states[i], e)
    ensures Holds(runs[m].states[j], e)
    decreases m
  {
    if n < m {
      assert Resumes(runs[m - 1], runs[m - 1 + 1]);
      KeptAlong(runs, n, i, m - 1, |runs[m - 1].states| - 1, e);
    }
  }

  /******* A converged registry *******/

  lemma WantedHolds(t: Tables, e: Entry)
    requires t.WellFormed()
    ensures InTables(t, e) ==> KeyOf(e) in t.Wanted() && t.Wanted()[KeyOf(e)] == e
    ensures t.Wanted().Keys == AllKeys(t)
  {
    var empty := Registry(false, "", map[], Absent, Absent, Absent);
    FullSettled(t, empty);
    assert Full(t, empty) == t.Wanted();
  }

  lemma {:induction false} NothingMissing(table: seq<Entry>, known: set<Key>)
    requires KeysOf(table) <= known
    ensures Fresh(table, known) == []
  {
    FreshAndKnown(table, known);
    if Fresh(table, known) != [] {
      assert Fresh(table, known)[0] in Fresh(table, known);
    }
  }

  // On a converged registry a run sends only updates: one per generated entry, in table order.
  lemma ConvergedPlan(t: Tables, host: string, s: Registry)
    requires t.WellFormed() && Converged(t, host, s)
    ensures Plan(t, s, host) == UpdateAll(t.types) + UpdateAll(t.selections) + UpdateAll(t.actions)
                                + [UpdateDoc(Groups), UpdateDoc(Creators), UpdateDoc(Commons)]
  {
    var known := s.entries.Keys;
    WantedHolds(t, TypeEntry(ResourceType(NoType, [])));
    SyncsKnown(t, known);
    NothingStale(t, s);
    Assemble(t, s, host, UpdateAll(t.types) + UpdateAll(t.selections) + UpdateAll(t.actions));
  }

  lemma Assemble(t: Tables, s: Registry, host: string, updates: seq<Call>)
    requires s.found && s.host == host && DocIn(s, Groups) == DocIn(s, Creators) == DocIn(s, Commons) == Generated
    requires Syncs(t, s.entries.Keys) == updates && Removals(t, s) == []
    ensures Plan(t, s, host) == updates + [UpdateDoc(Groups), UpdateDoc(Creators), UpdateDoc(Commons)]
  {
    var docs := Docs(s);
    assert docs == [UpdateDoc(Groups), UpdateDoc(Creators), UpdateDoc(Commons)];
    assert SystemCalls(s, host) == [];
    assert [] + updates + [] + docs == updates + docs;
  }

  lemma SyncsKnown(t: Tables, known: set<Key>)
    requires AllKeys(t) <= known
    ensures Syncs(t, known) == UpdateAll(t.types) + UpdateAll(t.selections) + UpdateAll(t.actions)
  {
    SyncKnown(t.types, known);
    SyncKnown(t.selections, known);
    SyncKnown(t.actions, known);
  }

  ghost function UpdateAll(table: seq<Entry>): seq<Call> {
    seq(|table|, i requires 0 <= i < |table| => Update(table[i]))
  }

  lemma {:induction false} UpdatesKnown(table: seq<Entry>, known: set<Key>)
    requires KeysOf(table) <= known
    ensures Updates(table, known) == UpdateAll(table)
  {
    if table != [] {
      var front, last := table[..|table| - 1], table[|table| - 1];
      assert KeysOf(front) <= known && KeyOf(last) in KeysOf(table);
      UpdatesKnown(front, known);
    }
  }

  lemma SyncKnown(table: seq<Entry>, known: set<Key>)
    requires KeysOf(table) <= known
    ensures Sync(table, known) == UpdateAll(table)
  {
    NothingMissing(table, known);
    UpdatesKnown(table, known);
  }

  lemma NothingStale(t: Tables, s: Registry)
    requires t.WellFormed() && s.entries.Keys == AllKeys(t)
    ensures Removals(t, s) == []
  {
    forall k | k in AllKeys(t)
      ensures k !in Stale(s, t.actions, ActionLayer)
      ensures k !in Stale(s, t.selections, SelectionLayer)
      ensures k !in Stale(s, t.types, TypeLayer)
    {
      StaleOutside(t, s, k);
    }
    assert Stale(s, t.actions, ActionLayer) == {};
    assert Stale(s, t.selections, SelectionLayer) == {};
    assert Stale(s, t.types, TypeLayer) == {};
  }

  lemma ConvergedCall(t: Tables, host: string, s: Registry, c: Call)
    requires t.WellFormed() && Converged(t, host, s) && c in Plan(t, s, host)
    ensures c.UpdateDoc? || (c.Update? && InTables(t, c.entry))
  {
    ConvergedPlan(t, host, s);
    UpdatesOrDocs(t, c);
  }

  lemma UpdatesOrDocs(t: Tables, c: Call)
    requires c in UpdateAll(t.types) + UpdateAll(t.selections) + UpdateAll(t.actions)
                  + [UpdateDoc(Groups), UpdateDoc(Creators), UpdateDoc(Commons)]
    ensures c.UpdateDoc? || (c.Update? && InTables(t, c.entry))
  {
  }

  lemma RestoreChangesNothing(t: Tables, host: string, s: Registry, c: Call, r': Registry)
    requires t.WellFormed() && Converged(t, host, s)
    requires c.UpdateDoc? || (c.Update? && InTables(t, c.entry))
    requires Effect(c, s, r')
    ensures r' == s
  {
    if c.Update? {
      WantedHolds(t, c.entry);
      assert [c.entry][..0] == [];
      assert Put(s.entries, []) == s.entries;
      assert Put(s.entries, [c.entry]) == s.entries;
    }
  }

  // A run on a converged registry changes nothing, even when it fails halfway.
  lemma ConvergedIsFixed(t: Tables, host: string, run: Run, i: nat)
    requires t.WellFormed() && IsRun(t, host, run) && Converged(t, host, run.states[0]) && i < |run.states|
    ensures run.states[i] == run.states[0]
  {
    var plan := Plan(t, run.states[0], host);
    forall c, r' | c in plan && Effect(c, run.states[0], r')
      ensures r' == run.states[0]
    {
      ConvergedCall(t, host, run.states[0], c);
      RestoreChangesNothing(t, host, run.states[0], c, r');
    }
    FixedByCalls(plan, run, i);
  }

  ghost predicate FixedPoint(plan: seq<Call>, s: Registry) {
    forall c, r' | c in plan && Effect(c, s, r') :: r' == s
  }

  lemma {:induction false} FixedByCalls(plan: seq<Call>, run: Run, i: nat)
    requires Follows(plan, run) && i < |run.states|
    requires FixedPoint(plan, run.states[0])
    ensures run.states[i] == run.states[0]
  {
    if i > 0 {
      FixedByCalls(plan, run, i - 1);
      assert Step(run, i - 1) && run.calls[i - 1] == plan[i - 1];
      assert plan[i - 1] in plan;
      var c := plan[i - 1];
      assert Effect(c, run.states[0], run.states[i]);
    }
  }

  /******* Calls the remote side accepts *******/

  ghost predicate AllApplicable(calls: seq<Call>, r: Registry) {
    forall i | 0 <= i < |calls| :: Applicable(calls[i], ApplyAll(calls[..i], r))
  }

  lemma ApplicableConcat(a: seq<Call>, b: seq<Call>, r: Registry)
    requires AllApplicable(a, r) && AllApplicable(b, ApplyAll(a, r))
    ensures AllApplicable(a + b, r)
  {
    forall i | 0 <= i < |a + b|
      ensures Applicable((a + b)[i], ApplyAll((a + b)[..i], r))
    {
      if i < |a| {
        assert (a + b)[..i] == a[..i];
      } else {
        assert (a + b)[..i] == a + b[..i - |a|];
        ApplyAllConcat(a, b[..i - |a|], r);
        assert (a + b)[i] == b[i - |a|];
      }
    }
  }

  lemma SyncApplicable(table: seq<Entry>, known: set<Key>, r: Registry)
    requires r.found && Distinct(table)
    requires forall k <- KeysOf(table) :: k in known <==> k in r.entries
    ensures AllApplicable(Sync(table, known), r)
  {
    var updates, missing := Updates(table, known), Fresh(table, known);
    FreshAndKnown(table, known);
    SyncStores(table, known);
    assert forall c <- updates :: Stores(c, table) && KeyOf(c.entry) in KeysOf(table);
    forall i | 0 <= i < |updates|
      ensures Applicable(updates[i], ApplyAll(updates[..i], r))
    {
      ApplyAllBetween(updates[..i], table, r);
      assert updates[i] in updates;
    }
    ApplyUpdates(table, known, r);
    KnownElements(table, known);
    PutKeys(r.entries, Known(table, known));
    var r1 := ApplyAll(updates, r);
    assert r1.entries.Keys == r.entries.Keys;
    if missing != [] {
      forall e | e in missing
        ensures KeyOf(e) !in r1.entries
      {
        assert KeyOf(e) in KeysOf(table);
      }
      assert [Create(missing)][..0] == [];
      assert AllApplicable(CreateCalls(missing), r1);
    }
    ApplicableConcat(updates, CreateCalls(missing), r);
  }

  lemma SyncsApplicable(t: Tables, r: Registry)
    requires t.WellFormed() && r.found
    ensures AllApplicable(Syncs(t, r.entries.Keys), r)
  {
    var known := r.entries.Keys;
    LayersDisjoint(t);
    SyncApplicable(t.types, known, r);
    SyncAll(t.types, known, r);
    PutKeys(r.entries, t.types);
    var r1 := r.(entries := Put(r.entries, t.types));
    SyncApplicable(t.selections, known, r1);
    SyncAll(t.selections, known, r1);
    PutKeys(r1.entries, t.selections);
    var r2 := r1.(entries := Put(r1.entries, t.selections));
    SyncApplicable(t.actions, known, r2);
    ApplicableConcat(Sync(t.types, known), Sync(t.selections, known), r);
    ApplyAllConcat(Sync(t.types, known), Sync(t.selections, known), r);
    ApplicableConcat(Sync(t.types, known) + Sync(t.selections, known), Sync(t.actions, known), r);
  }

  lemma RemoveApplicable(ks: set<Key>, r: Registry)
    requires r.found && ks <= r.entries.Keys
    ensures AllApplicable(RemoveCalls(ks), r)
  {
    if ks != {} {
      assert [Remove(ks)][..0] == [];
    }
  }

  lemma RemovalsApplicable(t: Tables, s: Registry, r: Registry)
    requires r.found && s.entries.Keys <= r.entries.Keys
    ensures AllApplicable(Removals(t, s), r)
  {
    var a, b, c := Stale(s, t.actions, ActionLayer), Stale(s, t.selections, SelectionLayer), Stale(s, t.types, TypeLayer);
    RemoveApplicable(a, r);
    RemoveAll(a, r);
    var r1 := r.(entries := r.entries - a);
    RemoveApplicable(b, r1);
    RemoveAll(b, r1);
    var r2 := r1.(entries := r1.entries - b);
    RemoveApplicable(c, r2);
    ApplicableConcat(RemoveCalls(a), RemoveCalls(b), r);
    ApplyAllConcat(RemoveCalls(a), RemoveCalls(b), r);
    ApplicableConcat(RemoveCalls(a) + RemoveCalls(b), RemoveCalls(c), r);
  }

  lemma DocsApplicable(s: Registry, r: Registry)
    requires r.found && r.groups == s.groups && r.creators == s.creators && r.commons == s.commons
    ensures AllApplicable(Docs(s), r)
  {
    var docs := Docs(s);
    assert docs[..0] == [];
    ApplyOne(docs[0], r);
    assert docs[..1] == [docs[0]];
    ApplyAllConcat([docs[0]], [docs[1]], r);
    ApplyOne(docs[1], ApplyAll([docs[0]], r));
    assert docs[..2] == [docs[0]] + [docs[1]];
  }

  // Every call of a run finds what it needs: it updates and removes only what is there, creates only
  // what is not, and registers a document only when there is none. The snapshot is never out of date.
  lemma EveryCallIsApplicable(t: Tables, host: string, run: Run, i: nat)
    requires t.WellFormed() && IsRun(t, host, run) && i < |run.calls|
    ensures Applicable(run.calls[i], run.states[i])
  {
    var s, plan := run.states[0], Plan(t, run.states[0], host);
    var known := s.entries.Keys;
    var a, b, c, d := SystemCalls(s, host), Syncs(t, known), Removals(t, s), Docs(s);
    assert a[..0] == [];
    assert AllApplicable(a, s);
    SystemAll(s, host);
    var r0 := s.(found := true, host := host);
    SyncsApplicable(t, r0);
    SyncsAll(t, r0, known);
    var r1 := r0.(entries := Full(t, s));
    FullSettled(t, s);
    RemovalsApplicable(t, s, r1);
    RemovalsAll(t, s, r1);
    ApplicableConcat(a, b, s);
    ApplyAllConcat(a, b, s);
    ApplicableConcat(a + b, c, s);
    ApplyAllConcat(a + b, c, s);
    DocsApplicable(s, ApplyAll(a + b + c, s));
    ApplicableConcat(a + b + c, d, s);
    ApplyPrefix(plan, run, i);
    assert Applicable(plan[i], ApplyAll(plan[..i], s));
  }
}
