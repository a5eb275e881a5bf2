/** What holds of every run of `RegisterSystem`, failed or not, and of every sequence of runs. */
module RegistrationProofs {
  import opened IamTypes
  import opened Registration

  /******* Stores *******/

  lemma {:induction false} PutKeys(m: map<Key, Entry>, es: seq<Entry>)
    ensures Put(m, es).Keys == m.Keys + KeysOf(es)
  {
    if es != [] {
      var front, last := es[..|es| - 1], es[|es| - 1];
      PutKeys(m, front);
      assert es == front + [last];
      assert KeysOf(es) == KeysOf(front) + {KeyOf(last)};
    } else {
      assert KeysOf(es) == {};
    }
  }

  // A stored value is the old one or comes from the batch.
  lemma {:induction false} PutValue(m: map<Key, Entry>, es: seq<Entry>, k: Key)
    requires k in Put(m, es)
    ensures k !in KeysOf(es) ==> k in m && Put(m, es)[k] == m[k]
    ensures k in KeysOf(es) ==> Put(m, es)[k] in es && KeyOf(Put(m, es)[k]) == k
  {
    if es != [] {
      var front, last := es[..|es| - 1], es[|es| - 1];
      assert es == front + [last];
      assert KeysOf(es) == KeysOf(front) + {KeyOf(last)};
      if k != KeyOf(last) {
        PutValue(m, front, k);
      }
    }
  }

  lemma {:induction false} PutPut(m: map<Key, Entry>, a: seq<Entry>, b: seq<Entry>)
    ensures Put(Put(m, a), b) == Put(m, a + b)
  {
    if b == [] {
      assert a + b == a;
    } else {
      PutPut(m, a, b[..|b| - 1]);
      assert (a + b)[..|a + b| - 1] == a + b[..|b| - 1];
    }
  }

  lemma DistinctIndex(table: seq<Entry>, e: Entry, f: Entry)
    requires Distinct(table) && e in table && f in table && KeyOf(e) == KeyOf(f)
    ensures e == f
  {
    var i :| 0 <= i < |table| && table[i] == e;
    var j :| 0 <= j < |table| && table[j] == f;
    assert !(i < j) && !(j < i);
  }

  // With distinct ids the order of a batch does not matter.
  lemma PutSameElements(m: map<Key, Entry>, es: seq<Entry>, table: seq<Entry>)
    requires Distinct(table)
    requires forall e :: e in es <==> e in table
    ensures Put(m, es) == Put(m, table)
  {
    PutKeys(m, es);
    PutKeys(m, table);
    assert KeysOf(es) == KeysOf(table);
    forall k | k in Put(m, es)
      ensures Put(m, es)[k] == Put(m, table)[k]
    {
      PutValue(m, es, k);
      PutValue(m, table, k);
      if k in KeysOf(es) {
        DistinctIndex(table, Put(m, es)[k], Put(m, table)[k]);
      }
    }
  }

  /******* Executing a list of calls *******/

  ghost function ApplyAll(calls: seq<Call>, r: Registry): Registry {
    if calls == [] then r else Apply(calls[|calls| - 1], ApplyAll(calls[..|calls| - 1], r))
  }

  lemma {:induction false} ApplyAllConcat(a: seq<Call>, b: seq<Call>, r: Registry)
    ensures ApplyAll(a + b, r) == ApplyAll(b, ApplyAll(a, r))
  {
    if b == [] {
      assert a + b == a;
    } else {
      ApplyAllConcat(a, b[..|b| - 1], r);
      assert (a + b)[..|a + b| - 1] == a + b[..|b| - 1];
    }
  }

  // `r'` is a registry seen while `calls` are executed from `r`, the last one possibly failing.
  ghost predicate Reaches(calls: seq<Call>, r: Registry, r': Registry) {
    exists i | 0 <= i <= |calls| :: StopsAt(calls, i, r, r')
  }

  ghost predicate StopsAt(calls: seq<Call>, i: nat, r: Registry, r': Registry)
    requires i <= |calls|
  {
    || r' == ApplyAll(calls[..i], r)
    || (i < |calls| && Partial(calls[i], ApplyAll(calls[..i], r), r'))
  }

  lemma ReachesConcat(a: seq<Call>, b: seq<Call>, r: Registry, r': Registry)
    requires Reaches(a + b, r, r')
    ensures Reaches(a, r, r') || Reaches(b, ApplyAll(a, r), r')
  {
    var i :| 0 <= i <= |a + b| && StopsAt(a + b, i, r, r');
    if i < |a| {
      assert (a + b)[..i] == a[..i];
      assert StopsAt(a, i, r, r');
    } else {
      assert (a + b)[..i] == a + b[..i - |a|];
      ApplyAllConcat(a, b[..i - |a|], r);
      assert StopsAt(b, i - |a|, ApplyAll(a, r), r');
    }
  }

  lemma {:induction false} ApplyPrefix(plan: seq<Call>, run: Run, i: nat)
    requires Follows(plan, run) && i <= |run.calls| && (run.ok || i < |run.calls| || i == 0)
    ensures run.states[i] == ApplyAll(plan[..i], run.states[0])
  {
    if i > 0 {
      ApplyPrefix(plan, run, i - 1);
      assert Step(run, i - 1);
      assert plan[..i][..i - 1] == plan[..i - 1];
    }
  }

  // Every registry of a run is one that executing its plan can show.
  lemma RunReaches(plan: seq<Call>, run: Run, i: nat)
    requires Follows(plan, run) && i < |run.states|
    ensures Reaches(plan, run.states[0], run.states[i])
  {
    if run.ok || i < |run.calls| || i == 0 {
      ApplyPrefix(plan, run, i);
      assert StopsAt(plan, i, run.states[0], run.states[i]);
    } else {
      ApplyPrefix(plan, run, i - 1);
      assert Step(run, i - 1);
      assert StopsAt(plan, i - 1, run.states[0], run.states[i]);
    }
  }

  /******* What one layer's calls do *******/

  // The calls of a layer store table entries and touch nothing else.
  ghost predicate Between(table: seq<Entry>, r: Registry, r': Registry) {
    && r' == r.(entries := r'.entries)
    && r.entries.Keys <= r'.entries.Keys <= r.entries.Keys + KeysOf(table)
    && forall k <- r'.entries ::
         (k in r.entries && r'.entries[k] == r.entries[k]) || (r'.entries[k] in table && KeyOf(r'.entries[k]) == k)
  }

  ghost predicate Stores(c: Call, table: seq<Entry>) {
    || (c.Update? && c.entry in table)
    || (c.Create? && forall e <- c.entries :: e in table)
  }

  lemma PutBetween(table: seq<Entry>, r: Registry, es: seq<Entry>)
    requires forall e <- es :: e in table
    ensures Between(table, r, r.(entries := Put(r.entries, es)))
  {
    PutKeys(r.entries, es);
    forall k | k in Put(r.entries, es)
      ensures
        || (k in r.entries && Put(r.entries, es)[k] == r.entries[k])
        || (Put(r.entries, es)[k] in table && KeyOf(Put(r.entries, es)[k]) == k)
    {
      PutValue(r.entries, es, k);
    }
  }

  lemma StoresBetween(c: Call, table: seq<Entry>, r: Registry, r': Registry)
    requires Stores(c, table)
    requires Effect(c, r, r')
    ensures Between(table, r, r')
  {
    match c
    case Update(e) =>
      PutBetween(table, r, [e]);
    case Create(es) =>
      PutBetween(table, r, es);
      if r' != Apply(c, r) {
        var some: seq<Entry> :| (forall e <- some :: e in es) && r' == r.(entries := Put(r.entries, some));
        PutBetween(table, r, some);
      }
  }

  lemma BetweenTrans(table: seq<Entry>, a: Registry, b: Registry, c: Registry)
    requires Between(table, a, b) && Between(table, b, c)
    ensures Between(table, a, c)
  {
  }

  lemma {:induction false} ApplyAllBetween(calls: seq<Call>, table: seq<Entry>, r: Registry)
    requires forall c <- calls :: Stores(c, table)
    ensures Between(table, r, ApplyAll(calls, r))
  {
    if calls != [] {
      var front, last := calls[..|calls| - 1], calls[|calls| - 1];
      ApplyAllBetween(front, table, r);
      assert Stores(last, table);
      StoresBetween(last, table, ApplyAll(front, r), ApplyAll(calls, r));
      BetweenTrans(table, r, ApplyAll(front, r), ApplyAll(calls, r));
    }
  }

  lemma {:induction false} FreshAndKnown(table: seq<Entry>, known: set<Key>)
    ensures forall e :: e in Fresh(table, known) <==> e in table && KeyOf(e) !in known
    ensures forall c <- Updates(table, known) :: c.Update? && c.entry in table && KeyOf(c.entry) in known
    ensures Distinct(table) ==> Distinct(Fresh(table, known))
  {
    if table != [] {
      var front, last := table[..|table| - 1], table[|table| - 1];
      FreshAndKnown(front, known);
      assert table == front + [last];
      if Distinct(table) {
        assert forall e <- front :: KeyOf(e) != KeyOf(last);
      }
    }
  }

  lemma SyncStores(table: seq<Entry>, known: set<Key>)
    ensures forall c <- Sync(table, known) :: Stores(c, table)
  {
    FreshAndKnown(table, known);
  }

  // A registry seen while a layer is written.
  lemma SyncReaches(table: seq<Entry>, known: set<Key>, r: Registry, r': Registry)
    requires Reaches(Sync(table, known), r, r')
    ensures Between(table, r, r')
  {
    var calls := Sync(table, known);
    SyncStores(table, known);
    var i :| 0 <= i <= |calls| && StopsAt(calls, i, r, r');
    ApplyAllBetween(calls[..i], table, r);
    if r' != ApplyAll(calls[..i], r) {
      assert Stores(calls[i], table);
      StoresBetween(calls[i], table, ApplyAll(calls[..i], r), r');
      BetweenTrans(table, r, ApplyAll(calls[..i], r), r');
    }
  }

  ghost function Known(table: seq<Entry>, known: set<Key>): seq<Entry> {
    if table == [] then []
    else
      var last := table[|table| - 1];
      Known(table[..|table| - 1], known) + (if KeyOf(last) in known then [last] else [])
  }

  lemma {:induction false} KnownElements(table: seq<Entry>, known: set<Key>)
    ensures forall e :: e in Known(table, known) <==> e in table && KeyOf(e) in known
  {
    if table != [] {
      KnownElements(table[..|table| - 1], known);
      assert table == table[..|table| - 1] + [table[|table| - 1]];
    }
  }

  lemma ApplyOne(c: Call, r: Registry)
    ensures ApplyAll([c], r) == Apply(c, r)
  {
    assert [c][..0] == [];
  }

  lemma {:induction false} ApplyUpdates(table: seq<Entry>, known: set<Key>, r: Registry)
    ensures ApplyAll(Updates(table, known), r) == r.(entries := Put(r.entries, Known(table, known)))
  {
    if table != [] {
      var front, last := table[..|table| - 1], table[|table| - 1];
      ApplyUpdates(front, known, r);
      if KeyOf(last) in known {
        ApplyAllConcat(Updates(front, known), [Update(last)], r);
        ApplyOne(Update(last), ApplyAll(Updates(front, known), r));
        PutPut(r.entries, Known(front, known), [last]);
      } else {
        assert Updates(table, known) == Updates(front, known);
        assert Known(table, known) == Known(front, known);
      }
    }
  }

  lemma KnownThenFresh(table: seq<Entry>, known: set<Key>, m: map<Key, Entry>)
    requires Distinct(table)
    ensures Put(Put(m, Known(table, known)), Fresh(table, known)) == Put(m, table)
  {
    KnownElements(table, known);
    FreshAndKnown(table, known);
    PutPut(m, Known(table, known), Fresh(table, known));
    PutSameElements(m, Known(table, known) + Fresh(table, known), table);
  }

  lemma CreateAll(missing: seq<Entry>, r: Registry)
    ensures ApplyAll(CreateCalls(missing), r) == r.(entries := Put(r.entries, missing))
  {
    if missing != [] {
      ApplyOne(Create(missing), r);
    }
  }

  // All calls of a layer together store exactly the table.
  lemma SyncAll(table: seq<Entry>, known: set<Key>, r: Registry)
    requires Distinct(table)
    ensures ApplyAll(Sync(table, known), r) == r.(entries := Put(r.entries, table))
  {
    ApplyUpdates(table, known, r);
    ApplyAllConcat(Updates(table, known), CreateCalls(Fresh(table, known)), r);
    CreateAll(Fresh(table, known), ApplyAll(Updates(table, known), r));
    KnownThenFresh(table, known, r.entries);
  }

  lemma RemoveReaches(ks: set<Key>, r: Registry, r': Registry)
    requires Reaches(RemoveCalls(ks), r, r')
    ensures exists some :: some <= ks && r' == r.(entries := r.entries - some)
  {
    var calls := RemoveCalls(ks);
    var i :| 0 <= i <= |calls| && StopsAt(calls, i, r, r');
    if ks == {} || (i == 0 && r' == ApplyAll(calls[..i], r)) {
      assert r.entries - {} == r.entries;
      assert r' == r.(entries := r.entries - {});
    } else if i == 1 {
      RemoveAll(ks, r);
      assert calls[..1] == calls;
      assert r' == r.(entries := r.entries - ks);
    }
  }

  lemma RemoveAll(ks: set<Key>, r: Registry)
    ensures ApplyAll(RemoveCalls(ks), r) == r.(entries := r.entries - ks)
  {
    if ks == {} {
      assert r.entries - ks == r.entries;
    } else {
      ApplyOne(Remove(ks), r);
    }
  }

  // Calls about the system or a document leave the three layers alone.
  lemma {:induction false} OtherReaches(calls: seq<Call>, r: Registry, r': Registry)
    requires forall c <- calls :: c.RegisterSystem? || c.UpdateHost? || c.RegisterDoc? || c.UpdateDoc?
    requires Reaches(calls, r, r')
    ensures r'.entries == r.entries
  {
    var i :| 0 <= i <= |calls| && StopsAt(calls, i, r, r');
    OtherAll(calls[..i], r);
    if r' != ApplyAll(calls[..i], r) {
      assert calls[i] in calls;
    }
  }

  lemma {:induction false} OtherAll(calls: seq<Call>, r: Registry)
    requires forall c <- calls :: c.RegisterSystem? || c.UpdateHost? || c.RegisterDoc? || c.UpdateDoc?
    ensures ApplyAll(calls, r).entries == r.entries
  {
    if calls != [] {
      OtherAll(calls[..|calls| - 1], r);
      assert calls[|calls| - 1] in calls;
    }
  }
}
