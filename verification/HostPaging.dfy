/**
 Hosts by id, `collectHostByHostIDs` and `constructHostFromSearchResult`
 (src/ac/extensions/host.go:31-108): read page by page, then completed from the host relations.
 */
module HostPaging {
  import opened Common

  const PAGE := 2000  // common.BKMaxRecordsAtOnce

  datatype Host = Host(bizId: int, moduleId: int, setId: int, hostId: int, name: string, innerIp: string)

  // A raw row; `None` cannot be parsed.
  type Raw = Option<Host>

  datatype Relation = Relation(bizId: int, setId: int, moduleId: int, hostId: int)

  /******* Paging *******/

  function Min(a: nat, b: nat): nat {
    if a < b then a else b
  }

  // One read: the rows from `start` on, a page at most, and the number of all rows.
  function Page(store: seq<Raw>, start: nat): (seq<Raw>, nat) {
    if start < |store| then (store[start..Min(start + PAGE, |store|)], |store|) else ([], |store|)
  }

  // How many reads `n` rows take: at least one, and no page more than needed.
  function Reads(n: nat): nat {
    if n == 0 then 1 else (n + PAGE - 1) / PAGE
  }

  // The first `k` pages one after the other.
  function Pages(store: seq<Raw>, k: nat): seq<Raw> {
    if k == 0 then [] else Pages(store, k - 1) + Page(store, (k - 1) * PAGE).0
  }

  lemma {:induction false} PagesArePrefix(store: seq<Raw>, k: nat)
    ensures Pages(store, k) == store[..Min(k * PAGE, |store|)]
  {
    if k > 0 {
      PagesArePrefix(store, k - 1);
    }
  }

  // The pages that are read are the whole, each row once and in order, and one page fewer would not be.
  lemma PagesAreWhole(store: seq<Raw>, k: nat)
    requires k == Reads(|store|)
    ensures Pages(store, k) == store
    ensures if store == [] then k == 1 else (k - 1) * 2000 < |store| <= k * 2000 && Pages(store, k - 1) != store
  {
    PagesArePrefix(store, k);
    PagesArePrefix(store, k - 1);
  }

  // Read number `k` fails when `fails(k)`; the store does not change.
  method CollectPages(store: seq<Raw>, fails: nat -> bool) returns (r: Result<seq<Raw>>, rounds: nat)
    ensures r.Ok? <==> forall k: nat | k < Reads(|store|) :: !fails(k)
    ensures r.Ok? ==> r.value == store && rounds == Reads(|store|)
    ensures r.Err? ==> 1 <= rounds <= Reads(|store|) && fails(rounds - 1)
  {
    var hosts: seq<Raw> := [];
    var count: int := -1;
    var offset := 0;
    rounds := 0;
    while count == -1 || offset < count
      invariant offset == rounds * PAGE && hosts == Pages(store, rounds)
      invariant count == if rounds == 0 then -1 else |store|
      invariant rounds <= Reads(|store|) && forall k: nat | k < rounds :: !fails(k)
      decreases Reads(|store|) - rounds
    {
      var failed := fails(rounds);
      rounds := rounds + 1;
      if failed {
        return Err, rounds;
      }
      var (info, total) := Page(store, offset);
      hosts := hosts + info;
      count := total;
      offset := offset + PAGE;
    }
    PagesAreWhole(store, rounds);
    return Ok(hosts), rounds;
  }

  /******* Relations *******/

  function LastRelation(rows: seq<Relation>, hostId: int): Option<Relation> {
    if rows == [] then None
    else if rows[|rows| - 1].hostId == hostId then Some(rows[|rows| - 1])
    else LastRelation(rows[..|rows| - 1], hostId)
  }

  // What `LastRelation` means without recursion.
  lemma {:induction false} LastRelationIsLast(rows: seq<Relation>, hostId: int)
    ensures LastRelation(rows, hostId).None? <==> forall row <- rows :: row.hostId != hostId
    ensures LastRelation(rows, hostId).Some? ==>
      exists i | 0 <= i < |rows| ::
        && LastRelation(rows, hostId) == Some(rows[i]) && rows[i].hostId == hostId
        && forall j | i < j < |rows| :: rows[j].hostId != hostId
  {
    if rows != [] {
      var n := |rows| - 1;
      LastRelationIsLast(rows[..n], hostId);
      assert rows[n] in rows;
      assert forall row <- rows :: row in rows[..n] || row == rows[n];
      if rows[n].hostId == hostId {
        assert LastRelation(rows, hostId) == Some(rows[n]);
      }
    }
  }

  function Completed(host: Host, row: Relation): Host {
    host.(bizId := row.bizId, setId := row.setId, moduleId := row.moduleId)
  }

  // The host is where the row says, and all else about it stays.
  predicate IsPlaced(host: Host, row: Relation, placed: Host) {
    && placed.bizId == row.bizId && placed.setId == row.setId && placed.moduleId == row.moduleId
    && placed.hostId == host.hostId && placed.name == host.name && placed.innerIp == host.innerIp
  }

  // Why a raw result yields no hosts: there is none, one cannot be parsed, or one is in no module.
  ghost predicate Complete(raw: seq<Raw>, rows: seq<Relation>) {
    && raw != []
    && forall x <- raw :: x.Some? && LastRelation(rows, x.value.hostId).Some?
  }

  function HostIds(raw: seq<Raw>): seq<int>
    requires forall x <- raw :: x.Some?
  {
    seq(|raw|, i requires 0 <= i < |raw| => raw[i].value.hostId)
  }

  // A map from host ids to their last relations.
  ghost predicate Latest(m: map<int, Relation>, rows: seq<Relation>) {
    forall id :: LastRelation(rows, id) == if id in m then Some(m[id]) else None
  }

  method IndexRelations(rows: seq<Relation>) returns (m: map<int, Relation>)
    ensures Latest(m, rows)
  {
    m := map[];
    for i := 0 to |rows|
      invariant Latest(m, rows[..i])
    {
      assert rows[..i + 1][..i] == rows[..i];
      m := m[rows[i].hostId := rows[i]];
    }
    assert rows[..|rows|] == rows;
  }

  // `relations` looks up the relations of some hosts.
  method ConstructHosts(raw: seq<Raw>, relations: seq<int> -> Result<seq<Relation>>) returns (r: Result<seq<Host>>)
    ensures r.Ok? <==> (forall x <- raw :: x.Some?) && relations(HostIds(raw)).Ok? && Complete(raw, relations(HostIds(raw)).value)
    ensures r.Ok? ==>
      var rows := relations(HostIds(raw)).value;
      && |r.value| == |raw|
      && forall i | 0 <= i < |raw| ::
           var row := LastRelation(rows, raw[i].value.hostId);
           row.Some? && r.value[i] == Completed(raw[i].value, row.value) && IsPlaced(raw[i].value, row.value, r.value[i])
  {
    var hosts := new Host[|raw|](_ => Host(0, 0, 0, 0, "", ""));
    var hostIds: seq<int> := [];
    for i := 0 to |raw|
      invariant |hostIds| == i
      invariant forall k | 0 <= k < i :: raw[k].Some? && hosts[k] == raw[k].value && hostIds[k] == raw[k].value.hostId
    {
      if raw[i].None? {
        assert raw[i] in raw;
        return Err;
      }
      hosts[i] := raw[i].value;
      hostIds := hostIds + [raw[i].value.hostId];
    }
    assert hostIds == HostIds(raw);
    var rows := relations(hostIds);
    if rows.Err? {
      return Err;
    }
    if |raw| == 0 {
      return Err;
    }
    var byHost := IndexRelations(rows.value);
    for idx := 0 to hosts.Length
      invariant forall k | idx <= k < |raw| :: hosts[k] == raw[k].value
      invariant forall k | 0 <= k < idx ::
        var row := LastRelation(rows.value, raw[k].value.hostId);
        row.Some? && hosts[k] == Completed(raw[k].value, row.value)
    {
      var host := hosts[idx];
      assert raw[idx] in raw;
      if host.hostId !in byHost {
        return Err;
      }
      hosts[idx] := Completed(host, byHost[host.hostId]);
    }
    return Ok(hosts[..]);
  }

  // The hosts come back in the order of the store, none lost and none twice, each with the last of its
  // relations.
  method CollectHosts(store: seq<Raw>, fails: nat -> bool, relations: seq<int> -> Result<seq<Relation>>)
    returns (r: Result<seq<Host>>)
    ensures r.Ok? <==>
      && (forall k: nat | k < Reads(|store|) :: !fails(k))
      && (forall x <- store :: x.Some?)
      && relations(HostIds(store)).Ok? && store != []
      && forall x <- store :: exists row <- relations(HostIds(store)).value :: row.hostId == x.value.hostId
    ensures r.Ok? ==>
      var rows := relations(HostIds(store)).value;
      && |r.value| == |store|
      && forall i | 0 <= i < |store| ::
           var row := LastRelation(rows, store[i].value.hostId);
           row.Some? && IsPlaced(store[i].value, row.value, r.value[i])
  {
    var pages, _ := CollectPages(store, fails);
    if pages.Err? {
      return Err;
    }
    r := ConstructHosts(pages.value, relations);
    forall x: Raw, rows: seq<Relation> | x.Some?
      ensures LastRelation(rows, x.value.hostId).Some? <==> exists row <- rows :: row.hostId == x.value.hostId
    {
      LastRelationIsLast(rows, x.value.hostId);
    }
  }
}
