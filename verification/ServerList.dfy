/**
 The list behind the rotation: registry events that replace it, the addresses that callers get
 (src/apimachinery/discovery/server.go:54-185, src/common/types/serverInfo.go:93-212), and how evenly
 the calls are spread over the servers.
 */
module ServerList {
  import opened Common
  import opened Text
  import opened Slices
  import opened Discovery

  datatype ServerInfo = ServerInfo(scheme: string, port: nat, registerIp: string)
  {
    function RegisterAddress(): string {
      scheme + "://" + registerIp + ":" + FormatInt(port)
    }

    predicate Usable() {
      port != 0 && registerIp != ""
    }

    function Cleaned(): ServerInfo {
      if scheme != "https" then this.(scheme := "http") else this
    }
  }

  // The servers that an event brings; `None` stands for one that cannot be decoded.
  function UsableOf(svrs: seq<Option<ServerInfo>>): seq<ServerInfo> {
    if svrs == [] then []
    else
      var last := svrs[|svrs| - 1];
      UsableOf(svrs[..|svrs| - 1])
      + (if last.Some? && last.value.Usable() then [last.value.Cleaned()] else [])
  }

  // Which of the first `n` servers can be used.
  function Kept(svrs: seq<Option<ServerInfo>>, n: nat): set<nat>
    requires n <= |svrs|
  {
    set i: nat | i < n && Keeps(svrs[i])
  }

  predicate Keeps(svr: Option<ServerInfo>) {
    svr.Some? && svr.value.port != 0 && svr.value.registerIp != ""
  }

  lemma NextKept(svrs: seq<Option<ServerInfo>>, n: nat)
    requires n < |svrs|
    ensures |Kept(svrs, n + 1)| == |Kept(svrs, n)| + if Keeps(svrs[n]) then 1 else 0
  {
    if Keeps(svrs[n]) {
      assert Kept(svrs, n + 1) == Kept(svrs, n) + {n};
    } else {
      assert Kept(svrs, n + 1) == Kept(svrs, n);
    }
  }

  lemma KeptPrefix(svrs: seq<Option<ServerInfo>>, n: nat, i: nat)
    requires i <= n <= |svrs|
    ensures Kept(svrs[..n], i) == Kept(svrs, i)
    ensures |Kept(svrs, i)| <= |Kept(svrs, n)|
  {
    SubsetSize(Kept(svrs, i), Kept(svrs, n));
  }

  // The servers with a port and an address stay, in their order, and change in the scheme at most.
  lemma {:induction false} UsableInOrder(svrs: seq<Option<ServerInfo>>, i: nat)
    requires i <= |svrs|
    ensures |UsableOf(svrs)| == |Kept(svrs, |svrs|)|
    ensures i < |svrs| && Keeps(svrs[i]) ==>
      && |Kept(svrs, i)| < |UsableOf(svrs)|
      && var (before, after) := (svrs[i].value, UsableOf(svrs)[|Kept(svrs, i)|]);
         && after.port == before.port && after.registerIp == before.registerIp
         && after.scheme == if before.scheme == "https" then "https" else "http"
  {
    if svrs != [] {
      var n := |svrs| - 1;
      KeptPrefix(svrs, n, n);
      NextKept(svrs, n);
      UsableInOrder(svrs[..n], if i < n then i else n);
      if i < n {
        KeptPrefix(svrs, n, i);
      }
    }
  }

  lemma NoneUsable(svrs: seq<Option<ServerInfo>>)
    ensures UsableOf(svrs) == [] <==> forall s <- svrs :: s.None? || s.value.port == 0 || s.value.registerIp == ""
  {
    UsableInOrder(svrs, 0);
    if forall s <- svrs :: s.None? || s.value.port == 0 || s.value.registerIp == "" {
      assert Kept(svrs, |svrs|) == {};
    }
    forall s | s in svrs && UsableOf(svrs) == []
      ensures s.None? || s.value.port == 0 || s.value.registerIp == ""
    {
      var i :| 0 <= i < |svrs| && svrs[i] == s;
      UsableInOrder(svrs, i);
    }
  }

  datatype Event = Failed | Nodes(svrs: seq<Option<ServerInfo>>)

  // What an event makes of the list: an event that brings servers, none of them usable, changes nothing.
  function ListAfter(list: seq<ServerInfo>, e: Event): seq<ServerInfo> {
    match e
    case Failed => list
    case Nodes(svrs) =>
      if svrs == [] then []
      else if UsableOf(svrs) == [] then list
      else UsableOf(svrs)
  }

  // updateServer. `spares` is what the run-time system adds whenever an append has to move.
  method UpdateServer(rotor: Rotor<ServerInfo>, svrs: seq<Option<ServerInfo>>, spares: nat -> nat)
    requires rotor.Valid()
    modifies rotor, rotor.arrays
    ensures rotor.Valid() && fresh(rotor.arrays - old(rotor.arrays)) && old(rotor.arrays) <= rotor.arrays
    ensures rotor.List() == if UsableOf(svrs) == [] then old(rotor.List()) else UsableOf(svrs)
    ensures rotor.issued == old(rotor.issued) && rotor.next == old(rotor.next)
  {
    var none := new ServerInfo[0];
    var servers := Slice(none, 0, 0, 0);
    for i := 0 to |svrs|
      invariant servers.Valid() && fresh(servers.data)
      invariant servers.Read() == UsableOf(svrs[..i])
      invariant unchanged(rotor) && forall a <- rotor.arrays :: unchanged(a)
    {
      assert svrs[..i + 1][..i] == svrs[..i];
      if svrs[i].None? {
        continue;
      }
      var server := svrs[i].value;
      if server.scheme != "https" {
        server := server.(scheme := "http");
      }
      if server.port == 0 {
        continue;
      }
      if server.registerIp == "" {
        continue;
      }
      servers := Append(servers, [server], spares(i));
    }
    assert svrs[..|svrs|] == svrs;
    if servers.len != 0 {
      rotor.Replace(servers);
    }
  }

  // One turn of the loop in `run`.
  method HandleEvent(rotor: Rotor<ServerInfo>, e: Event, spares: nat -> nat)
    requires rotor.Valid()
    modifies rotor, rotor.arrays
    ensures rotor.Valid() && fresh(rotor.arrays - old(rotor.arrays)) && old(rotor.arrays) <= rotor.arrays
    ensures rotor.List() == ListAfter(old(rotor.List()), e)
    ensures rotor.issued == old(rotor.issued) && rotor.next == old(rotor.next)
    ensures
      match e
      case Failed => rotor.List() == old(rotor.List())
      case Nodes(svrs) =>
        && (svrs == [] ==> rotor.List() == [])
        && (svrs != [] && (forall s <- svrs :: s.None? || s.value.port == 0 || s.value.registerIp == "") ==>
              rotor.List() == old(rotor.List()))
        && ((exists s <- svrs :: s.Some? && s.value.port != 0 && s.value.registerIp != "") ==>
              rotor.List() == UsableOf(svrs))
  {
    match e {
      case Failed =>
      case Nodes(svrs) =>
        if |svrs| <= 0 {
          var none := new ServerInfo[0];
          rotor.Replace(Slice(none, 0, 0, 0));
          return;
        }
        UpdateServer(rotor, svrs, spares);
        NoneUsable(svrs);
    }
  }

  function Addresses(list: seq<ServerInfo>): seq<string> {
    seq(|list|, i requires 0 <= i < |list| => list[i].RegisterAddress())
  }

  lemma TurnedAddresses(list: seq<ServerInfo>, k: nat)
    requires k < |list|
    ensures Addresses(Turned(list, k)) == Turned(Addresses(list), k)
  {
    var turned := Turned(Addresses(list), k);
    assert forall i | 0 <= i < |list| :: turned[i] == Turned(list, k)[i].RegisterAddress();
  }

  // The addresses of the list, once around: from entry `next` on, or from the last one when the cursor has
  // come to it or lies beyond.
  predicate AddressesFrom(list: seq<ServerInfo>, next: nat, addresses: seq<string>) {
    var n := |list|;
    var first := if next < n - 1 then next else n - 1;
    && |addresses| == n
    && forall i | 0 <= i < n ::
         var info := list[if i < n - first then first + i else first + i - n];
         addresses[i] == info.scheme + "://" + info.registerIp + ":" + FormatInt(info.port)
  }

  lemma TurnedIsFrom(list: seq<ServerInfo>, next: nat)
    requires list != []
    ensures AddressesFrom(list, next, Turned(Addresses(list), Lead(next, |list|)))
  {
    var k := Lead(next, |list|);
    forall i | 0 <= i < |list|
      ensures Turned(Addresses(list), k)[i] == list[if i < |list| - k then k + i else k + i - |list|].RegisterAddress()
    {
      TurnedAt(Addresses(list), k, i);
    }
  }

  lemma TurnedAt<T>(list: seq<T>, k: nat, i: nat)
    requires k < |list| && i < |list|
    ensures Turned(list, k)[i] == list[if i < |list| - k then k + i else k + i - |list|]
  {
  }

  method GetServers(rotor: Rotor<ServerInfo>, spare: nat) returns (r: Result<seq<string>>)
    requires rotor.Valid()
    modifies rotor, rotor.arrays
    ensures rotor.Valid() && rotor.List() == old(rotor.List())
    ensures fresh(rotor.arrays - old(rotor.arrays)) && old(rotor.arrays) <= rotor.arrays
    ensures r.Err? <==> rotor.List() == []
    ensures r.Err? ==> rotor.next == old(rotor.next) && rotor.issued == old(rotor.issued)
    ensures r.Ok? ==>
      && r.value == Turned(Addresses(rotor.List()), Lead(old(rotor.next), |rotor.List()|))
      && rotor.next == Moved(old(rotor.next), |rotor.List()|)
      && |rotor.issued| == |old(rotor.issued)| + 1 && old(rotor.issued) <= rotor.issued
    ensures r.Ok? ==> AddressesFrom(rotor.List(), old(rotor.next), r.value)
  {
    if rotor.live.len == 0 {
      return Err;
    }
    var infos := rotor.Rotate(spare);
    var servers: seq<string> := [];
    for i := 0 to infos.len
      invariant servers == Addresses(infos.Read()[..i])
    {
      servers := servers + [infos.Read()[i].RegisterAddress()];
    }
    assert infos.Read()[..infos.len] == infos.Read();
    TurnedAddresses(rotor.List(), Lead(old(rotor.next), |rotor.List()|));
    TurnedIsFrom(rotor.List(), old(rotor.next));
    return Ok(servers);
  }

  /******* Every server is in every answer *******/

  lemma TurnedKeepsAll<T>(list: seq<T>, k: nat)
    requires k < |list|
    ensures |Turned(list, k)| == |list| && Turned(list, k)[0] == list[k]
    ensures multiset(Turned(list, k)) == multiset(list)
  {
    assert list == list[..k] + list[k..];
  }

  /******* Fairness *******/

  // The cursor after `m` calls on a list of `n`, and who leads the answer to the next one.
  function Cursor(start: nat, n: nat, m: nat): nat
    requires n > 0
  {
    if m == 0 then start else Moved(Cursor(start, n, m - 1), n)
  }

  function Leader(start: nat, n: nat, m: nat): (k: nat)
    requires n > 0
    ensures k < n
  {
    Lead(Cursor(start, n, m), n)
  }

  // How many of the first `m` calls server `v` leads.
  function Led(start: nat, n: nat, v: nat, m: nat): nat
    requires n > 0
  {
    if m == 0 then 0 else Led(start, n, v, m - 1) + (if Leader(start, n, m - 1) == v then 1 else 0)
  }

  function Wrap(i: nat, n: nat): nat
    requires n > 0
  {
    if i < n then i else i - n
  }

  // Whatever the cursor was, the lead moves on by one entry and from the last to the first.
  lemma {:induction false} LeadMoves(start: nat, n: nat, m: nat, d: nat)
    requires n > 0 && d <= n
    ensures Leader(start, n, m + d) == Wrap(Leader(start, n, m) + d, n)
  {
    if d > 0 {
      LeadMoves(start, n, m, d - 1);
    }
  }

  // `n` calls in a row have `n` leaders.
  lemma LeadersDiffer(start: nat, n: nat, i: nat, j: nat)
    requires n > 0 && i < j < i + n
    ensures Leader(start, n, i) != Leader(start, n, j)
  {
    LeadMoves(start, n, i, j - i);
  }

  // Full rounds within the first `m` calls, and the calls after them.
  function Round(n: nat, m: nat): (nat, nat)
    requires n > 0
  {
    if m == 0 then (0, 0)
    else
      var (q, r) := Round(n, m - 1);
      if r + 1 < n then (q, r + 1) else (q + 1, 0)
  }

  lemma {:induction false} RoundDivides(n: nat, m: nat)
    requires n > 0
    ensures Round(n, m).0 * n + Round(n, m).1 == m && Round(n, m).1 < n
  {
    if m > 0 {
      RoundDivides(n, m - 1);
      TimesMore(Round(n, m - 1).0, n);
    }
  }

  // One lead for each full round, and one more for the servers that the last calls have reached.
  lemma {:induction false} LedInRounds(start: nat, n: nat, v: nat, m: nat)
    requires v < n
    ensures
      var first, (q, r) := Leader(start, n, 0), Round(n, m);
      && r < n && Leader(start, n, m) == Wrap(first + r, n)
      && Led(start, n, v, m) == q + (if first <= v < first + r || first <= v + n < first + r then 1 else 0)
  {
    if m > 0 {
      LedInRounds(start, n, v, m - 1);
      LeadMoves(start, n, m - 1, 1);
    }
  }

  lemma DivisionIsUnique(m: nat, q: nat, r: nat, n: nat)
    requires n > 0 && m == q * n + r && r < n
    ensures q == m / n && r == m % n
  {
    var q' := m / n;
    assert m == q' * n + m % n;
    if q > q' {
      TimesMonotone(q' + 1, q, n);
      TimesMore(q', n);
    } else if q < q' {
      TimesMonotone(q + 1, q', n);
      TimesMore(q, n);
    }
  }

  // Over any number of calls on a list that stays the same, every server leads its share, rounded down or
  // up.
  lemma FairShare(start: nat, n: nat, v: nat, m: nat)
    requires v < n
    ensures Led(start, n, v, m) == m / n || (m % n != 0 && Led(start, n, v, m) == m / n + 1)
  {
    var (q, r) := Round(n, m);
    RoundDivides(n, m);
    LedInRounds(start, n, v, m);
    DivisionIsUnique(m, q, r, n);
  }

  /******* The gateway's use of an address *******/

  // URLFilterChan, on the first server: scheme and host of the rewritten request.
  function Target(address: string): (string, string)
    requires |address| >= 7
  {
    if |address| >= 8 && address[..8] == "https://" then ("https", address[8..]) else ("http", address[7..])
  }

  // The scheme and the host survive for every server that a list can hold.
  lemma TargetIsServer(info: ServerInfo)
    requires info == info.Cleaned()
    ensures
      var address := info.RegisterAddress();
      |address| >= 7 && Target(address) == (info.scheme, info.registerIp + ":" + FormatInt(info.port))
  {
    var host := info.registerIp + ":" + FormatInt(info.port);
    var address := info.RegisterAddress();
    assert address == info.scheme + "://" + host;
    if info.scheme == "https" {
      assert address == "https://" + host;
    } else {
      assert info.scheme == "http" && address == "http://" + host;
      assert |address| >= 8 && address[..8][4] == ':' && "https://"[4] == 's';
    }
  }

  lemma {:induction false} ListsAreClean(svrs: seq<Option<ServerInfo>>)
    ensures forall info <- UsableOf(svrs) :: info == info.Cleaned() && info.Usable()
  {
    if svrs != [] {
      ListsAreClean(svrs[..|svrs| - 1]);
    }
  }
}
