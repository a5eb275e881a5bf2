/**
 Round-robin service discovery: `GetServers` and the update of the server list
 (src/apimachinery/discovery/server.go:37-185). `iamDiscovery.GetServers` (src/ac/iam/types.go:415-440)
 is `Rotor.Rotate` over a list of strings that never changes.
 */
module Discovery {
  import opened Common
  import opened Slices

  /******* The rotation *******/

  // The list turned so that entry `k` comes first.
  function Turned<T>(list: seq<T>, k: nat): seq<T>
    requires k < |list|
  {
    list[k..] + list[..k]
  }

  // Which entry comes first for a given cursor, and the cursor after the call.
  function Lead(next: nat, n: nat): nat
    requires n > 0
  {
    if next < n - 1 then next else n - 1
  }

  function Moved(next: nat, n: nat): nat
    requires n > 0
  {
    if next < n - 1 then next + 1 else 0
  }

  // A rotation handed out, and what it held then.
  datatype Issue<T> = Issue(slice: Slice<T>, contents: seq<T>)

  class Rotor<T(0)> {
    var live: Slice<T>
    var next: nat
    ghost var issued: seq<Issue<T>>
    ghost var arrays: set<array<T>>

    // The current list and every rotation handed out so far read as they should. A rotation that shares
    // the array of the list is the list from entry `k` on and, behind it, the first `k` entries again.
    ghost predicate Valid()
      reads this, arrays
    {
      && live.Valid() && live.data in arrays
      && forall i | 0 <= i < |issued| :: Intact(issued[i])
    }

    ghost predicate Intact(it: Issue<T>)
      requires live.Valid() && live.data in arrays
      reads this, arrays
    {
      && it.slice.data in arrays && it.slice.Valid() && it.slice.Read() == it.contents
      && (it.slice.data == live.data ==> Shares(it.slice))
    }

    ghost predicate Shares(s: Slice<T>)
      requires live.Valid() && s.data == live.data && s.Valid()
      reads this, live.data
    {
      var n := live.len;
      && live.off <= s.off < live.off + n && s.len == n
      && forall i | live.off + n <= i < s.off + n :: live.data[i] == live.data[i - n]
    }

    function List(): seq<T>
      requires live.Valid()
      reads this, live.data
    {
      live.Read()
    }

    constructor (list: seq<T>, spare: nat)
      ensures Valid() && List() == list && next == 0 && issued == []
      ensures fresh(arrays)
    {
      var data := new T[|list| + spare];
      live := Slice(data, 0, |list|, |list| + spare);
      next, issued, arrays := 0, [], {data};
      new;
      for k := 0 to |list|
        invariant live == Slice(data, 0, |list|, |list| + spare) && data.Length == |list| + spare
        invariant fresh(data) && arrays == {data} && next == 0 && issued == []
        invariant data[..k] == list[..k]
      {
        data[k] := list[k];
      }
    }

    // What an append of the first `k` entries can do to the arrays there were.
    twostate predicate WroteBehind(k: nat)
      requires old(live.Valid())
      reads this, arrays
    {
      var n := live.len;
      && live == old(live) && live.data in old(arrays) && old(arrays) <= arrays
      && (forall a <- old(arrays) :: a != live.data ==> unchanged(a))
      && forall i | 0 <= i < live.data.Length ::
           || live.data[i] == old(live.data[i])
           || (live.off + n <= i < live.off + n + k && live.data[i] == old(live.data[i - n]))
    }

    twostate lemma AllStays(k: nat)
      requires old(Valid()) && WroteBehind(k) && k <= live.len && issued == old(issued)
      ensures Valid() && List() == old(List())
    {
      forall it | it in issued
        ensures Intact(it)
      {
        var s := it.slice;
        assert old(Intact(it));
        assert forall i | s.off <= i < s.off + s.len :: s.data[i] == old(s.data[i]);
        assert s.Read() == old(s.Read());
      }
    }

    // append(servers[k:], servers[:k]...)
    method Turn(k: nat, spare: nat) returns (infos: Slice<T>)
      requires live.Valid() && k < live.len
      modifies live.data
      ensures infos.Valid() && infos.Read() == Turned(old(List()), k)
      ensures fresh(infos.data) || (infos.data == live.data && Shares(infos))
      ensures forall i | 0 <= i < live.data.Length ::
        || live.data[i] == old(live.data[i])
        || (live.off + live.len <= i < live.off + live.len + k && live.data[i] == old(live.data[i - live.len]))
    {
      var front, rest := live.From(k), live.Upto(k).Read();
      ReadSplits(live, k);
      infos := Append(front, rest, spare);
    }

    method MoveCursor() returns (k: nat)
      requires live.len > 0
      modifies `next
      ensures k == Lead(old(next), live.len) && next == Moved(old(next), live.len)
    {
      var num := live.len;
      if next < num - 1 {
        next := next + 1;
        k := next - 1;
      } else {
        next := 0;
        k := num - 1;
      }
    }

    method TakeTurn(k: nat, spare: nat) returns (infos: Slice<T>)
      requires Valid() && k < live.len
      modifies `arrays, `issued, arrays
      ensures Valid() && fresh(arrays - old(arrays)) && old(arrays) <= arrays
      ensures List() == old(List())
      ensures infos.data in arrays && infos.Valid() && infos.Read() == Turned(List(), k)
      ensures issued == old(issued) + [Issue(infos, infos.Read())]
    {
      infos := Turn(k, spare);
      arrays := arrays + {infos.data};
      assert WroteBehind(k);
      AllStays(k);
      Record(infos);
    }

    // `append` may write behind the list, over slots that rotations handed out earlier still use. It never
    // changes the list, nor any of them.
    method Rotate(spare: nat) returns (infos: Slice<T>)
      requires Valid() && live.len > 0
      modifies this, arrays
      ensures Valid() && fresh(arrays - old(arrays)) && old(arrays) <= arrays
      ensures live == old(live) && List() == old(List())
      ensures infos.data in arrays && infos.Valid() && infos.Read() == Turned(List(), Lead(old(next), |List()|))
      ensures next == Moved(old(next), |List()|)
      ensures issued == old(issued) + [Issue(infos, infos.Read())]
      ensures
        var n := live.len;
        var first := if old(next) < n - 1 then old(next) else n - 1;
        && next == (if old(next) < n - 1 then old(next) + 1 else 0)
        && infos.len == n
        && forall i | 0 <= i < n :: infos.Read()[i] == old(List())[if i < n - first then first + i else first + i - n]
    {
      var k := MoveCursor();
      infos := TakeTurn(k, spare);
    }

    // A new list in an array of its own. The cursor stays where it is.
    method Replace(servers: Slice<T>)
      requires Valid() && servers.Valid() && servers.data !in arrays
      modifies `live, `arrays
      ensures Valid() && List() == servers.Read()
      ensures arrays == old(arrays) + {servers.data}
    {
      live := servers;
      arrays := arrays + {servers.data};
    }

    ghost method Record(infos: Slice<T>)
      requires Valid() && infos.data in arrays && infos.Valid() && (infos.data == live.data ==> Shares(infos))
      modifies `issued
      ensures Valid() && issued == old(issued) + [Issue(infos, infos.Read())]
    {
      issued := issued + [Issue(infos, infos.Read())];
    }
  }
}
