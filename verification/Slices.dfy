/** Go slices: windows onto a shared array, and `append`, which writes in place while there is room. */
module Slices {

  datatype Slice<T> = Slice(data: array<T>, off: nat, len: nat, room: nat) {
    // `room` is cap().
    ghost predicate Valid() {
      len <= room && off + room <= data.Length
    }

    function Read(): seq<T>
      requires Valid()
      reads data
    {
      data[off..off + len]
    }

    // s[i:]
    function From(i: nat): (r: Slice<T>)
      requires Valid() && i <= len
      ensures r.Valid()
    {
      Slice(data, off + i, len - i, room - i)
    }

    // s[:i]
    function Upto(i: nat): (r: Slice<T>)
      requires Valid() && i <= len
      ensures r.Valid()
    {
      Slice(data, off, i, room)
    }
  }

  lemma ReadSplits<T>(s: Slice<T>, i: nat)
    requires s.Valid() && i <= s.len
    ensures s.From(i).Read() == s.Read()[i..] && s.Upto(i).Read() == s.Read()[..i]
    ensures forall j | 0 <= j < i :: s.Upto(i).Read()[j] == s.data[s.off + j]
  {
  }

  // append(s, xs...). How much room a new array gets beyond what is needed is up to the run-time system.
  method Append<T(0)>(s: Slice<T>, xs: seq<T>, spare: nat) returns (r: Slice<T>)
    requires s.Valid()
    modifies s.data
    ensures r.Valid() && r.Read() == old(s.Read()) + xs
    ensures
      if s.len + |xs| <= s.room then
        && r == Slice(s.data, s.off, s.len + |xs|, s.room)
        && (forall i | s.off + s.len <= i < s.off + s.len + |xs| :: s.data[i] == xs[i - (s.off + s.len)])
        && (forall i | 0 <= i < s.data.Length && !(s.off + s.len <= i < s.off + s.len + |xs|) :: s.data[i] == old(s.data[i]))
      else
        && fresh(r.data) && r.off == 0 && r.data.Length == r.room
        && forall i | 0 <= i < s.data.Length :: s.data[i] == old(s.data[i])
  {
    var start := s.off + s.len;
    if s.len + |xs| <= s.room {
      for k := 0 to |xs|
        invariant forall i | 0 <= i < s.data.Length ::
          s.data[i] == if 0 <= i - start < k then xs[i - start] else old(s.data[i])
      {
        s.data[start + k] := xs[k];
      }
      r := Slice(s.data, s.off, s.len + |xs|, s.room);
    } else {
      var data := new T[s.len + |xs| + spare];
      for k := 0 to s.len
        modifies data
        invariant forall i | 0 <= i < k :: data[i] == s.data[s.off + i]
      {
        data[k] := s.data[s.off + k];
      }
      for k := 0 to |xs|
        modifies data
        invariant forall i | 0 <= i < s.len :: data[i] == s.data[s.off + i]
        invariant forall i | 0 <= i < k :: data[s.len + i] == xs[i]
      {
        data[s.len + k] := xs[k];
      }
      r := Slice(data, 0, s.len + |xs|, data.Length);
    }
    assert forall i | 0 <= i < s.len :: r.Read()[i] == old(s.Read()[i]);
  }
}
