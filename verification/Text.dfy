/** The string functions of Go's standard library that the modelled code relies on. */
module Text {
  import opened Common

  ghost predicate Free(s: string, c: char) {
    c !in s
  }

  /******* strings.Split, strings.Join and strings.Trim for a one-character separator *******/

  function Split(s: string, c: char): (r: seq<string>)
    ensures |r| >= 1
  {
    if s == "" then [""]
    else
      var rest := Split(s[1..], c);
      if s[0] == c then [""] + rest else [[s[0]] + rest[0]] + rest[1..]
  }

  function Join(parts: seq<string>, c: char): string {
    if |parts| == 0 then ""
    else if |parts| == 1 then parts[0]
    else parts[0] + [c] + Join(parts[1..], c)
  }

  function TrimLeft(s: string, c: char): string {
    if s != "" && s[0] == c then TrimLeft(s[1..], c) else s
  }

  function TrimRight(s: string, c: char): string {
    if s != "" && s[|s| - 1] == c then TrimRight(s[..|s| - 1], c) else s
  }

  function Trim(s: string, c: char): string {
    TrimRight(TrimLeft(s, c), c)
  }

  // A string without the separator is one piece.
  lemma {:induction false} SplitFree(s: string, c: char)
    requires Free(s, c)
    ensures Split(s, c) == [s]
  {
    if s != "" {
      SplitFree(s[1..], c);
      assert s == [s[0]] + s[1..];
    }
  }

  // Splitting goes through a separator.
  lemma {:induction false} SplitAt(a: string, c: char, b: string)
    ensures Split(a + [c] + b, c) == Split(a, c) + Split(b, c)
  {
    var whole := a + [c] + b;
    if a == "" {
      assert whole[1..] == b;
    } else {
      SplitAt(a[1..], c, b);
      assert whole[0] == a[0] && whole[1..] == a[1..] + [c] + b;
      SplitHead(a, c, Split(b, c));
    }
  }

  lemma SplitHead(a: string, c: char, more: seq<string>)
    requires a != ""
    ensures
      var rest := Split(a[1..], c) + more;
      Split(a, c) + more == if a[0] == c then [""] + rest else [[a[0]] + rest[0]] + rest[1..]
  {
    var tail := Split(a[1..], c);
    assert (tail + more)[1..] == tail[1..] + more;
  }

  // Pieces free of the separator come back as they were joined.
  lemma {:induction false} SplitJoin(parts: seq<string>, c: char)
    requires parts != [] && forall p <- parts :: Free(p, c)
    ensures Split(Join(parts, c), c) == parts
  {
    SplitFree(parts[0], c);
    if |parts| > 1 {
      SplitJoin(parts[1..], c);
      SplitAt(parts[0], c, Join(parts[1..], c));
      assert parts == [parts[0]] + parts[1..];
    }
  }

  // Conversely every string is the join of its pieces, and no piece holds the separator.
  lemma {:induction false} JoinSplit(s: string, c: char)
    ensures Join(Split(s, c), c) == s
    ensures forall p <- Split(s, c) :: Free(p, c)
  {
    if s != "" {
      JoinSplit(s[1..], c);
      var rest, r := Split(s[1..], c), Split(s, c);
      if s[0] == c {
        assert r[1..] == rest;
        assert s == "" + [c] + s[1..];
      } else {
        assert r[1..] == rest[1..];
        assert s == [s[0]] + s[1..];
        assert rest[0] in rest && Free(r[0], c);
        if |rest| > 1 {
          JoinHead([s[0]], rest, c);
        }
      }
    }
  }

  lemma JoinHead(a: string, rest: seq<string>, c: char)
    requires |rest| > 1
    ensures Join([a + rest[0]] + rest[1..], c) == a + Join(rest, c)
  {
    var parts := [a + rest[0]] + rest[1..];
    assert parts[1..] == rest[1..];
    assert a + (rest[0] + [c] + Join(rest[1..], c)) == (a + rest[0]) + [c] + Join(rest[1..], c);
  }

  lemma TrimPadded(s: string, c: char)
    requires s != "" && s[0] != c && s[|s| - 1] != c
    ensures Trim([c] + s + [c], c) == s
  {
    var padded := [c] + s + [c];
    assert padded[1..] == s + [c];
    assert TrimLeft(padded, c) == TrimLeft(s + [c], c) == s + [c];
    assert (s + [c])[..|s + [c]| - 1] == s;
    assert TrimRight(s + [c], c) == TrimRight(s, c) == s;
  }

  lemma {:induction false} TrimLeftStart(s: string, c: char)
    ensures TrimLeft(s, c) == "" || TrimLeft(s, c)[0] != c
    ensures |TrimLeft(s, c)| <= |s| && s[|s| - |TrimLeft(s, c)|..] == TrimLeft(s, c)
    ensures forall i | 0 <= i < |s| - |TrimLeft(s, c)| :: s[i] == c
  {
    if s != "" && s[0] == c {
      TrimLeftStart(s[1..], c);
    }
  }

  lemma {:induction false} TrimRightEnd(s: string, c: char)
    ensures TrimRight(s, c) == "" || TrimRight(s, c)[|TrimRight(s, c)| - 1] != c
    ensures TrimRight(s, c) <= s && forall i | |TrimRight(s, c)| <= i < |s| :: s[i] == c
  {
    if s != "" && s[|s| - 1] == c {
      TrimRightEnd(s[..|s| - 1], c);
    }
  }

  // What is trimmed are runs of `c` at both ends, and all of them.
  lemma TrimTakesRuns(s: string, c: char)
    ensures
      var left := TrimLeft(s, c);
      var from, to := |s| - |left|, |s| - |left| + |Trim(s, c)|;
      && 0 <= from <= to <= |s| && Trim(s, c) == s[from..to]
      && (forall i | 0 <= i < from || to <= i < |s| :: s[i] == c)
      && (from < to ==> s[from] != c && s[to - 1] != c)
  {
    var left := TrimLeft(s, c);
    var from := |s| - |left|;
    TrimLeftStart(s, c);
    assert left == s[from..];
    TrimRightEnd(left, c);
    forall i | from <= i < |s|
      ensures s[i] == left[i - from]
    {
    }
  }

  /******* strconv.FormatInt and strconv.ParseInt in base 10 *******/

  const MIN_INT64: int := -0x8000_0000_0000_0000
  const MAX_INT64: int := 0x7fff_ffff_ffff_ffff

  predicate IsInt64(n: int) {
    MIN_INT64 <= n <= MAX_INT64
  }

  predicate IsDigit(c: char) {
    '0' <= c <= '9'
  }

  predicate AllDigits(s: string) {
    forall c <- s :: IsDigit(c)
  }

  function DigitChar(d: nat): char
    requires d < 10
  {
    '0' + d as char
  }

  function Digits(n: nat): string {
    if n < 10 then [DigitChar(n)] else Digits(n / 10) + [DigitChar(n % 10)]
  }

  function FormatInt(n: int): string {
    if n < 0 then "-" + Digits(-n) else Digits(n)
  }

  function DigitValue(c: char): nat
    requires IsDigit(c)
  {
    c as int - '0' as int
  }

  // The value of a digit string, most significant digit first.
  function Value(s: string): nat
    requires AllDigits(s)
  {
    if s == "" then 0 else 10 * Value(s[..|s| - 1]) + DigitValue(s[|s| - 1])
  }

  function ParseInt(s: string): Option<int> {
    var negative := s != "" && s[0] == '-';
    var digits := if s != "" && (s[0] == '-' || s[0] == '+') then s[1..] else s;
    if digits == "" || !AllDigits(digits) then None
    else
      var n: int := if negative then -(Value(digits) as int) else Value(digits);
      if IsInt64(n) then Some(n) else None
  }

  lemma {:induction false} DigitsValue(n: nat)
    ensures Digits(n) != "" && AllDigits(Digits(n)) && Value(Digits(n)) == n
  {
    if n < 10 {
      assert [DigitChar(n)][..0] == "";
    } else {
      DigitsValue(n / 10);
      var s := Digits(n);
      assert s[..|s| - 1] == Digits(n / 10);
    }
  }

  // Printing and parsing an int64 gives it back.
  lemma ParseFormat(n: int)
    requires IsInt64(n)
    ensures ParseInt(FormatInt(n)) == Some(n)
  {
    if n < 0 {
      DigitsValue(-n);
      assert FormatInt(n)[1..] == Digits(-n);
    } else {
      DigitsValue(n);
      assert IsDigit(Digits(n)[0]);
    }
  }

  // A printed number is made of digits and a minus sign.
  lemma FormatShape(n: int)
    ensures FormatInt(n) != ""
    ensures forall c <- FormatInt(n) :: IsDigit(c) || c == '-'
  {
    DigitsValue(if n < 0 then -n else n);
  }
}
