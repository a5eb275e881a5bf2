/** Result types shared by the modules of this project. */
module Common {

  datatype Option<+T> = None | Some(value: T)

  // A Go call that returns a value or an error. The text of an error is never modelled.
  datatype Result<+T> = Ok(value: T) | Err

  // Two facts about products that the solver is not left to find.

  lemma TimesMore(a: int, n: int)
    ensures (a + 1) * n == a * n + n
  {
  }

  lemma TimesMonotone(a: int, b: int, n: int)
    requires n >= 0
    ensures a <= b ==> a * n <= b * n
  {
  }

  lemma {:induction false} SubsetSize(a: set<nat>, b: set<nat>)
    requires a <= b
    ensures |a| <= |b|
  {
    if a != {} {
      var x :| x in a;
      SubsetSize(a - {x}, b - {x});
    }
  }
}
