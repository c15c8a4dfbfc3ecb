/** Types and facts that every part of the model shares. */
module Basics {
  /** A record id; 0 names no record. */
  type Recid = nat

  datatype Option<+T> = None | Some(value: T)

  datatype Result<+T> = Ok(value: T) | Err

  /** There is always a recid that is not in use. */
  lemma {:induction false} UpperBound(rs: set<Recid>) returns (m: nat)
    ensures forall r :: r in rs ==> r < m
    decreases |rs|
  {
    if rs == {} {
      m := 0;
    } else {
      var r :| r in rs;
      var rest := UpperBound(rs - {r});
      m := if r < rest then rest else r + 1;
      forall q | q in rs ensures q < m {
        assert q == r || q in rs - {r};
      }
    }
  }
}
