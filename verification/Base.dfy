/** Shared failure-compatible datatypes. */
module Base {

  datatype Option<+T> = None | Some(value: T)

  datatype Result<+T, +E> = Ok(value: T) | Err(error: E)

  const U64_MAX: nat := 0xFFFF_FFFF_FFFF_FFFF

  /** `a.saturating_sub(b)` on unsigned integers. */
  function Monus(a: nat, b: nat): nat {
    if a < b then 0 else a - b
  }

  /** Some member of a set, in no particular order. */
  method Pick<T(==)>(s: set<T>) returns (x: T)
    requires s != {}
    ensures x in s
  {
    x :| x in s;
  }
}
