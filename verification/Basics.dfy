/** Types shared by every layer of the model. */
module Basics {
  newtype byte = x: int | 0 <= x < 256

  /** A TCP address; only its identity matters here. */
  type Addr = nat

  datatype Option<+T> = None | Some(value: T) {
    function GetOr(default: T): T { if Some? then value else default }
  }

  /** A stack or a log; the newest element is the head. */
  datatype List<T(==)> = Nil | Cons(head: T, tail: List<T>) {
    predicate Has(x: T) { Cons? && (head == x || tail.Has(x)) }

    function Size(): nat { if Nil? then 0 else 1 + tail.Size() }

    function Count(x: T): nat {
      if Nil? then 0 else tail.Count(x) + if head == x then 1 else 0
    }
  }
}
