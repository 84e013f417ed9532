/** The two wrapper types shared by the other modules. */
module Prelude {

  datatype Option<+T> = None | Some(value: T)

  /** What awaiting a callback gives the caller: a value, or an exception.  The flag tells a
      cancellation (`asyncio.CancelledError`) from any other exception. */
  datatype Reply<+T> = Value(value: T) | Raised(cancelled: bool)

  /** A set that is not empty has a member. */
  lemma Inhabited<T>(s: set<T>) returns (x: T)
    requires s != {}
    ensures x in s
  {
    if forall y :: y !in s {
      assert false;
    }
    x :| x in s;
  }
}
