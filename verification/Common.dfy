/** Types every module shares. */
module Common {

  datatype Option<+T> = None | Some(value: T) {
    function GetOr(default: T): T {
      match this
      case Some(v) => v
      case None => default
    }
  }

  /** How a call that may raise ends. */
  datatype Result<+T, +E> = Ok(value: T) | Raised(error: E)

  /** A call that leaves this process may fail. */
  method MayFail() returns (fails: bool)
  {
    fails := *;
  }

  /** A loop over `all` that has nothing left has done everything. */
  lemma NothingLeft<T>(all: set<T>, done: set<T>)
    requires done <= all && all - done == {}
    ensures done == all
  {
    assert all == done + (all - done);
  }
}
