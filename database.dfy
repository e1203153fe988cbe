/**
 * The database the services share. `Tables` is a snapshot of every table as a
 * value; `Session` holds the same tables as fields that the repositories update
 * in place. One counter hands out primary keys for every table and another
 * stands for the clock that stamps `created_at` and `purchased_at`.
 */
module Database {
  import opened Entities
  import opened Errors

  datatype Tables = Tables(
    users: seq<User>,
    products: map<int, Product>,
    cart: seq<CartItem>,
    purchases: seq<Purchase>,
    nextId: int,
    clock: nat)

  /** A fresh, empty database. */
  function Empty(): Tables {
    Tables([], map[], [], [], 1, 0)
  }

  /** The state after a service call: the call's new state, or the old one if it raised. */
  function After<T>(before: Tables, outcome: Result<(Tables, T)>): Tables {
    match outcome
    case Ok((t, _)) => t
    case Err(_) => before
  }

  /** What the service call returns to its caller: its value, or the error it raised. */
  function Returned<T>(outcome: Result<(Tables, T)>): Result<T> {
    match outcome
    case Ok((_, v)) => Ok(v)
    case Err(e) => Err(e)
  }

  class Session {
    var users: seq<User>
    var products: map<int, Product>
    var cart: seq<CartItem>
    var purchases: seq<Purchase>
    var nextId: int
    var clock: nat

    constructor ()
      ensures Snapshot() == Empty()
    {
      users, products, cart, purchases := [], map[], [], [];
      nextId, clock := 1, 0;
    }

    /** The tables as they stand now. */
    function Snapshot(): Tables
      reads this
    {
      Tables(users, products, cart, purchases, nextId, clock)
    }
  }
}
