/** The table of connected workers. Each method is one critical section of its mutex. */
module Registry {
  import opened GoText
  import opened DbSafety
  import opened Protocol

  class WorkerRegistry {
    var data: map<int, int>
    var nextID: int

    ghost function View(): Conns
      reads this
    {
      Conns(data, nextID)
    }

    constructor ()
      ensures View() == Conns(map[], 0)
    {
      data, nextID := map[], 0;
    }

    method NewID() returns (id: int)
      modifies this`nextID
      ensures id == nextID == old(nextID) + 1
    {
      nextID := nextID + 1;
      return nextID;
    }

    method Set(id: int, userId: int)
      modifies this`data
      ensures data == old(data)[id := userId]
    {
      data := data[id := userId];
    }

    method Get(id: int) returns (conn: Option<int>)
      ensures conn == if id in data then Some(data[id]) else None
    {
      return if id in data then Some(data[id]) else None;
    }

    method Delete(id: int)
      modifies this`data
      ensures data == old(data) - {id}
    {
      data := data - {id};
    }

    /** A snapshot of the registered ids, each once, in no particular order. */
    method IDs() returns (ids: seq<int>)
      ensures Distinct(ids) && forall id :: id in ids <==> id in data
    {
      ids := [];
      var left := data.Keys;
      while left != {}
        invariant left <= data.Keys && Distinct(ids)
        invariant forall id :: id in ids <==> id in data && id !in left
        decreases |left|
      {
        assert (forall id :: id !in left) ==> left == {};
        var next :| next in left;
        ids, left := ids + [next], left - {next};
      }
    }
  }
}
