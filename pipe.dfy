/** `Pipe`, the queue between two stages. */
module Pipes {
  import opened Particles

  datatype Option<T> = None | Some(value: T)

  /** The contents of a queue after `push(p)`, given its contents and close
      flag before: a closed queue refuses the record. */
  function Pushed(items: seq<Particle>, closed: bool, p: Particle): (r: seq<Particle>)
    ensures |items| <= |r| <= |items| + 1 && r[..|items|] == items
    ensures closed <==> |r| == |items|
    ensures !closed ==> r[|items|] == p
  {
    if closed then items else items + [p]
  }

  /** An unbounded FIFO of records with a close flag. The source guards
      `pop` with a mutex so that each call removes at most one record; here
      every call is one atomic step. */
  class Pipe {
    var items: seq<Particle>
    var closed: bool

    /** `Pipe::new`: an open, empty queue. */
    constructor ()
      ensures items == [] && !closed
    {
      items := [];
      closed := false;
    }

    /** `is_empty`. */
    method IsEmpty() returns (b: bool)
      ensures b <==> items == []
    {
      b := |items| == 0;
    }

    /** `push`: appends at the tail. On a closed queue the insertion fails
        and the source discards the error, so nothing changes. */
    method Push(p: Particle)
      modifies this
      ensures closed == old(closed)
      ensures items == if old(closed) then old(items) else old(items) + [p]
    {
      if !closed {
        items := items + [p];
      }
    }

    /** `pop`: `None` on an empty queue (nothing changes), otherwise the
        oldest record, which is removed. Buffered records stay poppable after
        `close`. */
    method Pop() returns (r: Option<Particle>)
      modifies this
      ensures closed == old(closed)
      ensures old(items) == [] ==> r == None && items == old(items)
      ensures old(items) != [] ==> r == Some(old(items)[0]) && items == old(items)[1..]
    {
      var empty := IsEmpty();
      if empty {
        return None;
      }
      r := Some(items[0]);
      items := items[1..];
    }

    /** `close`: marks the queue closed and keeps its contents; closing
        twice changes nothing more. */
    method Close()
      modifies this
      ensures closed && items == old(items)
    {
      closed := true;
    }
  }
}
