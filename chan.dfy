/** A Go channel as the sequence of values sent on it and the number of
    times it has been closed. Sending on a closed channel and closing it
    twice panic in Go, so both require an open channel. */
module Chan {
  class Channel<T> {
    var sent: seq<T>
    var closes: nat

    constructor ()
      ensures sent == [] && closes == 0
    {
      sent := [];
      closes := 0;
    }

    method Send(x: T)
      requires closes == 0
      modifies this
      ensures sent == old(sent) + [x] && closes == 0
    {
      sent := sent + [x];
    }

    method Close()
      requires closes == 0
      modifies this
      ensures sent == old(sent) && closes == 1
    {
      closes := 1;
    }
  }
}
