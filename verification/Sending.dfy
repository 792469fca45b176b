/** What reaches the socket, whatever each write accepts. */
module Sending {
  import opened Base
  import opened ByteBuffers
  import opened HttpConnections

  /** The socket can be written to, or the idle timer has run out. */
  datatype Event = Write(head: Outcome, data: Outcome) | IdleTimeout

  /** The part of the file that is still to be sent and exists. */
  function FileLeft(c: Connection): Octets {
    if c.state.SendingFile? && c.offset + c.remaining <= |c.file|
    then c.file[c.offset..c.offset + c.remaining] else []
  }

  /** Everything the socket will have taken once the response is out. */
  function Total(c: Connection): Octets {
    c.wire + c.output + FileLeft(c)
  }

  /** A file response stays within the file. */
  predicate InFile(c: Connection) {
    c.state.SendingFile? ==> c.offset + c.remaining <= |c.file|
  }

  /** Bytes that the socket still has to accept. */
  function Owed(c: Connection): nat {
    |c.output| + if c.state.SendingFile? then c.remaining else 0
  }

  predicate CanHappen(c: Connection, e: Event) {
    e.Write? ==> Possible(c, e.head, e.data)
  }

  function Happen(c: Connection, e: Event): Connection
    requires CanHappen(c, e)
  {
    match e
    case Write(head, data) => OnWrite(c, head, data)
    case IdleTimeout => c.(state := Closed)
  }

  /** Events, as many as are needed; none has an effect once the response is out. */
  function Writes(c: Connection, events: seq<Event>): Connection
    decreases |events|
  {
    if events == [] || !c.Sending() || !CanHappen(c, events[0]) then c
    else Writes(Happen(c, events[0]), events[1..])
  }

  lemma SendBufferedKeeps(c: Connection, head: Outcome)
    requires Accepted(head) <= |c.output| && !head.Failed?
    ensures var d := SendBuffered(c, head);
            && Total(d) == Total(c) && Owed(d) == Owed(c) - Accepted(head) && c.wire <= d.wire
  {
    var n := Accepted(head);
    assert c.output == c.output[..n] + c.output[n..];
    assert (c.wire + c.output[..n]) + c.output[n..] == c.wire + c.output;
  }

  lemma FileSplits(wire: Octets, file: Octets, a: nat, b: nat, e: nat)
    requires a <= b <= e <= |file|
    ensures (wire + file[a..b]) + file[b..e] == wire + file[a..e]
  {
    assert file[a..e] == file[a..b] + file[b..e];
  }

  lemma NothingBuffered(c: Connection, end: nat)
    requires c.state.SendingFile? && c.output == [] && c.offset + c.remaining == end <= |c.file|
    ensures Total(c) == c.wire + c.file[c.offset..end]
  {
    assert c.wire + [] == c.wire;
  }

  /** n bytes of the file move from what is left to what is sent. */
  lemma MovedFromFile(c: Connection, d: Connection, n: nat)
    requires c.state.SendingFile? && c.output == [] && InFile(c) && n <= c.remaining
    requires d.state == c.state && d.output == [] && d.file == c.file
    requires d.wire == c.wire + c.file[c.offset..c.offset + n]
    requires d.offset == c.offset + n && d.remaining == c.remaining - n
    ensures InFile(d) && Total(d) == Total(c) && Owed(d) == Owed(c) - n && c.wire <= d.wire
  {
    var end := c.offset + c.remaining;
    FileSplits(c.wire, c.file, c.offset, c.offset + n, end);
    NothingBuffered(c, end);
    NothingBuffered(d, end);
  }

  lemma SendFromFileKeeps(c: Connection, data: Outcome)
    requires c.state.SendingFile? && c.output == [] && InFile(c)
    requires data.Done? ==> data.count <= c.remaining
    requires !data.Failed?
    ensures var d := SendFromFile(c, data);
            && InFile(d) && Total(d) == Total(c) && Owed(d) == Owed(c) - Accepted(data) && c.wire <= d.wire
  {
    if Accepted(data) > 0 {
      MovedFromFile(c, SendFromFile(c, data), data.count);
    }
  }

  /** One write event keeps the total, never takes back what was sent, and leaves
      the sending states without a failure only when nothing is owed. */
  lemma WriteKeepsTotal(c: Connection, head: Outcome, data: Outcome)
    requires c.Sending() && InFile(c) && Possible(c, head, data)
    requires !head.Failed? && !data.Failed?
    ensures var d := OnWrite(c, head, data);
            && c.wire <= d.wire
            && (d.Sending() ==> InFile(d) && Total(d) == Total(c) && Owed(d) <= Owed(c)
                                && d.state == c.state && d.file == c.file && d.parser == c.parser)
            && (!d.Sending() ==> d.wire == Total(c) && d.output == [])
  {
    if c.output != [] {
      SendBufferedKeeps(c, head);
      if c.state.SendingFile? {
        DataAfterHead(SendBuffered(c, head), data);
      }
    } else if c.state.SendingFile? {
      DataAfterHead(c, data);
    } else {
      assert c.wire + [] + [] == c.wire;
    }
  }

  /** The file half of a write event: what follows once the head is written. */
  lemma DataAfterHead(c: Connection, data: Outcome)
    requires c.state.SendingFile? && InFile(c) && !data.Failed?
    requires data.Done? ==> data.count <= c.remaining
    ensures c.output == [] && c.remaining > 0 ==>
              var d := SendFromFile(c, data);
              InFile(d) && Total(d) == Total(c) && Owed(d) <= Owed(c) && c.wire <= d.wire
    ensures c.output == [] && c.remaining == 0 ==> Total(c) == c.wire
  {
    if c.output == [] && c.remaining > 0 {
      SendFromFileKeeps(c, data);
    } else if c.output == [] {
      assert c.wire + [] + [] == c.wire;
    }
  }

  /** When the socket takes something the debt shrinks; with no debt left the
      next event ends the response. Hence a socket that keeps taking bytes sees
      the end of the response. */
  lemma WriteProgress(c: Connection, head: Outcome, data: Outcome)
    requires c.Sending() && InFile(c) && Possible(c, head, data)
    requires !head.Failed? && !data.Failed?
    requires c.output != [] ==> Accepted(head) > 0
    requires c.output == [] && c.state.SendingFile? && c.remaining > 0 ==> Accepted(data) > 0
    ensures var d := OnWrite(c, head, data); d.Sending() ==> Owed(d) < Owed(c)
    ensures Owed(c) == 0 ==> !OnWrite(c, head, data).Sending()
  {
    if c.output != [] {
      SendBufferedKeeps(c, head);
      var c1 := SendBuffered(c, head);
      if c.state.SendingFile? && c1.output == [] && c1.remaining > 0 {
        SendFromFileKeeps(c1, data);
      }
    } else if c.state.SendingFile? && c.remaining > 0 {
      SendFromFileKeeps(c, data);
    }
  }

  /** No write fails and the idle timer does not run out. */
  predicate NoFailure(events: seq<Event>) {
    forall i :: 0 <= i < |events| ==> events[i].Write? && !events[i].head.Failed? && !events[i].data.Failed?
  }

  function Passed(o: Outcome): Outcome {
    if o.Failed? then Done(0) else o
  }

  /** A failed write closes the connection, unless it is one that is not made. */
  lemma FailedWriteCloses(c: Connection, head: Outcome, data: Outcome)
    requires c.Sending() && InFile(c) && Possible(c, head, data)
    ensures var d := OnWrite(c, head, data);
            d == OnWrite(c, Passed(head), Passed(data)) || (d.state.Closed? && c.wire <= d.wire <= Total(c))
  {
    if c.output != [] && !head.Failed? {
      SendBufferedKeeps(c, head);
    }
  }

  /** Whatever happens, what is on the wire begins the total. */
  lemma EventKeepsBeginning(c: Connection, e: Event)
    requires c.Sending() && InFile(c) && CanHappen(c, e)
    ensures var d := Happen(c, e);
            && c.wire <= d.wire <= Total(c) && (d.Sending() ==> InFile(d) && Total(d) == Total(c))
  {
    if e.Write? {
      FailedWriteCloses(c, e.head, e.data);
      WriteKeepsTotal(c, Passed(e.head), Passed(e.data));
    }
  }

  /** For every sequence of events, what is on the wire is a beginning of the total. */
  lemma {:induction false} WritesSendBeginning(c: Connection, events: seq<Event>)
    requires c.Sending() && InFile(c)
    ensures Writes(c, events).wire <= Total(c)
    decreases |events|
  {
    if events != [] && CanHappen(c, events[0]) {
      EventKeepsBeginning(c, events[0]);
      var d := Happen(c, events[0]);
      if d.Sending() {
        WritesSendBeginning(d, events[1..]);
      } else {
        assert Writes(d, events[1..]) == d;
      }
    }
  }

  /** For every sequence of partial writes, it is all of the total once the connection
      has stopped sending. */
  lemma {:induction false} WritesSendTotal(c: Connection, events: seq<Event>)
    requires c.Sending() && InFile(c) && NoFailure(events)
    ensures var d := Writes(c, events);
            && (!d.Sending() ==> d.wire == Total(c))
            && (d.Sending() ==> Total(d) == Total(c))
    decreases |events|
  {
    if events != [] && CanHappen(c, events[0]) {
      WriteKeepsTotal(c, events[0].head, events[0].data);
      var d := Happen(c, events[0]);
      if d.Sending() {
        WritesSendTotal(d, events[1..]);
      } else {
        assert Writes(d, events[1..]) == d;
      }
    }
  }

  /** The file response theorem: head, then file[start..start + length], and nothing else.
      Whatever happens a beginning of this is sent; without a failed write, and unless the
      idle timer runs out, all of it is. */
  lemma FileResponse(c: Connection, head: Octets, data: Octets, start: nat, length: nat, events: seq<Event>)
    requires !c.state.Closed? && c.output == [] && start + length <= |data|
    ensures var sent := Writes(Respond(c, FromFile(head, data, start, length)), events);
            var all := c.wire + head + data[start..start + length];
            && sent.wire <= all && (NoFailure(events) && !sent.Sending() ==> sent.wire == all)
  {
    var d := Respond(c, FromFile(head, data, start, length));
    assert c.output + head == head;
    WritesSendBeginning(d, events);
    if NoFailure(events) {
      WritesSendTotal(d, events);
    }
  }

  /** A plain response, likewise. */
  lemma PlainResponse(c: Connection, bytes: Octets, events: seq<Event>)
    requires !c.state.Closed? && c.output == []
    ensures var sent := Writes(Respond(c, Plain(bytes)), events);
            && sent.wire <= c.wire + bytes
            && (NoFailure(events) && !sent.Sending() ==> sent.wire == c.wire + bytes)
  {
    var d := Respond(c, Plain(bytes));
    assert c.output + bytes == bytes;
    assert Total(d) == c.wire + bytes;
    WritesSendBeginning(d, events);
    if NoFailure(events) {
      WritesSendTotal(d, events);
    }
  }

  /** The eager socket: it takes all it is offered. */
  function Eager(c: Connection): Event {
    Write(Done(|c.output|), if c.offset + c.remaining <= |c.file| then Done(c.remaining)
                            else if c.offset < |c.file| then Done(|c.file| - c.offset) else Done(0))
  }

  /** No sequence of writes ends a file response that goes past the end of the file:
      sendfile has nothing more to give, and the connection waits until a write fails or
      the idle timer runs out. */
  lemma {:induction false} PastEndNeverEnds(c: Connection, events: seq<Event>)
    requires c.state.SendingFile? && c.offset + c.remaining > |c.file| && c.remaining > 0
    requires NoFailure(events)
    ensures Writes(c, events).Sending()
    decreases |events|
  {
    if events != [] && CanHappen(c, events[0]) {
      PastEndNeverEnds(Happen(c, events[0]), events[1..]);
    }
  }

  lemma EagerEnds(c: Connection)
    requires c.state.SendingFile? && c.offset + c.remaining <= |c.file| && c.remaining > 0
    ensures !Writes(c, [Eager(c), Write(Done(0), Done(0))]).Sending()
  {
    var first, last := Eager(c), Write(Done(0), Done(0));
    var d := OnWrite(c, first.head, first.data);
    assert d.output == [] && d.remaining == 0 && d.state.SendingFile?;
    assert [first, last][1..] == [last] && [last][1..] == [];
    var e := OnWrite(d, last.head, last.data);
    assert !e.Sending();
    assert Writes(e, []) == e;
    assert Writes(d, [last]) == e;
  }

  /** So a file response can be completed, short of a failure, exactly when it lies within the file. */
  lemma CompletableIffInFile(c: Connection, head: Octets, data: Octets, start: nat, length: nat)
    requires !c.state.Closed? && c.output == [] && length > 0
    ensures start + length <= |data| <==>
            exists events ::
              NoFailure(events) && !Writes(Respond(c, FromFile(head, data, start, length)), events).Sending()
  {
    var d := Respond(c, FromFile(head, data, start, length));
    if start + length <= |data| {
      var events := [Eager(d), Write(Done(0), Done(0))];
      EagerEnds(d);
      assert NoFailure(events);
    } else {
      forall events | NoFailure(events) ensures Writes(d, events).Sending() {
        PastEndNeverEnds(d, events);
      }
    }
  }

  /** A slice within the file, be it empty or not, can be sent. */
  lemma InFileEnds(c: Connection, head: Octets, data: Octets, start: nat, length: nat)
    requires !c.state.Closed? && c.output == [] && start + length <= |data|
    ensures exists events :: NoFailure(events) && !Writes(Respond(c, FromFile(head, data, start, length)), events).Sending()
  {
    var d := Respond(c, FromFile(head, data, start, length));
    if length > 0 {
      CompletableIffInFile(c, head, data, start, length);
    } else {
      var event := Write(Done(|head|), Done(0));
      assert Possible(d, event.head, event.data);
      var e := OnWrite(d, event.head, event.data);
      assert !e.Sending() && [event][1..] == [] && Writes(e, []) == e;
      assert Writes(d, [event]) == e && NoFailure([event]);
    }
  }
}
