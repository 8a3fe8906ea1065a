/** The broker as one process sees it: the work stream and the DLQ, changed by its calls. */
module Broker {
  import opened Records
  import opened System

  class JetStream {
    var stream: seq<Message>
    var dlq: seq<nat>

    constructor ()
      ensures stream == [] && dlq == []
    {
      stream, dlq := [], [];
    }

    method Publish(row: nat, o: OutboxRow, now: real, inWindow: bool)
      modifies this`stream
      ensures stream == Accept(old(stream), row, o, now, inWindow)
    {
      if !(inWindow && Known(stream, row)) {
        stream := stream + [Message(o.job, row, o.payload, 0, Ready(now), NotRaised)];
      }
    }

    method PublishCopy(msg: nat, inWindow: bool)
      modifies this`dlq
      ensures dlq == Copied(old(dlq), msg, inWindow)
    {
      if !(inWindow && msg in dlq) {
        dlq := dlq + [msg];
      }
    }

    /** Hand out a message: one delivery more, invisible until the deadline. */
    method Deliver(msg: nat, deadline: real) returns (m: Message)
      requires msg < |stream|
      modifies this`stream
      ensures m == old(stream)[msg].(deliveries := old(stream)[msg].deliveries + 1, fate := InFlight(deadline))
      ensures stream == old(stream)[msg := m]
    {
      m := stream[msg].(deliveries := stream[msg].deliveries + 1, fate := InFlight(deadline));
      stream := stream[msg := m];
    }

    method Ack(msg: nat)
      modifies this`stream
      ensures stream == Resolve(old(stream), msg, Acked)
    {
      if msg < |stream| && Stored(stream[msg].fate) {
        stream := stream[msg := stream[msg].(fate := Acked)];
      }
    }

    method Nak(msg: nat, at: real)
      modifies this`stream
      ensures stream == Resolve(old(stream), msg, Ready(at))
    {
      if msg < |stream| && Stored(stream[msg].fate) {
        stream := stream[msg := stream[msg].(fate := Ready(at))];
      }
    }

    method Term(msg: nat)
      modifies this`stream
      ensures stream == Resolve(old(stream), msg, Termed)
    {
      if msg < |stream| && Stored(stream[msg].fate) {
        stream := stream[msg := stream[msg].(fate := Termed)];
      }
    }

    method Delete(msg: nat)
      modifies this`stream
      ensures stream == Resolve(old(stream), msg, Deleted)
    {
      if msg < |stream| && Stored(stream[msg].fate) {
        stream := stream[msg := stream[msg].(fate := Deleted)];
      }
    }
  }
}
