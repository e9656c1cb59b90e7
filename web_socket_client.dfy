/**
  The notification registry: a process-wide set of connected clients to which a
  message can be broadcast. The source keeps the set in a static field; here the
  registry is one object whose `clients` field the methods update in place.
  Sending on a socket is I/O, so `Broadcast` returns the sends it performs, in
  the order it performs them, instead of doing them.
*/
module WebSocket {

  /** One `client.send(message)` call. */
  datatype Delivery<Client> = Delivery(to: Client, message: string)

  /** No client appears twice among the recipients. */
  predicate DistinctRecipients<Client(==)>(sent: seq<Delivery<Client>>) {
    forall i, j :: 0 <= i < j < |sent| ==> sent[i].to != sent[j].to
  }

  /** The set of clients a sequence of sends reached. */
  function Recipients<Client(==)>(sent: seq<Delivery<Client>>): (r: set<Client>)
  {
    if sent == [] then {} else Recipients(sent[..|sent| - 1]) + {sent[|sent| - 1].to}
  }

  /**
    The bookkeeping of a broadcast in progress: every send carries `message`, the
    clients reached so far are reached once each, and together with the pending
    ones they are exactly the registered clients.
  */
  predicate SentSoFar<Client(==)>(sent: seq<Delivery<Client>>, pending: set<Client>, clients: set<Client>, message: string) {
    && (forall i :: 0 <= i < |sent| ==> sent[i].message == message)
    && DistinctRecipients(sent)
    && |Recipients(sent)| == |sent|
    && Recipients(sent) + pending == clients
    && Recipients(sent) !! pending
  }

  /** Sending to one pending client keeps the bookkeeping. */
  lemma SendStep<Client>(sent: seq<Delivery<Client>>, pending: set<Client>, clients: set<Client>, message: string, c: Client)
    requires SentSoFar(sent, pending, clients, message) && c in pending
    ensures SentSoFar(sent + [Delivery(c, message)], pending - {c}, clients, message)
  {
    var d := Delivery(c, message);
    assert (sent + [d])[..|sent|] == sent;
    assert Recipients(sent + [d]) == Recipients(sent) + {c};
    forall i | 0 <= i < |sent|
      ensures sent[i].to != c
    {
      Reached(sent, i);
    }
  }

  /** Every client sent to is among the recipients. */
  lemma {:induction false} Reached<Client>(sent: seq<Delivery<Client>>, i: nat)
    requires i < |sent|
    ensures sent[i].to in Recipients(sent)
  {
    if i < |sent| - 1 {
      Reached(sent[..|sent| - 1], i);
    }
  }

  class WebSocketClient<Client(==)> {
    /** The registered clients (`clients`, a `Set`). */
    var clients: set<Client>

    /** The registry starts empty (`new Set()`). */
    constructor ()
      ensures clients == {}
    {
      clients := {};
    }

    /** `addClient(c)`: `c` is registered afterwards, and nothing else changes. */
    method AddClient(c: Client)
      modifies this
      ensures clients == old(clients) + {c}
    {
      clients := clients + {c};
    }

    /** `removeClient(c)`: exactly `c` leaves; removing an unknown client changes nothing. */
    method RemoveClient(c: Client)
      modifies this
      ensures clients == old(clients) - {c}
    {
      clients := clients - {c};
    }

    /**
      `broadcast(message)`: sends `message` to every registered client exactly once
      and to no other client. The registry itself is not modified.
    */
    method Broadcast(message: string) returns (sent: seq<Delivery<Client>>)
      ensures forall i :: 0 <= i < |sent| ==> sent[i].message == message
      ensures DistinctRecipients(sent)
      ensures Recipients(sent) == clients
      ensures |sent| == |clients|
    {
      sent := [];
      var pending := clients;
      while pending != {}
        invariant SentSoFar(sent, pending, clients, message)
        decreases pending
      {
        var c :| c in pending;
        SendStep(sent, pending, clients, message, c);
        sent := sent + [Delivery(c, message)];
        pending := pending - {c};
      }
    }
  }

  /** Adding a client that is already registered leaves the registry as it was. */
  method AddTwice<Client(==)>(registry: WebSocketClient<Client>, c: Client)
    requires c in registry.clients
    modifies registry
    ensures registry.clients == old(registry.clients)
  {
    registry.AddClient(c);
  }

  /** Adding and then removing a client that was not registered restores the registry. */
  method AddThenRemove<Client(==)>(registry: WebSocketClient<Client>, c: Client)
    requires c !in registry.clients
    modifies registry
    ensures registry.clients == old(registry.clients)
  {
    registry.AddClient(c);
    registry.RemoveClient(c);
  }
}
