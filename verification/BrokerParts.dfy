// The loops both broker objects share.
module BrokerParts {
  import opened Protocol
  import opened Broker

  // A copy to one more connection.
  lemma PutAllMore(channels: seq<Channel>, conns: set<nat>, conn: nat, e: Envelope)
    requires conn !in conns
    ensures Put(PutAll(channels, conns, e), conn, e) == PutAll(channels, conns + {conn}, e)
  {
  }

  lemma PutAllNone(channels: seq<Channel>, e: Envelope)
    ensures PutAll(channels, {}, e) == channels
  {
  }

  lemma RemoveFirstAt(order: seq<Identity>, identity: Identity, pos: nat)
    requires pos < |order| && order[pos] == identity && identity !in order[..pos]
    ensures RemoveFirst(order, identity) == order[..pos] + order[pos + 1..]
  {
    if pos > 0 {
      assert order[0] in order[..pos];
      assert order[1..][..pos - 1] == order[..pos][1..];
      RemoveFirstAt(order[1..], identity, pos - 1);
      assert order[..pos] == [order[0]] + order[1..][..pos - 1];
    }
  }

  lemma RemoveFirstAbsent(order: seq<Identity>, identity: Identity)
    requires identity !in order
    ensures RemoveFirst(order, identity) == order
  {
    if order != [] {
      assert order[0] in order;
      assert forall p <- order[1..] :: p in order;
      RemoveFirstAbsent(order[1..], identity);
    }
  }

  // A copy to every connection, in whatever order the table yields them.
  method CopyToAll(channels: seq<Channel>, conns: set<nat>, e: Envelope) returns (r: seq<Channel>)
    ensures r == PutAll(channels, conns, e)
  {
    r := channels;
    var rest := conns;
    ghost var visited: set<nat> := {};
    PutAllNone(channels, e);
    while rest != {}
      invariant rest !! visited && rest + visited == conns
      invariant r == PutAll(channels, visited, e)
      decreases |rest|
    {
      var conn :| conn in rest;
      PutAllMore(channels, visited, conn, e);
      r := Put(r, conn, e);
      rest, visited := rest - {conn}, visited + {conn};
    }
    assert visited == conns;
  }

  // Takes out the first position of the identity, if it has one.
  method Without(order: seq<Identity>, identity: Identity) returns (r: seq<Identity>)
    ensures r == RemoveFirst(order, identity)
  {
    var pos := 0;
    while pos < |order| && order[pos] != identity
      invariant pos <= |order| && identity !in order[..pos]
    {
      pos := pos + 1;
    }
    if pos < |order| {
      RemoveFirstAt(order, identity, pos);
      return order[..pos] + order[pos + 1..];
    }
    RemoveFirstAbsent(order, identity);
    return order;
  }
}
