/**
 The lock sections of demand-driven establishment as the router's own methods: the two tables it
 keeps, its removal loop and its wake loop.
 */
module HybridRouter {
  import opened Sequences
  import opened Establishment

  /** One waiting connection; `token` is the one-slot channel it waits on. */
  class PendingConnection {
    const requestId: RequestId
    var token: bool

    constructor (requestId: RequestId)
      ensures this.requestId == requestId && !token
    {
      this.requestId := requestId;
      token := false;
    }
  }

  function IdsOf(connections: seq<PendingConnection>): (ids: seq<RequestId>)
    ensures |ids| == |connections|
    ensures forall i :: 0 <= i < |ids| ==> ids[i] == connections[i].requestId
  {
    seq(|connections|, i requires 0 <= i < |connections| => connections[i].requestId)
  }

  /** Cutting one connection out of the slice removes its id, and the first one only. */
  lemma {:induction false} CutIds(connections: seq<PendingConnection>, k: nat, id: RequestId)
    requires k < |connections| && connections[k].requestId == id
    requires forall i :: 0 <= i < k ==> connections[i].requestId != id
    ensures IdsOf(connections[..k] + connections[k + 1..]) == WithoutFirst(IdsOf(connections), id)
  {
    var ids := IdsOf(connections);
    CutFirst(ids, k, id);
    assert IdsOf(connections[..k] + connections[k + 1..]) == ids[..k] + ids[k + 1..];
  }

  class Router {
    var pendingConnections: map<Domain, seq<PendingConnection>>
    var establishmentInProgress: set<Domain>

    constructor ()
      ensures pendingConnections == map[] && establishmentInProgress == {}
    {
      pendingConnections, establishmentInProgress := map[], {};
    }

    ghost function Pending(): map<Domain, seq<RequestId>>
      reads this
    {
      map d | d in pendingConnections :: IdsOf(pendingConnections[d])
    }

    /** First section of waitForTCPTunnelEstablishment. */
    method AddPending(domain: Domain, requestId: RequestId) returns (pending: PendingConnection)
      modifies this`pendingConnections
      ensures fresh(pending) && pending.requestId == requestId && !pending.token
      ensures Pending() == old(Pending())[domain := Listed(old(Pending()), domain) + [requestId]]
      ensures domain in pendingConnections && pending in pendingConnections[domain]
    {
      pending := new PendingConnection(requestId);
      var connections := if domain in pendingConnections then pendingConnections[domain] else [];
      pendingConnections := pendingConnections[domain := connections + [pending]];
      assert IdsOf(connections + [pending]) == IdsOf(connections) + [requestId];
    }

    /** Second section: only the caller that finds the flag down starts a goroutine. */
    method ClaimEstablishment(domain: Domain) returns (start: bool)
      modifies this`establishmentInProgress
      ensures start <==> domain !in old(establishmentInProgress)
      ensures establishmentInProgress == Raised(Flags(old(establishmentInProgress), map[], map[]), domain).inProgress
    {
      start := domain !in establishmentInProgress;
      if start {
        establishmentInProgress := establishmentInProgress + {domain};
      }
    }

    /** Section that clears the flag: after a timeout, a failed answer, or when a tunnel is announced. */
    method ClearInProgress(domain: Domain)
      modifies this`establishmentInProgress
      ensures establishmentInProgress == Cleared(Flags(old(establishmentInProgress), map[], map[]), domain).inProgress
    {
      establishmentInProgress := establishmentInProgress - {domain};
    }

    /** Cut the connection out of its domain's slice, and drop the domain when the slice is empty. */
    method RemovePendingConnection(domain: Domain, requestId: RequestId)
      modifies this`pendingConnections
      ensures Pending() == Removed(old(Pending()), domain, requestId)
    {
      var connections := if domain in pendingConnections then pendingConnections[domain] else [];
      var i := 0;
      while i < |connections| && connections[i].requestId != requestId
        invariant 0 <= i <= |connections|
        invariant forall j :: 0 <= j < i ==> connections[j].requestId != requestId
      {
        i := i + 1;
      }
      if i < |connections| {
        CutIds(connections, i, requestId);
        pendingConnections := pendingConnections[domain := connections[..i] + connections[i + 1..]];
      } else {
        Absent(IdsOf(connections), requestId);
      }
      if domain !in pendingConnections || pendingConnections[domain] == [] {
        pendingConnections := pendingConnections - {domain};
      }
    }

    /** Second section of OnTCPTunnelEstablished: a token for everybody listed, and for nobody else. */
    method WakePending(domain: Domain)
      modifies if domain in pendingConnections then pendingConnections[domain] else []
      ensures domain in pendingConnections ==>
                forall c :: c in pendingConnections[domain] ==> c.token
    {
      if domain in pendingConnections {
        var connections := pendingConnections[domain];
        var i := 0;
        while i < |connections|
          invariant 0 <= i <= |connections|
          invariant forall j :: 0 <= j < i ==> connections[j].token
        {
          // a full channel is skipped
          if !connections[i].token {
            connections[i].token := true;
          }
          i := i + 1;
        }
      }
    }
  }
}
