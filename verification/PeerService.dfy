/** The receiving side as it runs: the settings are fields, changed under the lock. */
module PeerService {
  import opened Sequences
  import opened PeerConnections
  import C = PeerConnections

  class Service {
    var peers: seq<Peer>
    var requests: seq<Request>
    var codes: seq<Code>
    var pairFailures: nat

    ghost function Contents(): Recv
      reads this
    {
      Recv(peers, requests, codes, pairFailures)
    }

    constructor ()
      ensures Contents() == Recv([], [], [], 0)
    {
      peers, requests, codes, pairFailures := [], [], [], 0;
    }

    method DropExpired(now: int) returns (live: seq<Code>)
      ensures live == Unexpired(codes, now)
    {
      live := [];
      for k := 0 to |codes|
        invariant live == Unexpired(codes[..k], now)
      {
        assert codes[..k + 1][..k] == codes[..k];
        if now < codes[k].expires { live := live + [codes[k]]; }
      }
      assert codes[..|codes|] == codes;
    }

    method NewPairingCode(c: Code, now: int)
      modifies this`codes
      ensures Contents() == C.NewCode(old(Contents()), c, now)
    {
      var live := DropExpired(now);
      if |live| >= MAX_CODES { live := live[|live| - MAX_CODES + 1..]; }
      codes := live + [c];
    }

    /** The code is spent before anything else is saved. */
    method Pair(hash: string, now: int, id: string, env: Env) returns (answer: Answer)
      modifies this
      ensures Contents() == C.Pair(old(Contents()), hash, now, id, env).0
      ensures answer == C.Pair(old(Contents()), hash, now, id, env).1
    {
      hide Unexpired, CodeAt, Without;
      var live := DropExpired(now);
      var i := CodeAt(live, hash);
      if i < 0 {
        pairFailures := pairFailures + 1;
        if pairFailures >= MAX_PAIR_FAILURES {
          live := [];
          pairFailures := 0;
        }
        codes := live;
        return Refused;
      }
      var used := live[i];
      codes := Without(live, i);
      if env.stops { return Stopped; }
      if env.vhostFails { return Refused; }
      peers := peers + [Peer(id, used.vhost, "", used.addVHosts)];
      pairFailures := 0;
      answer := Granted;
    }

    /** groupReaches: the loop over the peers. */
    method GroupReaches(group: string, vhost: string) returns (reaches: bool)
      ensures reaches == Reaches(peers, group, vhost)
    {
      for k := 0 to |peers|
        invariant forall j :: 0 <= j < k ==>
            !(GroupOf(peers[j]) == group && (peers[j].vhost == "" || peers[j].vhost == vhost))
      {
        if GroupOf(peers[k]) == group && (peers[k].vhost == "" || peers[k].vhost == vhost) { return true; }
      }
      reaches := false;
    }

    method IssueVHostPeer(rest: seq<Request>, peer: Peer, vhost: string, allowed: bool, id: string,
                          env: Env) returns (answer: Answer)
      modifies this`peers, this`requests
      ensures Contents() == Issue(old(Contents()), rest, peer, vhost, allowed, id, env).0
      ensures answer == Issue(old(Contents()), rest, peer, vhost, allowed, id, env).1
    {
      if env.vhostFails { return Refused; }
      peers := peers + [Peer(id, vhost, GroupOf(peer), peer.addVHosts)];
      if allowed {
        if env.stops { return Stopped; }
        requests := rest;
      }
      answer := Granted;
    }

    method AddPeerVHost(peer: Peer, vhost: string, id: string, reqID: string, env: Env) returns (answer: Answer)
      modifies this`peers, this`requests
      ensures Contents() == C.AddPeerVHost(old(Contents()), peer, vhost, id, reqID, env).0
      ensures answer == C.AddPeerVHost(old(Contents()), peer, vhost, id, reqID, env).1
    {
      hide Issue, Reaches, FindRequest;
      if !ValidVHost(vhost) || vhost == "all" { return Refused; }
      var group := GroupOf(peer);
      var reaches := GroupReaches(group, vhost);
      if reaches { return Refused; }
      var i := FindRequest(requests, group, vhost);
      if i >= 0 && requests[i].declined {
        requests := Without(requests, i);
        return Declined;
      } else if i >= 0 && requests[i].allowed {
        answer := IssueVHostPeer(Without(requests, i), peer, vhost, requests[i].allowedBy != "", id, env);
      } else if i >= 0 {
        return Waiting;
      } else if !peer.addVHosts {
        if |requests| >= MAX_REQUESTS { return Refused; }
        requests := requests + [Request(reqID, group, vhost, false, "", false)];
        return Waiting;
      } else {
        answer := IssueVHostPeer(requests, peer, vhost, false, id, env);
      }
    }

    method DecideVHostRequest(id: string, allow: bool, username: string) returns (answer: Answer)
      modifies this`requests
      ensures Contents() == Decide(old(Contents()), id, allow, username).0
      ensures answer == Decide(old(Contents()), id, allow, username).1
    {
      var i := RequestAt(requests, id);
      if i < 0 || requests[i].allowed || requests[i].declined { return Refused; }
      if allow {
        requests := requests[i := requests[i].(allowed := true, allowedBy := username)];
      } else {
        requests := requests[i := requests[i].(declined := true)];
      }
      answer := Granted;
    }

    method RevokePeerGroup(id: string, env: Env) returns (answer: Answer)
      modifies this`peers, this`requests
      ensures Contents() == C.RevokePeerGroup(old(Contents()), id, env).0
      ensures answer == C.RevokePeerGroup(old(Contents()), id, env).1
    {
      var i := PeerAt(peers, id);
      if i < 0 { return Refused; }
      var group := GroupOf(peers[i]);
      var kept: seq<Peer> := [];
      for k := 0 to |peers|
        invariant kept == PeersOutside(peers[..k], group)
      {
        assert peers[..k + 1][..k] == peers[..k];
        if GroupOf(peers[k]) != group { kept := kept + [peers[k]]; }
      }
      assert peers[..|peers|] == peers;
      peers := kept;
      if env.stops { return Stopped; }
      var waiting: seq<Request> := [];
      for k := 0 to |requests|
        invariant waiting == RequestsOutside(requests[..k], group)
      {
        assert requests[..k + 1][..k] == requests[..k];
        if requests[k].group != group { waiting := waiting + [requests[k]]; }
      }
      assert requests[..|requests|] == requests;
      requests := waiting;
      answer := Granted;
    }
  }
}
