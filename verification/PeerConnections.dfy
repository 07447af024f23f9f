/** The receiving side of a connection between two instances: pairing codes, the peers
    that may send, and the vhosts they ask to add (internal/environment/link.go and
    connection.go). Each operation is one critical section; where it saves twice, the
    process may stop in between. */
module PeerConnections {
  import opened Sequences

  datatype Peer = Peer(id: string, vhost: string, group: string, addVHosts: bool)

  datatype Request = Request(id: string, group: string, vhost: string, allowed: bool, allowedBy: string, declined: bool)

  datatype Code = Code(hash: string, vhost: string, addVHosts: bool, expires: int)

  datatype Recv = Recv(peers: seq<Peer>, reqs: seq<Request>, codes: seq<Code>, failures: nat)

  const MAX_REQUESTS := 100
  const MAX_CODES := 20
  const MAX_PAIR_FAILURES := 10

  /** What the world does to one operation: the vhost cannot be created, or the process
      stops between the two saves. */
  datatype Env = Env(vhostFails: bool, stops: bool)

  datatype Answer = Refused | Waiting | Declined | Granted | Stopped

  /** The ID every peer of p's connection shares. */
  function GroupOf(p: Peer): string {
    if p.group != "" then p.group else p.id
  }

  predicate AlphaNum(c: char) {
    'A' <= c <= 'Z' || 'a' <= c <= 'z' || '0' <= c <= '9'
  }

  predicate ValidVHost(v: string) {
    1 <= |v| <= 64 && AlphaNum(v[0]) && (forall i :: 0 <= i < |v| ==>
        AlphaNum(v[i]) || v[i] == '_' || v[i] == '.' || v[i] == '-')
  }

  // ------------------------------------------------------------------------ lists

  /** The first request of the group for the vhost, or -1. */
  function FindRequest(reqs: seq<Request>, group: string, vhost: string): (i: int)
    ensures -1 <= i < |reqs|
    ensures i >= 0 ==> reqs[i].group == group && reqs[i].vhost == vhost
    ensures i < 0 ==> forall j :: 0 <= j < |reqs| ==> !(reqs[j].group == group && reqs[j].vhost == vhost)
  {
    if reqs == [] then -1
    else if reqs[0].group == group && reqs[0].vhost == vhost then 0
    else
      var i := FindRequest(reqs[1..], group, vhost);
      if i < 0 then -1 else i + 1
  }

  function RequestAt(reqs: seq<Request>, id: string): (i: int)
    ensures -1 <= i < |reqs|
    ensures i >= 0 ==> reqs[i].id == id
  {
    if reqs == [] then -1 else if reqs[0].id == id then 0 else
      var i := RequestAt(reqs[1..], id);
      if i < 0 then -1 else i + 1
  }

  function PeerAt(peers: seq<Peer>, id: string): (i: int)
    ensures -1 <= i < |peers|
    ensures i >= 0 ==> peers[i].id == id
  {
    if peers == [] then -1 else if peers[0].id == id then 0 else
      var i := PeerAt(peers[1..], id);
      if i < 0 then -1 else i + 1
  }

  function PeersOutside(peers: seq<Peer>, group: string): (r: seq<Peer>)
    ensures forall p :: p in r <==> p in peers && GroupOf(p) != group
  {
    if peers == [] then [] else
      var front, last := peers[..|peers| - 1], peers[|peers| - 1];
      assert peers == front + [last];
      var r := PeersOutside(front, group);
      if GroupOf(last) == group then r else r + [last]
  }

  function RequestsOutside(reqs: seq<Request>, group: string): (r: seq<Request>)
    ensures forall q :: q in r <==> q in reqs && q.group != group
  {
    if reqs == [] then [] else
      var front, last := reqs[..|reqs| - 1], reqs[|reqs| - 1];
      assert reqs == front + [last];
      var r := RequestsOutside(front, group);
      if last.group == group then r else r + [last]
  }

  function Unexpired(codes: seq<Code>, now: int): (r: seq<Code>)
    ensures forall c :: c in r <==> c in codes && now < c.expires
  {
    if codes == [] then [] else
      var front, last := codes[..|codes| - 1], codes[|codes| - 1];
      assert codes == front + [last];
      var r := Unexpired(front, now);
      if now < last.expires then r + [last] else r
  }

  function CodeAt(codes: seq<Code>, hash: string): (i: int)
    ensures -1 <= i < |codes|
    ensures i >= 0 ==> codes[i].hash == hash
  {
    if codes == [] then -1 else if codes[0].hash == hash then 0 else
      var i := CodeAt(codes[1..], hash);
      if i < 0 then -1 else i + 1
  }

  // ------------------------------------------------------------------- operations

  function NewCode(r: Recv, c: Code, now: int): Recv {
    var codes := Unexpired(r.codes, now);
    var room := if |codes| >= MAX_CODES then codes[|codes| - MAX_CODES + 1..] else codes;
    r.(codes := room + [c])
  }

  /** Pair: a wrong code is counted and, after too many, every code is cleared; a right
      one is spent before anything else is saved. */
  function Pair(r: Recv, hash: string, now: int, id: string, env: Env): (Recv, Answer) {
    var codes := Unexpired(r.codes, now);
    var i := CodeAt(codes, hash);
    if i < 0 then
      if r.failures + 1 >= MAX_PAIR_FAILURES then (r.(codes := [], failures := 0), Refused)
      else (r.(codes := codes, failures := r.failures + 1), Refused)
    else
      var spent := r.(codes := Without(codes, i));
      if env.stops || env.vhostFails then (spent, if env.stops then Stopped else Refused)
      else (spent.(peers := r.peers + [Peer(id, codes[i].vhost, "", codes[i].addVHosts)], failures := 0), Granted)
  }

  /** groupReaches: one of the group's peers sends into the vhost, or into every one. */
  predicate Reaches(peers: seq<Peer>, group: string, vhost: string) {
    exists k :: 0 <= k < |peers| && GroupOf(peers[k]) == group && (peers[k].vhost == "" || peers[k].vhost == vhost)
  }

  /** issueVHostPeer: the new peer is saved first, then the request it was allowed by. */
  function Issue(r: Recv, rest: seq<Request>, peer: Peer, vhost: string, allowed: bool, id: string, env: Env): (Recv,
                 Answer) {
    if env.vhostFails then (r, Refused) else
      var added := r.(peers := r.peers + [Peer(id, vhost, GroupOf(peer), peer.addVHosts)]);
      if !allowed then (added, Granted)
      else if env.stops then (added, Stopped)
      else (added.(reqs := rest), Granted)
  }

  function AddPeerVHost(r: Recv, peer: Peer, vhost: string, id: string, reqID: string, env: Env): (Recv, Answer) {
    var group := GroupOf(peer);
    if !ValidVHost(vhost) || vhost == "all" || Reaches(r.peers, group, vhost) then (r, Refused) else
      var i := FindRequest(r.reqs, group, vhost);
      if i >= 0 && r.reqs[i].declined then (r.(reqs := Without(r.reqs, i)), Declined)
      else if i >= 0 && r.reqs[i].allowed then Issue(r, Without(r.reqs, i), peer, vhost, r.reqs[i].allowedBy != "",
          id, env)
      else if i >= 0 then (r, Waiting)
      else if !peer.addVHosts then
        if |r.reqs| >= MAX_REQUESTS then (r, Refused)
        else (r.(reqs := r.reqs + [Request(reqID, group, vhost, false, "", false)]), Waiting)
      else Issue(r, r.reqs, peer, vhost, false, id, env)
  }

  /** decideVHostRequest: only a request nobody decided yet. */
  function Decide(r: Recv, id: string, allow: bool, username: string): (Recv, Answer) {
    var i := RequestAt(r.reqs, id);
    if i < 0 || r.reqs[i].allowed || r.reqs[i].declined then (r, Refused)
    else if allow then (r.(reqs := r.reqs[i := r.reqs[i].(allowed := true, allowedBy := username)]), Granted)
    else (r.(reqs := r.reqs[i := r.reqs[i].(declined := true)]), Granted)
  }

  function RevokePeer(r: Recv, id: string): (Recv, Answer) {
    var i := PeerAt(r.peers, id);
    if i < 0 then (r, Refused) else (r.(peers := Without(r.peers, i)), Granted)
  }

  function RevokePeerGroup(r: Recv, id: string, env: Env): (Recv, Answer) {
    var i := PeerAt(r.peers, id);
    if i < 0 then (r, Refused) else
      var group := GroupOf(r.peers[i]);
      var cut := r.(peers := PeersOutside(r.peers, group));
      if env.stops then (cut, Stopped) else (cut.(reqs := RequestsOutside(r.reqs, group)), Granted)
  }
}
