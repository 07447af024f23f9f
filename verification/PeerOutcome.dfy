/** What each operation of the receiving side leaves, in terms of its peers, requests and codes
    alone, and how far guessing a pairing code gets (internal/environment/link.go, Pair and
    spend; connection.go, AddPeerVHost, decideVHostRequest and RevokePeerGroup). */
module PeerOutcome {
  import opened Sequences
  import opened PeerConnections
  import opened PeerHistory

  // -------------------------------------------------------------------- pairing codes

  /** No code that still holds has the hash. */
  ghost predicate NoSuchCode(codes: seq<Code>, hash: string, now: int) {
    forall c :: c in codes && now < c.expires ==> c.hash != hash
  }

  lemma WrongGuess(codes: seq<Code>, hash: string, now: int)
    requires NoSuchCode(codes, hash, now)
    ensures CodeAt(Unexpired(codes, now), hash) < 0
  {
    assert forall i :: 0 <= i < |Unexpired(codes, now)| ==> Unexpired(codes, now)[i] in Unexpired(codes, now);
  }

  /** A wrong code adds no peer and is counted; the tenth in a row clears every code. */
  lemma WrongGuessCounts(r: Recv, hash: string, now: int, id: string, env: Env)
    requires NoSuchCode(r.codes, hash, now)
    ensures var (after, answer) := Pair(r, hash, now, id, env);
      && answer == Refused && after.peers == r.peers && after.reqs == r.reqs
      && (if r.failures >= 9 then after.codes == [] && after.failures == 0
          else after.failures == r.failures + 1 && forall c :: c in after.codes <==> c in r.codes && now < c.expires)
  {
    WrongGuess(r.codes, hash, now);
  }

  datatype Guess = Guess(hash: string, now: int)

  function Guessed(r: Recv, guesses: seq<Guess>, id: string, env: Env): Recv {
    if guesses == [] then r else
      var s := Guessed(r, guesses[..|guesses| - 1], id, env);
      Pair(s, guesses[|guesses| - 1].hash, guesses[|guesses| - 1].now, id, env).0
  }

  /** No code of r has the hash that is guessed. */
  ghost predicate AllWrong(r: Recv, guesses: seq<Guess>) {
    forall i, c :: 0 <= i < |guesses| && c in r.codes ==> c.hash != guesses[i].hash
  }

  /** Ten wrong guesses in a row and no code is left to guess, whenever they come. */
  lemma {:induction false} GuessingEnds(r: Recv, guesses: seq<Guess>, id: string, env: Env)
    requires AllWrong(r, guesses) && r.failures < 10
    ensures var s := Guessed(r, guesses, id, env);
      && s.peers == r.peers && (forall c :: c in s.codes ==> c in r.codes) && s.failures < 10
      && (|guesses| + r.failures >= 10 ==> s.codes == [])
      && (|guesses| + r.failures < 10 ==> s.failures == |guesses| + r.failures)
    decreases |guesses|
  {
    if guesses != [] {
      var front, g := guesses[..|guesses| - 1], guesses[|guesses| - 1];
      GuessingEnds(r, front, id, env);
      WrongGuessCounts(Guessed(r, front, id, env), g.hash, g.now, id, env);
    }
  }

  /** The right code is spent, whatever comes of it, and no other; unless the vhost could not be
      created or the process stopped, its peer joins with the vhost and the permission of the
      code, and guesses are forgotten. */
  lemma RightCodeSpent(r: Recv, hash: string, now: int, id: string, env: Env, c: Code)
    requires c in r.codes && now < c.expires && c.hash == hash
    requires forall d :: d in r.codes && d.hash == hash ==> d == c
    requires multiset(r.codes)[c] == 1
    ensures var (after, answer) := Pair(r, hash, now, id, env);
      && (forall d :: d in after.codes <==> d in r.codes && now < d.expires && d != c)
      && after.reqs == r.reqs
      && (answer == Granted <==> !env.vhostFails && !env.stops)
      && (if answer == Granted then after.peers == r.peers + [Peer(id, c.vhost, "", c.addVHosts)] && after.failures == 0
          else after.peers == r.peers && after.failures == r.failures)
      && forall hash', now', id', env' :: hash' == hash ==> Pair(after, hash', now', id', env').1 == Refused
  {
    var codes := Unexpired(r.codes, now);
    var i := CodeAt(codes, hash);
    assert c in codes;
    if i < 0 { CodeThere(codes, hash, c); }
    assert codes[i] in codes && codes[i] == c;
    UnexpiredOnce(r.codes, now, c);
    SpentOnce(codes, i);
    var (after, answer) := Pair(r, hash, now, id, env);
    forall hash', now', id', env' | hash' == hash ensures Pair(after, hash', now', id', env').1 == Refused {
      WrongGuess(after.codes, hash', now');
    }
  }

  lemma CodeThere(codes: seq<Code>, hash: string, c: Code)
    requires c in codes && c.hash == hash
    ensures CodeAt(codes, hash) >= 0
  {
    if codes[0].hash != hash {
      assert codes == [codes[0]] + codes[1..];
      CodeThere(codes[1..], hash, c);
    }
  }

  lemma {:induction false} UnexpiredOnce(codes: seq<Code>, now: int, c: Code)
    requires now < c.expires
    ensures multiset(Unexpired(codes, now))[c] == multiset(codes)[c]
  {
    if codes != [] {
      UnexpiredOnce(codes[..|codes| - 1], now, c);
      assert codes == codes[..|codes| - 1] + [codes[|codes| - 1]];
    }
  }

  lemma SpentOnce(codes: seq<Code>, i: nat)
    requires i < |codes| && multiset(codes)[codes[i]] == 1
    ensures forall d :: d in Without(codes, i) <==> d in codes && d != codes[i]
  {
    var rest := Without(codes, i);
    assert codes == codes[..i] + [codes[i]] + codes[i + 1..];
    assert multiset(rest) == multiset(codes) - multiset{codes[i]};
    assert forall d :: d in rest <==> d in multiset(rest);
    assert forall d :: d in codes <==> d in multiset(codes);
  }

  /** A new code joins the ones that still hold, of which the oldest give way past twenty. */
  lemma NewCodeKept(r: Recv, c: Code, now: int)
    ensures var after := NewCode(r, c, now); var n := |after.codes|;
      && after == r.(codes := after.codes) && 1 <= n <= 20 && after.codes[n - 1] == c
      && (exists k :: 0 <= k <= |Unexpired(r.codes, now)| && after.codes[..n - 1] == Unexpired(r.codes, now)[k..])
      && (|Unexpired(r.codes, now)| < 20 ==> after.codes[..n - 1] == Unexpired(r.codes, now))
  {
    var codes := Unexpired(r.codes, now);
    var k := if |codes| >= 20 then |codes| - 19 else 0;
    assert NewCode(r, c, now).codes == codes[k..] + [c];
    assert NewCode(r, c, now).codes[..|codes| - k] == codes[k..];
  }

  // ------------------------------------------------------------------- asking for a vhost

  /** A name the vhost may have: a letter or digit, then letters, digits, dots, dashes and
      underscores, 64 at most; and not the word for all of them. */
  predicate MayBeAsked(v: string) {
    && v != "all" && 1 <= |v| <= 64
    && (forall i :: 0 <= i < |v| ==> 'A' <= v[i] <= 'Z' || 'a' <= v[i] <= 'z' || '0' <= v[i] <= '9' ||
                                     (i > 0 && (v[i] == '.' || v[i] == '-' || v[i] == '_')))
  }

  /** The connection sends into the vhost already, or into every one. */
  ghost predicate SendsInto(peers: seq<Peer>, group: string, vhost: string) {
    exists p :: p in peers && Connection(p) == group && (p.vhost == "" || p.vhost == vhost)
  }

  /** The id a connection's peers share: that of the first, which was paired. */
  function Connection(p: Peer): string { if p.group == "" then p.id else p.group }

  /** The connection's request for the vhost. */
  ghost predicate Asked(reqs: seq<Request>, i: nat, group: string, vhost: string) {
    i < |reqs| && reqs[i].group == group && reqs[i].vhost == vhost
  }

  ghost predicate NeverAsked(reqs: seq<Request>, group: string, vhost: string) {
    forall i :: 0 <= i < |reqs| ==> !(reqs[i].group == group && reqs[i].vhost == vhost)
  }

  /** The peer joins the connection for the vhost, with its permission to add more. */
  ghost predicate Joined(r: Recv, after: Recv, peer: Peer, vhost: string, id: string) {
    after == r.(peers := r.peers + [Peer(id, vhost, Connection(peer), peer.addVHosts)], reqs := after.reqs)
  }

  /** after is before without the request at i. */
  ghost predicate RequestGone(before: seq<Request>, after: seq<Request>, i: nat) {
    && i < |before| == |after| + 1
    && (forall k :: 0 <= k < i ==> after[k] == before[k])
    && (forall k :: i <= k < |after| ==> after[k] == before[k + 1])
  }

  /** A vhost that may not be asked for, or is reached already, is refused without a change. */
  lemma AskRefused(r: Recv, peer: Peer, vhost: string, id: string, reqID: string, env: Env)
    requires !MayBeAsked(vhost) || SendsInto(r.peers, Connection(peer), vhost)
    ensures AddPeerVHost(r, peer, vhost, id, reqID, env) == (r, Refused)
  {
    MayAskIff(vhost);
    ReachesIff(r.peers, Connection(peer), vhost);
  }

  lemma MayAskIff(v: string)
    ensures MayBeAsked(v) <==> ValidVHost(v) && v != "all"
  {
  }

  lemma ReachesIff(peers: seq<Peer>, group: string, vhost: string)
    ensures SendsInto(peers, group, vhost) <==> Reaches(peers, group, vhost)
  {
  }

  lemma NotFoundYet(reqs: seq<Request>, group: string, vhost: string)
    requires NeverAsked(reqs, group, vhost)
    ensures FindRequest(reqs, group, vhost) < 0
  {
  }

  /** The first time a vhost is asked for: a connection that may add vhosts gets it at once; any
      other waits for an administrator, unless a hundred wait already. */
  lemma FirstAsk(r: Recv, peer: Peer, vhost: string, id: string, reqID: string, env: Env)
    requires MayBeAsked(vhost) && !SendsInto(r.peers, Connection(peer), vhost)
    requires NeverAsked(r.reqs, Connection(peer), vhost)
    ensures var (after, answer) := AddPeerVHost(r, peer, vhost, id, reqID, env);
      if peer.addVHosts then
        (if env.vhostFails then answer == Refused && after == r
         else answer == Granted && Joined(r, after, peer, vhost, id) && after.reqs == r.reqs)
      else
        (if |r.reqs| >= 100 then answer == Refused && after == r
         else answer == Waiting &&
              after == r.(reqs := r.reqs + [Request(reqID, Connection(peer), vhost, false, "", false)]))
  {
    MayAskIff(vhost);
    ReachesIff(r.peers, Connection(peer), vhost);
    NotFoundYet(r.reqs, Connection(peer), vhost);
    hide Reaches, ValidVHost, FindRequest;
  }

  /** Asked for before: a declined request is told and goes; an allowed one gives the connection
      its peer, and goes too if the process gets that far and the allow names who gave it; one
      that nobody decided still waits. */
  lemma AskAgain(r: Recv, peer: Peer, vhost: string, id: string, reqID: string, env: Env, i: nat)
    requires MayBeAsked(vhost) && !SendsInto(r.peers, Connection(peer), vhost)
    requires OneRequestPerVHost(r.reqs) && Asked(r.reqs, i, Connection(peer), vhost)
    ensures var (after, answer) := AddPeerVHost(r, peer, vhost, id, reqID, env); var q := r.reqs[i];
      if q.declined then
        answer == Declined && after == r.(reqs := after.reqs) && RequestGone(r.reqs, after.reqs, i)
      else if q.allowed then
        (if env.vhostFails then answer == Refused && after == r
         else
           && Joined(r, after, peer, vhost, id)
           && (q.allowedBy == "" ==> answer == Granted && after.reqs == r.reqs)
           && (q.allowedBy != "" && env.stops ==> answer == Stopped && after.reqs == r.reqs)
           && (q.allowedBy != "" && !env.stops ==> answer == Granted && RequestGone(r.reqs, after.reqs, i)))
      else answer == Waiting && after == r
  {
    MayAskIff(vhost);
    ReachesIff(r.peers, Connection(peer), vhost);
    FoundAt(r.reqs, i, Connection(peer), vhost);
    hide Reaches, ValidVHost, FindRequest, OneRequestPerVHost;
  }

  lemma FoundAt(reqs: seq<Request>, i: nat, group: string, vhost: string)
    requires OneRequestPerVHost(reqs) && Asked(reqs, i, group, vhost)
    ensures FindRequest(reqs, group, vhost) == i
  {
    var j := FindRequest(reqs, group, vhost);
    assert j >= 0;
  }

  // ------------------------------------------------------------------------- deciding

  /** A request that is there and undecided is decided as asked, by whom; anything else is
      refused without a change. */
  lemma DecideEnds(r: Recv, id: string, allow: bool, username: string)
    requires OneRequestPerVHost(r.reqs)
    ensures (forall i :: 0 <= i < |r.reqs| ==> r.reqs[i].id != id) ==> Decide(r, id, allow, username) == (r, Refused)
    ensures forall i :: 0 <= i < |r.reqs| && r.reqs[i].id == id ==>
      var q := r.reqs[i];
      Decide(r, id, allow, username) ==
        if q.allowed || q.declined then (r, Refused)
        else if allow then (r.(reqs := r.reqs[i := Request(id, q.group, q.vhost, true, username, false)]), Granted)
        else (r.(reqs := r.reqs[i := Request(id, q.group, q.vhost, false, q.allowedBy, true)]), Granted)
  {
    forall i | 0 <= i < |r.reqs| && r.reqs[i].id == id ensures RequestAt(r.reqs, id) == i { RequestThere(r.reqs, i); }
  }

  lemma {:induction false} RequestThere(reqs: seq<Request>, i: nat)
    requires i < |reqs| && forall a, b :: 0 <= a < b < |reqs| ==> reqs[a].id != reqs[b].id
    ensures RequestAt(reqs, reqs[i].id) == i
  {
    if i > 0 { RequestThere(reqs[1..], i - 1); }
  }

  lemma {:induction false} PeerThere(peers: seq<Peer>, i: nat)
    requires i < |peers| && forall a, b :: 0 <= a < b < |peers| ==> peers[a].id != peers[b].id
    ensures PeerAt(peers, peers[i].id) == i
  {
    if i > 0 { PeerThere(peers[1..], i - 1); }
  }

  // ------------------------------------------------------------------------- cutting off

  /** after has, in order, exactly those of before that f keeps. */
  ghost predicate KeptInOrder<T(!new)>(before: seq<T>, after: seq<T>, f: T -> bool)
    decreases |before|
  {
    if before == [] then after == [] else
      var x := before[|before| - 1];
      if f(x) then after != [] && after[|after| - 1] == x &&
                   KeptInOrder(before[..|before| - 1], after[..|after| - 1], f)
      else KeptInOrder(before[..|before| - 1], after, f)
  }

  /** Revoking a peer takes it away and leaves the others. */
  lemma RevokeTakesOne(r: Recv, i: nat)
    requires OnePeerPerVHost(r.peers) && i < |r.peers|
    ensures var (after, answer) := RevokePeer(r, r.peers[i].id);
      && answer == Granted && after == r.(peers := after.peers) && |after.peers| == |r.peers| - 1
      && (forall k :: 0 <= k < |after.peers| ==> after.peers[k] == r.peers[if k < i then k else k + 1])
  {
    PeerThere(r.peers, i);
  }

  lemma {:induction false} PeersKept(peers: seq<Peer>, group: string)
    ensures KeptInOrder(peers, PeersOutside(peers, group), (p: Peer) => Connection(p) != group)
  {
    if peers != [] { PeersKept(peers[..|peers| - 1], group); }
  }

  lemma {:induction false} RequestsKept(reqs: seq<Request>, group: string)
    ensures KeptInOrder(reqs, RequestsOutside(reqs, group), (q: Request) => q.group != group)
  {
    if reqs != [] { RequestsKept(reqs[..|reqs| - 1], group); }
  }

  /** Cutting a connection off takes all its peers, and then, unless the process stops in
      between, all its requests; every other peer, request and code stays as it was. */
  lemma CutOffTakesAll(r: Recv, i: nat, env: Env)
    requires OnePeerPerVHost(r.peers) && i < |r.peers|
    ensures var (after, answer) := RevokePeerGroup(r, r.peers[i].id, env); var group := Connection(r.peers[i]);
      && after == r.(peers := after.peers, reqs := after.reqs)
      && (forall p :: p in after.peers ==> Connection(p) != group)
      && KeptInOrder(r.peers, after.peers, (p: Peer) => Connection(p) != group)
      && (if env.stops then answer == Stopped && after.reqs == r.reqs
          else answer == Granted && (forall q :: q in after.reqs ==> q.group != group) &&
               KeptInOrder(r.reqs, after.reqs, (q: Request) => q.group != group))
  {
    PeerThere(r.peers, i);
    PeersKept(r.peers, Connection(r.peers[i]));
    RequestsKept(r.reqs, Connection(r.peers[i]));
    hide KeptInOrder;
  }

  /** An id that no peer has is refused without a change. */
  lemma UnknownPeer(r: Recv, id: string, env: Env)
    requires forall i :: 0 <= i < |r.peers| ==> r.peers[i].id != id
    ensures RevokePeer(r, id) == (r, Refused) && RevokePeerGroup(r, id, env) == (r, Refused)
  {
  }
}
