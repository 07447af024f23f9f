/** The receiving side over whole runs: what a connection group holds, and where each of
    its peers came from. */
module PeerHistory {
  import opened Sequences
  import opened PeerConnections

  /** What happened, in order. */
  datatype Event =
    | CodeIssued(code: Code)
    | Paired(id: string, code: Code)
    | RequestAllowed(reqID: string, group: string, vhost: string)
    | RequestDeclined(reqID: string)
    | AddedByAllow(id: string, group: string, vhost: string)
    | AddedByPermission(id: string, group: string, vhost: string)
    | ToldDeclined(reqID: string)

  /** The stored state, what happened, every peer there ever was, and every ID ever used. */
  datatype World = World(r: Recv, log: seq<Event>, known: set<Peer>, used: set<string>)

  datatype Action =
    | IssueCode(c: Code, now: int)
    | PairWith(hash: string, now: int, id: string, env: Env)
    | AskVHost(peer: Peer, vhost: string, id: string, reqID: string, env: Env)
    | AllowRequest(reqID: string, username: string)
    | DeclineRequest(reqID: string)
    | Revoke(id: string)
    | RevokeGroup(id: string, env: Env)

  /** IDs are fresh, and whoever asks was a peer at some time, perhaps no longer. */
  ghost predicate Enabled(w: World, a: Action) {
    match a
    case PairWith(_, _, id, _) => id != "" && id !in w.used
    case AskVHost(peer, _, id, reqID, _) => peer in w.known && id != "" && id !in w.used && reqID !in w.used &&
        reqID != id
    case _ => true
  }

  /** The code a pairing spends, if it comes that far. */
  function SpentCode(r: Recv, hash: string, now: int): (i: int)
    ensures -1 <= i < |Unexpired(r.codes, now)|
  {
    CodeAt(Unexpired(r.codes, now), hash)
  }

  function Step(w: World, a: Action): World {
    match a
    case IssueCode(c, now) => w.(r := NewCode(w.r, c, now), log := w.log + [CodeIssued(c)])
    case PairWith(hash, now, id, env) =>
      var (r, _) := Pair(w.r, hash, now, id, env);
      if |r.peers| > |w.r.peers| && SpentCode(w.r, hash, now) >= 0 then
        var c := Unexpired(w.r.codes, now)[SpentCode(w.r, hash, now)];
        World(r, w.log + [Paired(id, c)], w.known + {Peer(id, c.vhost, "", c.addVHosts)}, w.used + {id})
      else w.(r := r)
    case AskVHost(peer, vhost, id, reqID, env) =>
      var (r, answer) := AddPeerVHost(w.r, peer, vhost, id, reqID, env);
      var i := FindRequest(w.r.reqs, GroupOf(peer), vhost);
      if |r.peers| > |w.r.peers| then
        World(r, w.log + [if i >= 0 then AddedByAllow(id, GroupOf(peer), vhost)
            else AddedByPermission(id, GroupOf(peer), vhost)],
              w.known + {Peer(id, vhost, GroupOf(peer), peer.addVHosts)}, w.used + {id})
      else if answer == Declined && i >= 0 then World(r, w.log + [ToldDeclined(w.r.reqs[i].id)], w.known, w.used)
      else World(r, w.log, w.known, if |r.reqs| > |w.r.reqs| then w.used + {reqID} else w.used)
    case AllowRequest(reqID, username) =>
      var (r, answer) := Decide(w.r, reqID, true, username);
      var i := RequestAt(w.r.reqs, reqID);
      World(r, if answer == Granted && i >= 0 then w.log + [RequestAllowed(reqID, w.r.reqs[i].group,
          w.r.reqs[i].vhost)] else w.log, w.known, w.used)
    case DeclineRequest(reqID) =>
      var (r, answer) := Decide(w.r, reqID, false, "");
      World(r, if answer == Granted then w.log + [RequestDeclined(reqID)] else w.log, w.known, w.used)
    case Revoke(id) => w.(r := RevokePeer(w.r, id).0)
    case RevokeGroup(id, env) => w.(r := RevokePeerGroup(w.r, id, env).0)
  }

  // -------------------------------------------------------------------- invariant

  /** A group never holds two peers for one vhost. */
  ghost predicate OnePeerPerVHost(peers: seq<Peer>) {
    forall i, j :: 0 <= i < j < |peers| ==>
        peers[i].id != peers[j].id && (GroupOf(peers[i]) == GroupOf(peers[j]) ==> peers[i].vhost != peers[j].vhost)
  }

  /** And never two requests for one vhost. */
  ghost predicate OneRequestPerVHost(reqs: seq<Request>) {
    forall i, j :: 0 <= i < j < |reqs| ==>
        reqs[i].id != reqs[j].id && (reqs[i].group == reqs[j].group ==> reqs[i].vhost != reqs[j].vhost)
  }

  /** A peer's connection was paired with a code that gave it the permission it has. */
  ghost predicate Rooted(log: seq<Event>, p: Peer) {
    exists c: Code :: c.addVHosts == p.addVHosts && Paired(GroupOf(p), c) in log
  }

  /** How a peer came about. */
  ghost predicate Traced(log: seq<Event>, p: Peer) {
    || (p.group == "" && exists c: Code :: c.vhost == p.vhost && Paired(p.id, c) in log)
    || (p.group != "" && AddedByAllow(p.id, p.group, p.vhost) in log)
    || (p.group != "" && AddedByPermission(p.id, p.group, p.vhost) in log)
  }

  ghost predicate KnownOk(w: World, p: Peer) {
    p.id != "" && p.id in w.used && GroupOf(p) in w.used && Rooted(w.log, p) && Traced(w.log, p)
  }

  ghost predicate RequestOk(w: World, q: Request) {
    && q.id in w.used && q.group != ""
    && !(q.allowed && q.declined)
    && (q.allowed ==> RequestAllowed(q.id, q.group, q.vhost) in w.log)
    && (q.declined ==> RequestDeclined(q.id) in w.log)
    && ToldDeclined(q.id) !in w.log
  }

  /** The k-th event was justified by what came before it: a code is redeemed only after
      an administrator issued it; a vhost is added only after an administrator allowed it
      or by a connection whose code allows adding; a decline is told only after it was
      made, and only once. */
  ghost predicate Justified(log: seq<Event>, k: nat)
    requires k < |log|
  {
    match log[k]
    case Paired(_, c) => CodeIssued(c) in log[..k]
    case AddedByAllow(_, g, v) => exists q: string :: RequestAllowed(q, g, v) in log[..k]
    case AddedByPermission(_, g, _) => exists c: Code :: c.addVHosts && Paired(g, c) in log[..k]
    case ToldDeclined(q) => RequestDeclined(q) in log[..k] && ToldDeclined(q) !in log[..k]
    case _ => true
  }

  ghost predicate PeersKnown(w: World) {
    forall i :: 0 <= i < |w.r.peers| ==> w.r.peers[i] in w.known
  }

  ghost predicate AllKnownOk(w: World) {
    forall p :: p in w.known ==> KnownOk(w, p)
  }

  ghost predicate RequestsOk(w: World) {
    forall i :: 0 <= i < |w.r.reqs| ==> RequestOk(w, w.r.reqs[i])
  }

  ghost predicate CodesIssued(w: World) {
    forall i :: 0 <= i < |w.r.codes| ==> CodeIssued(w.r.codes[i]) in w.log
  }

  ghost predicate AllJustified(log: seq<Event>) {
    forall k :: 0 <= k < |log| ==> Justified(log, k)
  }

  ghost predicate ToldUsed(w: World) {
    forall q: string :: ToldDeclined(q) in w.log ==> q in w.used
  }

  ghost predicate Inv(w: World) {
    && OnePeerPerVHost(w.r.peers) && OneRequestPerVHost(w.r.reqs)
    && PeersKnown(w) && AllKnownOk(w) && RequestsOk(w) && CodesIssued(w)
    && AllJustified(w.log) && ToldUsed(w)
  }

  ghost predicate Within<T(!new)>(s: seq<T>, t: seq<T>) {
    forall i :: 0 <= i < |s| ==> s[i] in t
  }

  // ------------------------------------------------------------------ the log grows

  lemma LogGrows(log: seq<Event>, e: Event, k: nat)
    requires k < |log| && Justified(log, k)
    ensures Justified(log + [e], k)
  {
    assert (log + [e])[..k] == log[..k];
  }

  lemma KnownGrows(w: World, after: World, p: Peer)
    requires KnownOk(w, p) && w.used <= after.used && forall e :: e in w.log ==> e in after.log
    ensures KnownOk(after, p)
  {
  }

  lemma LogJustified(log: seq<Event>, e: Event)
    requires AllJustified(log) && Justified(log + [e], |log|)
    ensures AllJustified(log + [e])
  {
    forall k | 0 <= k < |log + [e]| ensures Justified(log + [e], k) {
      if k < |log| { LogGrows(log, e, k); }
    }
  }

  /** A step that touches neither known peers nor the log, and drops or keeps what is stored. */
  lemma Shrinks(w: World, after: World)
    requires Inv(w) && after.log == w.log && after.known == w.known && after.used == w.used
    requires OnePeerPerVHost(after.r.peers) && OneRequestPerVHost(after.r.reqs)
    requires Within(after.r.peers, w.r.peers) && Within(after.r.reqs, w.r.reqs) && Within(after.r.codes, w.r.codes)
    ensures Inv(after)
  {
    forall p | p in after.known ensures KnownOk(after, p) { KnownGrows(w, after, p); }
    forall i | 0 <= i < |after.r.reqs| ensures RequestOk(after, after.r.reqs[i]) {
      var j :| 0 <= j < |w.r.reqs| && w.r.reqs[j] == after.r.reqs[i];
    }
  }

  ghost predicate CodesFrom(codes: seq<Code>, before: seq<Code>, e: Event) {
    forall i :: 0 <= i < |codes| ==> codes[i] in before || CodeIssued(codes[i]) == e
  }

  /** One event is added; the stored lists keep to what is stored, up to the new peer. */
  lemma Logs(w: World, after: World, e: Event)
    requires Inv(w) && after.log == w.log + [e] && w.used <= after.used
    requires Justified(after.log, |w.log|)
    requires OnePeerPerVHost(after.r.peers) && OneRequestPerVHost(after.r.reqs)
    requires PeersKnown(after) && RequestsOk(after)
    requires w.known <= after.known && forall p :: p in after.known && p !in w.known ==> KnownOk(after, p)
    requires CodesFrom(after.r.codes, w.r.codes, e)
    requires e.ToldDeclined? ==> e.reqID in after.used
    ensures Inv(after)
  {
    hide Justified, PeersKnown, RequestsOk, OnePeerPerVHost, OneRequestPerVHost;
    LogJustified(w.log, e);
    forall p | p in after.known ensures KnownOk(after, p) {
      if p in w.known { KnownGrows(w, after, p); }
    }
  }

  // ------------------------------------------------------------------- each action

  lemma WithoutKeeps<T(!new)>(s: seq<T>, i: nat)
    requires i < |s|
    ensures Within(Without(s, i), s)
  {
  }

  lemma UnexpiredSub(codes: seq<Code>, now: int)
    ensures Within(Unexpired(codes, now), codes)
  {
    assert forall k :: 0 <= k < |Unexpired(codes, now)| ==> Unexpired(codes, now)[k] in Unexpired(codes, now);
  }

  lemma WithinAll<T(!new)>(s: seq<T>, t: seq<T>, u: seq<T>)
    requires Within(s, t) && Within(t, u)
    ensures Within(s, u)
  {
  }

  lemma IssueSafe(w: World, c: Code, now: int)
    requires Inv(w)
    ensures Inv(Step(w, IssueCode(c, now)))
  {
    var after := Step(w, IssueCode(c, now));
    UnexpiredSub(w.r.codes, now);
    forall i | 0 <= i < |after.r.reqs| ensures RequestOk(after, after.r.reqs[i]) { assert RequestOk(w, w.r.reqs[i]); }
    Logs(w, after, CodeIssued(c));
  }

  /** A peer with a fresh ID joins its group, where nobody serves its vhost yet. */
  lemma JoinPeers(w: World, p: Peer)
    requires Inv(w) && p.id !in w.used
    requires forall i :: 0 <= i < |w.r.peers| && GroupOf(w.r.peers[i]) == GroupOf(p) ==> w.r.peers[i].vhost != p.vhost
    ensures OnePeerPerVHost(w.r.peers + [p])
  {
    forall i | 0 <= i < |w.r.peers| ensures w.r.peers[i].id != p.id { assert KnownOk(w, w.r.peers[i]); }
  }

  lemma PairCodes(r: Recv, hash: string, now: int, id: string, env: Env)
    ensures Within(Pair(r, hash, now, id, env).0.codes, r.codes)
    ensures Pair(r, hash, now, id, env).0.reqs == r.reqs
    ensures var (t, i) := (Pair(r, hash, now, id, env).0, SpentCode(r, hash, now));
            t.peers == r.peers || (i >= 0 && t.peers == r.peers + [NewPeer(id, Unexpired(r.codes, now)[i])])
  {
    UnexpiredSub(r.codes, now);
    var i := SpentCode(r, hash, now);
    if i >= 0 {
      WithoutKeeps(Unexpired(r.codes, now), i);
      WithinAll(Without(Unexpired(r.codes, now), i), Unexpired(r.codes, now), r.codes);
    }
    hide Unexpired, Within;
  }

  function NewPeer(id: string, c: Code): Peer { Peer(id, c.vhost, "", c.addVHosts) }

  lemma PairJoins(w: World, after: World, id: string, c: Code)
    requires Inv(w) && id != "" && id !in w.used && CodeIssued(c) in w.log
    requires after.log == w.log + [Paired(id, c)] && after.known == w.known + {NewPeer(id, c)} &&
        after.used == w.used + {id}
    requires after.r.peers == w.r.peers + [NewPeer(id, c)] && after.r.reqs == w.r.reqs &&
        Within(after.r.codes, w.r.codes)
    ensures Inv(after)
  {
    var p := NewPeer(id, c);
    forall k | 0 <= k < |w.r.peers| ensures GroupOf(w.r.peers[k]) != id { assert KnownOk(w, w.r.peers[k]); }
    JoinPeers(w, p);
    assert after.log[|w.log|] == Paired(id, c) && after.log[..|w.log|] == w.log;
    assert KnownOk(after, p);
    forall k | 0 <= k < |after.r.reqs| ensures RequestOk(after, after.r.reqs[k]) { assert RequestOk(w, w.r.reqs[k]); }
    hide RequestOk, KnownOk, OnePeerPerVHost, OneRequestPerVHost;
    Logs(w, after, Paired(id, c));
  }

  lemma PairSafe(w: World, hash: string, now: int, id: string, env: Env)
    requires Inv(w) && Enabled(w, PairWith(hash, now, id, env))
    ensures Inv(Step(w, PairWith(hash, now, id, env)))
  {
    PairCodes(w.r, hash, now, id, env);
    UnexpiredSub(w.r.codes, now);
    hide Pair, Unexpired, SpentCode, OnePeerPerVHost, OneRequestPerVHost, AllKnownOk, RequestsOk, AllJustified,
        ToldUsed;
    var after := Step(w, PairWith(hash, now, id, env));
    var i := SpentCode(w.r, hash, now);
    if |after.r.peers| > |w.r.peers| {
      PairJoins(w, after, id, Unexpired(w.r.codes, now)[i]);
    } else {
      Shrinks(w, after);
    }
  }

  /** A decline is told: its request goes, and so it is told once. */
  lemma TellDeclined(w: World, after: World, i: nat)
    requires Inv(w) && i < |w.r.reqs| && w.r.reqs[i].declined
    requires after == World(w.r.(reqs := Without(w.r.reqs, i)), w.log + [ToldDeclined(w.r.reqs[i].id)], w.known, w.used)
    ensures Inv(after)
  {
    assert RequestOk(w, w.r.reqs[i]);
    assert after.log[..|w.log|] == w.log && after.log[|w.log|] == ToldDeclined(w.r.reqs[i].id);
    forall k | 0 <= k < |after.r.reqs| ensures RequestOk(after, after.r.reqs[k]) {
      var m := if k < i then k else k + 1;
      assert after.r.reqs[k] == w.r.reqs[m] && RequestOk(w, w.r.reqs[m]);
    }
    hide RequestOk, KnownOk, OnePeerPerVHost, AllKnownOk, AllJustified;
    Logs(w, after, ToldDeclined(w.r.reqs[i].id));
  }

  lemma AskKeepsOutShape(r: Recv, peer: Peer, vhost: string, id: string, reqID: string, env: Env)
    requires |AddPeerVHost(r, peer, vhost, id, reqID, env).0.peers| == |r.peers|
    ensures var (t, answer) := AddPeerVHost(r, peer, vhost, id, reqID, env);
            var i := FindRequest(r.reqs, GroupOf(peer), vhost);
            (answer == Declined ==> i >= 0 && r.reqs[i].declined && t == r.(reqs := Without(r.reqs, i))) &&
            (answer != Declined ==>
              t == r || (i < 0 && t == r.(reqs := r.reqs + [Request(reqID, GroupOf(peer), vhost, false, "", false)])))
  {
    hide Reaches, FindRequest;
  }

  /** The answers AddPeerVHost gives without a new peer: refused, waiting, or declined. */
  lemma AskKeepsOut(w: World, a: Action)
    requires Inv(w) && a.AskVHost? && Enabled(w, a)
    requires |AddPeerVHost(w.r, a.peer, a.vhost, a.id, a.reqID, a.env).0.peers| == |w.r.peers|
    ensures Inv(Step(w, a))
  {
    hide AddPeerVHost, Inv, FindRequest;
    AskKeepsOutShape(w.r, a.peer, a.vhost, a.id, a.reqID, a.env);
    var (r, answer) := AddPeerVHost(w.r, a.peer, a.vhost, a.id, a.reqID, a.env);
    var i := FindRequest(w.r.reqs, GroupOf(a.peer), a.vhost);
    if answer == Declined {
      TellDeclined(w, Step(w, a), i);
    } else if |r.reqs| > |w.r.reqs| {
      NewRequest(w, Step(w, a), a);
    } else {
      assert r == w.r && Step(w, a) == w;
    }
  }

  lemma NewRequest(w: World, after: World, a: Action)
    requires Inv(w) && a.AskVHost? && Enabled(w, a) && FindRequest(w.r.reqs, GroupOf(a.peer), a.vhost) < 0
    requires after == World(w.r.(reqs := w.r.reqs + [Request(a.reqID, GroupOf(a.peer), a.vhost, false, "", false)]),
        w.log, w.known, w.used + {a.reqID})
    ensures Inv(after)
  {
    assert KnownOk(w, a.peer);
    forall p | p in after.known ensures KnownOk(after, p) { KnownGrows(w, after, p); }
    forall k | 0 <= k < |after.r.reqs| ensures RequestOk(after, after.r.reqs[k]) {
      if k < |w.r.reqs| { assert RequestOk(w, w.r.reqs[k]); }
    }
    forall k | 0 <= k < |w.r.reqs| ensures w.r.reqs[k].id != a.reqID { assert RequestOk(w, w.r.reqs[k]); }
  }

  /** What AddPeerVHost leaves when it adds a peer. */
  lemma AskAddsShape(r: Recv, peer: Peer, vhost: string, id: string, reqID: string, env: Env)
    requires |AddPeerVHost(r, peer, vhost, id, reqID, env).0.peers| > |r.peers|
    ensures var t, i := AddPeerVHost(r, peer, vhost, id, reqID, env).0, FindRequest(r.reqs, GroupOf(peer), vhost);
            t.peers == r.peers + [Peer(id, vhost, GroupOf(peer), peer.addVHosts)] && t.codes == r.codes &&
            (if i >= 0 then r.reqs[i].allowed else peer.addVHosts) &&
            (t.reqs == r.reqs || (i >= 0 && t.reqs == Without(r.reqs, i)))
    ensures !Reaches(r.peers, GroupOf(peer), vhost)
  {
    hide Reaches, FindRequest;
  }

  lemma WithoutKeepsOne(reqs: seq<Request>, i: nat)
    requires OneRequestPerVHost(reqs) && i < |reqs|
    ensures OneRequestPerVHost(Without(reqs, i))
  {
    var r := Without(reqs, i);
    assert forall k :: 0 <= k < |r| ==> r[k] == reqs[if k < i then k else k + 1];
  }

  lemma AddJustified(w: World, log: seq<Event>, a: Action, i: int, e: Event)
    requires Inv(w) && a.AskVHost? && a.peer in w.known && log == w.log + [e] && -1 <= i < |w.r.reqs|
    requires e == if i >= 0 then AddedByAllow(a.id, GroupOf(a.peer), a.vhost)
        else AddedByPermission(a.id, GroupOf(a.peer), a.vhost)
    requires i >= 0 ==> w.r.reqs[i].allowed && w.r.reqs[i].group == GroupOf(a.peer) && w.r.reqs[i].vhost == a.vhost
    requires i < 0 ==> a.peer.addVHosts
    ensures Justified(log, |w.log|)
  {
    assert log[..|w.log|] == w.log && log[|w.log|] == e;
    if i >= 0 {
      assert RequestOk(w, w.r.reqs[i]);
    } else {
      assert KnownOk(w, a.peer);
    }
  }

  lemma NotReached(peers: seq<Peer>, group: string, vhost: string)
    requires !Reaches(peers, group, vhost)
    ensures forall i :: 0 <= i < |peers| && GroupOf(peers[i]) == group ==> peers[i].vhost != vhost
  {
  }

  /** A peer joins by an administrator's allow, whose request may stay, or by permission. */
  lemma AskJoins(w: World, after: World, a: Action, i: int, e: Event)
    requires Inv(w) && a.AskVHost? && Enabled(w, a) && -1 <= i < |w.r.reqs|
    requires i >= 0 ==> w.r.reqs[i].allowed && w.r.reqs[i].group == GroupOf(a.peer) && w.r.reqs[i].vhost == a.vhost
    requires i < 0 ==> a.peer.addVHosts
    requires !Reaches(w.r.peers, GroupOf(a.peer), a.vhost)
    requires e == if i >= 0 then AddedByAllow(a.id, GroupOf(a.peer), a.vhost)
        else AddedByPermission(a.id, GroupOf(a.peer), a.vhost)
    requires var p := Peer(a.id, a.vhost, GroupOf(a.peer), a.peer.addVHosts);
             after.log == w.log + [e] && after.known == w.known + {p} && after.used == w.used + {a.id} &&
             after.r.peers == w.r.peers + [p] && after.r.codes == w.r.codes
    requires after.r.reqs == w.r.reqs || (i >= 0 && after.r.reqs == Without(w.r.reqs, i))
    ensures Inv(after)
  {
    var p := Peer(a.id, a.vhost, GroupOf(a.peer), a.peer.addVHosts);
    assert KnownOk(w, a.peer);
    NotReached(w.r.peers, GroupOf(a.peer), a.vhost);
    AddJustified(w, after.log, a, i, e);
    hide KnownOk, Justified, AllJustified, AllKnownOk, Reaches;
    AddedKnown(w, after, a.peer, p, e);
    JoinPeers(w, p);
    StillAsked(w, after, i);
    if i >= 0 { WithoutKeepsOne(w.r.reqs, i); }
    hide OnePeerPerVHost, OneRequestPerVHost, RequestOk;
    Logs(w, after, e);
  }

  /** The answers that come with a new peer. */
  lemma AskAdds(w: World, a: Action)
    requires Inv(w) && a.AskVHost? && Enabled(w, a)
    requires |AddPeerVHost(w.r, a.peer, a.vhost, a.id, a.reqID, a.env).0.peers| > |w.r.peers|
    ensures Inv(Step(w, a))
  {
    hide AddPeerVHost, FindRequest, Reaches, Inv;
    AskAddsShape(w.r, a.peer, a.vhost, a.id, a.reqID, a.env);
    var group := GroupOf(a.peer);
    var i := FindRequest(w.r.reqs, group, a.vhost);
    var e := if i >= 0 then AddedByAllow(a.id, group, a.vhost) else AddedByPermission(a.id, group, a.vhost);
    AskJoins(w, Step(w, a), a, i, e);
  }

  lemma AddedKnown(w: World, after: World, peer: Peer, p: Peer, e: Event)
    requires KnownOk(w, peer) && after.log == w.log + [e] && after.used == w.used + {p.id}
    requires p == Peer(p.id, p.vhost, GroupOf(peer), peer.addVHosts) && p.id != ""
    requires e == AddedByAllow(p.id, p.group, p.vhost) || e == AddedByPermission(p.id, p.group, p.vhost)
    ensures KnownOk(after, p)
  {
    assert e in after.log;
    var c: Code :| c.addVHosts == peer.addVHosts && Paired(GroupOf(peer), c) in w.log;
    assert Paired(GroupOf(p), c) in after.log;
  }

  lemma StillAsked(w: World, after: World, i: int)
    requires Inv(w) && -1 <= i < |w.r.reqs| && w.used <= after.used
    requires after.r.reqs == w.r.reqs || (i >= 0 && after.r.reqs == Without(w.r.reqs, i))
    requires forall x :: x in w.log ==> x in after.log
    requires forall q: string :: ToldDeclined(q) in after.log ==> ToldDeclined(q) in w.log
    ensures forall k :: 0 <= k < |after.r.reqs| ==> RequestOk(after, after.r.reqs[k])
  {
    forall k | 0 <= k < |after.r.reqs| ensures RequestOk(after, after.r.reqs[k]) {
      var m := if after.r.reqs == w.r.reqs || k < i then k else k + 1;
      assert after.r.reqs[k] == w.r.reqs[m] && RequestOk(w, w.r.reqs[m]);
    }
  }

  lemma DecideSafe(w: World, a: Action)
    requires Inv(w) && (a.AllowRequest? || a.DeclineRequest?)
    ensures Inv(Step(w, a))
  {
    var after := Step(w, a);
    var i := RequestAt(w.r.reqs, a.reqID);
    if after.log != w.log {
      assert RequestOk(w, w.r.reqs[i]);
      var e := if a.AllowRequest? then RequestAllowed(a.reqID, w.r.reqs[i].group, w.r.reqs[i].vhost)
          else RequestDeclined(a.reqID);
      assert after.log == w.log + [e];
      assert e in after.log;
      forall k | 0 <= k < |after.r.reqs| ensures RequestOk(after, after.r.reqs[k]) { assert RequestOk(w, w.r.reqs[k]); }
      Logs(w, after, e);
    } else {
      assert after == w;
    }
  }

  lemma {:induction false} OutsideOne(peers: seq<Peer>, group: string)
    requires OnePeerPerVHost(peers)
    ensures OnePeerPerVHost(PeersOutside(peers, group))
  {
    if peers != [] {
      var front, last := peers[..|peers| - 1], peers[|peers| - 1];
      OutsideOne(front, group);
      var r := PeersOutside(front, group);
      forall k | 0 <= k < |r| ensures r[k].id != last.id && (GroupOf(r[k]) == GroupOf(last) ==>
          r[k].vhost != last.vhost) {
        assert r[k] in r && r[k] in front;
        var j :| 0 <= j < |front| && front[j] == r[k];
        assert peers[j] == r[k];
      }
    }
  }

  lemma {:induction false} OutsideOneRequest(reqs: seq<Request>, group: string)
    requires OneRequestPerVHost(reqs)
    ensures OneRequestPerVHost(RequestsOutside(reqs, group))
  {
    if reqs != [] {
      var front, last := reqs[..|reqs| - 1], reqs[|reqs| - 1];
      OutsideOneRequest(front, group);
      var r := RequestsOutside(front, group);
      forall k | 0 <= k < |r| ensures r[k].id != last.id && (r[k].group == last.group ==> r[k].vhost != last.vhost) {
        assert r[k] in r && r[k] in front;
        var j :| 0 <= j < |front| && front[j] == r[k];
        assert reqs[j] == r[k];
      }
    }
  }

  lemma OutsideStored(peers: seq<Peer>, group: string, k: nat)
    requires k < |PeersOutside(peers, group)|
    ensures PeersOutside(peers, group)[k] in peers
  {
    assert PeersOutside(peers, group)[k] in PeersOutside(peers, group);
  }

  lemma OutsideStoredRequest(reqs: seq<Request>, group: string, k: nat)
    requires k < |RequestsOutside(reqs, group)|
    ensures RequestsOutside(reqs, group)[k] in reqs
  {
    assert RequestsOutside(reqs, group)[k] in RequestsOutside(reqs, group);
  }

  lemma RevokeSafe(w: World, id: string)
    requires Inv(w)
    ensures Inv(Step(w, Revoke(id)))
  {
    var i := PeerAt(w.r.peers, id);
    if i >= 0 { WithoutKeeps(w.r.peers, i); }
    Shrinks(w, Step(w, Revoke(id)));
  }

  lemma RevokeGroupSafe(w: World, id: string, env: Env)
    requires Inv(w)
    ensures Inv(Step(w, RevokeGroup(id, env)))
  {
    hide PeersOutside, RequestsOutside;
    var after := Step(w, RevokeGroup(id, env));
    var i := PeerAt(w.r.peers, id);
    if i >= 0 {
      var group := GroupOf(w.r.peers[i]);
      OutsideOne(w.r.peers, group);
      OutsideOneRequest(w.r.reqs, group);
      forall k | 0 <= k < |after.r.peers| ensures after.r.peers[k] in w.r.peers { OutsideStored(w.r.peers, group, k); }
      forall k | 0 <= k < |after.r.reqs| ensures after.r.reqs[k] in w.r.reqs {
        if !env.stops { OutsideStoredRequest(w.r.reqs, group, k); }
      }
      Shrinks(w, after);
    }
  }

  lemma StepSafe(w: World, a: Action)
    requires Inv(w) && Enabled(w, a)
    ensures Inv(Step(w, a)) && w.log <= Step(w, a).log
  {
    hide Inv;
    match a
    case IssueCode(c, now) => IssueSafe(w, c, now);
    case PairWith(hash, now, id, env) => PairSafe(w, hash, now, id, env);
    case AskVHost(peer, vhost, id, reqID, env) =>
      var r := AddPeerVHost(w.r, peer, vhost, id, reqID, env).0;
      assert |r.peers| >= |w.r.peers|;
      if |r.peers| == |w.r.peers| { AskKeepsOut(w, a); } else { AskAdds(w, a); }
    case AllowRequest(_, _) => DecideSafe(w, a);
    case DeclineRequest(_) => DecideSafe(w, a);
    case Revoke(id) => RevokeSafe(w, id);
    case RevokeGroup(id, env) => RevokeGroupSafe(w, id, env);
  }

  // ------------------------------------------------------------------- whole runs

  ghost predicate Runs(w: World, actions: seq<Action>)
    decreases |actions|
  {
    actions == [] || (Enabled(w, actions[0]) && Runs(Step(w, actions[0]), actions[1..]))
  }

  function End(w: World, actions: seq<Action>): World
    decreases |actions|
  {
    if actions == [] then w else End(Step(w, actions[0]), actions[1..])
  }

  const START := World(Recv([], [], [], 0), [], {}, {})

  /** Over every run, stops between two saves included: a connection group never holds two
      peers, or two requests, for one vhost; every peer traces back to a code that was
      issued, to an administrator's allow or to a permission to add; and each decline is
      told at most once. */
  lemma {:induction false} ReceivingSideHolds(w: World, actions: seq<Action>)
    requires Inv(w) && Runs(w, actions)
    ensures Inv(End(w, actions)) && w.log <= End(w, actions).log
    decreases |actions|
  {
    hide Inv, Step, Enabled;
    if actions != [] {
      StepSafe(w, actions[0]);
      ReceivingSideHolds(Step(w, actions[0]), actions[1..]);
    }
  }

  lemma StartOk()
    ensures Inv(START)
  {
  }

  /** A declined request is reported to whoever asks next, and is gone with that: asking
      once more starts over. */
  lemma DeclineToldOnceThenGone(w: World, peer: Peer, vhost: string, id: string, reqID: string, env: Env)
    requires Inv(w) && AddPeerVHost(w.r, peer, vhost, id, reqID, env).1 == Declined
    ensures var r := AddPeerVHost(w.r, peer, vhost, id, reqID, env).0;
      && FindRequest(r.reqs, GroupOf(peer), vhost) < 0
      && |r.reqs| == |w.r.reqs| - 1 && r.peers == w.r.peers
      && forall id', reqID', env' :: AddPeerVHost(r, peer, vhost, id', reqID', env').1 != Declined
  {
    var i := FindRequest(w.r.reqs, GroupOf(peer), vhost);
    var rest := Without(w.r.reqs, i);
    forall k | 0 <= k < |rest| ensures !(rest[k].group == GroupOf(peer) && rest[k].vhost == vhost) {
      var m := if k < i then k else k + 1;
      assert rest[k] == w.r.reqs[m] && m != i;
    }
  }

  /** Cutting a connection off deletes its peers, but a call that was let in before that
      still carries the peer it came from. Such a late call brings the connection back
      exactly when the peer may add vhosts on its own and has no request waiting, or has
      one that was allowed. */
  lemma CutOffReturnsIff(r: Recv, peer: Peer, vhost: string, id: string, reqID: string, env: Env)
    requires forall k :: 0 <= k < |r.peers| ==> GroupOf(r.peers[k]) != GroupOf(peer)
    requires ValidVHost(vhost) && vhost != "all" && !env.vhostFails && id != "" && peer.id != ""
    ensures var after := AddPeerVHost(r, peer, vhost, id, reqID, env).0; var i := FindRequest(r.reqs, GroupOf(peer),
        vhost);
      (exists k :: 0 <= k < |after.peers| && GroupOf(after.peers[k]) == GroupOf(peer)) <==>
      (if i < 0 then peer.addVHosts else r.reqs[i].allowed && !r.reqs[i].declined)
  {
    var after := AddPeerVHost(r, peer, vhost, id, reqID, env).0;
    if |after.peers| > |r.peers| {
      assert GroupOf(after.peers[|r.peers|]) == GroupOf(peer);
    }
  }
}
