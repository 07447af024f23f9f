/** How often one administrator's allow adds a peer (internal/environment/connection.go,
    issueVHostPeer: the peer is saved first, the request it was allowed by afterwards). */
module PeerAllows {
  import opened Sequences
  import opened PeerConnections
  import opened PeerHistory
  import opened PeerRuns

  function IsAllow(e: Event, group: string, vhost: string): nat {
    if e.RequestAllowed? && e.group == group && e.vhost == vhost then 1 else 0
  }

  function IsAdd(e: Event, group: string, vhost: string): nat {
    if e.AddedByAllow? && e.group == group && e.vhost == vhost then 1 else 0
  }

  /** How often the group was allowed the vhost, and how often a peer was added by an allow. */
  function Allows(log: seq<Event>, group: string, vhost: string): nat {
    if log == [] then 0 else Allows(log[..|log| - 1], group, vhost) + IsAllow(log[|log| - 1], group, vhost)
  }

  function Adds(log: seq<Event>, group: string, vhost: string): nat {
    if log == [] then 0 else Adds(log[..|log| - 1], group, vhost) + IsAdd(log[|log| - 1], group, vhost)
  }

  lemma OneMore(log: seq<Event>, e: Event, group: string, vhost: string)
    ensures Allows(log + [e], group, vhost) == Allows(log, group, vhost) + IsAllow(e, group, vhost)
    ensures Adds(log + [e], group, vhost) == Adds(log, group, vhost) + IsAdd(e, group, vhost)
  {
    assert (log + [e])[..|log|] == log;
  }

  /** An allow of the group for the vhost is still to be used. */
  predicate Unspent(reqs: seq<Request>, group: string, vhost: string) {
    FindRequest(reqs, group, vhost) >= 0 && reqs[FindRequest(reqs, group, vhost)].allowed
  }

  function Left(reqs: seq<Request>, group: string, vhost: string): nat {
    if Unspent(reqs, group, vhost) then 1 else 0
  }

  /** Every peer added by an allow, and every allow still unspent, has an allow of its own. */
  ghost predicate Spent(w: World, group: string, vhost: string) {
    Adds(w.log, group, vhost) + Left(w.r.reqs, group, vhost) <= Allows(w.log, group, vhost)
  }

  /** The ask adds a peer by an allow. */
  predicate AddsByAllow(w: World, a: Action) {
    a.AskVHost? && |Step(w, a).r.peers| > |w.r.peers| && FindRequest(w.r.reqs, GroupOf(a.peer), a.vhost) >= 0
  }

  /** Such an ask runs to its end, and the administrator who allowed it has a name. */
  predicate SpendsWhole(w: World, a: Action) {
    AddsByAllow(w, a) ==>
      !a.env.stops && w.r.reqs[FindRequest(w.r.reqs, GroupOf(a.peer), a.vhost)].allowedBy != ""
  }

  // --------------------------------------------------------------------- requests

  /** Requests of other groups or vhosts do not decide what is found. */
  lemma {:induction false} FindUnique(reqs: seq<Request>, i: nat)
    requires OneRequestPerVHost(reqs) && i < |reqs|
    ensures FindRequest(reqs, reqs[i].group, reqs[i].vhost) == i
  {
    var j := FindRequest(reqs, reqs[i].group, reqs[i].vhost);
    assert j >= 0;
  }

  /** What is still unspent afterwards was unspent before. */
  lemma LeftLess(before: seq<Request>, after: seq<Request>, group: string, vhost: string)
    requires OneRequestPerVHost(before)
    requires forall k :: 0 <= k < |after| ==> after[k] in before || !after[k].allowed
    ensures Left(after, group, vhost) <= Left(before, group, vhost)
  {
    if Unspent(after, group, vhost) {
      var q := after[FindRequest(after, group, vhost)];
      var i :| 0 <= i < |before| && before[i] == q;
      FindUnique(before, i);
    }
  }

  lemma RemovedIsGone(reqs: seq<Request>, i: nat)
    requires OneRequestPerVHost(reqs) && i < |reqs|
    ensures FindRequest(Without(reqs, i), reqs[i].group, reqs[i].vhost) < 0
  {
    var r := Without(reqs, i);
    forall k | 0 <= k < |r| ensures !(r[k].group == reqs[i].group && r[k].vhost == reqs[i].vhost) {
      var m := if k < i then k else k + 1;
      assert r[k] == reqs[m] && m != i;
    }
  }

  /** An ask that adds by an allow uses the allow up exactly when it runs to its end and the
      allow names who gave it. */
  lemma AskSpendsIff(w: World, a: Action)
    requires Inv(w) && Enabled(w, a) && AddsByAllow(w, a)
    ensures !Unspent(Step(w, a).r.reqs, GroupOf(a.peer), a.vhost) <==> SpendsWhole(w, a)
  {
    var group := GroupOf(a.peer);
    var i := FindRequest(w.r.reqs, group, a.vhost);
    AskAddsShape(w.r, a.peer, a.vhost, a.id, a.reqID, a.env);
    RemovedIsGone(w.r.reqs, i);
    AskLeaves(w.r, a.peer, a.vhost, a.id, a.reqID, a.env);
    hide AddPeerVHost, FindRequest, Inv;
  }

  /** What is left of the requests by an ask that adds by an allow. */
  lemma AskLeaves(r: Recv, peer: Peer, vhost: string, id: string, reqID: string, env: PeerConnections.Env)
    requires |AddPeerVHost(r, peer, vhost, id, reqID, env).0.peers| > |r.peers|
    requires FindRequest(r.reqs, GroupOf(peer), vhost) >= 0
    ensures var i := FindRequest(r.reqs, GroupOf(peer), vhost);
      AddPeerVHost(r, peer, vhost, id, reqID, env).0.reqs ==
      if env.stops || r.reqs[i].allowedBy == "" then r.reqs else Without(r.reqs, i)
  {
    hide FindRequest, Reaches;
  }

  // -------------------------------------------------------------------- every step

  lemma AskSpent(w: World, a: Action, group: string, vhost: string)
    requires Inv(w) && Enabled(w, a) && a.AskVHost? && SpendsWhole(w, a) && Spent(w, group, vhost)
    ensures Spent(Step(w, a), group, vhost)
  {
    var r, after := w.r, Step(w, a).r;
    if |after.peers| > |r.peers| {
      AskAddsSpent(w, a, group, vhost);
    } else {
      AskOtherSpent(w, a, group, vhost);
    }
  }

  lemma AskAddsSpent(w: World, a: Action, group: string, vhost: string)
    requires Inv(w) && Enabled(w, a) && a.AskVHost? && SpendsWhole(w, a) && Spent(w, group, vhost)
    requires |AddPeerVHost(w.r, a.peer, a.vhost, a.id, a.reqID, a.env).0.peers| > |w.r.peers|
    ensures Spent(Step(w, a), group, vhost)
  {
    var g := GroupOf(a.peer);
    var i := FindRequest(w.r.reqs, g, a.vhost);
    AskAddsShape(w.r, a.peer, a.vhost, a.id, a.reqID, a.env);
    hide AddPeerVHost;
    var after := Step(w, a);
    var e := if i >= 0 then AddedByAllow(a.id, g, a.vhost) else AddedByPermission(a.id, g, a.vhost);
    assert after.log == w.log + [e];
    OneMore(w.log, e, group, vhost);
    if i >= 0 { AskSpendsIff(w, a); }
    hide FindRequest, Inv, Step, Allows, Adds;
    WithinWithout(w.r.reqs, after.r.reqs, i);
    InvRequests(w);
    LeftLess(w.r.reqs, after.r.reqs, group, vhost);
  }

  lemma InvRequests(w: World)
    requires Inv(w)
    ensures OneRequestPerVHost(w.r.reqs)
  {
  }

  lemma WithinWithout(before: seq<Request>, after: seq<Request>, i: int)
    requires -1 <= i < |before| && (after == before || (i >= 0 && after == Without(before, i)))
    ensures forall k :: 0 <= k < |after| ==> after[k] in before
  {
  }

  lemma AskOtherSpent(w: World, a: Action, group: string, vhost: string)
    requires Inv(w) && Enabled(w, a) && a.AskVHost? && Spent(w, group, vhost)
    requires |AddPeerVHost(w.r, a.peer, a.vhost, a.id, a.reqID, a.env).0.peers| <= |w.r.peers|
    ensures Spent(Step(w, a), group, vhost)
  {
    AskNoFewer(w.r, a.peer, a.vhost, a.id, a.reqID, a.env);
    AskKeepsOutShape(w.r, a.peer, a.vhost, a.id, a.reqID, a.env);
    hide AddPeerVHost;
    var after, i := Step(w, a), FindRequest(w.r.reqs, GroupOf(a.peer), a.vhost);
    if i >= 0 { OneMore(w.log, ToldDeclined(w.r.reqs[i].id), group, vhost); }
    assert forall k :: 0 <= k < |after.r.reqs| ==> after.r.reqs[k] in w.r.reqs || !after.r.reqs[k].allowed;
    InvRequests(w);
    hide FindRequest, Inv, Step, Allows, Adds;
    LeftLess(w.r.reqs, after.r.reqs, group, vhost);
  }

  lemma AskNoFewer(r: Recv, peer: Peer, vhost: string, id: string, reqID: string, env: PeerConnections.Env)
    ensures |AddPeerVHost(r, peer, vhost, id, reqID, env).0.peers| >= |r.peers|
  {
    hide FindRequest, Reaches;
  }

  lemma DecideSpent(w: World, a: Action, group: string, vhost: string)
    requires Inv(w) && (a.AllowRequest? || a.DeclineRequest?) && Spent(w, group, vhost)
    ensures Spent(Step(w, a), group, vhost)
  {
    var i, after := RequestAt(w.r.reqs, a.reqID), Step(w, a);
    if after.log == w.log {
      assert after.r == w.r;
    } else {
      var q := w.r.reqs[i];
      var e := if a.AllowRequest? then RequestAllowed(a.reqID, q.group, q.vhost) else RequestDeclined(a.reqID);
      assert after.log == w.log + [e] && !q.allowed;
      OneMore(w.log, e, group, vhost);
      FindUnique(w.r.reqs, i);
      DecidedFound(w.r.reqs, after.r.reqs, i, group, vhost);
    }
  }

  /** Deciding request i changes what is unspent only for its own group and vhost. */
  lemma DecidedFound(before: seq<Request>, after: seq<Request>, i: nat, group: string, vhost: string)
    requires OneRequestPerVHost(before) && i < |before| && |after| == |before| && after == before[i := after[i]]
    requires after[i].group == before[i].group && after[i].vhost == before[i].vhost
    ensures FindRequest(after, group, vhost) == FindRequest(before, group, vhost)
    ensures !(before[i].group == group && before[i].vhost == vhost) ==>
      Left(after, group, vhost) == Left(before, group, vhost)
  {
    var f, f' := FindRequest(before, group, vhost), FindRequest(after, group, vhost);
    if f >= 0 { assert after[f].group == group && after[f].vhost == vhost; }
    if f' >= 0 { assert before[f'].group == group && before[f'].vhost == vhost; }
  }

  lemma OtherSpent(w: World, a: Action, group: string, vhost: string)
    requires Inv(w) && Enabled(w, a) && Spent(w, group, vhost)
    requires a.IssueCode? || a.PairWith? || a.Revoke? || a.RevokeGroup?
    ensures Spent(Step(w, a), group, vhost)
  {
    var after := Step(w, a);
    if a.PairWith? { PairCodes(w.r, a.hash, a.now, a.id, a.env); }
    assert after.log == w.log ||
      (|after.log| == |w.log| + 1 && after.log == w.log + [after.log[|w.log|]] &&
       IsAllow(after.log[|w.log|], group, vhost) == IsAdd(after.log[|w.log|], group, vhost) == 0);
    if after.log != w.log { OneMore(w.log, after.log[|w.log|], group, vhost); }
    InvRequests(w);
    RequestsStay(w, a);
    hide Inv, Step, FindRequest, Allows, Adds, RequestsOutside, Unexpired, PeersOutside;
    LeftLess(w.r.reqs, after.r.reqs, group, vhost);
  }

  lemma RequestsStay(w: World, a: Action)
    requires a.IssueCode? || a.PairWith? || a.Revoke? || a.RevokeGroup?
    ensures forall k :: 0 <= k < |Step(w, a).r.reqs| ==> Step(w, a).r.reqs[k] in w.r.reqs
  {
    if a.PairWith? { PairCodes(w.r, a.hash, a.now, a.id, a.env); }
    var after := Step(w, a);
    forall k | 0 <= k < |after.r.reqs| ensures after.r.reqs[k] in w.r.reqs {
      if a.RevokeGroup? && PeerAt(w.r.peers, a.id) >= 0 && !a.env.stops {
        OutsideStoredRequest(w.r.reqs, GroupOf(w.r.peers[PeerAt(w.r.peers, a.id)]), k);
      }
    }
  }

  lemma StepSpent(w: World, a: Action, group: string, vhost: string)
    requires Inv(w) && Enabled(w, a) && SpendsWhole(w, a) && Spent(w, group, vhost)
    ensures Spent(Step(w, a), group, vhost)
  {
    hide Inv, Enabled, SpendsWhole, Spent, Step;
    match a
    case AskVHost(_, _, _, _, _) => AskSpent(w, a, group, vhost);
    case AllowRequest(_, _) => DecideSpent(w, a, group, vhost);
    case DeclineRequest(_) => DecideSpent(w, a, group, vhost);
    case _ => OtherSpent(w, a, group, vhost);
  }

  /** A run in which every ask that adds by an allow uses it up. */
  ghost predicate WholeRun(w: World, actions: seq<Action>)
    decreases |actions|
  {
    actions == [] ||
    (Enabled(w, actions[0]) && SpendsWhole(w, actions[0]) && WholeRun(Step(w, actions[0]), actions[1..]))
  }

  /** Over such a run, a group gets at most one peer for a vhost out of each allow. */
  lemma {:induction false} OneAllowOnePeer(w: World, actions: seq<Action>, group: string, vhost: string)
    requires Inv(w) && Spent(w, group, vhost) && WholeRun(w, actions)
    ensures Adds(End(w, actions).log, group, vhost) <= Allows(End(w, actions).log, group, vhost)
    decreases |actions|
  {
    if actions != [] {
      StepSafe(w, actions[0]);
      StepSpent(w, actions[0], group, vhost);
      hide Inv, Enabled, SpendsWhole, Spent, Step;
      OneAllowOnePeer(Step(w, actions[0]), actions[1..], group, vhost);
    }
  }

  lemma StartSpent(group: string, vhost: string)
    ensures Inv(START) && Spent(START, group, vhost)
  {
    StartOk();
  }

  // --------------------------------------------------------------- one allow, two peers

  const ASK_CODE := Code("h", "hr", false, 10)
  const ASKER := Peer("p", "hr", "", false)
  const FIRST := Peer("q", "fin", "p", false)
  const SECOND := Peer("s", "fin", "p", false)
  const ASKED := Request("r", "p", "fin", false, "", false)
  const ALLOWED := Request("r", "p", "fin", true, "admin", false)

  const LOG2 := [CodeIssued(ASK_CODE), Paired("p", ASK_CODE)]
  const LOG3 := LOG2 + [RequestAllowed("r", "p", "fin")]
  const LOG4 := LOG3 + [AddedByAllow("q", "p", "fin")]
  const LOG5 := LOG4 + [AddedByAllow("s", "p", "fin")]

  const CODE_OUT := World(Recv([], [], [ASK_CODE], 0), [CodeIssued(ASK_CODE)], {}, {})
  const IN := World(Recv([ASKER], [], [], 0), LOG2, {ASKER}, {"p"})
  const WAITS := World(Recv([ASKER], [ASKED], [], 0), LOG2, {ASKER}, {"p", "r"})
  const MAY := World(Recv([ASKER], [ALLOWED], [], 0), LOG3, {ASKER}, {"p", "r"})
  const STOPPED := World(Recv([ASKER, FIRST], [ALLOWED], [], 0), LOG4, {ASKER, FIRST}, {"p", "r", "q"})
  const TAKEN := World(Recv([ASKER], [ALLOWED], [], 0), LOG4, {ASKER, FIRST}, {"p", "r", "q"})
  const AGAIN := World(Recv([ASKER, SECOND], [], [], 0), LOG5, {ASKER, FIRST, SECOND}, {"p", "r", "q", "s"})

  lemma Asks()
    ensures Goes(START, IssueCode(ASK_CODE, 0), CODE_OUT)
    ensures Goes(CODE_OUT, PairWith("h", 1, "p", CALM), IN)
    ensures Goes(IN, AskVHost(ASKER, "fin", "x", "r", CALM), WAITS)
    ensures Goes(WAITS, AllowRequest("r", "admin"), MAY)
  {
    assert Unexpired([ASK_CODE], 1) == [ASK_CODE] && CodeAt([ASK_CODE], "h") == 0;
  }

  lemma StopsHalfWay()
    ensures Goes(MAY, AskVHost(ASKER, "fin", "q", "x", CUT_SHORT), STOPPED)
    ensures !SpendsWhole(MAY, AskVHost(ASKER, "fin", "q", "x", CUT_SHORT))
  {
    assert FindRequest([ALLOWED], "p", "fin") == 0;
  }

  lemma AddsAgain()
    ensures Goes(STOPPED, Revoke("q"), TAKEN)
    ensures Goes(TAKEN, AskVHost(ASKER, "fin", "s", "x", CALM), AGAIN)
  {
    assert PeerAt([ASKER, FIRST], "q") == 1 && Without([ASKER, FIRST], 1) == [ASKER];
    assert FindRequest([ALLOWED], "p", "fin") == 0 && Without([ALLOWED], 0) == [];
  }

  /** The process stops after it saved the peer, the peer is revoked by itself, and the
      request that was allowed once adds a second one. */
  lemma OneAllowTwoPeers()
    ensures Goes(START, IssueCode(ASK_CODE, 0), CODE_OUT)
    ensures Goes(CODE_OUT, PairWith("h", 1, "p", CALM), IN)
    ensures Goes(IN, AskVHost(ASKER, "fin", "x", "r", CALM), WAITS)
    ensures Goes(WAITS, AllowRequest("r", "admin"), MAY)
    ensures Goes(MAY, AskVHost(ASKER, "fin", "q", "x", CUT_SHORT), STOPPED)
    ensures Goes(STOPPED, Revoke("q"), TAKEN)
    ensures Goes(TAKEN, AskVHost(ASKER, "fin", "s", "x", CALM), AGAIN)
    ensures Allows(AGAIN.log, "p", "fin") == 1 && Adds(AGAIN.log, "p", "fin") == 2
  {
    Asks();
    StopsHalfWay();
    AddsAgain();
    hide Goes;
    OneMore([], CodeIssued(ASK_CODE), "p", "fin");
    OneMore([CodeIssued(ASK_CODE)], Paired("p", ASK_CODE), "p", "fin");
    assert LOG2 == [] + [CodeIssued(ASK_CODE)] + [Paired("p", ASK_CODE)];
    OneMore(LOG2, RequestAllowed("r", "p", "fin"), "p", "fin");
    OneMore(LOG3, AddedByAllow("q", "p", "fin"), "p", "fin");
    OneMore(LOG4, AddedByAllow("s", "p", "fin"), "p", "fin");
  }
}
