/** The connections a promotion brings, and what a successful deploy leaves behind
    (internal/environment/carry.go and receive.go, hasConnections and deploy). */
module CarriedConnections {
  import opened Workflows
  import opened Promotions
  import opened ReleaseAtomicity

  /** Nothing that was there is gone or moved; what is new was brought and is in vhost. */
  ghost predicate Grown(before: Conns, after: Conns, carried: seq<Carried>, vhost: string) {
    && (forall x :: x in before.sources ==> x in after.sources && after.sources[x] == before.sources[x])
    && (forall x :: x in before.sinks ==> x in after.sinks && after.sinks[x] == before.sinks[x])
    && (forall x :: x in after.sources && x !in before.sources ==>
        Carried("source", x) in carried && after.sources[x] == vhost)
    && (forall x :: x in after.sinks && x !in before.sinks ==> after.sinks[x] == vhost)
  }

  lemma {:induction false} CreateUpToGrows(c: Conns, carried: seq<Carried>, n: nat, vhost: string, env: Env)
    requires n <= |carried|
    ensures Grown(c, CreateUpTo(c, carried, n, vhost, env).0, carried, vhost)
    ensures CreateUpTo(c, carried, n, vhost, env).1 ==> forall k :: 0 <= k < n ==>
        Found(CreateUpTo(c, carried, n, vhost, env).0, carried[k])
  {
    if n > 0 {
      CreateUpToGrows(c, carried, n - 1, vhost, env);
      var r := CreateUpTo(c, carried, n - 1, vhost, env);
      var x := carried[n - 1];
      assert x.kind == "source" ==> x == Carried("source", x.id);
    }
  }

  /** Every source and sink wf names exists in c. */
  ghost predicate NoDangling(c: Conns, wf: Workflow) {
    && (forall x :: x in Sources(wf) ==> x in c.sources)
    && (forall x :: x in Sinks(wf) ==> x in c.sinks)
  }

  /** The connections after a deploy that got as far as storing the workflow. */
  lemma DeployConns(st: Store, i: nat, terms: Terms, env: Env)
    requires Valid(st) && i < |st.ps| && Deploy(st, st.ps[i].id, terms, env).1
    ensures var s := Deploy(st, st.ps[i].id, terms, env).0; var p := st.ps[i];
      && p.id in st.bodies
      && HasConnections(st.conns, Sender(st.peers, p), st.bodies[p.id], p.offer.connections)
      && Grown(st.conns, s.conns, p.offer.connections, LandsIn(st.flows, st.bodies[p.id]))
      && (forall k :: 0 <= k < |p.offer.connections| ==> Found(s.conns, p.offer.connections[k]))
  {
    IndexOfUnique(st.ps, i);
    var p := st.ps[i];
    var (s1, f) := DeploySecrets(st, p, terms.values, env);
    CreateUpToGrows(st.conns, p.offer.connections, |p.offer.connections|, LandsIn(st.flows, st.bodies[p.id]), env);
  }

  lemma DefinitionRefs(a: Workflow, b: Workflow)
    requires DefinitionOf(a) == DefinitionOf(b)
    ensures Sources(a) == Sources(b) && Sinks(a) == Sinks(b)
  {
  }

  /** Whatever was deleted since the promotion arrived, a deploy that succeeds stores a
      workflow whose every source and sink exists. */
  lemma DeployLeavesNoDangling(st: Store, i: nat, terms: Terms, env: Env)
    requires Valid(st) && i < |st.ps| && Deploy(st, st.ps[i].id, terms, env).1
    ensures var s := Deploy(st, st.ps[i].id, terms, env).0; var w := st.ps[i].offer.workflowID;
      w in s.flows.workflows && NoDangling(s.conns, s.flows.workflows[w])
  {
    hide Deploy;
    DeployEnds(st, i, terms, env);
    DeployConns(st, i, terms, env);
    var s := Deploy(st, st.ps[i].id, terms, env).0;
    var p := st.ps[i];
    var wf := st.bodies[p.id];
    DefinitionRefs(s.flows.workflows[p.offer.workflowID], wf);
    forall x | x in Sources(wf) ensures x in s.conns.sources {
      if Brought(p.offer.connections, "source", x) { BroughtFound(s.conns, p.offer.connections, "source", x); }
    }
    forall x | x in Sinks(wf) ensures x in s.conns.sinks {
      if Brought(p.offer.connections, "sink", x) { BroughtFound(s.conns, p.offer.connections, "sink", x); }
    }
  }

  lemma BroughtFound(c: Conns, carried: seq<Carried>, kind: string, x: string)
    requires Brought(carried, kind, x) && forall k :: 0 <= k < |carried| ==> Found(c, carried[k])
    ensures if kind == "source" then x in c.sources else x in c.sinks
  {
    var k :| 0 <= k < |carried| && carried[k] == Carried(kind, x);
    assert Found(c, carried[k]);
  }

  // ------------------------------------------------------------ the sender's vhost

  /** Every connection wf names is one peer may use. */
  ghost predicate InReach(c: Conns, peer: Peer, wf: Workflow) {
    && (forall x :: x in Sources(wf) ==> x in c.sources && MayUse(peer, c.sources[x]))
    && (forall x :: x in Sinks(wf) ==> x in c.sinks && MayUse(peer, c.sinks[x]))
  }

  /** A connection the promotion brings is still absent and lands where peer may use it,
      or is there already where peer may use it. */
  predicate BroughtInReach(vhosts: map<string, string>, x: string, peer: Peer, lands: string) {
    MayUse(peer, if x in vhosts then vhosts[x] else lands)
  }

  ghost predicate AllBroughtInReach(c: Conns, peer: Peer, wf: Workflow, carried: seq<Carried>, lands: string) {
    && (forall x :: x in Sources(wf) && Brought(carried, "source", x) ==> BroughtInReach(c.sources, x, peer, lands))
    && (forall x :: x in Sinks(wf) && Brought(carried, "sink", x) ==> BroughtInReach(c.sinks, x, peer, lands))
  }

  /** hasConnections promises connections "in the vhost peer sends into", but skips the
      ones the promotion brings, and createCarried takes one that exists wherever it is.
      So a successful deploy keeps the workflow within the sender's reach exactly when
      every brought connection is, or lands, within it. */
  lemma DeployInReachIff(st: Store, i: nat, terms: Terms, env: Env)
    requires Valid(st) && i < |st.ps| && Deploy(st, st.ps[i].id, terms, env).1
    ensures var s := Deploy(st, st.ps[i].id, terms, env).0; var p := st.ps[i]; var w := p.offer.workflowID;
      && p.id in st.bodies && w in s.flows.workflows
      && (InReach(s.conns, Sender(st.peers, p), s.flows.workflows[w]) <==>
          AllBroughtInReach(st.conns, Sender(st.peers, p), st.bodies[p.id], p.offer.connections,
              LandsIn(st.flows, st.bodies[p.id])))
  {
    hide Deploy, NoDangling, Sender, Sources, Sinks;
    DeployLeavesNoDangling(st, i, terms, env);
    DeployEnds(st, i, terms, env);
    DeployConns(st, i, terms, env);
    var s := Deploy(st, st.ps[i].id, terms, env).0;
    var p := st.ps[i];
    var wf := st.bodies[p.id];
    var now := s.flows.workflows[p.offer.workflowID];
    DefinitionRefs(now, wf);
    NoDanglingNames(s.conns, now);
    ReachSides(st.conns, s.conns, Sender(st.peers, p), wf, p.offer.connections, LandsIn(st.flows, wf));
    assert InReach(s.conns, Sender(st.peers, p), now) <==> InReach(s.conns, Sender(st.peers, p), wf);
  }

  lemma NoDanglingNames(c: Conns, wf: Workflow)
    requires NoDangling(c, wf)
    ensures (forall x :: x in Sources(wf) ==> x in c.sources) && (forall x :: x in Sinks(wf) ==> x in c.sinks)
  {
  }

  lemma ReachSides(before: Conns, after: Conns, peer: Peer, wf: Workflow, carried: seq<Carried>, lands: string)
    requires HasConnections(before, peer, wf, carried) && Grown(before, after, carried, lands)
    requires forall x :: x in Sources(wf) ==> x in after.sources
    requires forall x :: x in Sinks(wf) ==> x in after.sinks
    ensures InReach(after, peer, wf) <==> AllBroughtInReach(before, peer, wf, carried, lands)
  {
    hide Sources, Sinks;
    forall x | x in Sources(wf)
      ensures MayUse(peer, after.sources[x]) <==> (Brought(carried, "source", x) ==>
          BroughtInReach(before.sources, x, peer, lands))
    {
    }
    forall x | x in Sinks(wf)
      ensures MayUse(peer, after.sinks[x]) <==> (Brought(carried, "sink", x) ==>
          BroughtInReach(before.sinks, x, peer, lands))
    {
    }
  }

  lemma {:induction false} NothingToCreate(c: Conns, carried: seq<Carried>, n: nat, vhost: string, env: Env)
    requires n <= |carried| && forall x :: x in carried ==> Found(c, x)
    ensures CreateUpTo(c, carried, n, vhost, env) == (c, true)
  {
    if n > 0 { NothingToCreate(c, carried, n - 1, vhost, env); }
  }

  /** A promotion without secrets whose connections are all here deploys when the call goes
      through. */
  lemma AllHereDeploys(st: Store, i: nat, terms: Terms, env: Env)
    requires UniqueIDs(st.ps) && i < |st.ps| && st.ps[i].id in st.bodies && st.ps[i].id !in env.applyFails
    requires st.ps[i].offer.filled == [] && st.ps[i].offer.secrets == []
    requires forall x :: x in st.ps[i].offer.connections ==> Found(st.conns, x)
    requires HasConnections(st.conns, Sender(st.peers, st.ps[i]), st.bodies[st.ps[i].id], st.ps[i].offer.connections)
    ensures Deploy(st, st.ps[i].id, terms, env).1
  {
    IndexOfUnique(st.ps, i);
    var p, wf := st.ps[i], st.bodies[st.ps[i].id];
    NothingToCreate(st.conns, p.offer.connections, |p.offer.connections|, LandsIn(st.flows, wf), env);
    hide HasConnections, ApplyPromoted, CreateUpTo, LandsIn, Found;
  }

  /** A promotion of a new workflow that reads source "s" and brings it along, while "s"
      exists in a vhost the sender cannot use. */
  const READER := Node("n", "source", "s", map[])
  const BRINGS := [Carried("source", "s")]
  const SENT := Promotion("p", Offer("a", "", "w", "hr", "", false, [], [], BRINGS), Deploying, "", 0, 0, NOTHING,
      false)
  const ELSEWHERE: Store := Store(
    [SENT], map["p" := OneNode(READER).(vhost := "hr")], map[], Flows(map[], map[]),
    Conns(map["s" := "finance"], map[]), map[], [Peer("a", "hr")], NoSecrets)

  lemma ReaderRefs()
    ensures Sources(OneNode(READER).(vhost := "hr")) == ["s"] && Sinks(OneNode(READER).(vhost := "hr")) == []
  {
    OneNodeRefs(READER);
    DedupSingle("s");
    var wf := OneNode(READER);
    assert wf.(vhost := "hr").nodes == wf.nodes;
  }

  lemma ElsewhereStands()
    ensures Valid(ELSEWHERE) && Sender(ELSEWHERE.peers, SENT) == Peer("a", "hr")
    ensures HasConnections(ELSEWHERE.conns, Peer("a", "hr"), OneNode(READER).(vhost := "hr"), BRINGS)
    ensures forall x :: x in BRINGS ==> Found(ELSEWHERE.conns, x)
  {
    ReaderRefs();
    assert BRINGS[0] == Carried("source", "s");
    assert OneNode(READER).id == "w";
    hide Sources, Sinks;
  }

  lemma ElsewhereIsOutOfReach()
    ensures LandsIn(ELSEWHERE.flows, OneNode(READER).(vhost := "hr")) == "hr"
    ensures !AllBroughtInReach(ELSEWHERE.conns, Peer("a", "hr"), OneNode(READER).(vhost := "hr"), BRINGS, "hr")
  {
    ReaderRefs();
    assert BRINGS[0] == Carried("source", "s");
    assert "s" in Sources(OneNode(READER).(vhost := "hr")) && Brought(BRINGS, "source", "s");
    hide Sources, Sinks;
  }

  /** It is deployed all the same, over a source in the other vhost. */
  lemma BroughtElsewhereIsUsed()
    ensures var (s, ok) := Deploy(ELSEWHERE, "p", Terms("", map[], false), Env({}, {}, {}, map[], {}));
      && ok && Sender(ELSEWHERE.peers, ELSEWHERE.ps[0]) == Peer("a", "hr")
      && "w" in s.flows.workflows && !InReach(s.conns, Peer("a", "hr"), s.flows.workflows["w"])
  {
    var terms, env := Terms("", map[], false), Env({}, {}, {}, map[], {});
    ElsewhereStands();
    ElsewhereIsOutOfReach();
    hide Deploy, Sources, Sinks, HasConnections, AllBroughtInReach, InReach, Sender, LandsIn, Valid, Found;
    ElsewhereUnique();
    AllHereDeploys(ELSEWHERE, 0, terms, env);
    DeployInReachIff(ELSEWHERE, 0, terms, env);
  }

  lemma ElsewhereUnique()
    ensures UniqueIDs(ELSEWHERE.ps) && |ELSEWHERE.ps| == 1 && ELSEWHERE.ps[0] == SENT
  {
  }
}
