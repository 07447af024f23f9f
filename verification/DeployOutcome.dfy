/** What a deploy and an undo leave behind beyond the definition, and when they succeed
    (receive.go, deploy, applyPromoted and undo), in terms of the stored records alone. */
module DeployOutcome {
  import opened Workflows
  import opened Promotions
  import opened ReleaseAtomicity
  import opened CarriedConnections

  // ------------------------------------------------------------- how it is stored to run

  /** A needed secret has no value here, on an instance that looks secrets up at all. */
  ghost predicate LacksSecret(st: Store, p: Promotion) {
    !st.backend.NoSecrets? && exists name :: name in p.offer.secrets && (VHostOf(p.offer.vhost), name) !in st.secrets
  }

  /** The workflow w as a deploy leaves it: over an existing one this instance's vhost, run and
      placement stay; a new one is in the vhost it was sent to and in no workspace. It is
      active if it was or was sent to start, unless a secret is lacking and nobody chose to
      start it anyway. */
  ghost predicate RunsAsAsked(before: Store, after: Store, p: Promotion, startAnyway: bool) {
    var w := p.offer.workflowID;
    && p.id in before.bodies && w in after.flows.workflows
    && var body, now := before.bodies[p.id], after.flows.workflows[w];
      && now.id == w && now.name == body.name && now.nodes == body.nodes && now.edges == body.edges
      && now.settings == body.settings
      && (if w in before.flows.workflows then
            var was := before.flows.workflows[w];
            && now.vhost == was.vhost && now.run == was.run
            && (now.active <==> (was.active || p.offer.start) && (!LacksSecret(after, p) || startAnyway))
          else
            && now.vhost == body.vhost && now.run.workspaceID == ""
            && now.run.status == body.run.status && now.run.workerID == body.run.workerID
            && now.run.processed == body.run.processed && now.run.errors == body.run.errors
            && (now.active <==> p.offer.start && (!LacksSecret(after, p) || startAnyway)))
  }

  lemma {:induction false} MissingIff(start: Secrets, id: string, vhost: string, names: seq<string>, n: nat,
                                      values: map<string, string>, backend: Backend, env: Env)
    requires n <= |names| && FillUpTo(start, id, vhost, names, n, values, backend, env).ok
    ensures var f := FillUpTo(start, id, vhost, names, n, values, backend, env);
      && (f.report.missing != [] <==> exists k :: 0 <= k < n && (vhost, names[k]) !in f.secrets)
      && (forall x :: x in f.report.missing ==> x !in values || !backend.Writable?)
      && (forall k :: 0 <= k < n && (vhost, names[k]) !in f.secrets ==> names[k] !in values || !backend.Writable?)
  {
    if n > 0 {
      MissingIff(start, id, vhost, names, n - 1, values, backend, env);
      var g := FillUpTo(start, id, vhost, names, n - 1, values, backend, env);
      var f := FillUpTo(start, id, vhost, names, n, values, backend, env);
      assert f == FillOne(g, id, vhost, names[n - 1], values, backend, env);
      forall k | 0 <= k < n - 1 ensures (vhost, names[k]) !in f.secrets <==> (vhost, names[k]) !in g.secrets {
      }
    }
  }

  /** Secrets are filled in only for names that are needed and have a value; what is reported
      as missing is what the vhost still lacks. */
  lemma MissingIsLacked(st: Store, p: Promotion, approver: map<string, string>, env: Env)
    requires DeploySecrets(st, p, approver, env).1.ok
    ensures var (s, f) := DeploySecrets(st, p, approver, env);
      f.report.missing != [] <==> LacksSecret(s, p)
  {
    var (s, f) := DeploySecrets(st, p, approver, env);
    var names, vhost := p.offer.secrets, VHostOf(p.offer.vhost);
    if names != [] && !st.backend.NoSecrets? {
      MissingIff(st.secrets, p.id, vhost, names, |names|, ValuesToCreate(st, p, approver), st.backend, env);
    }
  }

  /** What is recorded on the promotion: who deployed it, that it was kept stopped, and the
      version that holds what now runs. */
  ghost predicate Recorded(after: Store, q: Promotion, terms: Terms) {
    var w := q.offer.workflowID;
    && q.status == Deployed && q.decidedBy == terms.who
    && (q.keptStopped <==> LacksSecret(after, q) && !terms.startAnyway)
    && w in after.flows.workflows && w in after.flows.history
    && q.applied == |after.flows.history[w]| > 0
    && after.flows.history[w][q.applied - 1] == after.flows.workflows[w]
  }

  lemma ApplyPromotedRow(f: Flows, wf: Workflow, start: bool, stopped: bool)
    ensures var a := ApplyPromoted(f, wf, start, stopped).flows; var w := wf.id;
      && w in a.workflows && w in a.history
      && |a.history[w]| > 0 && ApplyPromoted(f, wf, start, stopped).applied == |a.history[w]|
      && a.history[w][|a.history[w]| - 1] == a.workflows[w]
      && var now := a.workflows[w];
        && now.id == w && now.name == wf.name && now.nodes == wf.nodes && now.edges == wf.edges
        && now.settings == wf.settings
        && (if w in f.workflows then
              && now.vhost == f.workflows[w].vhost && now.run == f.workflows[w].run
              && (now.active <==> (f.workflows[w].active || start) && !stopped)
            else
              && now.vhost == wf.vhost && now.run == wf.run.(workspaceID := "") && (now.active <==> start && !stopped))
  {
  }

  /** Every deploy that succeeds. */
  lemma DeployRunsAsAsked(st: Store, i: nat, terms: Terms, env: Env)
    requires Valid(st) && i < |st.ps| && Deploy(st, st.ps[i].id, terms, env).1
    ensures var s := Deploy(st, st.ps[i].id, terms, env).0;
      |s.ps| == |st.ps| && RunsAsAsked(st, s, st.ps[i], terms.startAnyway) && Recorded(s, s.ps[i], terms)
  {
    IndexOfUnique(st.ps, i);
    var p := st.ps[i];
    assert BodyFiled(st.bodies, p);
    var wf := st.bodies[p.id];
    var r := Prepare(st, p, wf, terms.values, env);
    MissingIsLacked(st, p, terms.values, env);
    hide DeploySecrets, CreateUpTo, ApplyPromoted, HasConnections;
    var stopped := r.report.missing != [] && !terms.startAnyway;
    ApplyPromotedRow(st.flows, wf, p.offer.start, stopped);
    assert LacksSecret(r.store, p) <==> r.report.missing != [];
  }

  // ----------------------------------------------------------------- when it succeeds

  /** peer may use the vhost: it is limited to none, or to this one. */
  predicate MayReach(peer: Peer, vhost: string) {
    peer.vhost == "" || peer.vhost == vhost || (vhost == "" && peer.vhost == "default")
  }

  /** The instance p came from; one revoked since is held to the vhost p lands in. */
  ghost predicate CameFrom(st: Store, p: Promotion, peer: Peer) {
    || (exists k :: 0 <= k < |st.peers| && st.peers[k].id == p.offer.peerID && st.peers[k] == peer &&
                    forall j :: 0 <= j < k ==> st.peers[j].id != p.offer.peerID)
    || ((forall k :: 0 <= k < |st.peers| ==> st.peers[k].id != p.offer.peerID) &&
        peer.id == p.offer.peerID && peer.vhost == (if p.offer.vhost == "" then "default" else p.offer.vhost))
  }

  lemma {:induction false} PeerOrIs(peers: seq<Peer>, id: string, fallback: Peer)
    ensures var peer := PeerOr(peers, id, fallback);
      || (exists k :: 0 <= k < |peers| && peers[k].id == id && peers[k] == peer &&
                      forall j :: 0 <= j < k ==> peers[j].id != id)
      || ((forall k :: 0 <= k < |peers| ==> peers[k].id != id) && peer == fallback)
  {
    if peers != [] && peers[0].id != id {
      PeerOrIs(peers[1..], id, fallback);
      var peer := PeerOr(peers[1..], id, fallback);
      if k :| 0 <= k < |peers[1..]| && peers[1..][k].id == id && peers[1..][k] == peer &&
              forall j :: 0 <= j < k ==> peers[1..][j].id != id {
        assert peers[k + 1] == peer;
        forall j | 0 <= j < k + 1 ensures peers[j].id != id {
          if j > 0 { assert peers[1..][j - 1].id != id; }
        }
      } else {
        forall k | 0 <= k < |peers| ensures peers[k].id != id {
          if k > 0 { assert peers[1..][k - 1].id != id; }
        }
      }
    }
  }

  lemma SenderSent(st: Store, p: Promotion)
    ensures CameFrom(st, p, Sender(st.peers, p))
  {
    PeerOrIs(st.peers, p.offer.peerID, Peer(p.offer.peerID, VHostOf(p.offer.vhost)));
  }

  /** Every connection the workflow names comes with it, or is here where its sender may use it. */
  ghost predicate ConnectionsHere(st: Store, p: Promotion, wf: Workflow) {
    exists peer :: CameFrom(st, p, peer) && ProvidedFor(st, p, wf, peer)
  }

  lemma CameFromOne(st: Store, p: Promotion, peer: Peer)
    requires CameFrom(st, p, peer)
    ensures peer == Sender(st.peers, p)
  {
    SenderSent(st, p);
  }

  /** What the workflow names is provided for peer. */
  ghost predicate ProvidedFor(st: Store, p: Promotion, wf: Workflow, peer: Peer) {
    && (forall id :: id in Sources(wf) ==> Carried("source", id) in p.offer.connections ||
                                           (id in st.conns.sources && MayReach(peer, st.conns.sources[id])))
    && (forall id :: id in Sinks(wf) ==> Carried("sink", id) in p.offer.connections ||
                                         (id in st.conns.sinks && MayReach(peer, st.conns.sinks[id])))
  }

  lemma ProvidedIff(st: Store, p: Promotion, wf: Workflow, peer: Peer)
    ensures ProvidedFor(st, p, wf, peer) <==> HasConnections(st.conns, peer, wf, p.offer.connections)
  {
    hide Sources, Sinks;
  }

  lemma ConnectionsHereIff(st: Store, p: Promotion, wf: Workflow)
    ensures ConnectionsHere(st, p, wf) <==> HasConnections(st.conns, Sender(st.peers, p), wf, p.offer.connections)
  {
    SenderSent(st, p);
    ProvidedIff(st, p, wf, Sender(st.peers, p));
    hide ProvidedFor, HasConnections, CameFrom, Sender;
    if ConnectionsHere(st, p, wf) {
      var peer :| CameFrom(st, p, peer) && ProvidedFor(st, p, wf, peer);
      CameFromOne(st, p, peer);
    }
  }

  /** A value for name was typed by the approver or sent along. */
  predicate HasValue(st: Store, p: Promotion, terms: Terms, name: string) {
    name in terms.values || (p.offer.filled != [] && p.id in st.sent && name in st.sent[p.id])
  }

  /** The values sent with p can all be read, and each secret it needs, lacks and has a value for
      can be created. */
  ghost predicate SecretsCanBeFilled(st: Store, p: Promotion, terms: Terms, env: Env) {
    && (forall name :: name in p.offer.filled ==> p.id in st.sent && name in st.sent[p.id])
    && (forall name | name in p.offer.secrets && (VHostOf(p.offer.vhost), name) !in st.secrets ::
          st.backend.Writable? && HasValue(st, p, terms, name) ==> (p.id, name) !in env.secretFails)
  }

  /** Each connection it brings is here or can be created. */
  ghost predicate ConnectionsCanBeMade(st: Store, p: Promotion, env: Env) {
    forall x :: x in p.offer.connections && x in env.connectionFails ==>
      if x.kind == "source" then x.id in st.conns.sources else x.id in st.conns.sinks
  }

  /** Nothing stands in the way of deploying p now. */
  ghost predicate Deployable(st: Store, p: Promotion, terms: Terms, env: Env) {
    && p.id in st.bodies && p.id !in env.applyFails && ConnectionsHere(st, p, st.bodies[p.id])
    && SecretsCanBeFilled(st, p, terms, env) && ConnectionsCanBeMade(st, p, env)
  }

  /** The kinds of connection that admission lets through. */
  ghost predicate KnownKinds(p: Promotion) {
    forall x :: x in p.offer.connections ==> x.kind == "source" || x.kind == "sink"
  }

  lemma {:induction false} FillOkIff(start: Secrets, id: string, vhost: string, names: seq<string>, n: nat,
                                     values: map<string, string>, backend: Backend, env: Env)
    requires n <= |names|
    ensures var f := FillUpTo(start, id, vhost, names, n, values, backend, env);
      && (f.ok <==> forall k :: 0 <= k < n && (vhost, names[k]) !in start && names[k] in values && backend.Writable? ==>
            (id, names[k]) !in env.secretFails)
      && (forall key :: key in f.secrets && key !in start ==> (id, key.1) !in env.secretFails)
      && (forall key :: key in start ==> key in f.secrets)
  {
    if n > 0 { FillOkIff(start, id, vhost, names, n - 1, values, backend, env); }
  }

  lemma {:induction false} CreateOkIff(c: Conns, carried: seq<Carried>, n: nat, vhost: string, env: Env)
    requires n <= |carried| && forall x :: x in carried ==> x.kind == "source" || x.kind == "sink"
    ensures var r := CreateUpTo(c, carried, n, vhost, env);
      && (r.1 <==> forall k :: 0 <= k < n && !Found(c, carried[k]) ==> carried[k] !in env.connectionFails)
      && (forall x :: x in carried && Found(r.0, x) && !Found(c, x) ==> x !in env.connectionFails)
      && (forall x :: Found(c, x) ==> Found(r.0, x))
  {
    if n > 0 {
      CreateOkIff(c, carried, n - 1, vhost, env);
      var x := carried[n - 1];
      assert x in carried && (x == Carried("source", x.id) || x == Carried("sink", x.id));
    }
  }

  lemma SecretsOkIff(st: Store, p: Promotion, terms: Terms, env: Env)
    ensures DeploySecrets(st, p, terms.values, env).1.ok <==> SecretsCanBeFilled(st, p, terms, env)
  {
    var names, vhost := p.offer.secrets, VHostOf(p.offer.vhost);
    FillOkIff(st.secrets, p.id, vhost, names, |names|, ValuesToCreate(st, p, terms.values), st.backend, env);
    assert forall name :: name in ValuesToCreate(st, p, terms.values) <==> HasValue(st, p, terms, name);
  }

  lemma MadeIff(st: Store, p: Promotion, vhost: string, env: Env)
    requires KnownKinds(p)
    ensures CreateUpTo(st.conns, p.offer.connections, |p.offer.connections|, vhost, env).1 <==>
            ConnectionsCanBeMade(st, p, env)
  {
    var carried := p.offer.connections;
    CreateOkIff(st.conns, carried, |carried|, vhost, env);
    assert
      (forall k :: 0 <= k < |carried| && !Found(st.conns, carried[k]) ==> carried[k] !in env.connectionFails) <==>
      (forall x :: x in carried && x in env.connectionFails ==> Found(st.conns, x));
  }

  /** A deploy succeeds exactly when nothing stands in its way. */
  lemma DeploySucceedsIff(st: Store, i: nat, terms: Terms, env: Env)
    requires UniqueIDs(st.ps) && i < |st.ps| && KnownKinds(st.ps[i])
    ensures Deploy(st, st.ps[i].id, terms, env).1 <==> Deployable(st, st.ps[i], terms, env)
  {
    IndexOfUnique(st.ps, i);
    hide UniqueIDs, HasConnections, ConnectionsHere, DeploySecrets, CreateUpTo, ApplyPromoted, LandsIn, Sender, Fail,
         SecretsCanBeFilled, ConnectionsCanBeMade, IndexOf, KnownKinds;
    var p := st.ps[i];
    if p.id in st.bodies {
      var wf := st.bodies[p.id];
      ConnectionsHereIff(st, p, wf);
      SecretsOkIff(st, p, terms, env);
      MadeIff(st, p, LandsIn(st.flows, wf), env);
    }
  }

  // -------------------------------------------------------------- what else it touches

  /** What a deploy of p may change besides its workflow and its outcome: it adds connections
      it brings, in the vhost the workflow is in, and secrets it needs, and forgets the values
      sent with it. */
  ghost predicate TouchesOnly(before: Store, after: Store, p: Promotion) {
    && after.peers == before.peers && after.backend == before.backend && after.bodies == before.bodies
    && SecretsAdded(before, after, p) && ConnectionsAdded(before, after, p)
  }

  ghost predicate SecretsAdded(before: Store, after: Store, p: Promotion) {
    && (forall id :: id != p.id ==>
          (id in after.sent <==> id in before.sent) && (id in before.sent ==> after.sent[id] == before.sent[id]))
    && (forall key :: key in before.secrets ==> key in after.secrets && after.secrets[key] == before.secrets[key])
    && (forall key :: key in after.secrets && key !in before.secrets ==>
          key.0 == VHostOf(p.offer.vhost) && key.1 in p.offer.secrets)
  }

  ghost predicate ConnectionsAdded(before: Store, after: Store, p: Promotion) {
    && (forall id :: id in before.conns.sources ==>
          id in after.conns.sources && after.conns.sources[id] == before.conns.sources[id])
    && (forall id :: id in before.conns.sinks ==>
          id in after.conns.sinks && after.conns.sinks[id] == before.conns.sinks[id])
    && (forall id :: id in after.conns.sources && id !in before.conns.sources ==>
          Carried("source", id) in p.offer.connections && LandsAt(before, p, after.conns.sources[id]))
    && (forall id :: id in after.conns.sinks && id !in before.conns.sinks ==>
          (exists x :: x in p.offer.connections && x.kind != "source" && x.id == id) &&
          LandsAt(before, p, after.conns.sinks[id]))
  }

  /** The vhost the workflow of p is in here, or was sent to. */
  ghost predicate LandsAt(st: Store, p: Promotion, vhost: string) {
    p.id in st.bodies &&
    var v := if p.offer.workflowID in st.flows.workflows then st.flows.workflows[p.offer.workflowID].vhost
             else st.bodies[p.id].vhost;
    if v == "" then vhost == "default" else vhost == v
  }

  lemma {:induction false} FillAddsNeeded(start: Secrets, id: string, vhost: string, names: seq<string>, n: nat,
                                          values: map<string, string>, backend: Backend, env: Env)
    requires n <= |names|
    ensures var f := FillUpTo(start, id, vhost, names, n, values, backend, env);
      && (forall key :: key in start ==> key in f.secrets && f.secrets[key] == start[key])
      && (forall key :: key in f.secrets && key !in start ==> key.0 == vhost && key.1 in names)
  {
    if n > 0 { FillAddsNeeded(start, id, vhost, names, n - 1, values, backend, env); }
  }

  lemma SecretsTouch(st: Store, p: Promotion, approver: map<string, string>, env: Env)
    ensures SecretsAdded(st, DeploySecrets(st, p, approver, env).0, p)
  {
    var names := p.offer.secrets;
    FillAddsNeeded(st.secrets, p.id, VHostOf(p.offer.vhost), names, |names|, ValuesToCreate(st, p, approver),
                   st.backend, env);
  }

  lemma {:induction false} CreateAddsBrought(c: Conns, carried: seq<Carried>, n: nat, vhost: string, env: Env)
    requires n <= |carried|
    ensures var after := CreateUpTo(c, carried, n, vhost, env).0;
      && (forall id :: id in c.sources ==> id in after.sources && after.sources[id] == c.sources[id])
      && (forall id :: id in c.sinks ==> id in after.sinks && after.sinks[id] == c.sinks[id])
      && (forall id :: id in after.sources && id !in c.sources ==>
            Carried("source", id) in carried && after.sources[id] == vhost)
      && (forall id :: id in after.sinks && id !in c.sinks ==>
            (exists x :: x in carried && x.kind != "source" && x.id == id) && after.sinks[id] == vhost)
  {
    if n > 0 {
      CreateAddsBrought(c, carried, n - 1, vhost, env);
      var x := carried[n - 1];
      assert x in carried && (x.kind == "source" ==> x == Carried("source", x.id));
    }
  }

  lemma ConnectionsTouch(st: Store, s: Store, p: Promotion, wf: Workflow, env: Env)
    requires p.id in st.bodies && st.bodies[p.id] == wf && wf.id == p.offer.workflowID
    requires s.conns == CreateUpTo(st.conns, p.offer.connections, |p.offer.connections|, LandsIn(st.flows, wf), env).0
    ensures ConnectionsAdded(st, s, p)
  {
    CreateAddsBrought(st.conns, p.offer.connections, |p.offer.connections|, LandsIn(st.flows, wf), env);
    hide CreateUpTo;
  }

  lemma PrepareTouches(st: Store, p: Promotion, wf: Workflow, values: map<string, string>, env: Env)
    requires p.id in st.bodies && st.bodies[p.id] == wf && wf.id == p.offer.workflowID
    ensures TouchesOnly(st, Prepare(st, p, wf, values, env).store, p)
  {
    SecretsTouch(st, p, values, env);
    var r := Prepare(st, p, wf, values, env);
    var (s, f) := DeploySecrets(st, p, values, env);
    if f.ok { ConnectionsTouch(st, r.store, p, wf, env); } else { NothingTouched(st, p); }
    hide DeploySecrets, CreateUpTo, LandsIn, LandsAt;
  }

  lemma FailTouches(st: Store, s: Store, i: nat, who: string)
    requires UniqueIDs(s.ps) && i < |s.ps| && TouchesOnly(st, s, s.ps[i])
    ensures var f := Fail(s, s.ps[i].id, who);
      && TouchesOnly(st, f, s.ps[i])
      && |f.ps| == |s.ps| && f.ps[i].status == Failed && f.ps[i].decidedBy == who
      && (s.ps[i].offer.filled != [] ==> s.ps[i].id !in f.sent)
  {
    IndexOfUnique(s.ps, i);
  }

  lemma NothingTouched(st: Store, p: Promotion)
    ensures TouchesOnly(st, st, p)
  {
  }

  /** What is left of p: who decided it, and none of the values sent with it. */
  ghost predicate Settled(after: Store, p: Promotion, i: nat, who: string) {
    i < |after.ps| && after.ps[i].decidedBy == who && (p.offer.filled != [] ==> p.id !in after.sent)
  }

  lemma FailSettles(st: Store, s: Store, i: nat, who: string)
    requires UniqueIDs(s.ps) && i < |s.ps| && TouchesOnly(st, s, s.ps[i])
    ensures var f := Fail(s, s.ps[i].id, who);
      TouchesOnly(st, f, s.ps[i]) && |f.ps| == |s.ps| && Settled(f, s.ps[i], i, who)
  {
    hide TouchesOnly;
    FailTouches(st, s, i, who);
    hide Fail;
  }

  lemma StoreSettles(st: Store, s: Store, t: Store, i: nat, who: string)
    requires i < |st.ps| && s.ps == st.ps && TouchesOnly(st, s, st.ps[i])
    requires st.ps[i].offer.filled != [] ==> st.ps[i].id !in s.sent
    requires t == s.(flows := t.flows, ps := t.ps) && |t.ps| == |st.ps| && t.ps[i].decidedBy == who
    ensures TouchesOnly(st, t, st.ps[i]) && Settled(t, st.ps[i], i, who)
  {
    FlowsUntouched(st, s, t, st.ps[i]);
    hide TouchesOnly;
  }

  lemma PreparedTouches(st: Store, i: nat, wf: Workflow, terms: Terms, env: Env)
    requires Valid(st) && i < |st.ps| && st.ps[i].id in st.bodies && st.bodies[st.ps[i].id] == wf
    ensures var p := st.ps[i]; var r := Prepare(st, p, wf, terms.values, env);
      && TouchesOnly(st, r.store, p) && r.store.ps == st.ps && UniqueIDs(st.ps)
      && (r.ok && p.offer.filled != [] ==> p.id !in r.store.sent)
  {
    var p := st.ps[i];
    assert BodyFiled(st.bodies, p);
    hide BodyFiled, TouchesOnly;
    PrepareTouches(st, p, wf, terms.values, env);
    var r := Prepare(st, p, wf, terms.values, env);
    if r.ok { SentForgotten(st, p, wf, terms.values, env); }
    hide DeploySecrets, CreateUpTo;
  }

  /** Whether it succeeds or fails, a deploy changes only what it needs, and the values sent
      with the promotion are gone afterwards. */
  lemma DeployTouches(st: Store, i: nat, terms: Terms, env: Env)
    requires Valid(st) && i < |st.ps|
    ensures var (s, ok) := Deploy(st, st.ps[i].id, terms, env);
      TouchesOnly(st, s, st.ps[i]) && |s.ps| == |st.ps| && Settled(s, st.ps[i], i, terms.who)
  {
    IndexOfUnique(st.ps, i);
    var p := st.ps[i];
    NothingTouched(st, p);
    if p.id in st.bodies { PreparedTouches(st, i, st.bodies[p.id], terms, env); }
    hide TouchesOnly, Prepare, HasConnections, ApplyPromoted, Fail, Settled, FlowFiled, BodyFiled, Sender, IndexOf;
    FailSettles(st, st, i, terms.who);
    if p.id in st.bodies {
      var r := Prepare(st, p, st.bodies[p.id], terms.values, env);
      FailSettles(st, r.store, i, terms.who);
      var (s, ok) := Deploy(st, p.id, terms, env);
      if ok { StoreSettles(st, r.store, s, i, terms.who); }
    }
  }

  lemma FlowsUntouched(st: Store, s: Store, t: Store, p: Promotion)
    requires TouchesOnly(st, s, p) && t == s.(flows := t.flows, ps := t.ps)
    ensures TouchesOnly(st, t, p)
  {
    hide LandsAt;
  }

  lemma SentForgotten(st: Store, p: Promotion, wf: Workflow, values: map<string, string>, env: Env)
    requires Prepare(st, p, wf, values, env).ok
    ensures p.offer.filled != [] ==> p.id !in Prepare(st, p, wf, values, env).store.sent
  {
    hide CreateUpTo, FillSecrets;
  }
}
