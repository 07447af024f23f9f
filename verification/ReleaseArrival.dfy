/** What a release that arrives leaves stored, and whether it waits or goes live (receive.go,
    admit, storePromotions and ReceiveRelease), in terms of what was sent and what was here. */
module ReleaseArrival {
  import opened Workflows
  import opened Promotions
  import opened Decisions
  import opened ReleaseAtomicity
  import opened RollbackStack
  import opened Admission
  import opened DeployOutcome

  // ----------------------------------------------------------------- what is stored

  /** The vhost a workflow lands in: its own here, else the one its sender is limited to. */
  function LandingVHost(st: Store, peer: Peer, wf: Workflow): string {
    if wf.id in st.flows.workflows then st.flows.workflows[wf.id].vhost
    else if peer.vhost != "" then peer.vhost
    else wf.vhost
  }

  /** The vhost's name; a blank one is called default. */
  function Called(vhost: string): string { if vhost == "" then "default" else vhost }

  /** q is the item as a promotion: pending, undecided, with what it still lacks here, what of
      that was sent along, and the connections that are not here. */
  ghost predicate OfferedAs(st: Store, peer: Peer, sub: Submission, releaseID: string, q: Promotion) {
    var o := q.offer;
    && q.status == Pending && q.decidedBy == "" && !q.keptStopped
    && o.peerID == peer.id && o.releaseID == releaseID && o.workflowID == sub.workflow.id
    && o.vhost == LandingVHost(st, peer, sub.workflow) && o.sender == Trim(sub.sender) && o.start == sub.start
    && (forall name :: name in o.secrets <==>
          name in sub.uses && !st.backend.NoSecrets? && (Called(o.vhost), name) !in st.secrets)
    && (forall name :: name in o.filled <==> name in o.secrets && name in sub.values)
    && (forall x :: x in o.connections <==> x in sub.connections && !Here(st.conns, x))
  }

  predicate Here(c: Conns, x: Carried) {
    (x.kind == "source" && x.id in c.sources) || (x.kind != "source" && x.id in c.sinks)
  }

  /** Beside it, the workflow as sent is kept, in the vhost it lands in and without the state of
      its run over there, and the values that came for secrets lacking here, and no others. */
  ghost predicate KeptWith(s: Store, sub: Submission, q: Promotion) {
    && q.id in s.bodies
    && s.bodies[q.id] == sub.workflow.(vhost := q.offer.vhost,
                                       run := Workflows.Run(sub.workflow.run.workspaceID, "", "", 0, 0))
    && (q.offer.filled != [] ==>
          && q.id in s.sent && (forall name :: name in q.offer.filled <==> name in s.sent[q.id])
          && (forall name :: name in q.offer.filled ==> name in sub.values && s.sent[q.id][name] == sub.values[name]))
  }

  ghost predicate StoredAs(st: Store, s: Store, peer: Peer, sub: Submission, releaseID: string, q: Promotion) {
    OfferedAs(st, peer, sub, releaseID, q) && KeptWith(s, sub, q)
  }

  /** A release that admission lets in for the first time, with fresh ids for its promotions. */
  ghost predicate NewRelease(st: Store, peer: Peer, releaseID: string, items: seq<Submission>, ids: seq<string>) {
    && Valid(st) && ReleasesDistinct(st.ps) && FreshIDs(st, ids) && |ids| == |items| > 0
    && ReleaseVerdict(st, peer, releaseID, items).Fine? && StoredRelease(st.ps, peer.id, releaseID) == []
  }

  /** Every item stored, in order, behind what was there, which is unchanged. */
  ghost predicate AllStored(st: Store, s: Store, peer: Peer, releaseID: string, items: seq<Submission>,
                            ids: seq<string>) {
    && s == st.(ps := s.ps, bodies := s.bodies, sent := s.sent)
    && |ids| == |items| && |s.ps| == |st.ps| + |items| && st.ps == s.ps[..|st.ps|]
    && (forall k :: 0 <= k < |items| ==>
          s.ps[|st.ps| + k].id == ids[k] && StoredAs(st, s, peer, items[k], releaseID, s.ps[|st.ps| + k]))
    && (forall id :: id !in ids ==> KeptSame(st, s, id))
  }

  /** What is kept beside promotion id. */
  ghost predicate KeptSame(st: Store, s: Store, id: string) {
    && (id in s.bodies <==> id in st.bodies) && (id in st.bodies ==> s.bodies[id] == st.bodies[id])
    && (id in s.sent <==> id in st.sent) && (id in st.sent ==> s.sent[id] == st.sent[id])
  }

  lemma {:induction false} SentFiled(admitted: seq<Admitted>, n: nat, k: nat)
    requires k < n <= |admitted| && admitted[k].values != map[]
    requires forall i, j :: 0 <= i < j < |admitted| ==> admitted[i].p.id != admitted[j].p.id
    ensures var sent := SentBodies(admitted, n);
      admitted[k].p.id in sent && sent[admitted[k].p.id] == admitted[k].values
  {
    if k < n - 1 { SentFiled(admitted, n - 1, k); }
  }

  lemma {:induction false} SentOnly(admitted: seq<Admitted>, n: nat, x: string)
    requires n <= |admitted| && x in SentBodies(admitted, n)
    ensures exists k :: 0 <= k < n && admitted[k].p.id == x
  {
    if n > 0 && x != admitted[n - 1].p.id { SentOnly(admitted, n - 1, x); }
  }

  /** What admit builds of an item it lets in. */
  lemma AdmitOffers(st: Store, peer: Peer, sub: Submission, releaseID: string, id: string)
    requires AdmitVerdict(st, peer, sub).Fine?
    ensures OfferedAs(st, peer, sub, releaseID, Admit(st, peer, sub, releaseID, id).p)
  {
    hide Trim, HasConnections, ValuesAdmitted, ValidSubmission, CarriedVerdict, AdmitCarried, Lacking, SentFor;
    assert sub.connections[..|sub.connections|] == sub.connections;
  }

  lemma AdmitKeeps(st: Store, s: Store, peer: Peer, sub: Submission, releaseID: string, id: string)
    requires var a := Admit(st, peer, sub, releaseID, id);
      && id in s.bodies && s.bodies[id] == a.wf
      && (a.values != map[] ==> id in s.sent && s.sent[id] == a.values)
    ensures KeptWith(s, sub, Admit(st, peer, sub, releaseID, id).p)
  {
    hide Trim, AdmitCarried, Lacking, SentFor;
    var a := Admit(st, peer, sub, releaseID, id);
    if a.p.offer.filled != [] {
      assert a.p.offer.filled[0] in a.p.offer.filled;
      assert a.p.offer.filled[0] in a.values;
    }
  }

  lemma AllFine(st: Store, peer: Peer, releaseID: string, items: seq<Submission>)
    requires ReleaseVerdict(st, peer, releaseID, items).Fine? && StoredRelease(st.ps, peer.id, releaseID) == []
    ensures forall k :: 0 <= k < |items| ==> AdmitVerdict(st, peer, items[k]).Fine?
  {
    hide AdmitVerdict;
    forall k | 0 <= k < |items| ensures AdmitVerdict(st, peer, items[k]).Fine? {
      if AdmitVerdict(st, peer, items[k]).Refuse? { ItemRefuses(st, peer, items, k, |items|); }
    }
  }

  /** storePromotions: one of the admitted. */
  lemma OneStored(st: Store, peer: Peer, releaseID: string, items: seq<Submission>, ids: seq<string>, k: nat)
    requires NewRelease(st, peer, releaseID, items, ids) && k < |items|
    ensures var s := StoreAll(st, AdmitAll(st, peer, items, releaseID, ids));
      && |s.ps| == |st.ps| + |items| && s.ps[|st.ps| + k].id == ids[k]
      && StoredAs(st, s, peer, items[k], releaseID, s.ps[|st.ps| + k])
  {
    hide AdmitVerdict, ReleaseVerdict, Valid, ReleasesDistinct, Admit, BodiesOf, SentBodies, OfferedAs, KeptWith;
    var admitted := AdmitAll(st, peer, items, releaseID, ids);
    var s := StoreAll(st, admitted);
    AllFine(st, peer, releaseID, items);
    AdmitOffers(st, peer, items[k], releaseID, ids[k]);
    BodiesFiled(admitted, |admitted|, k);
    if admitted[k].values != map[] { SentFiled(admitted, |admitted|, k); }
    AdmitKeeps(st, s, peer, items[k], releaseID, ids[k]);
  }

  lemma OthersKept(st: Store, peer: Peer, releaseID: string, items: seq<Submission>, ids: seq<string>, id: string)
    requires |ids| == |items| && id !in ids
    ensures KeptSame(st, StoreAll(st, AdmitAll(st, peer, items, releaseID, ids)), id)
  {
    hide Admit, SentBodies;
    var admitted := AdmitAll(st, peer, items, releaseID, ids);
    if id in SentBodies(admitted, |admitted|) { SentOnly(admitted, |admitted|, id); }
  }

  lemma StoredBehind(st: Store, admitted: seq<Admitted>)
    ensures var s := StoreAll(st, admitted);
      && s == st.(ps := s.ps, bodies := s.bodies, sent := s.sent)
      && |s.ps| == |st.ps| + |admitted| && st.ps == s.ps[..|st.ps|]
  {
    hide BodiesOf, SentBodies;
  }

  lemma WholeStored(st: Store, peer: Peer, releaseID: string, items: seq<Submission>, ids: seq<string>)
    requires NewRelease(st, peer, releaseID, items, ids)
    ensures AllStored(st, StoreAll(st, AdmitAll(st, peer, items, releaseID, ids)), peer, releaseID, items, ids)
  {
    hide StoredAs, KeptSame, StoreAll, NewRelease, AdmitAll, Admit, Valid, ReleasesDistinct, FreshIDs, ReleaseVerdict,
         StoredRelease;
    NewFacts(st, peer, releaseID, items, ids);
    var s := StoreAll(st, AdmitAll(st, peer, items, releaseID, ids));
    StoredBehind(st, AdmitAll(st, peer, items, releaseID, ids));
    forall k | 0 <= k < |items|
      ensures s.ps[|st.ps| + k].id == ids[k] && StoredAs(st, s, peer, items[k], releaseID, s.ps[|st.ps| + k])
    {
      OneStored(st, peer, releaseID, items, ids, k);
    }
    forall id | id !in ids ensures KeptSame(st, s, id) { OthersKept(st, peer, releaseID, items, ids, id); }
  }

  // ------------------------------------------------------------- waiting or going live

  /** The rule of the vhost, its own if it has one, asks nobody for approval. */
  predicate AsksNobody(rules: Rules, vhost: string) {
    if vhost in rules.byVHost then rules.byVHost[vhost] == NoApproval else rules.approval == NoApproval
  }

  /** Where the vhost asks for approval, a new release is stored and that is all: every one of
      it waits, and no workflow, connection or secret changes. */
  lemma ReleaseWaits(st: Store, rules: Rules, peer: Peer, releaseID: string, items: seq<Submission>,
                     ids: seq<string>, env: Env)
    requires NewRelease(st, peer, releaseID, items, ids)
    requires !AsksNobody(rules, Called(LandingVHost(st, peer, items[0].workflow)))
    ensures var (s, v) := ReceiveRelease(st, rules, peer, releaseID, items, ids, env);
      v.Fine? && AllStored(st, s, peer, releaseID, items, ids)
  {
    WholeStored(st, peer, releaseID, items, ids);
    ReceivedOr(st, rules, peer, releaseID, items, ids, env);
  }

  /** A new release is stored, and deployed if nobody is asked. */
  lemma ReceivedOr(st: Store, rules: Rules, peer: Peer, releaseID: string, items: seq<Submission>,
                   ids: seq<string>, env: Env)
    requires NewRelease(st, peer, releaseID, items, ids)
    ensures var (s, v) := ReceiveRelease(st, rules, peer, releaseID, items, ids, env);
      var t := StoreAll(st, AdmitAll(st, peer, items, releaseID, ids));
      && v.Fine?
      && s == if AsksNobody(rules, Called(LandingVHost(st, peer, items[0].workflow)))
              then DeployGroup(t, ids[0], Terms("automatic", map[], false), env).0 else t
  {
    hide AdmitAll, Admit, StoreAll, ReleaseVerdict, StoredRelease, NewRelease, DeployGroup, LandingVHost, Valid,
         ReleasesDistinct, FreshIDs;
    NewFacts(st, peer, releaseID, items, ids);
    FirstLands(st, peer, releaseID, items, ids);
  }

  lemma NewFacts(st: Store, peer: Peer, releaseID: string, items: seq<Submission>, ids: seq<string>)
    requires NewRelease(st, peer, releaseID, items, ids)
    ensures |ids| == |items| > 0 && ReleaseVerdict(st, peer, releaseID, items).Fine? && releaseID != ""
    ensures StoredRelease(st.ps, peer.id, releaseID) == [] && Valid(st) && ReleasesDistinct(st.ps) && FreshIDs(st, ids)
  {
    hide ItemsVerdict;
  }

  lemma FirstLands(st: Store, peer: Peer, releaseID: string, items: seq<Submission>, ids: seq<string>)
    requires |ids| == |items| > 0
    ensures var a := AdmitAll(st, peer, items, releaseID, ids);
      |a| > 0 && VHostOf(a[0].p.offer.vhost) == Called(LandingVHost(st, peer, items[0].workflow))
  {
    hide AdmitCarried, Lacking, SentFor;
  }

  /** The promotion was decided, one way or the other. */
  predicate Over(p: Promotion) { p.status == Deployed || p.status == Failed || p.status == RolledBack }

  /** The same promotions, and none is less decided. */
  ghost predicate NoneReopened(ps: seq<Promotion>, qs: seq<Promotion>) {
    SameOffersAs(ps, qs) && forall j :: 0 <= j < |ps| && Over(ps[j]) ==> Over(qs[j])
  }

  lemma {:induction false} UndoneStayOver(st: Store, ids: seq<string>, j: nat, env: Env)
    requires j <= |ids|
    ensures NoneReopened(st.ps, UndoDown(st, ids, j, env).ps)
    decreases j
  {
    hide UndoWorkflow, Undoable;
    if j > 0 {
      var s := Undo(st, ids[j - 1], env).0;
      assert NoneReopened(st.ps, s.ps);
      UndoneStayOver(s, ids, j - 1, env);
    }
  }

  lemma FailOver(st: Store, i: nat, who: string)
    requires UniqueIDs(st.ps) && i < |st.ps|
    ensures var s := Fail(st, st.ps[i].id, who);
      && NoneReopened(st.ps, s.ps) && UniqueIDs(s.ps) && Over(s.ps[i])
  {
    IndexOfUnique(st.ps, i);
  }

  lemma {:induction false} RestFailed(st: Store, g: seq<nat>, ids: seq<string>, k: nat, who: string)
    requires UniqueIDs(st.ps) && k <= |ids| && Names(ids, st, g)
    requires forall a :: 0 <= a < k ==> Over(st.ps[g[a]])
    ensures var s := FailFrom(st, ids, k, who);
      && NoneReopened(st.ps, s.ps) && forall a :: 0 <= a < |g| ==> Over(s.ps[g[a]])
    decreases |ids| - k
  {
    hide Fail;
    if k < |ids| {
      FailOver(st, g[k], who);
      RestFailed(Fail(st, ids[k], who), g, ids, k + 1, who);
    }
  }

  lemma Reopened(ps: seq<Promotion>, qs: seq<Promotion>, rs: seq<Promotion>)
    requires NoneReopened(ps, qs) && NoneReopened(qs, rs)
    ensures NoneReopened(ps, rs)
  {
  }

  lemma DeployOver(st: Store, i: nat, terms: Terms, env: Env)
    requires Valid(st) && i < |st.ps|
    ensures var s := Deploy(st, st.ps[i].id, terms, env).0;
      Valid(s) && NoneReopened(st.ps, s.ps) && Over(s.ps[i])
  {
    hide Deploy, SavedOver, Valid;
    DeployEnds(st, i, terms, env);
  }

  lemma SameNames(st: Store, s: Store, g: seq<nat>, ids: seq<string>)
    requires SameOffersAs(st.ps, s.ps) && Names(ids, st, g)
    ensures Names(ids, s, g)
  {
  }

  lemma UnwoundOver(st: Store, g: seq<nat>, ids: seq<string>, k: nat, who: string, env: Env)
    requires UniqueIDs(st.ps) && k < |ids| && Names(ids, st, g)
    requires forall a :: 0 <= a <= k ==> Over(st.ps[g[a]])
    ensures var s := Unwind(st, ids, k, who, env);
      NoneReopened(st.ps, s.ps) && forall a :: 0 <= a < |g| ==> Over(s.ps[g[a]])
  {
    hide UndoDown, FailFrom;
    var u := UndoDown(st, ids, k, env);
    UndoneStayOver(st, ids, k, env);
    SameOffers(st.ps, u.ps);
    SameNames(st, u, g, ids);
    RestFailed(u, g, ids, k + 1, who);
    Reopened(st.ps, u.ps, FailFrom(u, ids, k + 1, who).ps);
  }

  /** Wherever a deploy fails, and even when an undo does, every member is decided after it. */
  lemma {:induction false} DeployDecides(st: Store, g: seq<nat>, ids: seq<string>, k: nat, terms: Terms, env: Env)
    requires Valid(st) && k <= |ids| && Names(ids, st, g)
    requires forall a :: 0 <= a < k ==> Over(st.ps[g[a]])
    ensures var s := DeployFrom(st, ids, k, terms, env).0;
      SameOffersAs(st.ps, s.ps) && forall a :: 0 <= a < |g| ==> Over(s.ps[g[a]])
    decreases |ids| - k
  {
    hide Deploy, Unwind, Over;
    if k < |ids| {
      var (s, ok) := Deploy(st, ids[k], terms, env);
      DeployOver(st, g[k], terms, env);
      SameNames(st, s, g, ids);
      if ok {
        DeployDecides(s, g, ids, k + 1, terms, env);
      } else if |ids| > 1 {
        UnwoundOver(s, g, ids, k, terms.who, env);
      }
    }
  }

  /** A release is the promotions that came with it and no others. */
  lemma GroupBehind(ps: seq<Promotion>, n: nat, peerID: string, releaseID: string)
    requires n < |ps| && releaseID != ""
    requires forall x :: 0 <= x < n ==> !(ps[x].offer.peerID == peerID && ps[x].offer.releaseID == releaseID)
    requires forall x :: n <= x < |ps| ==> ps[x].offer.peerID == peerID && ps[x].offer.releaseID == releaseID
    ensures forall x: nat :: x in Group(ps, n) <==> n <= x < |ps|
  {
    forall x: nat | x < |ps| ensures SameGroup(ps, n, x) <==> n <= x { }
    hide Group, SameGroup;
    assert forall x: nat :: x in Group(ps, n) ==> x < |ps| && SameGroup(ps, n, x);
  }

  lemma NewGroup(st: Store, s: Store, peer: Peer, releaseID: string, items: seq<Submission>, ids: seq<string>)
    requires NewRelease(st, peer, releaseID, items, ids) && AllStored(st, s, peer, releaseID, items, ids)
    ensures |s.ps| == |st.ps| + |items| > |st.ps|
    ensures forall x: nat :: x in Group(s.ps, |st.ps|) <==> |st.ps| <= x < |s.ps|
  {
    hide NewRelease, AllStored, Valid, ReleasesDistinct, FreshIDs, ReleaseVerdict, Group, StoredRelease;
    NewFacts(st, peer, releaseID, items, ids);
    NewOffers(st, s, peer, releaseID, items, ids);
    NoneBefore(st.ps, s.ps, peer.id, releaseID);
    GroupBehind(s.ps, |st.ps|, peer.id, releaseID);
  }

  lemma NoneBefore(before: seq<Promotion>, after: seq<Promotion>, peerID: string, releaseID: string)
    requires StoredRelease(before, peerID, releaseID) == [] && before <= after
    ensures forall x :: 0 <= x < |before| ==>
              !(after[x].offer.peerID == peerID && after[x].offer.releaseID == releaseID)
  {
    assert forall x :: 0 <= x < |before| ==> after[x] == before[x];
  }

  lemma NewOffers(st: Store, s: Store, peer: Peer, releaseID: string, items: seq<Submission>, ids: seq<string>)
    requires AllStored(st, s, peer, releaseID, items, ids)
    ensures |s.ps| == |st.ps| + |items| == |st.ps| + |ids| && st.ps == s.ps[..|st.ps|]
    ensures forall x :: |st.ps| <= x < |s.ps| ==>
              s.ps[x].offer.peerID == peer.id && s.ps[x].offer.releaseID == releaseID &&
              s.ps[x].status == Pending && s.ps[x].id == ids[x - |st.ps|]
  {
    hide KeptSame, KeptWith;
    forall x | |st.ps| <= x < |s.ps|
      ensures s.ps[x].offer.peerID == peer.id && s.ps[x].offer.releaseID == releaseID
      ensures s.ps[x].status == Pending && s.ps[x].id == ids[x - |st.ps|]
    {
      var k := x - |st.ps|;
      assert s.ps[|st.ps| + k].id == ids[k] && StoredAs(st, s, peer, items[k], releaseID, s.ps[|st.ps| + k]);
      hide Trim, LandingVHost, Called, Here;
    }
  }

  /** A release of pending promotions is ready to be deployed. */
  lemma PendingReady(s: Store, i: nat)
    requires i < |s.ps| && ReleasesDistinct(s.ps)
    requires forall x: nat :: x in Group(s.ps, i) ==> x < |s.ps| && s.ps[x].status == Pending
    ensures Ready(s, Group(s.ps, i))
  {
    hide Group;
    var g := Group(s.ps, i);
    forall k | 0 <= k < |g| ensures g[k] < |s.ps| && s.ps[g[k]].status == Pending { assert g[k] in g; }
    forall a, b | 0 <= a < b < |g|
      ensures g[a] != g[b] && s.ps[g[a]].offer.workflowID != s.ps[g[b]].offer.workflowID
    {
      GroupTogether(s.ps, i, g[a], g[b]);
    }
  }

  lemma AllReady(st: Store, s: Store, peer: Peer, releaseID: string, items: seq<Submission>, ids: seq<string>)
    requires AllStored(st, s, peer, releaseID, items, ids) && |items| > 0 && ReleasesDistinct(s.ps)
    requires forall x: nat :: x in Group(s.ps, |st.ps|) <==> |st.ps| <= x < |s.ps|
    ensures s.ps[|st.ps|].id == ids[0] && Ready(s, Group(s.ps, |st.ps|))
  {
    NewOffers(st, s, peer, releaseID, items, ids);
    hide AllStored, Group, Ready, ReleasesDistinct;
    PendingReady(s, |st.ps|);
  }

  lemma StoredReady(st: Store, s: Store, peer: Peer, releaseID: string, items: seq<Submission>, ids: seq<string>)
    requires NewRelease(st, peer, releaseID, items, ids) && AllStored(st, s, peer, releaseID, items, ids)
    requires ReleasesDistinct(s.ps)
    ensures |st.ps| < |s.ps| && |ids| > 0 && s.ps[|st.ps|].id == ids[0] && Ready(s, Group(s.ps, |st.ps|))
  {
    NewFacts(st, peer, releaseID, items, ids);
    NewGroup(st, s, peer, releaseID, items, ids);
    hide AllStored, NewRelease, Group, Ready, ReleasesDistinct, Valid, FreshIDs, ReleaseVerdict;
    AllReady(st, s, peer, releaseID, items, ids);
  }

  lemma NewReady(st: Store, peer: Peer, releaseID: string, items: seq<Submission>, ids: seq<string>)
    requires NewRelease(st, peer, releaseID, items, ids)
    ensures var s := StoreAll(st, AdmitAll(st, peer, items, releaseID, ids));
      && Valid(s) && |st.ps| < |s.ps| && s.ps[|st.ps|].id == ids[0] && Ready(s, Group(s.ps, |st.ps|))
  {
    hide AdmitAll, Admit, StoreAll, AllStored, NewRelease, Valid, FreshIDs, ReleaseVerdict, ReleasesDistinct, Ready,
         Group, StoredRelease, Arrives;
    NewFacts(st, peer, releaseID, items, ids);
    WholeStored(st, peer, releaseID, items, ids);
    ReleaseArrives(st, peer, releaseID, items, ids);
    StoredReady(st, StoreAll(st, AdmitAll(st, peer, items, releaseID, ids)), peer, releaseID, items, ids);
  }

  /** Where the vhost asks nobody, a new release is deployed as it arrives: none of it waits, and
      with undo calls that go through it is live as a whole or not at all. */
  lemma ReleaseDeploysAtOnce(st: Store, rules: Rules, peer: Peer, releaseID: string, items: seq<Submission>,
                             ids: seq<string>, env: Env)
    requires NewRelease(st, peer, releaseID, items, ids)
    requires AsksNobody(rules, Called(LandingVHost(st, peer, items[0].workflow)))
    ensures var (s, v) := ReceiveRelease(st, rules, peer, releaseID, items, ids, env);
      && v.Fine? && |s.ps| == |st.ps| + |items|
      && (forall k :: |st.ps| <= k < |s.ps| ==> Over(s.ps[k]) && s.ps[k].id == ids[k - |st.ps|])
      && exists t, g :: AllStored(st, t, peer, releaseID, items, ids) && |g| == |items| &&
           (forall x: nat :: x in g <==> |st.ps| <= x < |s.ps|) &&
           s == DeployGroup(t, ids[0], Terms("automatic", map[], false), env).0 &&
           (UndosSucceed(t, g, env) ==> AllLive(t, s, g) || exists b :: NoneLive(t, s, g, b))
  {
    hide AdmitAll, Admit, StoreAll, NewRelease, DeployGroup, LandingVHost, Valid, FreshIDs, ReleaseVerdict, AllStored,
         AllLive, NoneLive, AsksNobody, Called, ReceiveRelease;
    NewFacts(st, peer, releaseID, items, ids);
    ReceivedOr(st, rules, peer, releaseID, items, ids, env);
    WholeStored(st, peer, releaseID, items, ids);
    NewReady(st, peer, releaseID, items, ids);
    var t := StoreAll(st, AdmitAll(st, peer, items, releaseID, ids));
    NewGroup(st, t, peer, releaseID, items, ids);
    DeployedAtOnce(t, |st.ps|, Terms("automatic", map[], false), env);
    NewOffers(st, t, peer, releaseID, items, ids);
    GroupCount(t.ps, |st.ps|);
  }

  lemma GroupCount(ps: seq<Promotion>, i: nat)
    requires i < |ps| && forall x: nat :: x in Group(ps, i) <==> i <= x < |ps|
    ensures |Group(ps, i)| == |ps| - i
  {
    hide Group;
    CountRange(Group(ps, i), i, |ps|);
  }

  /** A rising list of exactly the numbers from lo to hi. */
  lemma {:induction false} CountRange(g: seq<nat>, lo: nat, hi: nat)
    requires lo <= hi && (forall a, b :: 0 <= a < b < |g| ==> g[a] < g[b])
    requires forall x: nat :: x in g <==> lo <= x < hi
    ensures |g| == hi - lo
    decreases hi - lo
  {
    if g != [] { assert g[0] in g; }
    if lo < hi {
      var last := |g| - 1;
      assert hi - 1 in g;
      var k :| 0 <= k < |g| && g[k] == hi - 1;
      assert g[last] in g;
      assert k == last;
      forall x: nat ensures x in g[..last] <==> lo <= x < hi - 1 {
        if lo <= x < hi - 1 {
          assert x in g;
          var j :| 0 <= j < |g| && g[j] == x;
          assert g[..last][j] == x;
        }
        if x in g[..last] {
          var j :| 0 <= j < last && g[..last][j] == x;
          assert g[j] in g;
        }
      }
      CountRange(g[..last], lo, hi - 1);
    }
  }

  lemma DeployedAtOnce(t: Store, i: nat, terms: Terms, env: Env)
    requires Valid(t) && i < |t.ps| && Ready(t, Group(t.ps, i))
    ensures var s := DeployGroup(t, t.ps[i].id, terms, env).0; var g := Group(t.ps, i);
      && SameOffersAs(t.ps, s.ps) && (forall x: nat :: x in g ==> Over(s.ps[x]))
      && (UndosSucceed(t, g, env) ==> AllLive(t, s, g) || exists b :: NoneLive(t, s, g, b))
  {
    hide Group, DeployFrom, AllLive, NoneLive, UndosSucceed, Ready;
    IndexOfUnique(t.ps, i);
    var g := Group(t.ps, i);
    DeployDecides(t, g, IDsAt(t.ps, g), 0, terms, env);
    if UndosSucceed(t, g, env) { WholeOrNothing(t, i, terms, env); }
  }

  // ------------------------------------------------------------------- what is let in

  /** Where connection x is here. */
  function VHostThere(c: Conns, x: Carried): string
    requires Here(c, x)
  {
    if x.kind == "source" then c.sources[x.id] else c.sinks[x.id]
  }

  /** A connection sent along: of a known kind, named by the workflow, and if it is here
      already, where peer may use it. */
  ghost predicate MayCome(st: Store, peer: Peer, wf: Workflow, x: Carried) {
    && ((x.kind == "source" && x.id in Sources(wf)) || (x.kind == "sink" && x.id in Sinks(wf)))
    && 1 <= |x.id| <= 128
    && (Here(st.conns, x) ==> MayReach(peer, VHostThere(st.conns, x)))
  }

  /** A connection the workflow names is here where peer may use it, or is not here and comes
      along. */
  ghost predicate Provided(st: Store, peer: Peer, sub: Submission, x: Carried) {
    if Here(st.conns, x) then MayReach(peer, VHostThere(st.conns, x)) else x in sub.connections
  }

  ghost predicate Admissible(st: Store, peer: Peer, sub: Submission) {
    var wf := sub.workflow;
    && 1 <= |wf.id| <= 128 && (exists i :: 0 <= i < |wf.name| && !IsSpace(wf.name[i])) && |sub.sender| <= 128
    && (wf.id in st.flows.workflows ==> MayReach(peer, st.flows.workflows[wf.id].vhost))
    && sub.soaked && |sub.connections| <= 50
    && (forall x :: x in sub.connections ==> MayCome(st, peer, wf, x))
    && (forall id :: id in Sources(wf) ==> Provided(st, peer, sub, Carried("source", id)))
    && (forall id :: id in Sinks(wf) ==> Provided(st, peer, sub, Carried("sink", id)))
    && (sub.values == map[] ||
        (st.backend.Writable? && |sub.values| <= 100 && forall name :: name in sub.values ==> name in sub.uses))
  }

  lemma CarriedFineIff(st: Store, peer: Peer, wf: Workflow, x: Carried)
    ensures CarriedVerdict(st.conns, peer, wf, x).Fine? <==> MayCome(st, peer, wf, x)
  {
    hide Sources, Sinks;
  }

  lemma LandedRefs(st: Store, peer: Peer, wf: Workflow)
    ensures Sources(Landed(st, peer, wf)) == Sources(wf) && Sinks(Landed(st, peer, wf)) == Sinks(wf)
  {
  }

  lemma AllComeIff(st: Store, peer: Peer, sub: Submission)
    ensures var r := AdmitCarried(st.conns, peer, Landed(st, peer, sub.workflow), sub.connections, |sub.connections|);
      && (r.0.Fine? <==> forall x :: x in sub.connections ==> MayCome(st, peer, sub.workflow, x))
      && (r.0.Fine? ==> forall x :: x in r.1 <==> x in sub.connections && !Here(st.conns, x))
  {
    hide CarriedVerdict, MayCome, AdmitCarried, Landed, Sources, Sinks;
    var wf := Landed(st, peer, sub.workflow);
    LandedRefs(st, peer, sub.workflow);
    forall x ensures CarriedVerdict(st.conns, peer, wf, x).Fine? <==> MayCome(st, peer, sub.workflow, x) {
      CarriedFineIff(st, peer, wf, x);
      ComesAlike(st, peer, wf, sub.workflow, x);
    }
    assert sub.connections[..|sub.connections|] == sub.connections;
  }

  lemma ComesAlike(st: Store, peer: Peer, a: Workflow, b: Workflow, x: Carried)
    requires Sources(a) == Sources(b) && Sinks(a) == Sinks(b)
    ensures MayCome(st, peer, a, x) <==> MayCome(st, peer, b, x)
  {
  }

  lemma ProvidedIff(st: Store, peer: Peer, sub: Submission, keep: seq<Carried>)
    requires forall x :: x in keep <==> x in sub.connections && !Here(st.conns, x)
    ensures HasConnections(st.conns, peer, Landed(st, peer, sub.workflow), keep) <==>
      && (forall id :: id in Sources(sub.workflow) ==> Provided(st, peer, sub, Carried("source", id)))
      && (forall id :: id in Sinks(sub.workflow) ==> Provided(st, peer, sub, Carried("sink", id)))
  {
    LandedRefs(st, peer, sub.workflow);
    hide Landed, Sources, Sinks;
  }

  /** An item is let in exactly when it is admissible; and one for a workflow out of the
      sender's reach is forbidden. */
  lemma AdmitFineIff(st: Store, peer: Peer, sub: Submission)
    ensures AdmitVerdict(st, peer, sub).Fine? <==> Admissible(st, peer, sub)
    ensures ValidSubmission(sub) && sub.workflow.id in st.flows.workflows &&
            !MayReach(peer, st.flows.workflows[sub.workflow.id].vhost) ==>
      AdmitVerdict(st, peer, sub) == Refuse(Forbidden)
  {
    AllComeIff(st, peer, sub);
    var wf := Landed(st, peer, sub.workflow);
    var r := AdmitCarried(st.conns, peer, wf, sub.connections, |sub.connections|);
    if r.0.Fine? { ProvidedIff(st, peer, sub, r.1); }
    hide AdmitCarried, HasConnections, MayCome, Provided, Sources, Sinks, Landed;
  }

  /** A release is let in exactly when its id and size are right, it is known already, or no
      workflow is in it twice and every item is admissible. */
  lemma ReleaseFineIff(st: Store, peer: Peer, releaseID: string, items: seq<Submission>)
    ensures ReleaseVerdict(st, peer, releaseID, items).Fine? <==>
      && 1 <= |releaseID| <= 64 && (forall i :: 0 <= i < |releaseID| ==> ReleaseIDChar(releaseID[i]))
      && 1 <= |items| <= 50
      && ((exists j :: 0 <= j < |st.ps| && st.ps[j].offer.peerID == peer.id && st.ps[j].offer.releaseID == releaseID) ||
          ((forall i, j :: 0 <= i < j < |items| ==> items[i].workflow.id != items[j].workflow.id) &&
           (forall k :: 0 <= k < |items| ==> Admissible(st, peer, items[k]))))
  {
    hide AdmitVerdict, Admissible;
    forall k | 0 <= k < |items| ensures AdmitVerdict(st, peer, items[k]).Fine? <==> Admissible(st, peer, items[k]) {
      AdmitFineIff(st, peer, items[k]);
    }
    ItemsFineIff(st, peer, items, |items|);
  }

  lemma {:induction false} ItemsFineIff(st: Store, peer: Peer, items: seq<Submission>, n: nat)
    requires n <= |items|
    ensures ItemsVerdict(st, peer, items, n).Fine? <==>
      && (forall i, j :: 0 <= i < j < n ==> items[i].workflow.id != items[j].workflow.id)
      && (forall k :: 0 <= k < n ==> AdmitVerdict(st, peer, items[k]).Fine?)
  {
    hide AdmitVerdict;
    if n > 0 { ItemsFineIff(st, peer, items, n - 1); }
  }

  // ----------------------------------------------------- a sender limited to one vhost

  /** p lands where peer may use it. */
  ghost predicate LandsInReach(st: Store, peer: Peer, p: Promotion) {
    && MayReach(peer, p.offer.vhost)
    && (p.offer.workflowID in st.flows.workflows ==> MayReach(peer, st.flows.workflows[p.offer.workflowID].vhost))
    && (p.id in st.bodies ==> MayReach(peer, st.bodies[p.id].vhost))
  }

  /** Whatever is let in lands where its sender may use it. */
  lemma ArrivesInReach(st: Store, s: Store, peer: Peer, sub: Submission, releaseID: string, q: Promotion)
    requires Admissible(st, peer, sub) && StoredAs(st, s, peer, sub, releaseID, q) && s.flows == st.flows
    ensures LandsInReach(s, peer, q)
  {
    hide Sources, Sinks;
  }

  /** And a deploy of it leaves the vhost its sender is limited to alone otherwise: it adds
      secrets and connections, and keeps the workflow, in that vhost only. */
  lemma DeployStaysInVHost(st: Store, i: nat, terms: Terms, env: Env, peer: Peer)
    requires Valid(st) && i < |st.ps| && peer.vhost != "" && LandsInReach(st, peer, st.ps[i])
    ensures var (s, ok) := Deploy(st, st.ps[i].id, terms, env); var w := st.ps[i].offer.workflowID;
      && (forall key :: key in s.secrets && key !in st.secrets ==> key.0 == Called(peer.vhost))
      && (forall id :: id in s.conns.sources && id !in st.conns.sources ==> s.conns.sources[id] == Called(peer.vhost))
      && (forall id :: id in s.conns.sinks && id !in st.conns.sinks ==> s.conns.sinks[id] == Called(peer.vhost))
      && (ok ==> w in s.flows.workflows && MayReach(peer, s.flows.workflows[w].vhost))
  {
    hide Deploy, LacksSecret;
    DeployTouches(st, i, terms, env);
    if Deploy(st, st.ps[i].id, terms, env).1 { DeployRunsAsAsked(st, i, terms, env); }
  }
}
