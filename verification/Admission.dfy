/** How a promotion or a release arrives (receive.go, admit, storePromotions and
    ReceiveRelease; carry.go, admitCarried). */
module Admission {
  import opened Workflows
  import opened Promotions
  import opened Decisions
  import opened ReleaseAtomicity
  import opened RollbackStack

  const MAX_RELEASE_ITEMS := 50
  const MAX_CARRIED := 50
  const MAX_SENT_SECRETS := 100
  const MAX_ID := 128

  /** A workflow as it is sent. `uses` are the secrets it and its connections read here;
      `soaked` says whether the version is as old as the receiving vhost wants. */
  datatype Submission = Submission(
    workflow: Workflow, sender: string, start: bool, uses: seq<string>, values: map<string, string>,
    connections: seq<Carried>, soaked: bool)

  predicate IsSpace(c: char) {
    c == ' ' || c == '\t' || c == '\n' || c == '\r'
  }

  predicate Blank(s: string) {
    forall i :: 0 <= i < |s| ==> IsSpace(s[i])
  }

  /** s without the space at either end. */
  function Trim(s: string): string {
    if s == [] then []
    else if IsSpace(s[0]) then Trim(s[1..])
    else if IsSpace(s[|s| - 1]) then Trim(s[..|s| - 1])
    else s
  }

  /** s is space, then r, then space, and r neither begins nor ends with any. */
  ghost predicate Trimmed(s: string, r: string) {
    && (exists i, j :: 0 <= i <= j <= |s| && r == s[i..j] && Blank(s[..i]) && Blank(s[j..]))
    && (r != [] ==> !IsSpace(r[0]) && !IsSpace(r[|r| - 1]))
  }

  lemma {:induction false} Trims(s: string)
    ensures Trimmed(s, Trim(s))
    decreases |s|
  {
    hide Blank;
    if s == [] || (!IsSpace(s[0]) && !IsSpace(s[|s| - 1])) {
      AllOf(s);
    } else if IsSpace(s[0]) {
      Trims(s[1..]);
      var i, j :| 0 <= i <= j <= |s| - 1 && Trim(s) == s[1..][i..j] && Blank(s[1..][..i]) && Blank(s[1..][j..]);
      TrimLeft(s, i, j);
    } else {
      var t := s[..|s| - 1];
      Trims(t);
      var i, j :| 0 <= i <= j <= |t| && Trim(s) == t[i..j] && Blank(t[..i]) && Blank(t[j..]);
      TrimRight(s, i, j);
    }
  }

  lemma AllOf(s: string)
    ensures s == s[0..|s|] && Blank(s[..0]) && Blank(s[|s|..])
  {
  }

  lemma TrimLeft(s: string, i: nat, j: nat)
    requires s != [] && IsSpace(s[0]) && i <= j <= |s| - 1 && Blank(s[1..][..i]) && Blank(s[1..][j..])
    ensures s[1..][i..j] == s[i + 1..j + 1] && Blank(s[..i + 1]) && Blank(s[j + 1..])
  {
    assert s[..i + 1] == [s[0]] + s[1..][..i] && s[j + 1..] == s[1..][j..];
  }

  lemma TrimRight(s: string, i: nat, j: nat)
    requires s != [] && IsSpace(s[|s| - 1]) && i <= j <= |s| - 1
    requires var t := s[..|s| - 1]; Blank(t[..i]) && Blank(t[j..])
    ensures s[..|s| - 1][i..j] == s[i..j] && Blank(s[..i]) && Blank(s[j..])
  {
    var t := s[..|s| - 1];
    assert s[..i] == t[..i] && s[j..] == t[j..] + [s[|s| - 1]];
  }

  predicate ReleaseIDChar(c: char) {
    'A' <= c <= 'Z' || 'a' <= c <= 'z' || '0' <= c <= '9' || c == '-'
  }

  predicate ValidReleaseID(id: string) {
    1 <= |id| <= 64 && forall i :: 0 <= i < |id| ==> ReleaseIDChar(id[i])
  }

  predicate ValidSubmission(sub: Submission) {
    && 1 <= |sub.workflow.id| <= MAX_ID
    && !Blank(sub.workflow.name)
    && |sub.sender| <= MAX_ID
  }

  // ------------------------------------------------------------ brought connections

  function VHostFound(c: Conns, x: Carried): string
    requires Found(c, x)
  {
    if x.kind == "source" then c.sources[x.id] else c.sinks[x.id]
  }

  function CarriedVerdict(c: Conns, peer: Peer, wf: Workflow, x: Carried): Verdict {
    if x.kind != "source" && x.kind != "sink" then Refuse(Invalid)
    else if x.id !in (if x.kind == "source" then Sources(wf) else Sinks(wf)) || x.id == "" || |x.id| > MAX_ID
        then Refuse(Invalid)
    else if Found(c, x) && !MayUse(peer, VHostFound(c, x)) then Refuse(Forbidden)
    else Fine
  }

  /** admitCarried over the first n: the ones to create, or the first refusal. */
  function AdmitCarried(c: Conns, peer: Peer, wf: Workflow, carried: seq<Carried>, n: nat): (r: (Verdict, seq<Carried>))
    requires n <= |carried|
    ensures r.0.Fine? <==> forall k :: 0 <= k < n ==> CarriedVerdict(c, peer, wf, carried[k]).Fine?
    ensures r.0.Fine? ==> forall x :: x in r.1 <==> x in carried[..n] && !Found(c, x)
    ensures r.0.Fine? ==> forall x :: x in r.1 ==> x.kind == "source" || x.kind == "sink"
  {
    hide CarriedVerdict, Found;
    if n == 0 then (Fine, []) else
      assert carried[..n] == carried[..n - 1] + [carried[n - 1]];
      var r := AdmitCarried(c, peer, wf, carried, n - 1);
      var x := carried[n - 1];
      var v := CarriedVerdict(c, peer, wf, x);
      FineKind(c, peer, wf, x);
      if r.0.Refuse? then r else if v.Refuse? then (v, []) else if Found(c, x) then r else (Fine, r.1 + [x])
  }

  lemma FineKind(c: Conns, peer: Peer, wf: Workflow, x: Carried)
    ensures CarriedVerdict(c, peer, wf, x).Fine? ==> x.kind == "source" || x.kind == "sink"
  {
  }

  // ------------------------------------------------------------------------- secrets

  /** The names of uses the vhost lacks, in order. */
  function Lacking(secrets: Secrets, vhost: string, uses: seq<string>): (r: seq<string>)
    ensures forall x :: x in r <==> x in uses && (vhost, x) !in secrets
  {
    if uses == [] then [] else
      var r := Lacking(secrets, vhost, uses[..|uses| - 1]);
      var x := uses[|uses| - 1];
      assert uses == uses[..|uses| - 1] + [x];
      if (vhost, x) in secrets then r else r + [x]
  }

  predicate ValuesAdmitted(st: Store, sub: Submission) {
    sub.values == map[] ||
    (st.backend.Writable? && |sub.values| <= MAX_SENT_SECRETS && forall name :: name in sub.values ==> name in sub.uses)
  }

  /** The names a value came for, of those needed: the values that are kept. */
  function SentFor(needs: seq<string>, values: map<string, string>): (r: seq<string>)
    ensures forall x :: x in r <==> x in needs && x in values
  {
    if needs == [] then [] else
      var r := SentFor(needs[..|needs| - 1], values);
      var x := needs[|needs| - 1];
      assert needs == needs[..|needs| - 1] + [x];
      if x in values then r + [x] else r
  }

  // ----------------------------------------------------------------------- admission

  datatype Admitted = Admitted(p: Promotion, wf: Workflow, values: map<string, string>)

  /** The workflow as it lands here: in its own vhost when it exists, else in the one
      the peer sends into. */
  function Landed(st: Store, peer: Peer, wf: Workflow): Workflow {
    if wf.id in st.flows.workflows then wf.(vhost := st.flows.workflows[wf.id].vhost)
    else if peer.vhost != "" then wf.(vhost := peer.vhost)
    else wf
  }

  function AdmitVerdict(st: Store, peer: Peer, sub: Submission): Verdict {
    var wf := Landed(st, peer, sub.workflow);
    if !ValidSubmission(sub) then Refuse(Invalid)
    else if sub.workflow.id in st.flows.workflows && !MayUse(peer, st.flows.workflows[sub.workflow.id].vhost)
        then Refuse(Forbidden)
    else if !sub.soaked || |sub.connections| > MAX_CARRIED then Refuse(Invalid)
    else
      var (v, keep) := AdmitCarried(st.conns, peer, wf, sub.connections, |sub.connections|);
      if v.Refuse? then v
      else if !HasConnections(st.conns, peer, wf, keep) || !ValuesAdmitted(st, sub) then Refuse(Invalid)
      else Fine
  }

  /** wf without what its sender's instance knew of its run. */
  function Portable(wf: Workflow): Workflow {
    wf.(run := Workflows.Run(wf.run.workspaceID, "", "", 0, 0))
  }

  /** What admit builds, without storing anything. */
  function Admit(st: Store, peer: Peer, sub: Submission, releaseID: string, id: string): (a: Admitted)
    ensures a.p.id == id && a.p.status == Pending && a.wf.id == a.p.offer.workflowID == sub.workflow.id
    ensures a.p.offer.peerID == peer.id && a.p.offer.releaseID == releaseID
  {
    var wf := Landed(st, peer, sub.workflow);
    var keep := AdmitCarried(st.conns, peer, wf, sub.connections, |sub.connections|).1;
    var needs := if st.backend.NoSecrets? then [] else Lacking(st.secrets, VHostOf(wf.vhost), sub.uses);
    var filled := SentFor(needs, sub.values);
    Admitted(Promotion(id, Offer(peer.id, releaseID, wf.id, wf.vhost, Trim(sub.sender), sub.start, needs, filled,
                             keep),
                       Pending, "", 0, 0, NOTHING, false),
             Portable(wf), map x | x in filled :: sub.values[x])
  }

  /** ReceiveRelease's loop over the first n items: the first refusal, if any. */
  function ItemsVerdict(st: Store, peer: Peer, items: seq<Submission>, n: nat): Verdict
    requires n <= |items|
  {
    if n == 0 then Fine else
      var v := ItemsVerdict(st, peer, items, n - 1);
      if v.Refuse? then v
      else if SentTwice(items, n - 1) then Refuse(Invalid)
      else AdmitVerdict(st, peer, items[n - 1])
  }

  /** Whether item n names the workflow of an item before it. */
  predicate SentTwice(items: seq<Submission>, n: nat)
    requires n < |items|
  {
    exists i :: 0 <= i < n && items[i].workflow.id == items[n].workflow.id
  }

  lemma {:induction false} ItemsDistinct(st: Store, peer: Peer, items: seq<Submission>, n: nat)
    requires n <= |items| && ItemsVerdict(st, peer, items, n).Fine?
    ensures forall i, j :: 0 <= i < j < n ==> items[i].workflow.id != items[j].workflow.id
  {
    hide AdmitVerdict;
    if n > 0 { ItemsDistinct(st, peer, items, n - 1); }
  }

  /** The promotions of a release that are stored, in the order they were sent. */
  function StoredRelease(ps: seq<Promotion>, peerID: string, releaseID: string): (r: seq<Promotion>)
    ensures forall k :: 0 <= k < |r| ==> r[k].offer.peerID == peerID && r[k].offer.releaseID == releaseID && r[k] in ps
    ensures r == [] <==> forall j :: 0 <= j < |ps| ==>
        !(ps[j].offer.peerID == peerID && ps[j].offer.releaseID == releaseID)
  {
    if ps == [] then [] else
      var r := StoredRelease(ps[..|ps| - 1], peerID, releaseID);
      var p := ps[|ps| - 1];
      if p.offer.peerID == peerID && p.offer.releaseID == releaseID then r + [p] else r
  }

  function AdmitAll(st: Store, peer: Peer, items: seq<Submission>, releaseID: string,
                    ids: seq<string>): (r: seq<Admitted>)
    requires |ids| == |items|
    ensures |r| == |items| && forall k :: 0 <= k < |r| ==> r[k] == Admit(st, peer, items[k], releaseID, ids[k])
  {
    seq(|items|, k requires 0 <= k < |items| => Admit(st, peer, items[k], releaseID, ids[k]))
  }

  function PromotionsOf(admitted: seq<Admitted>): (r: seq<Promotion>)
    ensures |r| == |admitted| && forall k :: 0 <= k < |admitted| ==> r[k] == admitted[k].p
  {
    seq(|admitted|, k requires 0 <= k < |admitted| => admitted[k].p)
  }

  function BodiesOf(admitted: seq<Admitted>, n: nat): (r: map<string, Workflow>)
    requires n <= |admitted|
    ensures forall x :: x in r <==> exists k :: 0 <= k < n && admitted[k].p.id == x
  {
    if n == 0 then map[] else BodiesOf(admitted, n - 1)[admitted[n - 1].p.id := admitted[n - 1].wf]
  }

  function SentBodies(admitted: seq<Admitted>, n: nat): map<string, map<string, string>>
    requires n <= |admitted|
  {
    if n == 0 then map[]
    else if admitted[n - 1].values == map[] then SentBodies(admitted, n - 1)
    else SentBodies(admitted, n - 1)[admitted[n - 1].p.id := admitted[n - 1].values]
  }

  /** storePromotions. */
  function StoreAll(st: Store, admitted: seq<Admitted>): Store {
    st.(ps := st.ps + PromotionsOf(admitted), bodies := st.bodies + BodiesOf(admitted, |admitted|),
        sent := st.sent + SentBodies(admitted, |admitted|))
  }

  function ReleaseVerdict(st: Store, peer: Peer, releaseID: string, items: seq<Submission>): Verdict {
    if !ValidReleaseID(releaseID) || items == [] || |items| > MAX_RELEASE_ITEMS then Refuse(Invalid)
    else if StoredRelease(st.ps, peer.id, releaseID) != [] then Fine
    else ItemsVerdict(st, peer, items, |items|)
  }

  /** ReceiveRelease: one already stored is left as it is; under the rule that asks for
      no approval, a new one is deployed at once. */
  function ReceiveRelease(st: Store, rules: Rules, peer: Peer, releaseID: string, items: seq<Submission>,
                          ids: seq<string>, env: Env): (Store, Verdict)
    requires |ids| == |items|
  {
    var v := ReleaseVerdict(st, peer, releaseID, items);
    if v.Refuse? || StoredRelease(st.ps, peer.id, releaseID) != [] then (st, v) else
      var admitted := AdmitAll(st, peer, items, releaseID, ids);
      var s := StoreAll(st, admitted);
      if items != [] && RuleFor(rules, VHostOf(admitted[0].p.offer.vhost)) == NoApproval
      then (DeployGroup(s, ids[0], Terms("automatic", map[], false), env).0, Fine)
      else (s, Fine)
  }

  // ------------------------------------------------------------- whole or not at all

  ghost predicate FreshIDs(st: Store, ids: seq<string>) {
    && (forall i, j :: 0 <= i < j < |ids| ==> ids[i] != ids[j])
    && (forall k :: 0 <= k < |ids| ==> ids[k] !in st.bodies && forall j :: 0 <= j < |st.ps| ==> st.ps[j].id != ids[k])
  }

  lemma {:induction false} BodiesFiled(admitted: seq<Admitted>, n: nat, k: nat)
    requires k < n <= |admitted|
    requires forall i, j :: 0 <= i < j < |admitted| ==> admitted[i].p.id != admitted[j].p.id
    ensures admitted[k].p.id in BodiesOf(admitted, n) && BodiesOf(admitted, n)[admitted[k].p.id] == admitted[k].wf
  {
    if k < n - 1 { BodiesFiled(admitted, n - 1, k); }
  }

  lemma ReleaseShape(st: Store, peer: Peer, releaseID: string, items: seq<Submission>, ids: seq<string>)
    requires |ids| == |items| && ReleaseVerdict(st, peer, releaseID, items).Fine? &&
        StoredRelease(st.ps, peer.id, releaseID) == []
    requires FreshIDs(st, ids)
    ensures var stored := PromotionsOf(AdmitAll(st, peer, items, releaseID, ids));
      && |stored| == |items| && releaseID != ""
      && (forall k :: 0 <= k < |stored| ==>
            && stored[k].id == ids[k] && stored[k].status == Pending &&
                stored[k].offer.workflowID == items[k].workflow.id
            && stored[k].offer.peerID == peer.id && stored[k].offer.releaseID == releaseID)
      && (forall i, j :: 0 <= i < j < |stored| ==> stored[i].offer.workflowID != stored[j].offer.workflowID)
  {
    hide Admit, ItemsVerdict;
    ItemsDistinct(st, peer, items, |items|);
  }

  lemma AppendDistinct(ps: seq<Promotion>, more: seq<Promotion>, peerID: string, releaseID: string)
    requires ReleasesDistinct(ps) && releaseID != "" && StoredRelease(ps, peerID, releaseID) == []
    requires forall k :: 0 <= k < |more| ==> more[k].offer.peerID == peerID && more[k].offer.releaseID == releaseID
    requires forall i, j :: 0 <= i < j < |more| ==> more[i].offer.workflowID != more[j].offer.workflowID
    ensures ReleasesDistinct(ps + more)
  {
    var all := ps + more;
    forall i, j | 0 <= i < j < |all| && SameGroup(all, i, j)
        ensures all[i].offer.workflowID != all[j].offer.workflowID {
      assert i < |ps| ==> all[i] == ps[i];
      assert i >= |ps| ==> all[i] == more[i - |ps|];
      assert j >= |ps| ==> all[j] == more[j - |ps|];
      if j < |ps| { assert SameGroup(ps, i, j); }
    }
  }

  lemma AppendUnique(st: Store, more: seq<Promotion>, ids: seq<string>)
    requires UniqueIDs(st.ps) && FreshIDs(st, ids) && |ids| == |more|
    requires forall k :: 0 <= k < |more| ==> more[k].id == ids[k]
    ensures UniqueIDs(st.ps + more)
  {
    var all := st.ps + more;
    forall i, j | 0 <= i < j < |all| ensures all[i].id != all[j].id {
      if j >= |st.ps| { assert all[j] == more[j - |st.ps|]; }
      if i >= |st.ps| { assert all[i] == more[i - |st.ps|]; }
    }
  }

  /** A release arrives whole: every item is stored as one pending promotion, in order,
      and the store stays well formed, with no workflow twice in a release. */
  lemma ReleaseArrives(st: Store, peer: Peer, releaseID: string, items: seq<Submission>, ids: seq<string>)
    requires Valid(st) && ReleasesDistinct(st.ps) && FreshIDs(st, ids) && |ids| == |items|
    requires ReleaseVerdict(st, peer, releaseID, items).Fine? && StoredRelease(st.ps, peer.id, releaseID) == []
    ensures var admitted := AdmitAll(st, peer, items, releaseID, ids);
      Arrives(st, PromotionsOf(admitted), BodiesOf(admitted, |admitted|)) && Valid(StoreAll(st, admitted)) &&
          ReleasesDistinct(StoreAll(st, admitted).ps)
  {
    hide Admit, AdmitAll, PromotionsOf, BodiesOf, BodyFiled, StoredRelease, ReleaseVerdict, ReleasesDistinct,
        UniqueIDs, FlowFiled;
    var admitted := AdmitAll(st, peer, items, releaseID, ids);
    var more := PromotionsOf(admitted);
    ReleaseShape(st, peer, releaseID, items, ids);
    AppendDistinct(st.ps, more, peer.id, releaseID);
    AppendUnique(st, more, ids);
    AdmittedBodies(st, peer, releaseID, items, ids);
    StoredFiled(st, more, BodiesOf(admitted, |admitted|));
  }

  lemma AdmittedBodies(st: Store, peer: Peer, releaseID: string, items: seq<Submission>, ids: seq<string>)
    requires FreshIDs(st, ids) && |ids| == |items|
    ensures var admitted := AdmitAll(st, peer, items, releaseID, ids);
      var more, bodies := PromotionsOf(admitted), BodiesOf(admitted, |admitted|);
      && (forall k :: 0 <= k < |more| ==> more[k].id in bodies && BodyFiled(bodies, more[k]))
      && (forall x :: x in bodies ==> exists k :: 0 <= k < |more| && more[k].id == x)
  {
    hide Admit;
    var admitted := AdmitAll(st, peer, items, releaseID, ids);
    var more, bodies := PromotionsOf(admitted), BodiesOf(admitted, |admitted|);
    forall k | 0 <= k < |more| ensures more[k].id in bodies && BodyFiled(bodies, more[k]) {
      BodiesFiled(admitted, |admitted|, k);
    }
    forall x | x in bodies ensures exists k :: 0 <= k < |more| && more[k].id == x {
      var k :| 0 <= k < |admitted| && admitted[k].p.id == x;
      assert more[k].id == x;
    }
  }

  lemma StoredFiled(st: Store, more: seq<Promotion>, bodies: map<string, Workflow>)
    requires Valid(st) && UniqueIDs(st.ps + more)
    requires forall k :: 0 <= k < |more| ==> more[k].id in bodies && BodyFiled(bodies, more[k])
    requires forall x :: x in bodies ==> exists k :: 0 <= k < |more| && more[k].id == x
    ensures forall i :: 0 <= i < |st.ps + more| ==> BodyFiled(st.bodies + bodies, (st.ps + more)[i])
    ensures forall j :: 0 <= j < |st.ps| ==> st.ps[j].id !in bodies
  {
    var all := st.ps + more;
    forall j, k | 0 <= j < |st.ps| && 0 <= k < |more| ensures st.ps[j].id != more[k].id {
      assert all[j].id != all[|st.ps| + k].id;
    }
    forall i | 0 <= i < |all| ensures BodyFiled(st.bodies + bodies, all[i]) {
      if i < |st.ps| { assert BodyFiled(st.bodies, st.ps[i]); } else { assert all[i] == more[i - |st.ps|]; }
    }
  }

  /** A release with one bad item, or one already stored, changes nothing; and sending a
      release again finds the first one. */
  lemma ReleaseRefusedWhole(st: Store, rules: Rules, peer: Peer, releaseID: string, items: seq<Submission>,
                            ids: seq<string>, env: Env)
    requires |ids| == |items| && |items| > 0
    requires StoredRelease(st.ps, peer.id, releaseID) != [] ||
        exists k :: 0 <= k < |items| && AdmitVerdict(st, peer, items[k]).Refuse?
    ensures ReceiveRelease(st, rules, peer, releaseID, items, ids, env).0 == st
  {
    if StoredRelease(st.ps, peer.id, releaseID) == [] {
      var k :| 0 <= k < |items| && AdmitVerdict(st, peer, items[k]).Refuse?;
      ItemRefuses(st, peer, items, k, |items|);
    }
  }

  lemma {:induction false} ItemRefuses(st: Store, peer: Peer, items: seq<Submission>, k: nat, n: nat)
    requires k < n <= |items| && AdmitVerdict(st, peer, items[k]).Refuse?
    ensures ItemsVerdict(st, peer, items, n).Refuse?
  {
    hide AdmitVerdict;
    if k < n - 1 { ItemRefuses(st, peer, items, k, n - 1); }
  }
}
