/** What a receiving instance stores about promotions, and what each operation of
    internal/environment/receive.go does to it, as functions of the stored values.
    Calls into code outside the model (the workflow update path, the connection
    and secret stores) succeed or fail as an `Env` says; a failed one changes
    nothing. */
module Promotions {
  import opened Workflows

  // -------------------------------------------------------------------- model

  datatype Status = Pending | Deploying | Rejected | Deployed | Failed | RolledBack

  /** A connection a promotion brings along. */
  datatype Carried = Carried(kind: string, id: string)

  datatype Peer = Peer(id: string, vhost: string)

  /** What arrived: never changed once it is stored. */
  datatype Offer = Offer(
    peerID: string, releaseID: string, workflowID: string, vhost: string, sender: string, start: bool,
    secrets: seq<string>, filled: seq<string>, connections: seq<Carried>)

  /** What a deploy did with the secrets the promotion needed. */
  datatype SecretsReport = SecretsReport(created: seq<string>, kept: seq<string>, missing: seq<string>)

  datatype Promotion = Promotion(
    id: string, offer: Offer, status: Status, decidedBy: string,
    previous: nat, applied: nat, secrets: SecretsReport, keptStopped: bool)

  /** What the instance can do with secrets: nothing, look them up, or create them too. */
  datatype Backend = NoSecrets | ReadOnly | Writable

  /** The stored workflows; version n of workflow w is history[w][n - 1]. */
  datatype Flows = Flows(workflows: map<string, Workflow>, history: map<string, seq<Workflow>>)

  /** The vhost each source and sink is in, by ID. */
  datatype Conns = Conns(sources: map<string, string>, sinks: map<string, string>)

  /** A secret is keyed by its vhost and name. */
  type Secrets = map<(string, string), string>

  datatype Store = Store(
    ps: seq<Promotion>,
    bodies: map<string, Workflow>,
    sent: map<string, map<string, string>>,
    flows: Flows,
    conns: Conns,
    secrets: Secrets,
    peers: seq<Peer>,
    backend: Backend)

  /** What the outside world does during one operation: the promotions whose workflow
      is refused on deploy or on undo, the secrets and connections that cannot be
      created, and the secrets someone else creates between the check and the write. */
  datatype Env = Env(
    applyFails: set<string>,
    undoFails: set<string>,
    secretFails: set<(string, string)>,
    raced: map<(string, string), string>,
    connectionFails: set<Carried>)

  /** How a release is deployed: in whose name, with which secret values typed, and
      whether to start a workflow that still misses one. */
  datatype Terms = Terms(who: string, values: map<string, string>, startAnyway: bool)

  function VHostOf(v: string): string {
    if v == "" then "default" else v
  }

  predicate MayUse(peer: Peer, vhost: string) {
    peer.vhost == "" || VHostOf(vhost) == VHostOf(peer.vhost)
  }

  function IndexOf(ps: seq<Promotion>, id: string): (i: int)
    ensures -1 <= i < |ps|
    ensures i >= 0 ==> ps[i].id == id && forall j :: 0 <= j < i ==> ps[j].id != id
    ensures i < 0 ==> forall j :: 0 <= j < |ps| ==> ps[j].id != id
  {
    if ps == [] then -1
    else if ps[0].id == id then 0
    else
      var i := IndexOf(ps[1..], id);
      if i < 0 then -1 else i + 1
  }

  // ------------------------------------------------------------------- groups

  /** Whether ps[j] is approved, rejected and rolled back together with ps[i]. */
  predicate SameGroup(ps: seq<Promotion>, i: nat, j: nat)
    requires i < |ps| && j < |ps|
  {
    if ps[i].offer.releaseID == "" then j == i
    else ps[j].offer.peerID == ps[i].offer.peerID && ps[j].offer.releaseID == ps[i].offer.releaseID
  }

  function GroupUpTo(ps: seq<Promotion>, i: nat, n: nat): (g: seq<nat>)
    requires i < |ps| && n <= |ps|
    ensures forall k :: 0 <= k < |g| ==> g[k] < n && SameGroup(ps, i, g[k])
    ensures forall j: nat :: j < n && SameGroup(ps, i, j) ==> j in g
    ensures forall a, b :: 0 <= a < b < |g| ==> g[a] < g[b]
  {
    if n == 0 then []
    else if SameGroup(ps, i, n - 1) then GroupUpTo(ps, i, n - 1) + [n - 1]
    else GroupUpTo(ps, i, n - 1)
  }

  /** The indexes of ps[i]'s release in the order it was sent, or i alone. */
  function Group(ps: seq<Promotion>, i: nat): (g: seq<nat>)
    requires i < |ps|
    ensures forall k :: 0 <= k < |g| ==> g[k] < |ps| && SameGroup(ps, i, g[k])
    ensures forall j: nat :: j < |ps| && SameGroup(ps, i, j) ==> j in g
    ensures forall a, b :: 0 <= a < b < |g| ==> g[a] < g[b]
    ensures i in g
  {
    GroupUpTo(ps, i, |ps|)
  }

  function IDsAt(ps: seq<Promotion>, g: seq<nat>): (ids: seq<string>)
    requires forall k :: 0 <= k < |g| ==> g[k] < |ps|
    ensures |ids| == |g| && forall k :: 0 <= k < |g| ==> ids[k] == ps[g[k]].id
  {
    seq(|g|, k requires 0 <= k < |g| => ps[g[k]].id)
  }

  // ------------------------------------------------------- the version history

  function HistoryOf(f: Flows, w: string): seq<Workflow> {
    if w in f.history then f.history[w] else []
  }

  /** What a save leaves behind, and the versions that hold the old and the new state. */
  datatype Saved = Saved(flows: Flows, previous: nat, applied: nat)

  /** ApplyWorkflowChange: before is recorded first when there is no history yet. */
  function ApplyChange(f: Flows, before: Workflow, after: Workflow): Saved {
    var hist := if HistoryOf(f, after.id) == [] then [before] else HistoryOf(f, after.id);
    Saved(Flows(f.workflows[after.id := after], f.history[after.id := hist + [after]]), |hist|, |hist| + 1)
  }

  /** CreateWorkflowVersioned: a new workflow is its own version 1. */
  function CreateVersioned(f: Flows, wf: Workflow): Saved {
    Saved(Flows(f.workflows[wf.id := wf], f.history[wf.id := [wf]]), 0, 1)
  }

  /** RollbackWorkflowTo: version v becomes the workflow again, as a new version. */
  function RollbackTo(f: Flows, w: string, v: nat): Flows
    requires 1 <= v <= |HistoryOf(f, w)|
  {
    var was := HistoryOf(f, w)[v - 1].(id := w);
    Flows(f.workflows[w := was], f.history[w := HistoryOf(f, w) + [was]])
  }

  // ------------------------------------------------------------------- secrets

  datatype Filled = Filled(secrets: Secrets, ok: bool, report: SecretsReport)

  /** One name of fillSecrets' loop. */
  function FillOne(f: Filled, id: string, vhost: string, name: string, values: map<string, string>,
                   backend: Backend, env: Env): Filled {
    var r := f.report;
    if (vhost, name) in f.secrets then f.(report := r.(kept := r.kept + [name]))
    else if name !in values || !backend.Writable? then f.(report := r.(missing := r.missing + [name]))
    else if (id, name) in env.secretFails then f.(ok := false)
    else if (vhost, name) in env.raced then
      Filled(f.secrets[(vhost, name) := env.raced[(vhost, name)]], true, r.(kept := r.kept + [name]))
    else Filled(f.secrets[(vhost, name) := values[name]], true, r.(created := r.created + [name]))
  }

  const NOTHING := SecretsReport([], [], [])

  /** fillSecrets over the first n of names; it stops at the first error. */
  function FillUpTo(start: Secrets, id: string, vhost: string, names: seq<string>, n: nat,
                    values: map<string, string>, backend: Backend, env: Env): Filled
    requires n <= |names|
  {
    if n == 0 then Filled(start, true, NOTHING) else
      var f := FillUpTo(start, id, vhost, names, n - 1, values, backend, env);
      if !f.ok then f else FillOne(f, id, vhost, names[n - 1], values, backend, env)
  }

  function FillSecrets(st: Store, p: Promotion, values: map<string, string>, env: Env): Filled {
    if p.offer.secrets == [] || st.backend.NoSecrets? then Filled(st.secrets, true, NOTHING)
    else FillUpTo(st.secrets, p.id, VHostOf(p.offer.vhost), p.offer.secrets, |p.offer.secrets|, values, st.backend, env)
  }

  function SentOf(st: Store, id: string): map<string, string> {
    if id in st.sent then st.sent[id] else map[]
  }

  /** Whether every value the sender typed can still be read. */
  predicate SentReadable(st: Store, p: Promotion) {
    forall name :: name in p.offer.filled ==> name in SentOf(st, p.id)
  }

  /** valuesToCreate: the sender's values with the approver's on top. */
  function ValuesToCreate(st: Store, p: Promotion, approver: map<string, string>): map<string, string> {
    if p.offer.filled == [] then approver else SentOf(st, p.id) + approver
  }

  function DropSent(st: Store, p: Promotion): Store {
    if p.offer.filled != [] then st.(sent := st.sent - {p.id}) else st
  }

  /** deploySecrets: the store afterwards and what was filled; values already created
      stay when a later one fails. */
  function DeploySecrets(st: Store, p: Promotion, approver: map<string, string>, env: Env): (r: (Store, Filled))
    ensures r.0 == st.(secrets := r.0.secrets, sent := r.0.sent)
  {
    if p.offer.filled != [] && !SentReadable(st, p) then (st, Filled(st.secrets, false, NOTHING)) else
      var f := FillSecrets(st, p, ValuesToCreate(st, p, approver), env);
      var after := st.(secrets := f.secrets);
      (if f.ok then DropSent(after, p) else after, f)
  }

  // --------------------------------------------------------------- connections

  predicate Brought(carried: seq<Carried>, kind: string, id: string) {
    Carried(kind, id) in carried
  }

  /** Every connection wf names is here within peer's reach, or comes with it. */
  predicate HasConnections(c: Conns, peer: Peer, wf: Workflow, carried: seq<Carried>) {
    && (forall id :: id in Sources(wf) && !Brought(carried, "source", id) ==>
        id in c.sources && MayUse(peer, c.sources[id]))
    && (forall id :: id in Sinks(wf) && !Brought(carried, "sink", id) ==> id in c.sinks && MayUse(peer, c.sinks[id]))
  }

  predicate Found(c: Conns, x: Carried) {
    if x.kind == "source" then x.id in c.sources else x.id in c.sinks
  }

  function CreateOne(c: Conns, x: Carried, vhost: string): Conns {
    if x.kind == "source" then c.(sources := c.sources[x.id := vhost]) else c.(sinks := c.sinks[x.id := vhost])
  }

  /** createCarried over the first n connections; it stops at the first error. */
  function CreateUpTo(c: Conns, carried: seq<Carried>, n: nat, vhost: string, env: Env): (Conns, bool)
    requires n <= |carried|
  {
    if n == 0 then (c, true) else
      var r := CreateUpTo(c, carried, n - 1, vhost, env);
      var x := carried[n - 1];
      if !r.1 || Found(r.0, x) then r
      else if x in env.connectionFails then (r.0, false)
      else (CreateOne(r.0, x, vhost), true)
  }

  function LandsIn(f: Flows, wf: Workflow): string {
    if wf.id in f.workflows then VHostOf(f.workflows[wf.id].vhost) else VHostOf(wf.vhost)
  }

  function PeerOr(peers: seq<Peer>, id: string, fallback: Peer): Peer {
    if peers == [] then fallback else if peers[0].id == id then peers[0] else PeerOr(peers[1..], id, fallback)
  }

  /** The instance p came from; one revoked since may use only the vhost p lands in. */
  function Sender(peers: seq<Peer>, p: Promotion): Peer {
    PeerOr(peers, p.offer.peerID, Peer(p.offer.peerID, VHostOf(p.offer.vhost)))
  }

  // -------------------------------------------------------------------- deploy

  function Fail(st: Store, id: string, who: string): (r: Store)
    ensures r == st.(ps := r.ps, sent := r.sent)
  {
    var i := IndexOf(st.ps, id);
    if i < 0 then st else
      DropSent(st.(ps := st.ps[i := st.ps[i].(status := Failed, decidedBy := who)]), st.ps[i])
  }

  datatype Prepared = Prepared(store: Store, ok: bool, report: SecretsReport)

  /** The secrets, then the connections the workflow brings. */
  function Prepare(st: Store, p: Promotion, wf: Workflow, values: map<string, string>, env: Env): (r: Prepared)
    ensures r.store == st.(secrets := r.store.secrets, sent := r.store.sent, conns := r.store.conns)
  {
    var (s, f) := DeploySecrets(st, p, values, env);
    if !f.ok then Prepared(s, false, f.report) else
      var (c, made) := CreateUpTo(s.conns, p.offer.connections, |p.offer.connections|, LandsIn(s.flows, wf), env);
      Prepared(s.(conns := c), made, f.report)
  }

  /** The row applyPromoted stores over an existing workflow: this instance's vhost,
      run and placement stay. */
  function Merged(existing: Workflow, wf: Workflow, start: bool, stopped: bool): Workflow {
    wf.(vhost := existing.vhost, run := existing.run, active := (existing.active || start) && !stopped)
  }

  function ApplyPromoted(f: Flows, wf: Workflow, start: bool, stopped: bool): Saved {
    if wf.id in f.workflows then
      ApplyChange(f, f.workflows[wf.id], Merged(f.workflows[wf.id], wf, start, stopped))
    else
      CreateVersioned(f, wf.(active := start && !stopped, run := wf.run.(workspaceID := "")))
  }

  /** deploy: one promotion, up to the recorded outcome. */
  function Deploy(st: Store, id: string, terms: Terms, env: Env): (Store, bool) {
    var i := IndexOf(st.ps, id);
    if id !in st.bodies || i < 0
       || !HasConnections(st.conns, Sender(st.peers, st.ps[i]), st.bodies[id], st.ps[i].offer.connections)
    then (Fail(st, id, terms.who), false) else
      var p, wf := st.ps[i], st.bodies[id];
      var r := Prepare(st, p, wf, terms.values, env);
      if !r.ok || id in env.applyFails then (Fail(r.store, id, terms.who), false) else
        var stopped := r.report.missing != [] && !terms.startAnyway;
        var a := ApplyPromoted(st.flows, wf, p.offer.start, stopped);
        (r.store.(flows := a.flows,
                  ps := st.ps[i := Promotion(id, p.offer, Deployed, terms.who, a.previous, a.applied, r.report,
                      stopped)]), true)
  }

  // ---------------------------------------------------------------------- undo

  predicate Undoable(f: Flows, p: Promotion, env: Env) {
    && p.id !in env.undoFails
    && p.offer.workflowID in f.workflows
    && p.previous <= |HistoryOf(f, p.offer.workflowID)|
  }

  /** The workflow half of undo: back to the previous version, or stopped. */
  function UndoWorkflow(f: Flows, w: string, previous: nat): Flows
    requires w in f.workflows && previous <= |HistoryOf(f, w)|
  {
    if previous > 0 then RollbackTo(f, w, previous)
    else ApplyChange(f, f.workflows[w], f.workflows[w].(active := false)).flows
  }

  function Undo(st: Store, id: string, env: Env): (Store, bool) {
    var i := IndexOf(st.ps, id);
    if i < 0 || !Undoable(st.flows, st.ps[i], env) then (st, false) else
      (st.(flows := UndoWorkflow(st.flows, st.ps[i].offer.workflowID, st.ps[i].previous),
           ps := st.ps[i := st.ps[i].(status := RolledBack)]), true)
  }

  // ------------------------------------------------------------------ releases

  /** The first loop of unwindRelease: ids[..j], newest first. */
  function UndoDown(st: Store, ids: seq<string>, j: nat, env: Env): Store
    requires j <= |ids|
    decreases j
  {
    if j == 0 then st else UndoDown(Undo(st, ids[j - 1], env).0, ids, j - 1, env)
  }

  /** The second loop of unwindRelease: ids[k..] are marked failed. */
  function FailFrom(st: Store, ids: seq<string>, k: nat, who: string): Store
    requires k <= |ids|
    decreases |ids| - k
  {
    if k == |ids| then st else FailFrom(Fail(st, ids[k], who), ids, k + 1, who)
  }

  function Unwind(st: Store, ids: seq<string>, k: nat, who: string, env: Env): Store
    requires k < |ids|
  {
    FailFrom(UndoDown(st, ids, k, env), ids, k + 1, who)
  }

  /** deployGroup's loop from member k on. */
  function DeployFrom(st: Store, ids: seq<string>, k: nat, terms: Terms, env: Env): (Store, bool)
    requires k <= |ids|
    decreases |ids| - k
  {
    if k == |ids| then (st, true) else
      var (s, ok) := Deploy(st, ids[k], terms, env);
      if ok then DeployFrom(s, ids, k + 1, terms, env)
      else (if |ids| > 1 then Unwind(s, ids, k, terms.who, env) else s, false)
  }

  function DeployGroup(st: Store, id: string, terms: Terms, env: Env): (Store, bool) {
    var i := IndexOf(st.ps, id);
    if i < 0 then (st, false)
    else DeployFrom(st, IDsAt(st.ps, Group(st.ps, i)), 0, terms, env)
  }
}
