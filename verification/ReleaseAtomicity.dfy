/** A release goes live whole or not at all (receive.go, deployGroup and unwindRelease). */
module ReleaseAtomicity {
  import opened Workflows
  import opened Promotions

  ghost predicate UniqueIDs(ps: seq<Promotion>) {
    forall i, j :: 0 <= i < j < |ps| ==> ps[i].id != ps[j].id
  }

  /** Workflow w is filed under its own ID and its newest version holds its definition. */
  ghost predicate FlowFiled(f: Flows, w: string) {
    && (w in f.workflows ==> f.workflows[w].id == w)
    && (HistoryOf(f, w) != [] ==>
          w in f.workflows && DefinitionOf(HistoryOf(f, w)[|HistoryOf(f, w)| - 1]) == DefinitionOf(f.workflows[w]))
  }

  ghost predicate BodyFiled(bodies: map<string, Workflow>, p: Promotion) {
    p.id in bodies ==> bodies[p.id].id == p.offer.workflowID
  }

  ghost predicate Valid(st: Store) {
    && UniqueIDs(st.ps)
    && (forall w: string :: FlowFiled(st.flows, w))
    && (forall i :: 0 <= i < |st.ps| ==> BodyFiled(st.bodies, st.ps[i]))
  }

  lemma IndexOfUnique(ps: seq<Promotion>, i: nat)
    requires UniqueIDs(ps) && i < |ps|
    ensures IndexOf(ps, ps[i].id) == i
  {
  }

  // -------------------------------------------- what deploy and undo each touch

  /** Only promotion i of before may differ in after, and it stays the same promotion. */
  ghost predicate OnlyOutcome(before: seq<Promotion>, after: seq<Promotion>, i: nat)
    requires i < |before|
  {
    && |after| == |before|
    && after == before[i := after[i]]
    && after[i].id == before[i].id && after[i].offer == before[i].offer
  }

  /** Only workflow w may differ. */
  ghost predicate OnlyFlow(before: Flows, after: Flows, w: string) {
    && w in after.workflows && w in after.history
    && after == Flows(before.workflows[w := after.workflows[w]], before.history[w := after.history[w]])
  }

  /** A save over w, or of a new w, keeps the old definition as version `previous`. */
  ghost predicate SavedOver(before: Flows, s: Saved, w: string, d: Definition) {
    && OnlyFlow(before, s.flows, w)
    && DefinitionOf(s.flows.workflows[w]) == d
    && HistoryOf(before, w) <= HistoryOf(s.flows, w)
    && (if w in before.workflows then
          && 1 <= s.previous <= |HistoryOf(s.flows, w)|
          && DefinitionOf(HistoryOf(s.flows, w)[s.previous - 1]) == DefinitionOf(before.workflows[w])
        else s.previous == 0)
  }

  lemma ApplyPromotedSaves(f: Flows, wf: Workflow, start: bool, stopped: bool)
    requires FlowFiled(f, wf.id)
    ensures SavedOver(f, ApplyPromoted(f, wf, start, stopped), wf.id, DefinitionOf(wf))
    ensures FlowFiled(ApplyPromoted(f, wf, start, stopped).flows, wf.id)
  {
  }

  lemma OnlyFlowFiled(before: Flows, after: Flows, w: string)
    requires forall x: string :: FlowFiled(before, x)
    requires OnlyFlow(before, after, w) && FlowFiled(after, w)
    ensures forall x: string :: FlowFiled(after, x)
  {
    forall x: string ensures FlowFiled(after, x) {
      assert FlowFiled(before, x);
    }
  }

  lemma OutcomeKeepsIDs(bodies: map<string, Workflow>, before: seq<Promotion>, after: seq<Promotion>, i: nat)
    requires i < |before| && OnlyOutcome(before, after, i)
    requires UniqueIDs(before) && forall j :: 0 <= j < |before| ==> BodyFiled(bodies, before[j])
    ensures UniqueIDs(after) && forall j :: 0 <= j < |after| ==> BodyFiled(bodies, after[j])
  {
    forall j | 0 <= j < |after|
      ensures after[j].id == before[j].id && after[j].offer == before[j].offer && BodyFiled(bodies, after[j])
    {
      assert BodyFiled(bodies, before[j]);
    }
  }

  /** A deploy that fails marks its promotion failed and leaves every workflow alone. */
  ghost predicate FailedOver(before: Store, after: Store, i: nat)
    requires i < |before.ps|
  {
    && OnlyOutcome(before.ps, after.ps, i) && after.ps[i].status == Failed
    && after.flows == before.flows && after.bodies == before.bodies
  }

  /** A deploy that succeeds stores the promoted definition over the old one. */
  ghost predicate DeployedOver(before: Store, after: Store, i: nat)
    requires i < |before.ps|
  {
    && OnlyOutcome(before.ps, after.ps, i) && after.ps[i].status == Deployed
    && after.bodies == before.bodies && before.ps[i].id in before.bodies
    && SavedOver(before.flows, Saved(after.flows, after.ps[i].previous, after.ps[i].applied),
                 before.ps[i].offer.workflowID, DefinitionOf(before.bodies[before.ps[i].id]))
  }

  lemma FailKeeps(st: Store, i: nat, who: string)
    requires Valid(st) && i < |st.ps|
    ensures FailedOver(st, Fail(st, st.ps[i].id, who), i) && Valid(Fail(st, st.ps[i].id, who))
  {
    IndexOfUnique(st.ps, i);
    OutcomeKeepsIDs(st.bodies, st.ps, Fail(st, st.ps[i].id, who).ps, i);
  }

  /** Every deploy ends in one of the two ways. */
  lemma DeployEnds(st: Store, i: nat, terms: Terms, env: Env)
    requires Valid(st) && i < |st.ps|
    ensures var (s, ok) := Deploy(st, st.ps[i].id, terms, env);
      Valid(s) && if ok then DeployedOver(st, s, i) else FailedOver(st, s, i)
  {
    IndexOfUnique(st.ps, i);
    var p := st.ps[i];
    var (s, ok) := Deploy(st, p.id, terms, env);
    FailKeeps(st, i, terms.who);
    if p.id in st.bodies {
      var wf := st.bodies[p.id];
      assert BodyFiled(st.bodies, p);
      var r := Prepare(st, p, wf, terms.values, env);
      FailKeeps(r.store, i, terms.who);
      if ok {
        var stopped := r.report.missing != [] && !terms.startAnyway;
        assert FlowFiled(st.flows, wf.id);
        ApplyPromotedSaves(st.flows, wf, p.offer.start, stopped);
        OnlyFlowFiled(st.flows, s.flows, wf.id);
        OutcomeKeepsIDs(st.bodies, st.ps, s.ps, i);
      }
    }
  }

  /** What undoing leaves of w: the version it replaced, or a stopped workflow. */
  ghost predicate UndoneFlow(before: Flows, after: Flows, w: string, previous: nat) {
    && OnlyFlow(before, after, w)
    && HistoryOf(before, w) <= HistoryOf(after, w)
    && w in before.workflows
    && (if previous > 0 then
          && previous <= |HistoryOf(before, w)|
          && DefinitionOf(after.workflows[w]) == DefinitionOf(HistoryOf(before, w)[previous - 1])
        else !after.workflows[w].active && DefinitionOf(after.workflows[w]) == DefinitionOf(before.workflows[w]))
  }

  ghost predicate UndoneOver(before: Store, after: Store, i: nat)
    requires i < |before.ps|
  {
    && after.ps == before.ps[i := before.ps[i].(status := RolledBack)]
    && after.bodies == before.bodies
    && UndoneFlow(before.flows, after.flows, before.ps[i].offer.workflowID, before.ps[i].previous)
  }

  lemma UndoWorkflowUndoes(f: Flows, w: string, previous: nat)
    requires w in f.workflows && previous <= |HistoryOf(f, w)| && FlowFiled(f, w)
    ensures UndoneFlow(f, UndoWorkflow(f, w, previous), w, previous)
    ensures FlowFiled(UndoWorkflow(f, w, previous), w)
  {
  }

  lemma UndoEnds(st: Store, i: nat, env: Env)
    requires Valid(st) && i < |st.ps|
    ensures var (s, ok) := Undo(st, st.ps[i].id, env);
      Valid(s) && if ok then UndoneOver(st, s, i) else s == st
    ensures Undo(st, st.ps[i].id, env).1 <==> Undoable(st.flows, st.ps[i], env)
  {
    IndexOfUnique(st.ps, i);
    if Undoable(st.flows, st.ps[i], env) {
      var s := Undo(st, st.ps[i].id, env).0;
      var w := st.ps[i].offer.workflowID;
      assert FlowFiled(st.flows, w);
      UndoWorkflowUndoes(st.flows, w, st.ps[i].previous);
      OnlyFlowFiled(st.flows, s.flows, w);
      OutcomeKeepsIDs(st.bodies, st.ps, s.ps, i);
    }
  }

  // ------------------------------------------------------------- whole releases

  /** g lists the members of one release about to be deployed, no workflow twice: claimed, or
      just arrived under the rule that asks for no approval. */
  ghost predicate Ready(st: Store, g: seq<nat>) {
    && (forall k :: 0 <= k < |g| ==> g[k] < |st.ps| && st.ps[g[k]].status in {Pending, Deploying})
    && (forall a, b :: 0 <= a < b < |g| ==>
          g[a] != g[b] && st.ps[g[a]].offer.workflowID != st.ps[g[b]].offer.workflowID)
  }

  ghost function FlowsOf(st: Store, g: seq<nat>): set<string>
    requires forall k :: 0 <= k < |g| ==> g[k] < |st.ps|
  {
    set k | 0 <= k < |g| :: st.ps[g[k]].offer.workflowID
  }

  ghost predicate SameFlow(f0: Flows, f: Flows, w: string) {
    && (w in f.workflows <==> w in f0.workflows)
    && (w in f0.workflows ==> f.workflows[w] == f0.workflows[w])
    && HistoryOf(f, w) == HistoryOf(f0, w)
  }

  /** p stands deployed over f0: its workflow holds the promoted definition, and
      undoing it brings back the definition of f0. */
  ghost predicate Live(f0: Flows, bodies: map<string, Workflow>, f: Flows, p: Promotion) {
    var w := p.offer.workflowID;
    && p.status == Deployed
    && p.id in bodies && w in f.workflows
    && DefinitionOf(f.workflows[w]) == DefinitionOf(bodies[p.id])
    && p.previous <= |HistoryOf(f, w)|
    && (if w in f0.workflows then
          p.previous > 0 && DefinitionOf(HistoryOf(f, w)[p.previous - 1]) == DefinitionOf(f0.workflows[w])
        else p.previous == 0)
  }

  /** p is undone: its workflow has the definition of f0 again, or stays behind
      stopped when f0 did not have it. */
  ghost predicate Restored(f0: Flows, f: Flows, p: Promotion) {
    var w := p.offer.workflowID;
    && p.status == RolledBack
    && w in f.workflows
    && (if w in f0.workflows then DefinitionOf(f.workflows[w]) == DefinitionOf(f0.workflows[w])
        else !f.workflows[w].active)
  }

  /** p failed and its workflow is as in f0. */
  ghost predicate Missed(f0: Flows, f: Flows, p: Promotion) {
    p.status == Failed && SameFlow(f0, f, p.offer.workflowID)
  }

  /** st differs from st0 only in the outcomes of the members of g and their workflows. */
  ghost predicate Within(st0: Store, st: Store, g: seq<nat>) {
    && (forall k :: 0 <= k < |g| ==> g[k] < |st0.ps|)
    && |st.ps| == |st0.ps| && st.bodies == st0.bodies
    && (forall j :: 0 <= j < |st0.ps| && j !in g ==> st.ps[j] == st0.ps[j])
    && (forall j :: 0 <= j < |st0.ps| ==> st.ps[j].id == st0.ps[j].id && st.ps[j].offer == st0.ps[j].offer)
    && (forall w: string :: w !in FlowsOf(st0, g) ==> SameFlow(st0.flows, st.flows, w))
  }

  /** Members ..a are live, a..b undone, from b on still claimed and untouched. */
  ghost predicate Front(st0: Store, st: Store, g: seq<nat>, a: nat, b: nat) {
    && a <= b <= |g| && Within(st0, st, g)
    && (forall k :: 0 <= k < a ==> Live(st0.flows, st0.bodies, st.flows, st.ps[g[k]]))
    && (forall k :: a <= k < b ==> Restored(st0.flows, st.flows, st.ps[g[k]]))
  }

  ghost predicate Rest(st0: Store, st: Store, g: seq<nat>, b: nat) {
    forall k :: b <= k < |g| ==>
      && g[k] < |st0.ps| && g[k] < |st.ps| && st.ps[g[k]] == st0.ps[g[k]]
      && SameFlow(st0.flows, st.flows, st0.ps[g[k]].offer.workflowID)
  }

  /** A change to member k's outcome and workflow keeps everything else within bounds. */
  lemma WithinStep(st0: Store, st: Store, g: seq<nat>, k: nat, next: Store)
    requires Ready(st0, g) && k < |g| && Within(st0, st, g)
    requires OnlyOutcome(st.ps, next.ps, g[k]) && next.bodies == st.bodies
    requires OnlyFlow(st.flows, next.flows, st0.ps[g[k]].offer.workflowID) || next.flows == st.flows
    ensures Within(st0, next, g)
    ensures forall a :: 0 <= a < |g| && a != k ==>
      next.ps[g[a]] == st.ps[g[a]] && SameFlow(st.flows, next.flows, st0.ps[g[a]].offer.workflowID)
  {
    var w := st0.ps[g[k]].offer.workflowID;
    forall x: string | x != w ensures SameFlow(st.flows, next.flows, x) {
    }
    assert w in FlowsOf(st0, g);
    forall x: string | x !in FlowsOf(st0, g) ensures SameFlow(st0.flows, next.flows, x) {
      assert SameFlow(st0.flows, st.flows, x);
    }
    forall a | 0 <= a < |g| && a != k
      ensures next.ps[g[a]] == st.ps[g[a]] && SameFlow(st.flows, next.flows, st0.ps[g[a]].offer.workflowID)
    {
      assert g[a] != g[k] && st0.ps[g[a]].offer.workflowID != w;
    }
  }

  lemma DeployStep(st0: Store, st: Store, g: seq<nat>, k: nat, next: Store)
    requires Ready(st0, g) && k < |g|
    requires Front(st0, st, g, k, k) && Rest(st0, st, g, k)
    requires DeployedOver(st, next, g[k])
    ensures Front(st0, next, g, k + 1, k + 1) && Rest(st0, next, g, k + 1)
  {
    WithinStep(st0, st, g, k, next);
    forall a | 0 <= a < k ensures Live(st0.flows, st0.bodies, next.flows, next.ps[g[a]]) {
      assert Live(st0.flows, st0.bodies, st.flows, st.ps[g[a]]);
    }
    assert SameFlow(st0.flows, st.flows, st0.ps[g[k]].offer.workflowID);
    assert Live(st0.flows, st0.bodies, next.flows, next.ps[g[k]]);
  }

  lemma UndoStep(st0: Store, st: Store, g: seq<nat>, a: nat, b: nat, next: Store)
    requires Ready(st0, g) && 0 < a <= b <= |g|
    requires Front(st0, st, g, a, b)
    requires UndoneOver(st, next, g[a - 1])
    ensures Front(st0, next, g, a - 1, b)
    ensures Rest(st, next, g, b)
  {
    WithinStep(st0, st, g, a - 1, next);
    assert Live(st0.flows, st0.bodies, st.flows, st.ps[g[a - 1]]);
    forall k | 0 <= k < a - 1 ensures Live(st0.flows, st0.bodies, next.flows, next.ps[g[k]]) {
      assert Live(st0.flows, st0.bodies, st.flows, st.ps[g[k]]);
    }
    forall k | a <= k < b ensures Restored(st0.flows, next.flows, next.ps[g[k]]) {
      assert Restored(st0.flows, st.flows, st.ps[g[k]]);
    }
  }

  /** The undo calls of members ..a succeed: nothing they need is missing. */
  lemma LiveUndoable(st0: Store, st: Store, g: seq<nat>, a: nat, b: nat, env: Env)
    requires Ready(st0, g) && 0 < a <= b <= |g| && Front(st0, st, g, a, b)
    requires st0.ps[g[a - 1]].id !in env.undoFails
    ensures Undoable(st.flows, st.ps[g[a - 1]], env)
  {
    assert Live(st0.flows, st0.bodies, st.flows, st.ps[g[a - 1]]);
  }

  /** ids are the IDs of the members of g. */
  ghost predicate Names(ids: seq<string>, st: Store, g: seq<nat>) {
    |ids| == |g| && forall k :: 0 <= k < |g| ==> g[k] < |st.ps| && ids[k] == st.ps[g[k]].id
  }

  ghost predicate UndosSucceed(st0: Store, g: seq<nat>, env: Env) {
    forall k :: 0 <= k < |g| ==> g[k] < |st0.ps| && st0.ps[g[k]].id !in env.undoFails
  }

  lemma RestRefl(st0: Store, st: Store, g: seq<nat>, a: nat, b: nat)
    requires Front(st0, st, g, a, b)
    ensures Rest(st, st, g, b)
  {
  }

  lemma RestTrans(s0: Store, s1: Store, s2: Store, g: seq<nat>, b: nat)
    requires Rest(s0, s1, g, b) && Rest(s1, s2, g, b)
    ensures Rest(s0, s2, g, b)
  {
    forall k | b <= k < |g|
      ensures s2.ps[g[k]] == s0.ps[g[k]] && SameFlow(s0.flows, s2.flows, s0.ps[g[k]].offer.workflowID)
    {
      assert SameFlow(s0.flows, s1.flows, s0.ps[g[k]].offer.workflowID);
    }
  }

  lemma UndoOne(st0: Store, st: Store, g: seq<nat>, id: string, a: nat, b: nat, env: Env)
    requires Ready(st0, g) && 0 < a <= b <= |g| && Valid(st)
    requires id == st0.ps[g[a - 1]].id && id !in env.undoFails && Front(st0, st, g, a, b)
    ensures var next := Undo(st, id, env).0;
      Valid(next) && Front(st0, next, g, a - 1, b) && Rest(st, next, g, b)
  {
    LiveUndoable(st0, st, g, a, b, env);
    UndoEnds(st, g[a - 1], env);
    UndoStep(st0, st, g, a, b, Undo(st, id, env).0);
  }

  /** unwindRelease's first loop restores every member that was live. */
  lemma {:induction false} UndoDownRestores(st0: Store, st: Store, g: seq<nat>, ids: seq<string>, a: nat, b: nat,
                                            env: Env)
    requires Ready(st0, g) && a <= b <= |g| && Valid(st)
    requires Names(ids, st0, g)
    requires UndosSucceed(st0, g, env) && Front(st0, st, g, a, b)
    ensures Valid(UndoDown(st, ids, a, env))
    ensures Front(st0, UndoDown(st, ids, a, env), g, 0, b)
    ensures Rest(st, UndoDown(st, ids, a, env), g, b)
    decreases a
  {
    hide Valid, Front, Rest, Undo;
    if a == 0 {
      RestRefl(st0, st, g, a, b);
    } else {
      UndoOne(st0, st, g, ids[a - 1], a, b, env);
      var next := Undo(st, ids[a - 1], env).0;
      UndoDownRestores(st0, next, g, ids, a - 1, b, env);
      var s := UndoDown(next, ids, a - 1, env);
      RestTrans(st, next, s, g, b);
    }
  }

  /** Members b..k failed; the workflows of those from k on are as before the release. */
  ghost predicate Tail(st0: Store, st: Store, g: seq<nat>, b: nat, k: nat) {
    && b <= k <= |g| && |st.ps| == |st0.ps|
    && (forall a :: 0 <= a < |g| ==> g[a] < |st0.ps|)
    && (forall a :: b <= a < k ==> Missed(st0.flows, st.flows, st.ps[g[a]]))
    && (forall a :: k <= a < |g| ==> SameFlow(st0.flows, st.flows, st0.ps[g[a]].offer.workflowID))
  }

  lemma FailOne(st0: Store, st: Store, g: seq<nat>, id: string, b: nat, k: nat, who: string)
    requires Ready(st0, g) && k < |g| && Valid(st) && id == st0.ps[g[k]].id
    requires Front(st0, st, g, 0, b) && Tail(st0, st, g, b, k)
    ensures var next := Fail(st, id, who);
      Valid(next) && Front(st0, next, g, 0, b) && Tail(st0, next, g, b, k + 1)
  {
    var next := Fail(st, id, who);
    FailKeeps(st, g[k], who);
    WithinStep(st0, st, g, k, next);
    forall a | 0 <= a < b ensures Restored(st0.flows, next.flows, next.ps[g[a]]) {
      assert Restored(st0.flows, st.flows, st.ps[g[a]]);
    }
    forall a | b <= a < k ensures Missed(st0.flows, next.flows, next.ps[g[a]]) {
      assert Missed(st0.flows, st.flows, st.ps[g[a]]);
    }
  }

  /** unwindRelease's second loop fails the members after the one that failed. */
  lemma {:induction false} FailFromFails(st0: Store, st: Store, g: seq<nat>, ids: seq<string>, b: nat, k: nat,
                                         who: string)
    requires Ready(st0, g) && Valid(st) && Names(ids, st0, g)
    requires b <= k <= |g| && Front(st0, st, g, 0, b) && Tail(st0, st, g, b, k)
    ensures Valid(FailFrom(st, ids, k, who))
    ensures Front(st0, FailFrom(st, ids, k, who), g, 0, b) && Tail(st0, FailFrom(st, ids, k, who), g, b, |g|)
    decreases |g| - k
  {
    hide Valid, Front, Tail, Fail;
    if k < |g| {
      FailOne(st0, st, g, ids[k], b, k, who);
      FailFromFails(st0, Fail(st, ids[k], who), g, ids, b, k + 1, who);
    }
  }

  ghost predicate AllLive(st0: Store, st: Store, g: seq<nat>) {
    Front(st0, st, g, |g|, |g|)
  }

  /** Nothing is live: members ..b are undone and the others were never deployed. */
  ghost predicate NoneLive(st0: Store, st: Store, g: seq<nat>, b: nat) {
    b < |g| && Front(st0, st, g, 0, b) && Tail(st0, st, g, b, |g|)
  }

  lemma TailAfterUndo(st0: Store, s: Store, u: Store, g: seq<nat>, k: nat)
    requires k < |g| && Front(st0, s, g, k, k) && Tail(st0, s, g, k, k + 1)
    requires Front(st0, u, g, 0, k) && Rest(s, u, g, k)
    ensures Tail(st0, u, g, k, k + 1)
  {
    forall a | k <= a < |g|
      ensures u.ps[g[a]] == s.ps[g[a]] && SameFlow(st0.flows, u.flows, st0.ps[g[a]].offer.workflowID)
    {
      assert SameFlow(st0.flows, s.flows, st0.ps[g[a]].offer.workflowID);
    }
  }

  lemma UnwindLeavesNothing(st0: Store, s: Store, g: seq<nat>, ids: seq<string>, k: nat, who: string, env: Env)
    requires Ready(st0, g) && k < |g| && Valid(s) && Names(ids, st0, g)
    requires UndosSucceed(st0, g, env) && Front(st0, s, g, k, k) && Tail(st0, s, g, k, k + 1)
    ensures NoneLive(st0, Unwind(s, ids, k, who, env), g, k)
    ensures Valid(Unwind(s, ids, k, who, env))
  {
    hide Valid, Front, Tail, Rest, UndoDown, FailFrom;
    var u := UndoDown(s, ids, k, env);
    UndoDownRestores(st0, s, g, ids, k, k, env);
    TailAfterUndo(st0, s, u, g, k);
    FailFromFails(st0, u, g, ids, k, k + 1, who);
  }

  lemma FailStep(st0: Store, st: Store, s: Store, g: seq<nat>, k: nat)
    requires Ready(st0, g) && k < |g|
    requires Front(st0, st, g, k, k) && Rest(st0, st, g, k) && FailedOver(st, s, g[k])
    ensures Front(st0, s, g, k, k) && Tail(st0, s, g, k, k + 1)
  {
    WithinStep(st0, st, g, k, s);
    forall a | 0 <= a < k ensures Live(st0.flows, st0.bodies, s.flows, s.ps[g[a]]) {
      assert Live(st0.flows, st0.bodies, st.flows, st.ps[g[a]]);
    }
  }

  lemma SameMember(st0: Store, st: Store, g: seq<nat>, k: nat)
    requires k < |g| && Front(st0, st, g, k, k)
    ensures g[k] < |st.ps| && |st.ps| == |st0.ps| && st.ps[g[k]].id == st0.ps[g[k]].id
  {
  }

  lemma DeployOne(st0: Store, st: Store, g: seq<nat>, id: string, k: nat, terms: Terms, env: Env)
    requires Ready(st0, g) && k < |g| && Valid(st) && id == st0.ps[g[k]].id
    requires Front(st0, st, g, k, k) && Rest(st0, st, g, k)
    ensures var (s, ok) := Deploy(st, id, terms, env);
      && Valid(s)
      && (if ok then Front(st0, s, g, k + 1, k + 1) && Rest(st0, s, g, k + 1)
          else Front(st0, s, g, k, k) && Tail(st0, s, g, k, k + 1))
  {
    hide Front, Rest, Tail, Deploy;
    SameMember(st0, st, g, k);
    var (s, ok) := Deploy(st, id, terms, env);
    DeployEnds(st, g[k], terms, env);
    if ok { DeployStep(st0, st, g, k, s); } else { FailStep(st0, st, s, g, k); }
  }

  lemma {:induction false} DeployFromEnds(st0: Store, st: Store, g: seq<nat>, ids: seq<string>, k: nat, terms: Terms,
                                          env: Env)
    requires Ready(st0, g) && k <= |g| && Valid(st) && Names(ids, st0, g)
    requires UndosSucceed(st0, g, env)
    requires Front(st0, st, g, k, k) && Rest(st0, st, g, k)
    ensures var (s, ok) := DeployFrom(st, ids, k, terms, env);
      Valid(s) && if ok then AllLive(st0, s, g) else exists b :: NoneLive(st0, s, g, b)
    decreases |g| - k
  {
    hide Valid, Front, Rest, Tail, Deploy, Unwind;
    if k < |g| {
      var (s, ok) := Deploy(st, ids[k], terms, env);
      DeployOne(st0, st, g, ids[k], k, terms, env);
      if ok {
        DeployFromEnds(st0, s, g, ids, k + 1, terms, env);
      } else if |g| > 1 {
        UnwindLeavesNothing(st0, s, g, ids, k, terms.who, env);
      } else {
        assert NoneLive(st0, s, g, k);
      }
    }
  }

  /** The promise of deployGroup. For a claimed release of any size, deployed in a
      world that fails it anywhere or nowhere but lets undo calls through: either
      every member is deployed and runs what was promoted, or none is; then the ones
      before some member b are rolled back with their earlier definition restored, or
      stopped where the release had created the workflow, and b and the later ones
      failed with their workflow untouched. Nothing outside the release changes. */
  lemma WholeOrNothing(st: Store, i: nat, terms: Terms, env: Env)
    requires Valid(st) && i < |st.ps|
    requires Ready(st, Group(st.ps, i)) && UndosSucceed(st, Group(st.ps, i), env)
    ensures var (s, ok) := DeployGroup(st, st.ps[i].id, terms, env);
      Valid(s) && if ok then AllLive(st, s, Group(st.ps, i)) else exists b :: NoneLive(st, s, Group(st.ps, i), b)
  {
    IndexOfUnique(st.ps, i);
    var g := Group(st.ps, i);
    assert Front(st, st, g, 0, 0) && Rest(st, st, g, 0);
    DeployFromEnds(st, st, g, IDsAt(st.ps, g), 0, terms, env);
  }
}
