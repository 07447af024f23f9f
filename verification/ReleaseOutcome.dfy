/** When a whole release goes live, and what undoing leaves of each workflow (receive.go,
    deployGroup, undo and Rollback). */
module ReleaseOutcome {
  import opened Workflows
  import opened Promotions
  import opened Decisions
  import opened ReleaseAtomicity
  import opened DeployOutcome

  // -------------------------------------------------------------------- going live

  ghost predicate AllDeployable(st: Store, g: seq<nat>, from: nat, terms: Terms, env: Env) {
    forall a :: from <= a < |g| ==> g[a] < |st.ps| && KnownKinds(st.ps[g[a]]) && Deployable(st, st.ps[g[a]], terms, env)
  }

  /** Deploying p takes away nothing that q needs. */
  lemma DeployableStays(st: Store, s: Store, p: Promotion, q: Promotion, terms: Terms, env: Env)
    requires TouchesOnly(st, s, p) && q.id != p.id && Deployable(st, q, terms, env)
    ensures Deployable(s, q, terms, env)
  {
    hide Sources, Sinks, MayReach, CameFrom, LandsAt, VHostOf;
    var wf := st.bodies[q.id];
    var peer :| CameFrom(st, q, peer) && ProvidedFor(st, q, wf, peer);
    CameFromSame(st, s, q, peer);
    assert ProvidedFor(s, q, wf, peer);
    assert ConnectionsHere(s, q, wf);
  }

  lemma CameFromSame(st: Store, s: Store, q: Promotion, peer: Peer)
    requires s.peers == st.peers && CameFrom(st, q, peer)
    ensures CameFrom(s, q, peer)
  {
  }

  lemma NextDeployable(st: Store, g: seq<nat>, k: nat, terms: Terms, env: Env)
    requires Valid(st) && k < |g| && AllDeployable(st, g, k, terms, env)
    requires forall a, b :: 0 <= a < b < |g| ==> g[a] != g[b]
    ensures var (s, ok) := Deploy(st, st.ps[g[k]].id, terms, env);
      ok && Valid(s) && |s.ps| == |st.ps| && AllDeployable(s, g, k + 1, terms, env) &&
      forall j :: 0 <= j < |st.ps| ==> s.ps[j].id == st.ps[j].id
  {
    hide Deploy, Deployable, KnownKinds, TouchesOnly;
    var p := st.ps[g[k]];
    var (s, ok) := Deploy(st, p.id, terms, env);
    DeploySucceedsIff(st, g[k], terms, env);
    DeployEnds(st, g[k], terms, env);
    DeployTouches(st, g[k], terms, env);
    forall a | k + 1 <= a < |g|
      ensures g[a] < |s.ps| && KnownKinds(s.ps[g[a]]) && Deployable(s, s.ps[g[a]], terms, env)
    {
      var q := st.ps[g[a]];
      assert g[a] != g[k] && s.ps[g[a]] == q && q.id != p.id;
      DeployableStays(st, s, p, q, terms, env);
    }
  }

  lemma {:induction false} AllGoLive(st: Store, g: seq<nat>, ids: seq<string>, k: nat, terms: Terms, env: Env)
    requires Valid(st) && k <= |g| && Names(ids, st, g) && AllDeployable(st, g, k, terms, env)
    requires forall a, b :: 0 <= a < b < |g| ==> g[a] != g[b]
    ensures DeployFrom(st, ids, k, terms, env).1
    decreases |g| - k
  {
    hide Deploy, AllDeployable, Unwind, Valid;
    if k < |g| {
      NextDeployable(st, g, k, terms, env);
      AllGoLive(Deploy(st, ids[k], terms, env).0, g, ids, k + 1, terms, env);
    }
  }

  /** A release whose members can each be deployed as things stand goes live as a whole: no
      member takes away what another one needs. */
  lemma ReleaseGoesLive(st: Store, i: nat, terms: Terms, env: Env)
    requires Valid(st) && i < |st.ps| && AllDeployable(st, Group(st.ps, i), 0, terms, env)
    ensures DeployGroup(st, st.ps[i].id, terms, env).1
  {
    hide Group, Deploy, DeployFrom, AllDeployable;
    IndexOfUnique(st.ps, i);
    var g := Group(st.ps, i);
    AllGoLive(st, g, IDsAt(st.ps, g), 0, terms, env);
  }

  // ------------------------------------------------------------------------ undoing

  /** The row of w goes back to the version recorded as the one before, as a new version, or
      stays and is stopped when the promotion had created it. */
  ghost predicate RowBack(before: Flows, after: Flows, w: string, previous: nat) {
    && w in before.workflows && w in after.workflows && w in after.history
    && var was, now := before.workflows[w], after.workflows[w];
      if previous > 0 then
        && w in before.history && previous <= |before.history[w]|
        && now == before.history[w][previous - 1].(id := w)
        && after.history[w] == before.history[w] + [now]
      else
        && now == was.(active := false)
        && after.history[w] == (if w in before.history && before.history[w] != [] then before.history[w] else [was])
                               + [now]
  }

  /** Nothing but that row changed. */
  ghost predicate RowUndone(before: Flows, after: Flows, w: string, previous: nat) {
    RowBack(before, after, w, previous) && forall x :: x != w ==> SameFlow(before, after, x)
  }

  /** Undoing p is possible: the call goes through, the workflow is here, and so is the
      version to go back to. */
  predicate CanUndo(st: Store, p: Promotion, env: Env) {
    p.id !in env.undoFails && p.offer.workflowID in st.flows.workflows &&
    (p.previous > 0 ==> p.offer.workflowID in st.flows.history &&
                        p.previous <= |st.flows.history[p.offer.workflowID]|)
  }

  lemma UndoLeaves(st: Store, i: nat, env: Env)
    requires Valid(st) && i < |st.ps|
    ensures var (s, ok) := Undo(st, st.ps[i].id, env);
      && (ok <==> CanUndo(st, st.ps[i], env))
      && (!ok ==> s == st)
      && (ok ==> s == st.(ps := st.ps[i := st.ps[i].(status := RolledBack)], flows := s.flows) &&
                 RowUndone(st.flows, s.flows, st.ps[i].offer.workflowID, st.ps[i].previous))
  {
    IndexOfUnique(st.ps, i);
    assert FlowFiled(st.flows, st.ps[i].offer.workflowID);
  }

  /** Undoing a deploy at once brings back the earlier row, its state of running included,
      exactly when the newest recorded version, if any, is that row. The definition comes back
      in any case. */
  lemma DeployUndoneIff(st: Store, i: nat, terms: Terms, env: Env)
    requires Valid(st) && i < |st.ps| && st.ps[i].offer.workflowID in st.flows.workflows
    requires Deploy(st, st.ps[i].id, terms, env).1 && st.ps[i].id !in env.undoFails
    ensures var s := Deploy(st, st.ps[i].id, terms, env).0; var (u, ok) := Undo(s, st.ps[i].id, env);
      var w := st.ps[i].offer.workflowID; var was := st.flows.workflows[w];
      && ok && w in u.flows.workflows && DefinitionOf(u.flows.workflows[w]) == DefinitionOf(was)
      && (u.flows.workflows[w] == was <==>
            HistoryOf(st.flows, w) == [] || HistoryOf(st.flows, w)[|HistoryOf(st.flows, w)| - 1].(id := w) == was)
  {
    var p := st.ps[i];
    var w := p.offer.workflowID;
    var s := Deploy(st, p.id, terms, env).0;
    DeployEnds(st, i, terms, env);
    RowKept(st, i, terms, env);
    hide Deploy, Undo, RowUndone, SavedOver;
    UndoLeaves(s, i, env);
    UndoneRow(s, Undo(s, p.id, env).0, i, env);
    assert FlowFiled(st.flows, w);
  }

  /** The version a deploy over an existing workflow records to go back to. */
  lemma RowKept(st: Store, i: nat, terms: Terms, env: Env)
    requires Valid(st) && i < |st.ps| && st.ps[i].offer.workflowID in st.flows.workflows
    requires Deploy(st, st.ps[i].id, terms, env).1
    ensures var s := Deploy(st, st.ps[i].id, terms, env).0; var w := st.ps[i].offer.workflowID;
      var hist := HistoryOf(st.flows, w);
      && i < |s.ps| && s.ps[i].id == st.ps[i].id && s.ps[i].offer == st.ps[i].offer
      && w in s.flows.workflows && w in s.flows.history && 0 < s.ps[i].previous <= |s.flows.history[w]|
      && s.flows.history[w][s.ps[i].previous - 1] ==
           if hist == [] then st.flows.workflows[w] else hist[|hist| - 1]
  {
    IndexOfUnique(st.ps, i);
    assert BodyFiled(st.bodies, st.ps[i]);
    hide Prepare, HasConnections;
  }

  lemma UndoneRow(s: Store, u: Store, i: nat, env: Env)
    requires i < |s.ps| && RowUndone(s.flows, u.flows, s.ps[i].offer.workflowID, s.ps[i].previous)
    requires s.ps[i].previous > 0
    ensures var w := s.ps[i].offer.workflowID;
      && w in s.flows.history && s.ps[i].previous <= |s.flows.history[w]| && w in u.flows.workflows
      && u.flows.workflows[w] == s.flows.history[w][s.ps[i].previous - 1].(id := w)
  {
  }
}
