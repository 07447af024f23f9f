/** The counters of a vhost and of its workflows agree, month by month and in every
    interleaving (internal/aibudget/service.go, recordLocal). */
module AIBudgetLedger {
  import opened AIBudget

  // -------------------------------------------------------------------------- sums

  ghost function Total<T(!new)>(m: map<T, nat>): nat {
    if m == map[] then 0 else
      var k :| k in m;
      m[k] + Total(m - {k})
  }

  function At<T>(m: map<T, nat>, k: T): nat { if k in m then m[k] else 0 }

  lemma {:induction false} TotalTake<T(!new)>(m: map<T, nat>, k: T)
    requires k in m
    ensures Total(m) == m[k] + Total(m - {k})
    decreases |m|
  {
    var j :| j in m && Total(m) == m[j] + Total(m - {j});
    if j != k {
      assert j in m && k in m - {j} && j in m - {k};
      assert |m - {j}| < |m| by { assert (m - {j}).Keys == m.Keys - {j}; }
      assert |m - {k}| < |m| by { assert (m - {k}).Keys == m.Keys - {k}; }
      TotalTake(m - {j}, k);
      TotalTake(m - {k}, j);
      assert m - {j} - {k} == m - {k} - {j};
    }
  }

  /** Two maps that differ at one key. */
  lemma TotalMove<T(!new)>(m: map<T, nat>, m': map<T, nat>, k: T)
    requires m - {k} == m' - {k}
    ensures Total(m') + At(m, k) == Total(m) + At(m', k)
  {
    if k in m { TotalTake(m, k); } else { assert m - {k} == m; }
    if k in m' { TotalTake(m', k); } else { assert m' - {k} == m'; }
  }

  // ---------------------------------------------------------------------- the ledger

  /** What the month's workflows have counted. */
  ghost function ByWorkflow(s: Sys, p: nat, k: Kind): map<Key, nat> {
    map key | key in s.usage && key.0 == p && key.1 != "" :: Used(s.usage[key], k)
  }

  predicate HalfDone(c: Call, p: nat) {
    c.phase.VHostCounted? && c.phase.period == p && c.workflow != ""
  }

  /** What calls have offered to the vhost's counter and not yet to their workflow's. */
  ghost function HalfDoneCalls(s: Sys, p: nat, k: Kind): map<int, nat> {
    map id | id in s.calls && HalfDone(s.calls[id], p) :: Amount(s.calls[id].phase.delta, k)
  }

  ghost function Workflows(s: Sys, p: nat, k: Kind): nat { Total(ByWorkflow(s, p, k)) }
  ghost function Half(s: Sys, p: nat, k: Kind): nat { Total(HalfDoneCalls(s, p, k)) }
  function VHost(s: Sys, p: nat, k: Kind): nat { Used(UsageOf(s, (p, "")), k) }
  function LostVHost(s: Sys, p: nat, k: Kind): nat { Amount(Tally(s.lostVHost, p), k) }
  function LostWorkflow(s: Sys, p: nat, k: Kind): nat { Amount(Tally(s.lostWorkflow, p), k) }
  function Unattributed(s: Sys, p: nat, k: Kind): nat { Amount(Tally(s.unattributed, p), k) }

  ghost predicate Balanced(s: Sys, p: nat, k: Kind) {
    VHost(s, p, k) + LostVHost(s, p, k) ==
      Workflows(s, p, k) + Unattributed(s, p, k) + Half(s, p, k) + LostWorkflow(s, p, k)
  }

  lemma HalfMoves(s: Sys, t: Sys, id: int, p: nat, k: Kind)
    requires MovesOnly(s, t, id)
    ensures Half(t, p, k) + At(HalfDoneCalls(s, p, k), id) == Half(s, p, k) + At(HalfDoneCalls(t, p, k), id)
  {
    var m, m' := HalfDoneCalls(s, p, k), HalfDoneCalls(t, p, k);
    forall x | x != id ensures (x in m <==> x in m') && (x in m ==> m[x] == m'[x]) {
      assert (x in t.calls <==> x in s.calls) && (x in s.calls ==> t.calls[x] == s.calls[x]);
    }
    assert m - {id} == m' - {id};
    TotalMove(m, m', id);
  }

  lemma WorkflowsMove(s: Sys, t: Sys, key: Key, p: nat, k: Kind)
    requires OnlyAt(s, t, key)
    ensures Workflows(t, p, k) + At(ByWorkflow(s, p, k), key) == Workflows(s, p, k) + At(ByWorkflow(t, p, k), key)
  {
    var m, m' := ByWorkflow(s, p, k), ByWorkflow(t, p, k);
    forall x | x != key ensures (x in m <==> x in m') && (x in m ==> m[x] == m'[x]) {
      assert (x in t.usage <==> x in s.usage) && (x in s.usage ==> t.usage[x] == s.usage[x]);
    }
    assert m - {key} == m' - {key};
    TotalMove(m, m', key);
  }

  lemma AtWorkflow(s: Sys, key: Key, p: nat, k: Kind)
    ensures At(ByWorkflow(s, p, k), key) == if key.0 == p && key.1 != "" then Used(UsageOf(s, key), k) else 0
  {
  }

  lemma TallyAt(m: map<nat, Delta>, q: nat, d: Delta, p: nat, k: Kind)
    ensures Amount(Tally(TallyAdd(m, q, d), p), k) == Amount(Tally(m, p), k) + if p == q then Amount(d, k) else 0
  {
  }

  lemma AtHalf(s: Sys, id: int, p: nat, k: Kind)
    ensures At(HalfDoneCalls(s, p, k), id) ==
            if id in s.calls && HalfDone(s.calls[id], p) then Amount(s.calls[id].phase.delta, k) else 0
  {
  }

  ghost predicate OnlyAt(s: Sys, t: Sys, key: Key) {
    forall x :: x != key ==> (x in t.usage <==> x in s.usage) && (x in s.usage ==> t.usage[x] == s.usage[x])
  }

  lemma AddVHostOnlyAt(cfg: Config, s: Sys, id: int, ok: bool, p: nat, k: Kind)
    requires id in s.calls && s.calls[id].phase.Recording?
    ensures OnlyAt(s, AfterAddVHost(cfg, s, id, ok), (s.calls[id].phase.period, ""))
  {
    hide Todo, TallyAdd, UsageOf, Added;
  }

  lemma AddVHostTallies(cfg: Config, s: Sys, id: int, ok: bool, p: nat, k: Kind)
    requires id in s.calls && s.calls[id].phase.Recording?
    ensures var t, c := AfterAddVHost(cfg, s, id, ok), s.calls[id];
            var n := if c.phase.period == p then Amount(c.phase.delta, k) else 0;
            LostVHost(t, p, k) == LostVHost(s, p, k) + (if ok then 0 else n) &&
            LostWorkflow(t, p, k) == LostWorkflow(s, p, k) &&
            Unattributed(t, p, k) == Unattributed(s, p, k) + (if c.workflow == "" then n else 0)
  {
    var c, t := s.calls[id], AfterAddVHost(cfg, s, id, ok);
    TallyAt(s.lostVHost, c.phase.period, c.phase.delta, p, k);
    TallyAt(s.unattributed, c.phase.period, c.phase.delta, p, k);
    assert t.lostWorkflow == s.lostWorkflow;
    assert t.lostVHost == if ok then s.lostVHost else TallyAdd(s.lostVHost, c.phase.period, c.phase.delta);
    assert t.unattributed == if c.workflow == "" then TallyAdd(s.unattributed, c.phase.period, c.phase.delta)
        else s.unattributed;
    hide AfterAddVHost, TallyAdd, Tally, Amount;
  }

  lemma AddVHostBalanced(cfg: Config, s: Sys, id: int, ok: bool, p: nat, k: Kind)
    requires id in s.calls && s.calls[id].phase.Recording? && Balanced(s, p, k)
    ensures Balanced(AfterAddVHost(cfg, s, id, ok), p, k)
  {
    hide AfterAddVHost, Total, UsageOf, MovesOnly, OnlyAt, Tally, HalfDoneCalls, ByWorkflow, Workflows, Half, At,
        LostVHost, LostWorkflow, Unattributed;
    var t, c := AfterAddVHost(cfg, s, id, ok), s.calls[id];
    var key := (c.phase.period, "");
    AddVHostMoves(cfg, s, id, ok);
    AddVHostOnlyAt(cfg, s, id, ok, p, k);
    AddVHostEffect(cfg, s, id, ok, (p, ""), k);
    AddVHostTallies(cfg, s, id, ok, p, k);
    HalfMoves(s, t, id, p, k);
    AtHalf(s, id, p, k);
    AtHalf(t, id, p, k);
    WorkflowsMove(s, t, key, p, k);
    AtWorkflow(s, key, p, k);
    AtWorkflow(t, key, p, k);
  }

  lemma AddWorkflowOnlyAt(cfg: Config, s: Sys, id: int, ok: bool, p: nat, k: Kind)
    requires id in s.calls && s.calls[id].phase.VHostCounted?
    ensures OnlyAt(s, AfterAddWorkflow(cfg, s, id, ok), (s.calls[id].phase.period, s.calls[id].workflow))
  {
    hide Todo, TallyAdd, UsageOf, Added;
  }

  lemma AddWorkflowTallies(cfg: Config, s: Sys, id: int, ok: bool, p: nat, k: Kind)
    requires id in s.calls && s.calls[id].phase.VHostCounted?
    ensures var t, c := AfterAddWorkflow(cfg, s, id, ok), s.calls[id];
            var n := if c.phase.period == p then Amount(c.phase.delta, k) else 0;
            LostVHost(t, p, k) == LostVHost(s, p, k) && Unattributed(t, p, k) == Unattributed(s, p, k) &&
            LostWorkflow(t, p, k) == LostWorkflow(s, p, k) + (if ok then 0 else n)
  {
    var c := s.calls[id];
    TallyAt(s.lostWorkflow, c.phase.period, c.phase.delta, p, k);
    hide Todo, TallyAdd, Tally, UsageOf, Added, Amount;
  }

  lemma AddWorkflowBalanced(cfg: Config, s: Sys, id: int, ok: bool, p: nat, k: Kind)
    requires id in s.calls && s.calls[id].phase.VHostCounted? && s.calls[id].workflow != "" && Balanced(s, p, k)
    ensures Balanced(AfterAddWorkflow(cfg, s, id, ok), p, k)
  {
    hide AfterAddWorkflow, Total, UsageOf, MovesOnly, OnlyAt, Tally, HalfDoneCalls, ByWorkflow, Workflows, Half, At,
        LostVHost, LostWorkflow, Unattributed;
    var t, c := AfterAddWorkflow(cfg, s, id, ok), s.calls[id];
    var key := (c.phase.period, c.workflow);
    AddWorkflowMoves(cfg, s, id, ok);
    AddWorkflowOnlyAt(cfg, s, id, ok, p, k);
    AddWorkflowEffect(cfg, s, id, ok, (p, ""), k);
    AddWorkflowEffect(cfg, s, id, ok, key, k);
    AddWorkflowTallies(cfg, s, id, ok, p, k);
    HalfMoves(s, t, id, p, k);
    AtHalf(s, id, p, k);
    AtHalf(t, id, p, k);
    WorkflowsMove(s, t, key, p, k);
    AtWorkflow(s, key, p, k);
    AtWorkflow(t, key, p, k);
  }

  lemma MarkOnlyAt(s: Sys, id: int, ok: bool, p: nat, k: Kind)
    requires id in s.calls && (s.calls[id].phase.VHostCounted? || s.calls[id].phase.WorkflowCounted?) &&
        s.calls[id].phase.todo != []
    ensures OnlyAt(s, AfterMark(s, id, ok), KeyOf(s.calls[id]))
    ensures var t := AfterMark(s, id, ok);
            LostVHost(t, p, k) == LostVHost(s, p, k) && Unattributed(t, p, k) == Unattributed(s, p, k) &&
            LostWorkflow(t, p, k) == LostWorkflow(s, p, k)
  {
    hide UsageOf, Marked, AlertsOf, Tally;
  }

  lemma MarkBalanced(s: Sys, id: int, ok: bool, p: nat, k: Kind)
    requires id in s.calls && (s.calls[id].phase.VHostCounted? || s.calls[id].phase.WorkflowCounted?) &&
        s.calls[id].phase.todo != []
    requires Balanced(s, p, k)
    ensures Balanced(AfterMark(s, id, ok), p, k)
  {
    hide AfterMark, Total, UsageOf, MovesOnly, OnlyAt, Tally, HalfDoneCalls, ByWorkflow, Workflows, Half, At,
        LostVHost, LostWorkflow, Unattributed;
    var t, key := AfterMark(s, id, ok), KeyOf(s.calls[id]);
    MarkMoves(s, id, ok);
    MarkOnlyAt(s, id, ok, p, k);
    MarkEffect(s, id, ok, (p, ""), k);
    MarkEffect(s, id, ok, key, k);
    HalfMoves(s, t, id, p, k);
    AtHalf(s, id, p, k);
    AtHalf(t, id, p, k);
    WorkflowsMove(s, t, key, p, k);
    AtWorkflow(s, key, p, k);
    AtWorkflow(t, key, p, k);
  }

  /** A step that counts nothing. */
  lemma OtherBalanced(s: Sys, t: Sys, id: int, p: nat, k: Kind)
    requires Balanced(s, p, k) && MovesOnly(s, t, id) && StoreSame(s, t)
    requires id in s.calls ==> OwesNothing(s.calls[id])
    requires id in t.calls ==> OwesNothing(t.calls[id])
    ensures Balanced(t, p, k)
  {
    HalfMoves(s, t, id, p, k);
    AtHalf(s, id, p, k);
    AtHalf(t, id, p, k);
    assert ByWorkflow(t, p, k) == ByWorkflow(s, p, k);
  }

  lemma StepBalanced(cfg: Config, s: Sys, a: Action, p: nat, k: Kind)
    requires Enabled(cfg, s, a) && Balanced(s, p, k)
    ensures Balanced(Step(cfg, s, a), p, k)
  {
    hide Balanced, AfterAddVHost, AfterAddWorkflow, AfterMark, Passes, Fits, MovesOnly, StoreSame, OwesNothing;
    if a.AddVHost? {
      AddVHostBalanced(cfg, s, a.id, a.ok, p, k);
    } else if a.AddWorkflow? {
      AddWorkflowBalanced(cfg, s, a.id, a.ok, p, k);
    } else if a.Mark? {
      MarkBalanced(s, a.id, a.ok, p, k);
    } else if a.NextMonth? {
      MonthBalanced(cfg, s, p, k);
    } else {
      hide Step, Enabled;
      StepMovesOne(cfg, s, a);
      StepQuiet(cfg, s, a);
      OtherBalanced(s, Step(cfg, s, a), a.id, p, k);
    }
  }

  lemma MonthBalanced(cfg: Config, s: Sys, p: nat, k: Kind)
    requires Balanced(s, p, k)
    ensures Balanced(Step(cfg, s, NextMonth), p, k)
  {
    var t := Step(cfg, s, NextMonth);
    assert ByWorkflow(t, p, k) == ByWorkflow(s, p, k) && HalfDoneCalls(t, p, k) == HalfDoneCalls(s, p, k);
  }

  /** In every state of every run, month by month: what the vhost counted, with what it
      failed to count, is what its workflows and the calls of none counted, with what is
      on its way or was lost between the two. */
  lemma {:induction false} LedgerHolds(cfg: Config, run: seq<Sys>, acts: seq<Action>, i: nat, p: nat, k: Kind)
    requires IsRun(cfg, run, acts) && i < |run|
    ensures Balanced(run[i], p, k)
  {
    if i == 0 {
      hide IsRun;
      assert ByWorkflow(START, p, k) == map[] && HalfDoneCalls(START, p, k) == map[];
    } else {
      LedgerHolds(cfg, run, acts, i - 1, p, k);
      assert Enabled(cfg, run[i - 1], acts[i - 1]) && run[i - 1 + 1] == Step(cfg, run[i - 1], acts[i - 1]);
      hide IsRun, Enabled, Step, Balanced;
      StepBalanced(cfg, run[i - 1], acts[i - 1], p, k);
    }
  }

  /** The vhost's counter is below its workflows' exactly when more of its adds failed than
      are half done or failed for a workflow. */
  lemma BelowIff(cfg: Config, run: seq<Sys>, acts: seq<Action>, i: nat, p: nat, k: Kind)
    requires IsRun(cfg, run, acts) && i < |run|
    ensures VHost(run[i], p, k) < Workflows(run[i], p, k) + Unattributed(run[i], p, k) <==>
            LostVHost(run[i], p, k) > Half(run[i], p, k) + LostWorkflow(run[i], p, k)
  {
    LedgerHolds(cfg, run, acts, i, p, k);
  }

  /** With every record done and no add failed, the two agree to the token. */
  lemma LedgerAgrees(cfg: Config, run: seq<Sys>, acts: seq<Action>, i: nat, p: nat, k: Kind)
    requires IsRun(cfg, run, acts) && i < |run|
    requires forall id :: id in run[i].calls ==> !HalfDone(run[i].calls[id], p)
    requires LostVHost(run[i], p, k) == LostWorkflow(run[i], p, k) == 0
    ensures VHost(run[i], p, k) == Workflows(run[i], p, k) + Unattributed(run[i], p, k)
  {
    LedgerHolds(cfg, run, acts, i, p, k);
    hide IsRun;
    var half := HalfDoneCalls(run[i], p, k);
    assert forall id :: id !in half;
    assert half == map[];
  }
}
