/** The 80% alert goes out once per scope, limit and month, whichever replica crosses it
    (internal/aibudget/service.go, warn). */
module AIBudgetAlerts {
  import opened AIBudget

  /** The call has read that the alert is due and has still to record it. */
  predicate Owes(c: Call, key: Key, k: Kind) {
    (c.phase.VHostCounted? || c.phase.WorkflowCounted?) && KeyOf(c) == key && k in c.phase.todo
  }

  ghost predicate Pending(s: Sys, key: Key, k: Kind) {
    exists id :: id in s.calls && Owes(s.calls[id], key, k)
  }

  predicate Crossed(cfg: Config, s: Sys, key: Key, k: Kind) {
    Near(Used(UsageOf(s, key), k), LimitOf(cfg, key.1, k))
  }

  ghost predicate AlertInv(cfg: Config, s: Sys, key: Key, k: Kind) {
    AlertsOf(s, key, k) == (if Warned(UsageOf(s, key), k) then 1 else 0) &&
    (Warned(UsageOf(s, key), k) || Pending(s, key, k) ==> Crossed(cfg, s, key, k)) &&
    (Crossed(cfg, s, key, k) ==> Warned(UsageOf(s, key), k) || Pending(s, key, k) || (key, k) in s.missed)
  }

  lemma PendingMoves(s: Sys, t: Sys, id: int, key: Key, k: Kind)
    requires MovesOnly(s, t, id)
    ensures Pending(t, key, k) ==> Pending(s, key, k) || (id in t.calls && Owes(t.calls[id], key, k))
    ensures Pending(s, key, k) ==> Pending(t, key, k) || (id in s.calls && Owes(s.calls[id], key, k))
    ensures id in t.calls && Owes(t.calls[id], key, k) ==> Pending(t, key, k)
    ensures id in s.calls && Owes(s.calls[id], key, k) ==> Pending(s, key, k)
  {
    hide Owes;
  }

  /** A step that counts and marks nothing. */
  lemma OtherAlerts(cfg: Config, s: Sys, t: Sys, id: int, key: Key, k: Kind)
    requires AlertInv(cfg, s, key, k) && MovesOnly(s, t, id)
    requires t.usage == s.usage && t.missed == s.missed && t.alerts == s.alerts
    requires id in s.calls ==> !Owes(s.calls[id], key, k)
    requires id in t.calls ==> !Owes(t.calls[id], key, k)
    ensures AlertInv(cfg, t, key, k)
  {
    PendingMoves(s, t, id, key, k);
    hide Pending, Owes, MovesOnly;
  }

  /** Adding to the counter of `at`: the adder owes every alert that became due. */
  lemma CountAlerts(cfg: Config, s: Sys, t: Sys, id: int, at: Key, d: Delta, priced: bool, key: Key, k: Kind)
    requires AlertInv(cfg, s, key, k) && MovesOnly(s, t, id) && id in s.calls && !Owes(s.calls[id], key, k)
    requires t.usage == s.usage[at := Added(UsageOf(s, at), d)] && t.alerts == s.alerts
    requires t.missed == if priced then s.missed else s.missed + {(at, Tokens), (at, Cost)}
    requires id in t.calls && (Owes(t.calls[id], key, k) <==> key == at && k in Todo(cfg, s, at, d, priced))
    ensures AlertInv(cfg, t, key, k)
  {
    PendingMoves(s, t, id, key, k);
    hide Pending, Owes, MovesOnly;
    assert k == Tokens || k == Cost;
  }

  lemma AddVHostAlerts(cfg: Config, s: Sys, id: int, ok: bool, key: Key, k: Kind)
    requires id in s.calls && s.calls[id].phase.Recording? && AlertInv(cfg, s, key, k)
    ensures AlertInv(cfg, AfterAddVHost(cfg, s, id, ok), key, k)
  {
    hide AlertInv, MovesOnly, Todo, TallyAdd;
    var t, c := AfterAddVHost(cfg, s, id, ok), s.calls[id];
    AddVHostMoves(cfg, s, id, ok);
    if ok {
      CountAlerts(cfg, s, t, id, (c.phase.period, ""), c.phase.delta, c.phase.priced, key, k);
    } else {
      OtherAlerts(cfg, s, t, id, key, k);
    }
  }

  lemma AddWorkflowAlerts(cfg: Config, s: Sys, id: int, ok: bool, key: Key, k: Kind)
    requires id in s.calls && s.calls[id].phase.VHostCounted? && s.calls[id].phase.todo == [] &&
        AlertInv(cfg, s, key, k)
    ensures AlertInv(cfg, AfterAddWorkflow(cfg, s, id, ok), key, k)
  {
    hide AlertInv, MovesOnly, Todo, TallyAdd;
    var t, c := AfterAddWorkflow(cfg, s, id, ok), s.calls[id];
    AddWorkflowMoves(cfg, s, id, ok);
    if ok {
      CountAlerts(cfg, s, t, id, (c.phase.period, c.workflow), c.phase.delta, c.phase.priced, key, k);
    } else {
      OtherAlerts(cfg, s, t, id, key, k);
    }
  }

  /** What recording one alert does to a counter's mark, and to what the call owes. */
  lemma MarkDoes(s: Sys, id: int, ok: bool, key: Key, k: Kind)
    requires id in s.calls && (s.calls[id].phase.VHostCounted? || s.calls[id].phase.WorkflowCounted?) &&
        s.calls[id].phase.todo != []
    ensures var t, c := AfterMark(s, id, ok), s.calls[id];
            var here := key == KeyOf(c) && k == c.phase.todo[0];
            (Warned(UsageOf(t, key), k) <==> Warned(UsageOf(s, key), k) || (here && ok)) &&
            AlertsOf(t, key, k) == AlertsOf(s, key, k) + (if here && ok && !Warned(UsageOf(s, key), k) then 1 else 0) &&
            ((key, k) in t.missed <==> (key, k) in s.missed || (here && !ok))
  {
    MarkKeyDoes(s, KeyOf(s.calls[id]), s.calls[id].phase.todo[0], ok, key, k);
    hide MarkKey;
  }

  lemma MarkKeyDoes(s: Sys, at: Key, j: Kind, ok: bool, key: Key, k: Kind)
    ensures var t, here := MarkKey(s, at, j, ok), key == at && k == j;
            (Warned(UsageOf(t, key), k) <==> Warned(UsageOf(s, key), k) || (here && ok)) &&
            AlertsOf(t, key, k) == AlertsOf(s, key, k) + (if here && ok && !Warned(UsageOf(s, key), k) then 1 else 0) &&
            ((key, k) in t.missed <==> (key, k) in s.missed || (here && !ok))
  {
  }

  lemma MarkOwes(s: Sys, id: int, ok: bool, key: Key, k: Kind)
    requires id in s.calls && (s.calls[id].phase.VHostCounted? || s.calls[id].phase.WorkflowCounted?) &&
        s.calls[id].phase.todo != []
    ensures var t, c := AfterMark(s, id, ok), s.calls[id];
            id in t.calls && (Owes(t.calls[id], key, k) ==> Owes(c, key, k)) &&
            (Owes(c, key, k) ==> Owes(t.calls[id], key, k) || (key == KeyOf(c) && k == c.phase.todo[0])) &&
            (key == KeyOf(c) && k == c.phase.todo[0] ==> Owes(c, key, k))
  {
    MarkEffect(s, id, ok, key, k);
    hide AfterMark;
    var todo := s.calls[id].phase.todo;
    assert todo == [todo[0]] + todo[1..];
  }

  lemma MarkAlerts(cfg: Config, s: Sys, id: int, ok: bool, key: Key, k: Kind)
    requires id in s.calls && (s.calls[id].phase.VHostCounted? || s.calls[id].phase.WorkflowCounted?) &&
        s.calls[id].phase.todo != []
    requires AlertInv(cfg, s, key, k)
    ensures AlertInv(cfg, AfterMark(s, id, ok), key, k)
  {
    hide AfterMark, Pending, MovesOnly, Owes, UsageOf, AlertsOf;
    MarkMoves(s, id, ok);
    MarkEffect(s, id, ok, key, k);
    MarkDoes(s, id, ok, key, k);
    MarkOwes(s, id, ok, key, k);
    PendingMoves(s, AfterMark(s, id, ok), id, key, k);
  }

  lemma StepAlerts(cfg: Config, s: Sys, a: Action, key: Key, k: Kind)
    requires Enabled(cfg, s, a) && AlertInv(cfg, s, key, k)
    ensures AlertInv(cfg, Step(cfg, s, a), key, k)
  {
    hide AlertInv, AfterAddVHost, AfterAddWorkflow, AfterMark, Passes, Fits, MovesOnly;
    if a.AddVHost? {
      AddVHostAlerts(cfg, s, a.id, a.ok, key, k);
    } else if a.AddWorkflow? {
      AddWorkflowAlerts(cfg, s, a.id, a.ok, key, k);
    } else if a.Mark? {
      MarkAlerts(cfg, s, a.id, a.ok, key, k);
    } else if a.NextMonth? {
      MonthAlerts(cfg, s, key, k);
    } else {
      hide Step, Enabled;
      StepMovesOne(cfg, s, a);
      StepQuiet(cfg, s, a);
      OtherAlerts(cfg, s, Step(cfg, s, a), a.id, key, k);
    }
  }

  lemma MonthAlerts(cfg: Config, s: Sys, key: Key, k: Kind)
    requires AlertInv(cfg, s, key, k)
    ensures AlertInv(cfg, Step(cfg, s, NextMonth), key, k)
  {
    assert Pending(Step(cfg, s, NextMonth), key, k) <==> Pending(s, key, k);
  }

  lemma {:induction false} AlertsHold(cfg: Config, run: seq<Sys>, acts: seq<Action>, i: nat, key: Key, k: Kind)
    requires IsRun(cfg, run, acts) && i < |run|
    ensures AlertInv(cfg, run[i], key, k)
  {
    if i > 0 {
      AlertsHold(cfg, run, acts, i - 1, key, k);
      assert Enabled(cfg, run[i - 1], acts[i - 1]) && run[i - 1 + 1] == Step(cfg, run[i - 1], acts[i - 1]);
      hide IsRun, Enabled, Step, AlertInv;
      StepAlerts(cfg, run[i - 1], acts[i - 1], key, k);
    }
  }

  /** The alert's limit is set for the scope, and the month has used 80% of it or more. */
  ghost predicate At80Percent(cfg: Config, s: Sys, p: nat, scope: string, k: Kind) {
    exists c :: LimitsAre(cfg, scope, c) &&
      if k == Tokens then c.tokens > 0 && 100 * TokensIn(s, p, scope) >= 80 * c.tokens
      else c.cost > 0 && 100 * CostIn(s, p, scope) >= 80 * c.cost
  }

  lemma CrossedIff(cfg: Config, s: Sys, p: nat, scope: string, k: Kind)
    ensures Crossed(cfg, s, (p, scope), k) <==> At80Percent(cfg, s, p, scope, k)
  {
    if scope == "" { assert LimitsAre(cfg, scope, cfg.vhost); }
    if scope != "" && scope in cfg.workflows { assert LimitsAre(cfg, scope, cfg.workflows[scope]); }
  }

  /** In every run: never a second alert, never one before 80%; and once 80% is reached,
      exactly one, unless a call has yet to record it or could not. */
  lemma AlertExactlyOnce(cfg: Config, run: seq<Sys>, acts: seq<Action>, i: nat, p: nat, scope: string, k: Kind)
    requires IsRun(cfg, run, acts) && i < |run|
    ensures AlertsOf(run[i], (p, scope), k) <= 1
    ensures AlertsOf(run[i], (p, scope), k) == 1 ==> At80Percent(cfg, run[i], p, scope, k)
    ensures At80Percent(cfg, run[i], p, scope, k) && !Pending(run[i], (p, scope), k) &&
            ((p, scope), k) !in run[i].missed ==>
      AlertsOf(run[i], (p, scope), k) == 1
  {
    hide IsRun;
    AlertsHold(cfg, run, acts, i, (p, scope), k);
    CrossedIff(cfg, run[i], p, scope, k);
  }
}
