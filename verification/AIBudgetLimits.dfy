/** Recorded usage can pass a limit only by what the calls in flight still had to count. */
module AIBudgetLimits {
  import opened AIBudget

  /** The call may still count against the month and scope without having seen the scope
      over its limit in that month. */
  predicate CanAdd(month: nat, c: Call, p: nat, scope: string) {
    (scope == "" || scope == c.workflow) &&
    match c.phase
    case Checking(q) => month <= p && q != p
    case VHostPassed(q) => month <= p && (q != p || scope == "")
    case Running => month <= p
    case Recording(q, _, _) => q == p
    case VHostCounted(q, _, _, _) => q == p && scope != ""
    case WorkflowCounted(_, _) => false
  }

  ghost function Adders(s: Sys, p: nat, scope: string): set<int> {
    set id | id in s.calls && CanAdd(s.month, s.calls[id], p, scope)
  }

  function Most(cfg: Config, k: Kind): nat { Amount(cfg.most, k) }

  /** Once a limit is reached, what is counted and what can still be stays in bounds. */
  ghost predicate Bounded(cfg: Config, s: Sys, p: nat, scope: string, k: Kind) {
    var u, limit := Used(UsageOf(s, (p, scope)), k), LimitOf(cfg, scope, k);
    0 < limit <= u ==> u + Most(cfg, k) * |Adders(s, p, scope)| < limit + cfg.calls * Most(cfg, k)
  }

  /** A call counts with a month that has come, and no more than a call can use. */
  ghost predicate CallOk(cfg: Config, s: Sys, c: Call) {
    match c.phase
    case Checking(q) => q <= s.month
    case VHostPassed(q) => q <= s.month
    case Running => true
    case Recording(q, d, priced) => q <= s.month && Fits(cfg, d, priced)
    case VHostCounted(q, d, priced, _) => q <= s.month && Fits(cfg, d, priced)
    case WorkflowCounted(q, _) => q <= s.month
  }

  ghost predicate Ordered(cfg: Config, s: Sys) {
    |s.calls| <= cfg.calls &&
    (forall id :: id in s.calls ==> CallOk(cfg, s, s.calls[id])) &&
    (forall key :: key in s.usage ==> key.0 <= s.month)
  }

  ghost predicate Inv(cfg: Config, s: Sys) {
    Ordered(cfg, s) && forall p, scope, k :: Bounded(cfg, s, p, scope, k)
  }

  lemma CardLe(a: set<int>, b: set<int>)
    requires a <= b
    ensures |a| <= |b|
  {
    assert b == a + (b - a);
  }

  lemma OneMovesCard(s: Sys, t: Sys, id: int, n: nat)
    requires |s.calls| <= n && MovesOnly(s, t, id)
    requires id in t.calls ==> id in s.calls || |s.calls| < n
    ensures |t.calls| <= n
  {
    if id in t.calls && id !in s.calls {
      forall x | x in t.calls ensures x in s.calls.Keys + {id} { assert x != id ==> x in s.calls; }
      CardLe(t.calls.Keys, s.calls.Keys + {id});
    } else {
      forall x | x in t.calls ensures x in s.calls.Keys { assert x != id ==> x in s.calls; }
      CardLe(t.calls.Keys, s.calls.Keys);
    }
  }

  /** Nothing but one call, and counters of months that have come, changed. */
  lemma OneMoves(cfg: Config, s: Sys, t: Sys, id: int)
    requires Ordered(cfg, s) && MovesOnly(s, t, id)
    requires MovesRight(cfg, s, t, id)
    ensures Ordered(cfg, t)
  {
    OneMovesCard(s, t, id, cfg.calls);
    forall x | x in t.calls ensures CallOk(cfg, t, t.calls[x]) {
      if x != id {
        assert CallOk(cfg, s, s.calls[x]) && t.calls[x] == s.calls[x];
      }
    }
    hide CallOk;
  }

  lemma StepOrdered(cfg: Config, s: Sys, a: Action)
    requires Ordered(cfg, s) && Enabled(cfg, s, a)
    ensures Ordered(cfg, Step(cfg, s, a))
  {
    hide MovesOnly;
    if a.NextMonth? {
      forall x | x in s.calls ensures CallOk(cfg, Step(cfg, s, a), s.calls[x]) {
        assert CallOk(cfg, s, s.calls[x]);
      }
    } else {
      StepMovesOne(cfg, s, a);
      StepMovesRight(cfg, s, a);
      hide Step, Enabled, CallOk, MovesRight;
      OneMoves(cfg, s, Step(cfg, s, a), a.id);
    }
  }

  ghost predicate MovesRight(cfg: Config, s: Sys, t: Sys, id: int) {
    (id in t.calls ==> CallOk(cfg, t, t.calls[id]) && (id in s.calls || |s.calls| < cfg.calls)) &&
    forall key :: key in t.usage && key !in s.usage ==> key.0 <= s.month
  }

  lemma StepMovesRight(cfg: Config, s: Sys, a: Action)
    requires Ordered(cfg, s) && Enabled(cfg, s, a) && !a.NextMonth?
    ensures MovesRight(cfg, s, Step(cfg, s, a), a.id)
  {
    assert a.id in s.calls ==> CallOk(cfg, s, s.calls[a.id]);
    hide Ordered, AfterAddVHost, AfterAddWorkflow, AfterMark, FateOf, Fated, MovesRight;
    if a.AddVHost? {
      AddVHostRight(cfg, s, a.id, a.ok);
    } else if a.AddWorkflow? {
      AddWorkflowRight(cfg, s, a.id, a.ok);
    } else if a.Mark? {
      MarkRight(cfg, s, a.id, a.ok);
    } else {
      FateRight(cfg, s, a);
      StepIsFate(cfg, s, a);
    }
  }

  lemma FateRight(cfg: Config, s: Sys, a: Action)
    requires Enabled(cfg, s, a) && !Counts(a) && !a.NextMonth?
    requires a.id in s.calls ==> CallOk(cfg, s, s.calls[a.id])
    ensures MovesRight(cfg, s, Fated(s, a.id, FateOf(cfg, s, a)), a.id)
  {
    FatedMoves(s, a.id, FateOf(cfg, s, a));
    hide Passes, Fits, Fated, MovesOnly;
  }

  lemma AddVHostRight(cfg: Config, s: Sys, id: int, ok: bool)
    requires id in s.calls && CallOk(cfg, s, s.calls[id]) && s.calls[id].phase.Recording?
    ensures MovesRight(cfg, s, AfterAddVHost(cfg, s, id, ok), id)
  {
    hide Todo, Fits, TallyAdd;
  }

  lemma AddWorkflowRight(cfg: Config, s: Sys, id: int, ok: bool)
    requires id in s.calls && CallOk(cfg, s, s.calls[id]) && s.calls[id].phase.VHostCounted?
    ensures MovesRight(cfg, s, AfterAddWorkflow(cfg, s, id, ok), id)
  {
    hide Todo, Fits, TallyAdd;
  }

  lemma MarkRight(cfg: Config, s: Sys, id: int, ok: bool)
    requires Enabled(cfg, s, Mark(id, ok)) && CallOk(cfg, s, s.calls[id])
    ensures MovesRight(cfg, s, AfterMark(s, id, ok), id)
  {
    hide Fits;
  }

  /** A step that adds nothing to the scope and admits nobody past its limit. */
  lemma NoMoreAdders(cfg: Config, s: Sys, t: Sys, p: nat, scope: string, k: Kind)
    requires Bounded(cfg, s, p, scope, k) && Adders(t, p, scope) <= Adders(s, p, scope)
    requires Used(UsageOf(t, (p, scope)), k) == Used(UsageOf(s, (p, scope)), k)
    ensures Bounded(cfg, t, p, scope, k)
  {
    CardLe(Adders(t, p, scope), Adders(s, p, scope));
    TimesLe(|Adders(t, p, scope)|, |Adders(s, p, scope)|, Most(cfg, k));
  }

  /** Who can add changes only with the call that moves. */
  lemma AddersMove(s: Sys, t: Sys, id: int, p: nat, scope: string)
    requires MovesOnly(s, t, id)
    ensures (id in t.calls && CanAdd(t.month, t.calls[id], p, scope) ==>
        id in s.calls && CanAdd(s.month, s.calls[id], p, scope))
            ==> Adders(t, p, scope) <= Adders(s, p, scope)
    ensures !(id in t.calls && CanAdd(t.month, t.calls[id], p, scope)) ==>
        Adders(t, p, scope) <= Adders(s, p, scope) - {id}
    ensures id in s.calls && CanAdd(s.month, s.calls[id], p, scope) ==> id in Adders(s, p, scope)
  {
    hide CanAdd;
    forall x | x in Adders(t, p, scope) && x != id ensures x in Adders(s, p, scope) {
    }
  }

  lemma TimesLe(a: nat, b: nat, m: nat)
    requires a <= b
    ensures m * a <= m * b
  {
  }

  lemma OneFewer(a: nat, b: nat, m: nat)
    requires a + 1 <= b
    ensures m * a + m <= m * b
  {
    assert m * b == m * (a + 1) + m * (b - (a + 1));
  }

  /** A step in which one call adds its usage to the scope and can add no more. */
  lemma OneAdds(cfg: Config, s: Sys, t: Sys, id: int, amount: nat, p: nat, scope: string, k: Kind)
    requires Ordered(cfg, s) && Bounded(cfg, s, p, scope, k) && amount <= Most(cfg, k)
    requires Used(UsageOf(t, (p, scope)), k) == Used(UsageOf(s, (p, scope)), k) + amount
    requires id in Adders(s, p, scope) && Adders(t, p, scope) <= Adders(s, p, scope) - {id}
    ensures Bounded(cfg, t, p, scope, k)
  {
    var before, after := Adders(s, p, scope), Adders(t, p, scope);
    CardLe(after, before - {id});
    assert before <= s.calls.Keys;
    CardLe(before, s.calls.Keys);
    OneFewer(|after|, |before|, Most(cfg, k));
    TimesLe(|before|, cfg.calls, Most(cfg, k));
    assert Most(cfg, k) * cfg.calls == cfg.calls * Most(cfg, k);
  }

  lemma FutureUnused(cfg: Config, s: Sys, p: nat, scope: string, k: Kind)
    requires Ordered(cfg, s) && s.month < p
    ensures Used(UsageOf(s, (p, scope)), k) == 0
  {
  }

  lemma StepBounded(cfg: Config, s: Sys, a: Action, p: nat, scope: string, k: Kind)
    requires Ordered(cfg, s) && Enabled(cfg, s, a) && Bounded(cfg, s, p, scope, k)
    ensures Bounded(cfg, Step(cfg, s, a), p, scope, k)
  {
    hide Bounded, Ordered, Step, Enabled;
    match a
    case Start(_, _) => StartBounded(cfg, s, a, p, scope, k);
    case CheckVHost(_) => CheckVHostBounded(cfg, s, a, p, scope, k);
    case CheckWorkflow(_) => CheckWorkflowBounded(cfg, s, a, p, scope, k);
    case AddVHost(_, _) => AddVHostBounded(cfg, s, a, p, scope, k);
    case AddWorkflow(_, _) => AddWorkflowBounded(cfg, s, a, p, scope, k);
    case Mark(_, _) => MarkBounded(cfg, s, a, p, scope, k);
    case NextMonth => NextMonthBounded(cfg, s, a, p, scope, k);
    case _ => OtherBounded(cfg, s, a, p, scope, k);
  }

  lemma NextMonthBounded(cfg: Config, s: Sys, a: Action, p: nat, scope: string, k: Kind)
    requires Ordered(cfg, s) && Bounded(cfg, s, p, scope, k) && a.NextMonth?
    ensures Bounded(cfg, Step(cfg, s, a), p, scope, k)
  {
    hide Bounded;
    var t := Step(cfg, s, a);
    forall x | x in Adders(t, p, scope) ensures x in Adders(s, p, scope) {
    }
    NoMoreAdders(cfg, s, t, p, scope, k);
  }

  lemma OtherBounded(cfg: Config, s: Sys, a: Action, p: nat, scope: string, k: Kind)
    requires Ordered(cfg, s) && Enabled(cfg, s, a) && Bounded(cfg, s, p, scope, k) &&
        (a.GiveUp? || a.Answer? || a.Finish?)
    ensures Bounded(cfg, Step(cfg, s, a), p, scope, k)
  {
    hide Bounded, Adders, Ordered, MovesOnly;
    var t := Step(cfg, s, a);
    StepMovesOne(cfg, s, a);
    AddersMove(s, t, a.id, p, scope);
    NoMoreAdders(cfg, s, t, p, scope, k);
  }

  /** A new call counts for a month only where it is checked in it, or the month is to come. */
  lemma StartBounded(cfg: Config, s: Sys, a: Action, p: nat, scope: string, k: Kind)
    requires Ordered(cfg, s) && Enabled(cfg, s, a) && Bounded(cfg, s, p, scope, k) && a.Start?
    ensures Bounded(cfg, Step(cfg, s, a), p, scope, k)
  {
    hide Adders, MovesOnly;
    var t := Step(cfg, s, a);
    StepMovesOne(cfg, s, a);
    AddersMove(s, t, a.id, p, scope);
    if s.month < p {
      FutureUnused(cfg, s, p, scope, k);
    } else {
      NoMoreAdders(cfg, s, t, p, scope, k);
    }
  }

  lemma NotPast(cfg: Config, s: Sys, p: nat, scope: string, k: Kind)
    requires 0 < LimitOf(cfg, scope, k) <= Used(UsageOf(s, (p, scope)), k)
    ensures !Passes(cfg, s, p, scope)
  {
  }

  /** Passing a check in the month itself means the limit was not reached. */
  lemma CheckVHostBounded(cfg: Config, s: Sys, a: Action, p: nat, scope: string, k: Kind)
    requires Ordered(cfg, s) && Enabled(cfg, s, a) && Bounded(cfg, s, p, scope, k) && a.CheckVHost?
    ensures Bounded(cfg, Step(cfg, s, a), p, scope, k)
  {
    hide Adders, MovesOnly, Ordered, Passes;
    var t := Step(cfg, s, a);
    StepMovesOne(cfg, s, a);
    AddersMove(s, t, a.id, p, scope);
    if 0 < LimitOf(cfg, scope, k) <= Used(UsageOf(s, (p, scope)), k) {
      NotPast(cfg, s, p, scope, k);
      NoMoreAdders(cfg, s, t, p, scope, k);
    }
  }

  lemma CheckWorkflowBounded(cfg: Config, s: Sys, a: Action, p: nat, scope: string, k: Kind)
    requires Ordered(cfg, s) && Enabled(cfg, s, a) && Bounded(cfg, s, p, scope, k) && a.CheckWorkflow?
    ensures Bounded(cfg, Step(cfg, s, a), p, scope, k)
  {
    hide Adders, MovesOnly, Ordered, Passes;
    var t := Step(cfg, s, a);
    StepMovesOne(cfg, s, a);
    AddersMove(s, t, a.id, p, scope);
    if 0 < LimitOf(cfg, scope, k) <= Used(UsageOf(s, (p, scope)), k) {
      NotPast(cfg, s, p, scope, k);
      NoMoreAdders(cfg, s, t, p, scope, k);
    }
  }

  lemma AddVHostBounded(cfg: Config, s: Sys, a: Action, p: nat, scope: string, k: Kind)
    requires Ordered(cfg, s) && Enabled(cfg, s, a) && Bounded(cfg, s, p, scope, k) && a.AddVHost?
    ensures Bounded(cfg, Step(cfg, s, a), p, scope, k)
  {
    AddVHostEffect(cfg, s, a.id, a.ok, (p, scope), k);
    hide AfterAddVHost, Bounded, Adders, MovesOnly;
    var t := Step(cfg, s, a);
    StepMovesOne(cfg, s, a);
    AddersMove(s, t, a.id, p, scope);
    var c := s.calls[a.id];
    assert CallOk(cfg, s, c);
    if a.ok && c.phase.period == p && scope == "" {
      OneAdds(cfg, s, t, a.id, Amount(c.phase.delta, k), p, scope, k);
    } else {
      NoMoreAdders(cfg, s, t, p, scope, k);
    }
  }

  lemma AddWorkflowBounded(cfg: Config, s: Sys, a: Action, p: nat, scope: string, k: Kind)
    requires Ordered(cfg, s) && Enabled(cfg, s, a) && Bounded(cfg, s, p, scope, k) && a.AddWorkflow?
    ensures Bounded(cfg, Step(cfg, s, a), p, scope, k)
  {
    AddWorkflowEffect(cfg, s, a.id, a.ok, (p, scope), k);
    hide AfterAddWorkflow, Bounded, Adders, MovesOnly;
    var t := Step(cfg, s, a);
    StepMovesOne(cfg, s, a);
    AddersMove(s, t, a.id, p, scope);
    var c := s.calls[a.id];
    assert CallOk(cfg, s, c);
    if a.ok && c.phase.period == p && scope == c.workflow {
      OneAdds(cfg, s, t, a.id, Amount(c.phase.delta, k), p, scope, k);
    } else {
      NoMoreAdders(cfg, s, t, p, scope, k);
    }
  }

  lemma MarkBounded(cfg: Config, s: Sys, a: Action, p: nat, scope: string, k: Kind)
    requires Ordered(cfg, s) && Enabled(cfg, s, a) && Bounded(cfg, s, p, scope, k) && a.Mark?
    ensures Bounded(cfg, Step(cfg, s, a), p, scope, k)
  {
    MarkEffect(s, a.id, a.ok, (p, scope), k);
    hide AfterMark, Bounded, Adders, MovesOnly, Ordered;
    var t := Step(cfg, s, a);
    StepMovesOne(cfg, s, a);
    AddersMove(s, t, a.id, p, scope);
    NoMoreAdders(cfg, s, t, p, scope, k);
  }

  lemma {:induction false} EveryRunBounded(cfg: Config, run: seq<Sys>, acts: seq<Action>, i: nat)
    requires IsRun(cfg, run, acts) && i < |run|
    ensures Inv(cfg, run[i])
  {
    if i == 0 {
      hide IsRun;
      assert Ordered(cfg, START);
    } else {
      EveryRunBounded(cfg, run, acts, i - 1);
      assert Enabled(cfg, run[i - 1], acts[i - 1]) && run[i - 1 + 1] == Step(cfg, run[i - 1], acts[i - 1]);
      hide IsRun, Enabled, Step, Bounded, Ordered;
      StepOrdered(cfg, run[i - 1], acts[i - 1]);
      forall p, scope, k ensures Bounded(cfg, run[i], p, scope, k) {
        StepBounded(cfg, run[i - 1], acts[i - 1], p, scope, k);
      }
    }
  }

  lemma NotNegative(a: nat, b: nat)
    ensures a * b >= 0
  {
  }

  lemma RecordedBelow(cfg: Config, run: seq<Sys>, acts: seq<Action>, i: nat, p: nat, scope: string, k: Kind)
    requires IsRun(cfg, run, acts) && i < |run| && LimitOf(cfg, scope, k) > 0
    ensures Used(UsageOf(run[i], (p, scope)), k) <= LimitOf(cfg, scope, k) - 1 + cfg.calls * Most(cfg, k)
  {
    EveryRunBounded(cfg, run, acts, i);
    hide IsRun, Ordered, Adders;
    assert Bounded(cfg, run[i], p, scope, k);
    NotNegative(Most(cfg, k), |Adders(run[i], p, scope)|);
    NotNegative(cfg.calls, Most(cfg, k));
  }

  /** In every interleaving and every month, what is recorded for the vhost, and for each workflow
      that has limits, passes a limit by less than what the calls in flight can use. */
  lemma OvershootBound(cfg: Config, run: seq<Sys>, acts: seq<Action>, i: nat, p: nat, scope: string, c: Caps)
    requires IsRun(cfg, run, acts) && i < |run| && LimitsAre(cfg, scope, c)
    ensures c.tokens > 0 ==> TokensIn(run[i], p, scope) <= c.tokens - 1 + cfg.calls * cfg.most.tokens
    ensures c.cost > 0 ==> CostIn(run[i], p, scope) <= c.cost - 1 + cfg.calls * cfg.most.cost
  {
    hide IsRun;
    if c.tokens > 0 { RecordedBelow(cfg, run, acts, i, p, scope, Tokens); }
    if c.cost > 0 { RecordedBelow(cfg, run, acts, i, p, scope, Cost); }
  }
}
