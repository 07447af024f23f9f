/** A vhost's monthly AI budget, checked before each model call and counted after it
    (internal/aibudget/service.go). Any number of replicas make calls at once over one
    store whose reads, adds and marks are atomic, so a run is an interleaving of the
    store's operations. The scope "" is the vhost itself; any other is a workflow. */
module AIBudget {

  datatype Kind = Tokens | Cost

  /** Limits for a month; 0 is no limit. Costs are in millionths. */
  datatype Caps = Caps(tokens: nat, cost: nat)

  datatype Usage = Usage(tokens: nat, cost: nat, tokensWarned: bool, costWarned: bool)

  datatype Delta = Delta(tokens: nat, cost: nat)

  /** A fixed budget, at most `calls` calls in flight, and what one call can use at most. */
  datatype Config = Config(vhost: Caps, workflows: map<string, Caps>, calls: nat, most: Delta)

  const UNUSED := Usage(0, 0, false, false)
  const UNLIMITED := Caps(0, 0)

  function Limit(c: Caps, k: Kind): nat { if k == Tokens then c.tokens else c.cost }
  function Used(u: Usage, k: Kind): nat { if k == Tokens then u.tokens else u.cost }
  function Warned(u: Usage, k: Kind): bool { if k == Tokens then u.tokensWarned else u.costWarned }
  function Amount(d: Delta, k: Kind): nat { if k == Tokens then d.tokens else d.cost }

  function Added(u: Usage, d: Delta): Usage {
    u.(tokens := u.tokens + d.tokens, cost := u.cost + d.cost)
  }

  function Marked(u: Usage, k: Kind): Usage {
    if k == Tokens then u.(tokensWarned := true) else u.(costWarned := true)
  }

  /** WorkflowCap, and the vhost's own limits for the empty scope. */
  function CapsOf(cfg: Config, scope: string): Caps {
    if scope == "" then cfg.vhost else if scope in cfg.workflows then cfg.workflows[scope] else UNLIMITED
  }

  /** The limits set for the scope: the vhost's own, or those of a workflow that has some. */
  predicate LimitsAre(cfg: Config, scope: string, c: Caps) {
    (scope == "" && c == cfg.vhost) || (scope != "" && scope in cfg.workflows && c == cfg.workflows[scope])
  }

  function LimitOf(cfg: Config, scope: string, k: Kind): nat { Limit(CapsOf(cfg, scope), k) }

  /** over: which limit the usage has reached, tokens first. */
  datatype Verdict = Within | Reached(kind: Kind, used: nat, max: nat)

  function Over(u: Usage, c: Caps): (v: Verdict)
    ensures v == Within <==> forall k :: Limit(c, k) > 0 ==> Used(u, k) < Limit(c, k)
    ensures v.Reached? ==> v.max == Limit(c, v.kind) && v.used == Used(u, v.kind) && 0 < v.max <= v.used
    ensures v.Reached? && v.kind == Cost ==> c.tokens == 0 || u.tokens < c.tokens
  {
    assert c.tokens == Limit(c, Tokens) && c.cost == Limit(c, Cost);
    if c.tokens > 0 && u.tokens >= c.tokens then Reached(Tokens, u.tokens, c.tokens)
    else if c.cost > 0 && u.cost >= c.cost then Reached(Cost, u.cost, c.cost)
    else Within
  }

  /** At 80% of the limit or past it. */
  predicate Near(used: nat, limit: nat) {
    limit > 0 && used * 5 >= limit * 4
  }

  predicate MustWarn(u: Usage, c: Caps, k: Kind) {
    Near(Used(u, k), Limit(c, k)) && !Warned(u, k)
  }

  /** The alerts warn goes on to raise for a usage it has just read, in order. */
  function ToWarn(u: Usage, c: Caps): (r: seq<Kind>)
    ensures forall k :: k in r <==> MustWarn(u, c, k)
  {
    (if MustWarn(u, c, Tokens) then [Tokens] else []) + (if MustWarn(u, c, Cost) then [Cost] else [])
  }

  // ----------------------------------------------------------------------- one call

  /** Where a call stands; `period` is the month it checks or counts against. */
  datatype Phase =
    | Checking(period: nat)
    | VHostPassed(period: nat)
    | Running
    | Recording(period: nat, delta: Delta, priced: bool)
    | VHostCounted(period: nat, delta: Delta, priced: bool, todo: seq<Kind>)
    | WorkflowCounted(period: nat, todo: seq<Kind>)

  datatype Call = Call(workflow: string, phase: Phase)

  type Key = (nat, string)

  /** `missed` are the alerts that could not be recorded; the last four fields keep a tally
      the store does not: alerts raised, adds that failed, calls of no workflow. */
  datatype Sys = Sys(month: nat, usage: map<Key, Usage>, calls: map<int, Call>,
                     missed: set<(Key, Kind)>, alerts: map<(Key, Kind), nat>,
                     lostVHost: map<nat, Delta>, lostWorkflow: map<nat, Delta>, unattributed: map<nat, Delta>)

  const START := Sys(0, map[], map[], {}, map[], map[], map[], map[])

  function UsageOf(s: Sys, key: Key): Usage { if key in s.usage then s.usage[key] else UNUSED }

  /** The tokens and the cost recorded for a scope in a month. */
  function TokensIn(s: Sys, p: nat, scope: string): nat {
    if (p, scope) in s.usage then s.usage[(p, scope)].tokens else 0
  }

  function CostIn(s: Sys, p: nat, scope: string): nat {
    if (p, scope) in s.usage then s.usage[(p, scope)].cost else 0
  }

  function Tally(m: map<nat, Delta>, p: nat): Delta { if p in m then m[p] else Delta(0, 0) }

  function TallyAdd(m: map<nat, Delta>, p: nat, d: Delta): map<nat, Delta> {
    m[p := Delta(Tally(m, p).tokens + d.tokens, Tally(m, p).cost + d.cost)]
  }

  function AlertsOf(s: Sys, key: Key, k: Kind): nat { if (key, k) in s.alerts then s.alerts[(key, k)] else 0 }

  datatype Action =
    | Start(id: int, workflow: string)
    | CheckVHost(id: int)
    | CheckWorkflow(id: int)
    | GiveUp(id: int)
    | Answer(id: int, delta: Delta, priced: bool)
    | AddVHost(id: int, ok: bool)
    | AddWorkflow(id: int, ok: bool)
    | Mark(id: int, ok: bool)
    | Finish(id: int)
    | NextMonth

  predicate Fits(cfg: Config, d: Delta, priced: bool) {
    d.tokens <= cfg.most.tokens && d.cost <= cfg.most.cost && (!priced ==> d.cost == 0)
  }

  predicate Enabled(cfg: Config, s: Sys, a: Action) {
    match a
    case Start(id, _) => id !in s.calls && |s.calls| < cfg.calls
    case CheckVHost(id) => id in s.calls && s.calls[id].phase.Checking?
    case CheckWorkflow(id) => id in s.calls && s.calls[id].phase.VHostPassed?
    case GiveUp(id) => id in s.calls && (s.calls[id].phase.Checking? || s.calls[id].phase.VHostPassed? ||
        s.calls[id].phase.Running?)
    case Answer(id, d, priced) => id in s.calls && s.calls[id].phase.Running? && Fits(cfg, d, priced)
    case AddVHost(id, _) => id in s.calls && s.calls[id].phase.Recording?
    case AddWorkflow(id, _) =>
      id in s.calls && s.calls[id].phase.VHostCounted? && s.calls[id].phase.todo == [] && s.calls[id].workflow != ""
    case Mark(id, _) =>
      id in s.calls && (s.calls[id].phase.VHostCounted? || s.calls[id].phase.WorkflowCounted?) &&
          s.calls[id].phase.todo != []
    case Finish(id) =>
      id in s.calls && (s.calls[id].phase.WorkflowCounted? ||
          (s.calls[id].phase.VHostCounted? && s.calls[id].workflow == "")) &&
      s.calls[id].phase.todo == []
    case NextMonth => true
  }

  function Ended(s: Sys, id: int): Sys { s.(calls := s.calls - {id}) }

  function Moved(s: Sys, id: int, phase: Phase): Sys
    requires id in s.calls
  {
    s.(calls := s.calls[id := s.calls[id].(phase := phase)])
  }

  /** The call's check of one scope for the month it looked up at the start. */
  function Passes(cfg: Config, s: Sys, p: nat, scope: string): bool {
    Over(UsageOf(s, (p, scope)), CapsOf(cfg, scope)) == Within
  }

  /** Adding to a counter; the alerts of a budget that could not be read are missed. */
  function Count(cfg: Config, s: Sys, key: Key, d: Delta, priced: bool): Sys {
    var u := Added(UsageOf(s, key), d);
    s.(usage := s.usage[key := u],
       missed := if priced then s.missed else s.missed + {(key, Tokens), (key, Cost)})
  }

  function Todo(cfg: Config, s: Sys, key: Key, d: Delta, priced: bool): seq<Kind> {
    if priced then ToWarn(Added(UsageOf(s, key), d), CapsOf(cfg, key.1)) else []
  }

  /** One alert of a call that has counted `key`: raised by whoever sets the mark. */
  function MarkKey(s: Sys, key: Key, k: Kind, ok: bool): Sys {
    if !ok then s.(missed := s.missed + {(key, k)})
    else if Warned(UsageOf(s, key), k) then s
    else s.(usage := s.usage[key := Marked(UsageOf(s, key), k)],
            alerts := s.alerts[(key, k) := AlertsOf(s, key, k) + 1])
  }

  function KeyOf(c: Call): Key
    requires c.phase.VHostCounted? || c.phase.WorkflowCounted?
  {
    (c.phase.period, if c.phase.VHostCounted? then "" else c.workflow)
  }

  function AfterAddVHost(cfg: Config, s: Sys, id: int, ok: bool): Sys
    requires id in s.calls && s.calls[id].phase.Recording?
  {
    var c := s.calls[id];
    var p, d, priced := c.phase.period, c.phase.delta, c.phase.priced;
    var t := if ok then Count(cfg, s, (p, ""), d, priced) else s;
    var todo := if ok then Todo(cfg, s, (p, ""), d, priced) else [];
    Sys(s.month, t.usage, s.calls[id := Call(c.workflow, VHostCounted(p, d, priced, todo))],
        t.missed, s.alerts, if ok then s.lostVHost else TallyAdd(s.lostVHost, p, d), s.lostWorkflow,
        if c.workflow == "" then TallyAdd(s.unattributed, p, d) else s.unattributed)
  }

  function AfterAddWorkflow(cfg: Config, s: Sys, id: int, ok: bool): Sys
    requires id in s.calls && s.calls[id].phase.VHostCounted?
  {
    var c := s.calls[id];
    var p, d, priced := c.phase.period, c.phase.delta, c.phase.priced;
    if !ok then Ended(s.(lostWorkflow := TallyAdd(s.lostWorkflow, p, d)), id)
    else Moved(Count(cfg, s, (p, c.workflow), d, priced), id,
               WorkflowCounted(p, Todo(cfg, s, (p, c.workflow), d, priced)))
  }

  function AfterMark(s: Sys, id: int, ok: bool): Sys
    requires id in s.calls && (s.calls[id].phase.VHostCounted? || s.calls[id].phase.WorkflowCounted?) &&
        s.calls[id].phase.todo != []
  {
    var c := s.calls[id];
    Moved(MarkKey(s, KeyOf(c), c.phase.todo[0], ok), id, c.phase.(todo := c.phase.todo[1..]))
  }

  datatype Fate = Ends | Continues(call: Call)

  predicate Counts(a: Action) { a.AddVHost? || a.AddWorkflow? || a.Mark? }

  /** What becomes of a call by a step that writes nothing to the store. */
  function FateOf(cfg: Config, s: Sys, a: Action): Fate
    requires Enabled(cfg, s, a) && !Counts(a) && !a.NextMonth?
  {
    match a
    case Start(id, wf) => Continues(Call(wf, Checking(s.month)))
    case CheckVHost(id) =>
      var c := s.calls[id];
      if Passes(cfg, s, c.phase.period, "") then Continues(c.(phase := VHostPassed(c.phase.period))) else Ends
    case CheckWorkflow(id) =>
      var c := s.calls[id];
      if c.workflow == "" || Passes(cfg, s, c.phase.period, c.workflow) then Continues(c.(phase := Running)) else Ends
    case Answer(id, d, priced) => Continues(s.calls[id].(phase := Recording(s.month, d, priced)))
    case _ => Ends
  }

  function Fated(s: Sys, id: int, f: Fate): Sys {
    s.(calls := if f.Continues? then s.calls[id := f.call] else s.calls - {id})
  }

  function Step(cfg: Config, s: Sys, a: Action): Sys
    requires Enabled(cfg, s, a)
  {
    match a
    case AddVHost(id, ok) => AfterAddVHost(cfg, s, id, ok)
    case AddWorkflow(id, ok) => AfterAddWorkflow(cfg, s, id, ok)
    case Mark(id, ok) => AfterMark(s, id, ok)
    case NextMonth => s.(month := s.month + 1)
    case _ => Fated(s, a.id, FateOf(cfg, s, a))
  }

  /** Nothing but one call changed among the calls. */
  ghost predicate MovesOnly(s: Sys, t: Sys, id: int) {
    t.month == s.month && forall x :: x != id ==>
        (x in t.calls <==> x in s.calls) && (x in s.calls ==> t.calls[x] == s.calls[x])
  }

  lemma StepMovesOne(cfg: Config, s: Sys, a: Action)
    requires Enabled(cfg, s, a) && !a.NextMonth?
    ensures MovesOnly(s, Step(cfg, s, a), a.id)
  {
    hide AfterAddVHost, AfterAddWorkflow, AfterMark, FateOf, Fated, MovesOnly, Fits;
    if a.AddVHost? {
      AddVHostMoves(cfg, s, a.id, a.ok);
    } else if a.AddWorkflow? {
      AddWorkflowMoves(cfg, s, a.id, a.ok);
    } else if a.Mark? {
      MarkMoves(s, a.id, a.ok);
    } else {
      FatedMoves(s, a.id, FateOf(cfg, s, a));
    }
  }

  lemma FatedMoves(s: Sys, id: int, f: Fate)
    ensures MovesOnly(s, Fated(s, id, f), id) && StoreSame(s, Fated(s, id, f))
    ensures id in Fated(s, id, f).calls <==> f.Continues?
    ensures f.Continues? ==> Fated(s, id, f).calls[id] == f.call
  {
  }

  lemma AddVHostMoves(cfg: Config, s: Sys, id: int, ok: bool)
    requires id in s.calls && s.calls[id].phase.Recording?
    ensures MovesOnly(s, AfterAddVHost(cfg, s, id, ok), id)
  {
    hide Todo, TallyAdd, UsageOf, Added;
  }

  lemma AddWorkflowMoves(cfg: Config, s: Sys, id: int, ok: bool)
    requires id in s.calls && s.calls[id].phase.VHostCounted?
    ensures MovesOnly(s, AfterAddWorkflow(cfg, s, id, ok), id)
  {
    hide Todo, TallyAdd, UsageOf, Added;
  }

  lemma MarkMoves(s: Sys, id: int, ok: bool)
    requires id in s.calls && (s.calls[id].phase.VHostCounted? || s.calls[id].phase.WorkflowCounted?) &&
        s.calls[id].phase.todo != []
    ensures MovesOnly(s, AfterMark(s, id, ok), id)
  {
    hide UsageOf, AlertsOf, Marked;
  }

  /** What the two adds do to a counter, and where they leave the call. */
  lemma AddVHostEffect(cfg: Config, s: Sys, id: int, ok: bool, key: Key, k: Kind)
    requires id in s.calls && s.calls[id].phase.Recording?
    ensures var t, c := AfterAddVHost(cfg, s, id, ok), s.calls[id];
            Used(UsageOf(t, key), k) ==
              Used(UsageOf(s, key), k) + (if ok && key == (c.phase.period, "") then Amount(c.phase.delta, k) else 0) &&
            id in t.calls && t.calls[id].workflow == c.workflow && t.calls[id].phase.VHostCounted? &&
            t.calls[id].phase.period == c.phase.period && t.calls[id].phase.delta == c.phase.delta
  {
    hide Todo, TallyAdd;
  }

  lemma AddWorkflowEffect(cfg: Config, s: Sys, id: int, ok: bool, key: Key, k: Kind)
    requires id in s.calls && s.calls[id].phase.VHostCounted?
    ensures var t, c := AfterAddWorkflow(cfg, s, id, ok), s.calls[id];
            Used(UsageOf(t, key), k) ==
              Used(UsageOf(s, key), k) + (if ok && key == (c.phase.period, c.workflow) then Amount(c.phase.delta, k)
                  else 0) &&
            (id in t.calls <==> ok) && (ok ==> t.calls[id].phase.WorkflowCounted?)
  {
    hide Todo, TallyAdd;
  }

  lemma MarkEffect(s: Sys, id: int, ok: bool, key: Key, k: Kind)
    requires id in s.calls && (s.calls[id].phase.VHostCounted? || s.calls[id].phase.WorkflowCounted?) &&
        s.calls[id].phase.todo != []
    ensures var t, c := AfterMark(s, id, ok), s.calls[id];
            Used(UsageOf(t, key), k) == Used(UsageOf(s, key), k) && id in t.calls &&
            t.calls[id] == c.(phase := c.phase.(todo := c.phase.todo[1..]))
  {
  }

  /** The store and the tallies are as they were. */
  ghost predicate StoreSame(s: Sys, t: Sys) {
    t.usage == s.usage && t.missed == s.missed && t.alerts == s.alerts &&
    t.lostVHost == s.lostVHost && t.lostWorkflow == s.lostWorkflow && t.unattributed == s.unattributed
  }

  /** The call has nothing left to count for a workflow and no alert to record. */
  predicate OwesNothing(c: Call) {
    match c.phase
    case VHostCounted(_, _, _, todo) => c.workflow == "" && todo == []
    case WorkflowCounted(_, todo) => todo == []
    case _ => true
  }

  /** A step that is not one of the store's writes moves one call that owes nothing. */
  lemma StepQuiet(cfg: Config, s: Sys, a: Action)
    requires Enabled(cfg, s, a) && !Counts(a) && !a.NextMonth?
    ensures StoreSame(s, Step(cfg, s, a))
    ensures a.id in s.calls ==> OwesNothing(s.calls[a.id])
    ensures a.id in Step(cfg, s, a).calls ==> OwesNothing(Step(cfg, s, a).calls[a.id])
  {
    FatedMoves(s, a.id, FateOf(cfg, s, a));
    FateOwesNothing(cfg, s, a);
    StepIsFate(cfg, s, a);
    hide Step, Enabled, FateOf, Fated, StoreSame, OwesNothing;
  }

  lemma StepIsFate(cfg: Config, s: Sys, a: Action)
    requires Enabled(cfg, s, a) && !Counts(a) && !a.NextMonth?
    ensures Step(cfg, s, a) == Fated(s, a.id, FateOf(cfg, s, a))
  {
    hide AfterAddVHost, AfterAddWorkflow, AfterMark, FateOf, Fated, Fits;
  }

  lemma FateOwesNothing(cfg: Config, s: Sys, a: Action)
    requires Enabled(cfg, s, a) && !Counts(a) && !a.NextMonth?
    ensures a.id in s.calls ==> OwesNothing(s.calls[a.id])
    ensures FateOf(cfg, s, a).Continues? ==> OwesNothing(FateOf(cfg, s, a).call)
  {
    hide Passes, Fits;
  }

  /** A run: each state follows from the one before by some action. */
  ghost predicate IsRun(cfg: Config, run: seq<Sys>, acts: seq<Action>) {
    |run| == |acts| + 1 && run[0] == START &&
    forall i :: 0 <= i < |acts| ==> Enabled(cfg, run[i], acts[i]) && run[i + 1] == Step(cfg, run[i], acts[i])
  }

  // ----------------------------------------------------------- what a check lets through

  /** What the month has recorded for the scope is below each limit that is set. */
  predicate Below(s: Sys, p: nat, scope: string, c: Caps) {
    (c.tokens > 0 ==> TokensIn(s, p, scope) < c.tokens) && (c.cost > 0 ==> CostIn(s, p, scope) < c.cost)
  }

  /** A call goes on exactly when the vhost is below its limits, and then when its workflow, if
      it has limits, is below those; a check changes nothing that is recorded. */
  lemma ChecksAgainst(cfg: Config, s: Sys, id: int)
    requires id in s.calls
    ensures var c := s.calls[id]; c.phase.Checking? ==>
      var t := Step(cfg, s, CheckVHost(id));
      && t.usage == s.usage
      && (id in t.calls <==> Below(s, c.phase.period, "", cfg.vhost))
      && (id in t.calls ==> t.calls[id] == Call(c.workflow, VHostPassed(c.phase.period)))
    ensures var c := s.calls[id]; c.phase.VHostPassed? ==>
      var t := Step(cfg, s, CheckWorkflow(id));
      && t.usage == s.usage
      && (id in t.calls <==> forall caps :: c.workflow != "" && LimitsAre(cfg, c.workflow, caps) ==>
           Below(s, c.phase.period, c.workflow, caps))
      && (id in t.calls ==> t.calls[id] == Call(c.workflow, Running))
  {
    var c := s.calls[id];
    if c.phase.Checking? || c.phase.VHostPassed? {
      PassesIff(cfg, s, c.phase.period, "", cfg.vhost);
      if c.workflow != "" && c.workflow in cfg.workflows {
        PassesIff(cfg, s, c.phase.period, c.workflow, cfg.workflows[c.workflow]);
      }
      hide Passes, Below;
    }
  }

  lemma PassesIff(cfg: Config, s: Sys, p: nat, scope: string, c: Caps)
    requires LimitsAre(cfg, scope, c)
    ensures Passes(cfg, s, p, scope) <==> Below(s, p, scope, c)
  {
    var v := Over(UsageOf(s, (p, scope)), c);
    if v == Within { assert Used(UsageOf(s, (p, scope)), Tokens) == TokensIn(s, p, scope); }
  }
}
