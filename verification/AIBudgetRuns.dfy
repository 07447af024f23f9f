/** Runs that show two promises of the AI budget at their edge. */
module AIBudgetRuns {
  import opened AIBudget
  import opened AIBudgetLimits
  import opened AIBudgetLedger

  ghost predicate Goes(cfg: Config, s: Sys, a: Action, t: Sys) {
    Enabled(cfg, s, a) && Step(cfg, s, a) == t
  }

  function With(s: Sys, calls: map<int, Call>): Sys { s.(calls := calls) }

  // ------------------------------------------------------- the bound is reached

  const TWO := Config(Caps(1, 0), map[], 2, Delta(10, 0))
  const TEN := Delta(10, 0)

  const CHECKING := Call("", Checking(0))
  const PASSED := Call("", VHostPassed(0))
  const RUNNING := Call("", Running)
  const RECORDING := Call("", Recording(0, TEN, true))

  lemma BothPass()
    ensures Goes(TWO, START, Start(1, ""), With(START, map[1 := CHECKING]))
    ensures Goes(TWO, With(START, map[1 := CHECKING]), Start(2, ""), With(START, map[1 := CHECKING, 2 := CHECKING]))
    ensures Goes(TWO, With(START, map[1 := CHECKING, 2 := CHECKING]), CheckVHost(1),
        With(START, map[1 := PASSED, 2 := CHECKING]))
    ensures Goes(TWO, With(START, map[1 := PASSED, 2 := CHECKING]), CheckVHost(2),
        With(START, map[1 := PASSED, 2 := PASSED]))
    ensures Goes(TWO, With(START, map[1 := PASSED, 2 := PASSED]), CheckWorkflow(1),
        With(START, map[1 := RUNNING, 2 := PASSED]))
    ensures Goes(TWO, With(START, map[1 := RUNNING, 2 := PASSED]), CheckWorkflow(2),
        With(START, map[1 := RUNNING, 2 := RUNNING]))
  {
    assert Passes(TWO, With(START, map[1 := CHECKING, 2 := CHECKING]), 0, "");
    assert Passes(TWO, With(START, map[1 := PASSED, 2 := CHECKING]), 0, "");
    hide Passes;
  }

  lemma BothAnswer()
    ensures Goes(TWO, With(START, map[1 := RUNNING, 2 := RUNNING]), Answer(1, TEN, true),
        With(START, map[1 := RECORDING, 2 := RUNNING]))
    ensures Goes(TWO, With(START, map[1 := RECORDING, 2 := RUNNING]), Answer(2, TEN, true),
        With(START, map[1 := RECORDING, 2 := RECORDING]))
  {
    hide AfterAddVHost, AfterAddWorkflow, AfterMark, Passes;
  }

  /** Two calls about to count against the same month, one after the other. */
  lemma BothCount(cfg: Config, s: Sys, id1: int, id2: int) returns (t: Sys, u: Sys)
    requires id1 != id2 && id1 in s.calls && id2 in s.calls
    requires s.calls[id1].phase.Recording? && s.calls[id2].phase.Recording?
    requires s.calls[id1].phase.period == s.calls[id2].phase.period
    ensures Goes(cfg, s, AddVHost(id1, true), t) && Goes(cfg, t, AddVHost(id2, true), u)
    ensures var key := (s.calls[id1].phase.period, "");
            Used(UsageOf(u, key), Tokens) ==
            Used(UsageOf(s, key), Tokens) + s.calls[id1].phase.delta.tokens + s.calls[id2].phase.delta.tokens
  {
    hide AfterAddVHost, UsageOf;
    t := AfterAddVHost(cfg, s, id1, true);
    AddVHostMoves(cfg, s, id1, true);
    AddVHostEffect(cfg, s, id1, true, (s.calls[id1].phase.period, ""), Tokens);
    assert id2 in t.calls && t.calls[id2] == s.calls[id2];
    u := AfterAddVHost(cfg, t, id2, true);
    AddVHostEffect(cfg, t, id2, true, (s.calls[id1].phase.period, ""), Tokens);
  }

  /** With two calls in flight a limit of 1 is passed by 19 tokens: both were let through
      before either was counted, and the bound leaves no slack. */
  lemma BoundIsReached() returns (run: seq<Sys>, acts: seq<Action>)
    ensures IsRun(TWO, run, acts) && |run| == 11
    ensures TokensIn(run[10], 0, "") == TWO.vhost.tokens - 1 + TWO.calls * TWO.most.tokens
  {
    BothPass();
    BothAnswer();
    hide Goes;
    var s8 := With(START, map[1 := RECORDING, 2 := RECORDING]);
    var s9, s10 := BothCount(TWO, s8, 1, 2);
    assert Used(UsageOf(s8, (0, "")), Tokens) == 0;
    hide UsageOf;
    run := [START, With(START, map[1 := CHECKING]), With(START, map[1 := CHECKING, 2 := CHECKING]),
            With(START, map[1 := PASSED, 2 := CHECKING]), With(START, map[1 := PASSED, 2 := PASSED]),
            With(START, map[1 := RUNNING, 2 := PASSED]), With(START, map[1 := RUNNING, 2 := RUNNING]),
            With(START, map[1 := RECORDING, 2 := RUNNING]), s8, s9, s10];
    acts := [Start(1, ""), Start(2, ""), CheckVHost(1), CheckVHost(2), CheckWorkflow(1), CheckWorkflow(2),
             Answer(1, TEN, true), Answer(2, TEN, true), AddVHost(1, true), AddVHost(2, true)];
    hide With;
    forall i | 0 <= i < |acts| ensures Goes(TWO, run[i], acts[i], run[i + 1]) {
    }
    GoesIsRun(TWO, run, acts);
  }

  lemma GoesIsRun(cfg: Config, run: seq<Sys>, acts: seq<Action>)
    requires |run| == |acts| + 1 && run[0] == START
    requires forall i :: 0 <= i < |acts| ==> Goes(cfg, run[i], acts[i], run[i + 1])
    ensures IsRun(cfg, run, acts)
  {
    hide Enabled, Step;
    forall i | 0 <= i < |acts| ensures Enabled(cfg, run[i], acts[i]) && run[i + 1] == Step(cfg, run[i], acts[i]) {
      assert Goes(cfg, run[i], acts[i], run[i + 1]);
    }
  }

  // -------------------------------------------------- a failed add of the vhost

  const FREE := Config(UNLIMITED, map[], 1, Delta(10, 0))

  lemma OneRuns()
    ensures Goes(FREE, START, Start(1, "w"), With(START, map[1 := Call("w", Checking(0))]))
    ensures Goes(FREE, With(START, map[1 := Call("w", Checking(0))]), CheckVHost(1),
        With(START, map[1 := Call("w", VHostPassed(0))]))
    ensures Goes(FREE, With(START, map[1 := Call("w", VHostPassed(0))]), CheckWorkflow(1),
        With(START, map[1 := Call("w", Running)]))
    ensures Goes(FREE, With(START, map[1 := Call("w", Running)]), Answer(1, TEN, true),
        With(START, map[1 := Call("w", Recording(0, TEN, true))]))
  {
    assert Passes(FREE, With(START, map[1 := Call("w", Checking(0))]), 0, "");
    assert Passes(FREE, With(START, map[1 := Call("w", VHostPassed(0))]), 0, "w");
    hide AfterAddVHost, AfterAddWorkflow, AfterMark, Passes;
  }

  lemma FailThenCount(cfg: Config, s: Sys, id: int) returns (t: Sys, u: Sys)
    requires id in s.calls && s.calls[id].phase.Recording? && s.calls[id].workflow != ""
    ensures Goes(cfg, s, AddVHost(id, false), t) && Goes(cfg, t, AddWorkflow(id, true), u)
    ensures var p := s.calls[id].phase.period;
            LostVHost(u, p, Tokens) == LostVHost(s, p, Tokens) + s.calls[id].phase.delta.tokens &&
            LostWorkflow(u, p, Tokens) == LostWorkflow(s, p, Tokens)
    ensures MovesOnly(s, u, id) && id in u.calls && u.calls[id].phase.WorkflowCounted?
  {
    var p := s.calls[id].phase.period;
    t := AfterAddVHost(cfg, s, id, false);
    assert t.calls[id].phase.todo == [];
    AddVHostMoves(cfg, s, id, false);
    AddVHostEffect(cfg, s, id, false, (p, ""), Tokens);
    AddVHostTallies(cfg, s, id, false, p, Tokens);
    hide AfterAddVHost, LostVHost, LostWorkflow, Unattributed;
    u := AfterAddWorkflow(cfg, t, id, true);
    AddWorkflowMoves(cfg, t, id, true);
    AddWorkflowEffect(cfg, t, id, true, (p, ""), Tokens);
    AddWorkflowTallies(cfg, t, id, true, p, Tokens);
    hide AfterAddWorkflow;
  }

  /** recordLocal goes on to the workflow's counter when the vhost's could not be reached, so
      the vhost can be left below the sum of its workflows. */
  lemma FailedAddFallsBelow() returns (run: seq<Sys>, acts: seq<Action>)
    ensures IsRun(FREE, run, acts) && |run| == 7
    ensures VHost(run[6], 0, Tokens) < Workflows(run[6], 0, Tokens) + Unattributed(run[6], 0, Tokens)
  {
    OneRuns();
    hide Goes;
    var s4 := With(START, map[1 := Call("w", Recording(0, TEN, true))]);
    var s5, s6 := FailThenCount(FREE, s4, 1);
    assert LostVHost(s4, 0, Tokens) == LostWorkflow(s4, 0, Tokens) == 0;
    assert forall id :: id in s6.calls ==> id == 1;
    assert HalfDoneCalls(s6, 0, Tokens) == map[];
    hide LostVHost, LostWorkflow, Unattributed, VHost, Workflows;
    run := [START, With(START, map[1 := Call("w", Checking(0))]), With(START, map[1 := Call("w", VHostPassed(0))]),
            With(START, map[1 := Call("w", Running)]), s4, s5, s6];
    acts := [Start(1, "w"), CheckVHost(1), CheckWorkflow(1), Answer(1, TEN, true), AddVHost(1, false),
        AddWorkflow(1, true)];
    hide With;
    forall i | 0 <= i < |acts| ensures Goes(FREE, run[i], acts[i], run[i + 1]) {
    }
    GoesIsRun(FREE, run, acts);
    BelowIff(FREE, run, acts, 6, 0, Tokens);
  }
}
