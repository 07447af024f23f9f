/** Exactly when a rollback may start without leaving its release half live
    (receive.go, Rollback beside deployGroup and unwindRelease). */
module RollbackTiming {
  import opened Promotions
  import opened Decisions
  import opened ReleaseProtocol
  import opened ReleaseWhole

  /** If nobody is at work on ps[i]'s release, it is deployed whole or not at all. */
  ghost predicate SettledIfIdle(s: Sys, i: nat) {
    i < |s.ps| && !Busy(s, i) ==> Settled(s.ps, i)
  }

  /** However the others go on, without a failing undo and with every later rollback in its
      time, the rollback leaves its release settled. */
  ghost predicate RollbackSafe(s: Sys, t: nat, i: nat)
    requires Enabled(s, StartRollback(t, i))
  {
    forall actions :: QuietRun(Step(s, StartRollback(t, i)), actions) ==>
      SettledIfIdle(End(Step(s, StartRollback(t, i)), actions), i)
  }

  lemma {:induction false} QuietTwice(s: Sys, a: seq<Action>, b: seq<Action>)
    requires QuietRun(s, a) && QuietRun(End(s, a), b)
    ensures QuietRun(s, a + b) && End(s, a + b) == End(End(s, a), b)
    decreases |a|
  {
    hide Enabled, Step, Quiet;
    if a == [] {
      assert a + b == b;
    } else {
      assert (a + b)[0] == a[0] && (a + b)[1..] == a[1..] + b;
      QuietTwice(Step(s, a[0]), a[1..], b);
    }
  }

  lemma OneQuiet(s: Sys, a: Action)
    requires Enabled(s, a) && Quiet(s, a)
    ensures QuietRun(s, [a]) && End(s, [a]) == Step(s, a)
  {
    hide Enabled, Step, Quiet;
    assert [a][1..] == [];
    assert QuietRun(Step(s, a), []);
    assert End(Step(s, a), []) == Step(s, a);
  }

  // ------------------------------------------------------------- letting a thread finish

  /** Every member of todo is rolled back, the last first. */
  function AllBack(ps: seq<Promotion>, todo: seq<nat>): (r: seq<Promotion>)
    requires InRange(todo, |ps|)
    ensures |r| == |ps| && forall j :: 0 <= j < |ps| ==> r[j] == if j in todo then ps[j].(status := RolledBack)
        else ps[j]
    decreases |todo|
  {
    if todo == [] then ps else
      var rest, x := todo[..|todo| - 1], todo[|todo| - 1];
      assert todo == rest + [x];
      AllBack(SetStatus(ps, x, RolledBack), rest)
  }

  lemma {:induction false} RollAll(s: Sys, t: nat, todo: seq<nat>) returns (actions: seq<Action>)
    requires t in s.threads && s.threads[t] == Roller(todo) && InRange(todo, |s.ps|)
    ensures QuietRun(s, actions)
    ensures End(s, actions) == Sys(AllBack(s.ps, todo), s.threads - {t}, s.claims, s.clock)
    decreases |todo|
  {
    OneQuiet(s, RollOk(t));
    hide QuietRun, End;
    if todo == [] {
      actions := [RollOk(t)];
    } else {
      var rest, x := todo[..|todo| - 1], todo[|todo| - 1];
      var next := Step(s, RollOk(t));
      var more := RollAll(next, t, rest);
      QuietTwice(s, [RollOk(t)], more);
      assert next.threads - {t} == s.threads - {t};
      actions := [RollOk(t)] + more;
    }
  }

  /** Every member of g from place k on is deployed. */
  function AllLiveFrom(ps: seq<Promotion>, g: seq<nat>, k: nat): (r: seq<Promotion>)
    requires InRange(g, |ps|) && k <= |g|
    ensures |r| == |ps|
    ensures forall j :: 0 <= j < |ps| && j !in g ==> r[j] == ps[j]
    ensures forall j :: 0 <= j < |ps| ==> r[j].offer == ps[j].offer
    ensures forall a :: k <= a < |g| ==> r[g[a]].status == Deployed
    ensures forall j :: 0 <= j < |ps| && r[j] != ps[j] ==> exists a :: k <= a < |g| && g[a] == j
    decreases |g| - k
  {
    if k == |g| then ps else AllLiveFrom(SetStatus(ps, g[k], Deployed), g, k + 1)
  }

  lemma {:induction false} DeployAll(s: Sys, t: nat, g: seq<nat>, k: nat) returns (actions: seq<Action>)
    requires t in s.threads && s.threads[t] == Deployer(g, k) && k < |g| && InRange(g, |s.ps|)
    ensures QuietRun(s, actions)
    ensures End(s, actions) == Sys(AllLiveFrom(s.ps, g, k), s.threads - {t}, s.claims, s.clock)
    decreases |g| - k
  {
    OneQuiet(s, DeployOk(t));
    hide QuietRun, End;
    if k + 1 == |g| {
      actions := [DeployOk(t)];
      assert AllLiveFrom(SetStatus(s.ps, g[k], Deployed), g, k + 1) == SetStatus(s.ps, g[k], Deployed);
    } else {
      var next := Step(s, DeployOk(t));
      var more := DeployAll(next, t, g, k + 1);
      QuietTwice(s, [DeployOk(t)], more);
      assert next.threads - {t} == s.threads - {t};
      actions := [DeployOk(t)] + more;
    }
  }

  // ---------------------------------------------------------------------- too early

  lemma FailerNotDeployed(ps: seq<Promotion>, g: seq<nat>, m: nat, i: nat)
    requires ThreadOk(ps, Failer(g, m)) && ThreadWhole(ps, Failer(g, m))
    requires i < |ps| && Touches(ps, Failer(g, m), i)
    ensures ps[i].status != Deployed
  {
    hide Full, Increasing, SameGroup;
    var a := FullAt(ps, g, i);
    assert a < m || ps[g[a]].status == Deploying;
  }

  /** A release with something deployed that has not ceased to be is at work on by a
      deploy, and by nobody else. */
  lemma OnlyDeployers(s: Sys, u: nat, i: nat)
    requires WholeInv(s) && i < |s.ps| && s.ps[i].status == Deployed && !Ceased(s.ps, i)
    requires u in s.threads && Touches(s.ps, s.threads[u], i)
    ensures s.threads[u].Deployer?
  {
    WholeThread(s, u);
    var t := s.threads[u];
    hide WholeInv, Ceased, Full, Touches, ThreadOk, SameGroup, RollerWhole;
    match t
    case Roller(todo) => RollerCeased(s.ps, todo, i);
    case Undoer(g, j, k) => UndoerCeased(s.ps, g, j, k, i);
    case Failer(g, m) => FailerNotDeployed(s.ps, g, m, i);
    case Deployer(_, _) =>
    case _ => NoWork(s.ps, t, i);
  }

  lemma NoWork(ps: seq<Promotion>, t: Thread, i: nat)
    requires i < |ps| && Work(t) == []
    ensures !Touches(ps, t, i)
  {
  }

  lemma SomeDeployer(s: Sys, i: nat) returns (u: nat)
    requires WholeInv(s) && i < |s.ps| && s.ps[i].status == Deployed && !Ceased(s.ps, i)
    ensures u in s.threads && s.threads[u].Deployer? && Touches(s.ps, s.threads[u], i)
  {
    assert !Settled(s.ps, i) by {
      var j :| 0 <= j < |s.ps| && SameGroup(s.ps, i, j) && s.ps[j].status == Deploying;
      assert SameGroup(s.ps, i, i);
    }
    assert Busy(s, i);
    u :| u in s.threads && Touches(s.ps, s.threads[u], i);
    OnlyDeployers(s, u, i);
  }

  /** Two deploys are never at work on one release. */
  lemma OneDeployer(s: Sys, u: nat, w: nat, i: nat)
    requires WholeInv(s) && i < |s.ps| && u in s.threads && w in s.threads
    requires s.threads[u].Deployer? && s.threads[w].Deployer?
    requires Touches(s.ps, s.threads[u], i) && Touches(s.ps, s.threads[w], i)
    ensures u == w
  {
    WholeThread(s, u);
    WholeThread(s, w);
    var Deployer(g, k) := s.threads[u];
    var y := g[k];
    DeployerFacts(s.ps, g, k);
    PlaceFacts(s, u, k);
    TouchesTogether(s.ps, s.threads[u], s.threads[w], i, y);
    DeployingOwned(s.ps, s.threads[w], y);
    assert Owns(s.threads[u], y) && Owns(s.threads[w], y);
    hide ThreadOk, ThreadWhole, Full, Touches, Owns;
  }

  lemma TouchesTogether(ps: seq<Promotion>, t: Thread, u: Thread, i: nat, y: nat)
    requires i < |ps| && y < |ps| && Touches(ps, t, i) && Touches(ps, u, i) && Touches(ps, t, y)
    ensures Touches(ps, u, y)
  {
  }

  /** The rollback runs to its end, and then the deploy does. */
  lemma SplitRun(s: Sys, t: nat, u: nat, g: seq<nat>, k: nat, todo: seq<nat>) returns (actions: seq<Action>)
    requires t in s.threads && s.threads[t] == Roller(todo) && InRange(todo, |s.ps|)
    requires u in s.threads && u != t && s.threads[u] == Deployer(g, k) && k < |g| && InRange(g, |s.ps|)
    ensures QuietRun(s, actions)
    ensures End(s, actions) == Sys(AllLiveFrom(AllBack(s.ps, todo), g, k), s.threads - {t} - {u}, s.claims, s.clock)
  {
    hide QuietRun, End;
    var first := RollAll(s, t, todo);
    var next := End(s, first);
    var second := DeployAll(next, u, g, k);
    QuietTwice(s, first, second);
    actions := first + second;
  }

  lemma OffersKeepGroups(ps: seq<Promotion>, qs: seq<Promotion>)
    requires |qs| == |ps| && forall j :: 0 <= j < |ps| ==> qs[j].offer == ps[j].offer
    ensures forall a, b :: 0 <= a < |ps| && 0 <= b < |ps| ==> (SameGroup(qs, a, b) <==> SameGroup(ps, a, b))
  {
  }

  /** A deployed member of the deployer's release is not among those still to come. */
  lemma LiveIsBehind(ps: seq<Promotion>, g: seq<nat>, k: nat, i: nat)
    requires ThreadOk(ps, Deployer(g, k)) && ThreadWhole(ps, Deployer(g, k))
    requires i < |ps| && ps[i].status == Deployed && Touches(ps, Deployer(g, k), i)
    ensures k < |g| && InRange(g, |ps|) && SameGroup(ps, i, g[|g| - 1]) && forall a :: k <= a < |g| ==> g[a] != i
  {
    FullFirst(ps, g, |g| - 1);
    hide Full, Increasing, AllShipped;
  }

  lemma HalfIsNotSettled(ps: seq<Promotion>, i: nat, j: nat)
    requires i < |ps| && j < |ps| && SameGroup(ps, i, j)
    requires ps[i].status != Deployed && ps[j].status == Deployed
    ensures !Settled(ps, i)
  {
    assert SameGroup(ps, i, i);
  }

  lemma SplitStatuses(ps: seq<Promotion>, g: seq<nat>, k: nat, todo: seq<nat>, i: nat)
    requires ThreadOk(ps, Deployer(g, k)) && ThreadWhole(ps, Deployer(g, k)) && InRange(todo, |ps|)
    requires i < |ps| && ps[i].status == Deployed && i in todo && Touches(ps, Deployer(g, k), i)
    ensures k < |g| && InRange(g, |ps|)
    ensures var end := AllLiveFrom(AllBack(ps, todo), g, k);
      !Settled(end, i) &&
      forall a, b :: 0 <= a < |ps| && 0 <= b < |ps| ==> (SameGroup(end, a, b) <==> SameGroup(ps, a, b))
  {
    LiveIsBehind(ps, g, k, i);
    hide ThreadOk, ThreadWhole, Touches, SameGroup, Settled;
    EndStatuses(ps, g, k, todo, i);
    hide AllLiveFrom, AllBack, InRange;
    var end := AllLiveFrom(AllBack(ps, todo), g, k);
    OffersKeepGroups(ps, end);
    HalfIsNotSettled(end, i, g[|g| - 1]);
  }

  /** What the two leave of a member of both, and of the last one deployed. */
  lemma EndStatuses(ps: seq<Promotion>, g: seq<nat>, k: nat, todo: seq<nat>, i: nat)
    requires k < |g| && InRange(g, |ps|) && InRange(todo, |ps|) && i < |ps| && i in todo
    requires forall a :: k <= a < |g| ==> g[a] != i
    ensures var end := AllLiveFrom(AllBack(ps, todo), g, k);
      end[i].status == RolledBack && end[g[|g| - 1]].status == Deployed &&
      forall j :: 0 <= j < |ps| ==> end[j].offer == ps[j].offer
  {
    hide AllLiveFrom, AllBack;
    assert AllLiveFrom(AllBack(ps, todo), g, k)[i] == AllBack(ps, todo)[i];
  }

  /** Nobody but the two that ran to their end was at work on the release. */
  lemma NobodyLeft(s: Sys, u: nat, i: nat, end: Sys)
    requires WholeInv(s) && i < |s.ps| && s.ps[i].status == Deployed && !Ceased(s.ps, i)
    requires u in s.threads && s.threads[u].Deployer? && Touches(s.ps, s.threads[u], i)
    requires |end.ps| == |s.ps| && end.threads == s.threads - {u}
    requires forall a, b :: 0 <= a < |s.ps| && 0 <= b < |s.ps| ==> (SameGroup(end.ps, a, b) <==> SameGroup(s.ps, a, b))
    ensures !Busy(end, i)
  {
    hide WholeInv, Ceased, Touches, SameGroup;
    forall w | w in end.threads ensures !Touches(end.ps, end.threads[w], i) {
      if Touches(end.ps, end.threads[w], i) {
        StillTouched(s.ps, end.ps, s.threads[w], i);
        OnlyDeployers(s, w, i);
        OneDeployer(s, u, w, i);
      }
    }
  }

  lemma RollbackBegins(s: Sys, t: nat, i: nat)
    requires Enabled(s, StartRollback(t, i))
    ensures i < |s.ps| && s.ps[i].status == Deployed && t !in s.threads
    ensures var todo := DeployedOf(s.ps, Group(s.ps, i), |Group(s.ps, i)|);
      Step(s, StartRollback(t, i)) == s.(threads := s.threads[t := Roller(todo)]) && i in todo && InRange(todo, |s.ps|)
  {
    InTodo(s.ps, i);
  }

  /** The rollback runs to its end before the deploy does, and leaves the release half live
      with nobody at work on it. */
  lemma SplitEnd(s: Sys, t: nat, i: nat, todo: seq<nat>) returns (actions: seq<Action>)
    requires WholeInv(s) && i < |s.ps| && s.ps[i].status == Deployed && !Ceased(s.ps, i)
    requires t !in s.threads && i in todo && InRange(todo, |s.ps|)
    ensures var next := s.(threads := s.threads[t := Roller(todo)]);
      QuietRun(next, actions) && !SettledIfIdle(End(next, actions), i)
  {
    hide ThreadOk, ThreadWhole, WholeInv, Ceased, QuietRun, End, Touches, Busy, Settled, SameGroup, InRange;
    var u := SomeDeployer(s, i);
    var Deployer(g, k) := s.threads[u];
    WholeThread(s, u);
    var next := s.(threads := s.threads[t := Roller(todo)]);
    SplitStatuses(s.ps, g, k, todo, i);
    actions := SplitRun(next, t, u, g, k, todo);
    assert next.threads - {t} - {u} == s.threads - {u};
    NobodyLeft(s, u, i, End(next, actions));
  }

  /** Started while its release is being deployed, a rollback can leave it half live. */
  lemma TooEarly(s: Sys, t: nat, i: nat)
    requires WholeInv(s) && Enabled(s, StartRollback(t, i)) && !Ceased(s.ps, i)
    ensures !RollbackSafe(s, t, i)
  {
    RollbackBegins(s, t, i);
    hide Step, WholeInv, Enabled, Ceased, QuietRun, End, SettledIfIdle;
    var actions := SplitEnd(s, t, i, DeployedOf(s.ps, Group(s.ps, i), |Group(s.ps, i)|));
  }

  lemma StillTouched(ps: seq<Promotion>, qs: seq<Promotion>, t: Thread, i: nat)
    requires |qs| == |ps| && i < |ps| && Touches(qs, t, i)
    requires forall a, b :: 0 <= a < |ps| && 0 <= b < |ps| ==> (SameGroup(qs, a, b) <==> SameGroup(ps, a, b))
    ensures Touches(ps, t, i)
  {
  }

  lemma InTodo(ps: seq<Promotion>, i: nat)
    requires i < |ps| && ps[i].status == Deployed
    ensures var todo := DeployedOf(ps, Group(ps, i), |Group(ps, i)|);
      i in todo && InRange(todo, |ps|)
  {
    var g := Group(ps, i);
    assert i in g;
    var k :| 0 <= k < |g| && g[k] == i;
  }

  /** A rollback leaves its release whole, whatever the others go on to do, exactly when it
      starts with no member being deployed, or with one failed already. */
  lemma RollbackSafeIff(s: Sys, t: nat, i: nat)
    requires WholeInv(s) && Enabled(s, StartRollback(t, i))
    ensures RollbackSafe(s, t, i) <==> Ceased(s.ps, i)
  {
    if Ceased(s.ps, i) {
      assert Quiet(s, StartRollback(t, i)) by { assert i < |s.ps|; }
      StepWhole(s, StartRollback(t, i));
      hide WholeInv, Enabled, Step, Quiet, Ceased;
      var next := Step(s, StartRollback(t, i));
      forall actions | QuietRun(next, actions) ensures SettledIfIdle(End(next, actions), i) {
        ReleasesSettleWhole(next, actions);
      }
    } else {
      TooEarly(s, t, i);
    }
  }

  /** And that is, exactly, when no deploy is at work on the release. */
  lemma CeasedIffNoDeployer(s: Sys, t: nat, i: nat)
    requires WholeInv(s) && Enabled(s, StartRollback(t, i))
    ensures Ceased(s.ps, i) <==> forall u :: u in s.threads && s.threads[u].Deployer? ==>
        !Touches(s.ps, s.threads[u], i)
  {
    if !Ceased(s.ps, i) {
      var u := SomeDeployer(s, i);
    } else {
      forall u | u in s.threads && s.threads[u].Deployer? ensures !Touches(s.ps, s.threads[u], i) {
        WholeThread(s, u);
        if Touches(s.ps, s.threads[u], i) { DeployerNotCeased(s.ps, s.threads[u].g, s.threads[u].k, i); }
      }
    }
  }
}
