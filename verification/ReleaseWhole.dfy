/** A release goes live whole or not at all, under every interleaving in which a rollback
    waits for the deploy of its release to end and the undo calls succeed (receive.go,
    deployGroup, unwindRelease and Rollback). */
module ReleaseWhole {
  import opened Promotions
  import opened Decisions
  import opened ReleaseProtocol

  /** Of ps[i]'s release, everything is deployed or nothing is. */
  ghost predicate Settled(ps: seq<Promotion>, i: nat)
    requires i < |ps|
  {
    || (forall j :: 0 <= j < |ps| && SameGroup(ps, i, j) ==> ps[j].status == Deployed)
    || (forall j :: 0 <= j < |ps| && SameGroup(ps, i, j) ==> ps[j].status != Deployed)
  }

  /** The promotions t is working on. */
  function Work(t: Thread): seq<nat> {
    match t
    case Deployer(g, _) => g
    case Undoer(g, _, _) => g
    case Failer(g, _) => g
    case Roller(todo) => todo
    case _ => []
  }

  ghost predicate Touches(ps: seq<Promotion>, t: Thread, i: nat)
    requires i < |ps|
  {
    Work(t) != [] && Work(t)[0] < |ps| && SameGroup(ps, Work(t)[0], i)
  }

  ghost predicate Busy(s: Sys, i: nat)
    requires i < |s.ps|
  {
    exists t :: t in s.threads && Touches(s.ps, s.threads[t], i)
  }

  /** g is a release, all of it. */
  ghost predicate Full(ps: seq<Promotion>, g: seq<nat>) {
    g != [] && g[0] < |ps| && g == Group(ps, g[0])
  }

  /** Nothing of ps[i]'s release will be deployed any more: no member is being deployed, or
      one has failed and the others wait to be undone. */
  ghost predicate Ceased(ps: seq<Promotion>, i: nat)
    requires i < |ps|
  {
    || (forall j :: 0 <= j < |ps| && SameGroup(ps, i, j) ==> ps[j].status != Deploying)
    || (exists j :: 0 <= j < |ps| && SameGroup(ps, i, j) && ps[j].status == Failed)
  }

  /** todo lists everything deployed of one release that has ceased to be deployed. */
  ghost predicate RollerWhole(ps: seq<Promotion>, todo: seq<nat>) {
    && InRange(todo, |ps|)
    && (todo != [] ==>
          && (forall k :: 0 <= k < |todo| ==> SameGroup(ps, todo[0], todo[k]))
          && Ceased(ps, todo[0])
          && (forall i :: 0 <= i < |ps| && SameGroup(ps, todo[0], i) ==> ps[i].status != Pending)
          && (forall i: nat :: i < |ps| && SameGroup(ps, todo[0], i) && ps[i].status == Deployed ==> i in todo))
  }

  /** What each thread adds to ReleaseProtocol.ThreadOk when rollbacks wait. */
  ghost predicate ThreadWhole(ps: seq<Promotion>, t: Thread) {
    match t
    case Deployer(g, k) => Full(ps, g) && AllAre(ps, g, 0, k, Deployed)
    case Undoer(g, j, k) => Full(ps, g) && AllAre(ps, g, j, k, RolledBack)
    case Failer(g, m) => Full(ps, g) && FinalTo(ps, g, m)
    case Roller(todo) => RollerWhole(ps, todo)
    case _ => true
  }

  ghost predicate WholeInv(s: Sys) {
    && Inv(s)
    && (forall t :: t in s.threads ==> ThreadWhole(s.ps, s.threads[t]))
    && (forall i :: 0 <= i < |s.ps| ==> Settled(s.ps, i) || Busy(s, i))
  }

  /** The action is not a failing undo, and a rollback starts only on a release that has
      ceased to be deployed. */
  ghost predicate Quiet(s: Sys, a: Action) {
    && StoreOk(s, a) && !a.UndoFails? && !a.RollFails?
    && (a.StartRollback? ==> a.i < |s.ps| && Ceased(s.ps, a.i))
  }

  // ------------------------------------------------------------------- releases

  lemma FullMember(ps: seq<Promotion>, g: seq<nat>, x: nat)
    requires Full(ps, g) && x < |ps|
    ensures x in g <==> SameGroup(ps, g[0], x)
  {
  }

  lemma {:induction false} GroupUpToFrom(ps: seq<Promotion>, i: nat, j: nat, n: nat)
    requires i < |ps| && j < |ps| && SameGroup(ps, i, j) && n <= |ps|
    ensures GroupUpTo(ps, i, n) == GroupUpTo(ps, j, n)
  {
    if n > 0 {
      GroupUpToFrom(ps, i, j, n - 1);
      assert SameGroup(ps, i, n - 1) <==> SameGroup(ps, j, n - 1);
      hide SameGroup;
    }
  }

  lemma GroupFrom(ps: seq<Promotion>, i: nat, j: nat)
    requires i < |ps| && j < |ps| && SameGroup(ps, i, j)
    ensures Group(ps, i) == Group(ps, j)
  {
    GroupUpToFrom(ps, i, j, |ps|);
  }

  lemma GroupFull(ps: seq<Promotion>, i: nat)
    requires i < |ps|
    ensures Full(ps, Group(ps, i))
  {
    var g := Group(ps, i);
    GroupFrom(ps, i, g[0]);
  }

  // ------------------------------------------------------- one status at a time

  lemma FullAt(ps: seq<Promotion>, g: seq<nat>, x: nat) returns (a: nat)
    requires Full(ps, g) && x < |ps| && SameGroup(ps, g[0], x)
    ensures a < |g| && g[a] == x
  {
    FullMember(ps, g, x);
    a :| 0 <= a < |g| && g[a] == x;
  }

  /** Nothing before place n of g deploys, and t owns the rest of g. */
  lemma OwnedFrom(ps: seq<Promotion>, t: Thread, g: seq<nat>, n: nat, x: nat)
    requires Full(ps, g) && x < |ps| && SameGroup(ps, g[0], x) && ps[x].status == Deploying
    requires forall a :: 0 <= a < n && a < |g| ==> g[a] < |ps| && ps[g[a]].status != Deploying
    requires ListOf(t) == g && OwnsFrom(t) == n
    ensures Owns(t, x)
  {
    hide Full, SameGroup;
    var a := FullAt(ps, g, x);
    OwnsAt(t, a);
  }

  lemma ShippedNotDeploying(ps: seq<Promotion>, g: seq<nat>, k: nat)
    requires AllShipped(ps, g, k) && k <= |g|
    ensures forall a :: 0 <= a < k ==> g[a] < |ps| && ps[g[a]].status != Deploying
  {
  }

  lemma FinalNotDeploying(ps: seq<Promotion>, g: seq<nat>, m: nat)
    requires FinalTo(ps, g, m) && m <= |g|
    ensures forall a :: 0 <= a < m ==> g[a] < |ps| && ps[g[a]].status != Deploying
  {
  }

  lemma CeasedTogether(ps: seq<Promotion>, i: nat, j: nat)
    requires i < |ps| && j < |ps| && SameGroup(ps, i, j) && Ceased(ps, i)
    ensures Ceased(ps, j)
  {
    if k :| 0 <= k < |ps| && SameGroup(ps, i, k) && ps[k].status == Failed {
      assert SameGroup(ps, j, k);
    } else {
      assert forall k :: 0 <= k < |ps| && SameGroup(ps, j, k) ==> SameGroup(ps, i, k);
    }
  }

  lemma ShippedNotFailed(ps: seq<Promotion>, g: seq<nat>, k: nat)
    requires k < |g| && AllShipped(ps, g, k) && AllAre(ps, g, k, |g|, Deploying)
    ensures forall a :: 0 <= a < |g| ==> g[a] < |ps| && ps[g[a]].status != Failed
    ensures ps[g[k]].status == Deploying
  {
  }

  /** While a release is being deployed it has not ceased to be. */
  lemma DeployerNotCeased(ps: seq<Promotion>, g: seq<nat>, k: nat, x: nat)
    requires ThreadOk(ps, Deployer(g, k)) && ThreadWhole(ps, Deployer(g, k))
    requires x < |ps| && Touches(ps, Deployer(g, k), x)
    ensures !Ceased(ps, x)
  {
    ShippedNotFailed(ps, g, k);
    FullFirst(ps, g, k);
    assert SameGroup(ps, g[0], x) && SameGroup(ps, x, g[k]);
    hide Full, AllShipped, AllAre, SameGroup;
    forall j: nat | j < |ps| && SameGroup(ps, x, j) ensures ps[j].status != Failed {
      SameGroupTogether(ps, g[0], x, j);
      var a := FullAt(ps, g, j);
    }
  }

  lemma SameGroupTogether(ps: seq<Promotion>, i: nat, j: nat, k: nat)
    requires i < |ps| && j < |ps| && k < |ps| && SameGroup(ps, i, j) && SameGroup(ps, j, k)
    ensures SameGroup(ps, i, k)
  {
  }

  /** A member that deploys is owned by the thread at work on its release. */
  lemma DeployingOwned(ps: seq<Promotion>, t: Thread, x: nat)
    requires ThreadOk(ps, t) && ThreadWhole(ps, t) && x < |ps| && ps[x].status == Deploying && Touches(ps, t, x)
    requires !t.Roller?
    ensures Owns(t, x)
  {
    hide Increasing, Full, SameGroup, Owns, AllShipped, AllAre, FinalTo, RollerWhole;
    match t
    case Deployer(g, k) =>
      ShippedNotDeploying(ps, g, k);
      OwnedFrom(ps, t, g, k, x);
    case Undoer(g, j, k) =>
      ShippedNotDeploying(ps, g, k);
      OwnedFrom(ps, t, g, k + 1, x);
    case Failer(g, m) =>
      FinalNotDeploying(ps, g, m);
      OwnedFrom(ps, t, g, m, x);
  }

  lemma SetFull(ps: seq<Promotion>, x: nat, status: Status, g: seq<nat>)
    requires x < |ps| && Full(ps, g)
    ensures Full(SetStatus(ps, x, status), g)
  {
    GroupKept(ps, SetStatus(ps, x, status), g[0]);
  }

  ghost predicate FinalTo(ps: seq<Promotion>, g: seq<nat>, m: int) {
    forall a :: 0 <= a < m <= |g| ==> g[a] < |ps| && Final(ps[g[a]].status)
  }

  /** What is not in the list may change. */
  lemma AsideList(ps: seq<Promotion>, x: nat, status: Status, g: seq<nat>)
    requires x < |ps| && forall k :: 0 <= k < |g| ==> g[k] != x
    ensures forall lo, hi, st :: AllAre(ps, g, lo, hi, st) ==> AllAre(SetStatus(ps, x, status), g, lo, hi, st)
    ensures forall m :: FinalTo(ps, g, m) ==> FinalTo(SetStatus(ps, x, status), g, m)
  {
  }

  lemma AsideRoller(ps: seq<Promotion>, x: nat, status: Status, todo: seq<nat>)
    requires x < |ps| && RollerWhole(ps, todo) && !Touches(ps, Roller(todo), x)
    ensures RollerWhole(SetStatus(ps, x, status), todo)
  {
    SetStatusGroups(ps, x, status);
    hide SameGroup;
  }

  /** A member of another release changes: t's picture of its own stays. */
  lemma AsideKeep(ps: seq<Promotion>, x: nat, status: Status, t: Thread)
    requires x < |ps| && ThreadOk(ps, t) && ThreadWhole(ps, t) && !Touches(ps, t, x)
    ensures ThreadWhole(SetStatus(ps, x, status), t)
  {
    hide Group, ThreadOk, AllAre, FinalTo, RollerWhole, SameGroup;
    if t.Roller? {
      AsideRoller(ps, x, status, t.todo);
    } else if t.Deployer? || t.Undoer? || t.Failer? {
      SetFull(ps, x, status, t.g);
      NotInList(ps, t.g, x);
      hide Full;
      AsideList(ps, x, status, t.g);
    }
  }

  lemma NotInList(ps: seq<Promotion>, g: seq<nat>, x: nat)
    requires Full(ps, g) && x < |ps| && !SameGroup(ps, g[0], x)
    ensures forall k :: 0 <= k < |g| ==> g[k] != x
  {
  }

  /** Undoing x does not disturb another thread on the same release, unless that deploys. */
  lemma UndoKeep(ps: seq<Promotion>, x: nat, t: Thread)
    requires x < |ps| && Shipped(ps[x].status) && ThreadOk(ps, t) && ThreadWhole(ps, t) && !t.Deployer?
    ensures ThreadWhole(SetStatus(ps, x, RolledBack), t)
  {
    hide Group, SameGroup;
    if t.Roller? {
      UndoRoller(ps, x, t.todo);
    } else if t.Undoer? || t.Failer? {
      SetFull(ps, x, RolledBack, t.g);
      hide Full;
    }
  }

  lemma UndoRoller(ps: seq<Promotion>, x: nat, todo: seq<nat>)
    requires x < |ps| && Shipped(ps[x].status) && RollerWhole(ps, todo)
    ensures RollerWhole(SetStatus(ps, x, RolledBack), todo)
  {
    if todo != [] { UndoCeased(ps, x, todo[0]); }
    SetStatusGroups(ps, x, RolledBack);
    hide SameGroup, Ceased;
  }

  lemma UndoCeased(ps: seq<Promotion>, x: nat, i: nat)
    requires x < |ps| && i < |ps| && Shipped(ps[x].status) && Ceased(ps, i)
    ensures Ceased(SetStatus(ps, x, RolledBack), i)
  {
    SetStatusGroups(ps, x, RolledBack);
    var qs := SetStatus(ps, x, RolledBack);
    hide SameGroup;
    if j :| 0 <= j < |ps| && SameGroup(ps, i, j) && ps[j].status == Failed {
      assert SameGroup(qs, i, j) && qs[j].status == Failed;
    }
  }

  lemma FailCeased(ps: seq<Promotion>, x: nat, i: nat)
    requires x < |ps| && i < |ps| && ps[x].status == Deploying && Ceased(ps, i)
    ensures Ceased(SetStatus(ps, x, Failed), i)
  {
    SetStatusGroups(ps, x, Failed);
    var qs := SetStatus(ps, x, Failed);
    hide SameGroup;
    if j :| 0 <= j < |ps| && SameGroup(ps, i, j) && ps[j].status == Failed {
      assert SameGroup(qs, i, j) && qs[j].status == Failed;
    }
  }

  /** Failing a member that waited does not disturb a rollback of its release. */
  lemma FailRoller(ps: seq<Promotion>, x: nat, todo: seq<nat>)
    requires x < |ps| && ps[x].status == Deploying && RollerWhole(ps, todo)
    ensures RollerWhole(SetStatus(ps, x, Failed), todo)
  {
    if todo != [] { FailCeased(ps, x, todo[0]); }
    SetStatusGroups(ps, x, Failed);
    hide SameGroup, Ceased;
  }

  // ---------------------------------------------------------- settled or busy

  /** What happens to x leaves the other releases settled or busy as they were. */
  lemma OthersSettled(s: Sys, t: nat, x: nat, status: Status, after: Sys)
    requires WholeInv(s) && t in s.threads && x < |s.ps| && Touches(s.ps, s.threads[t], x)
    requires after.ps == SetStatus(s.ps, x, status)
    requires forall u :: u in s.threads && u != t ==> u in after.threads && after.threads[u] == s.threads[u]
    ensures forall i :: 0 <= i < |s.ps| && !SameGroup(s.ps, x, i) ==> Settled(after.ps, i) || Busy(after, i)
  {
    hide Inv, ThreadWhole;
    SetStatusGroups(s.ps, x, status);
    forall i | 0 <= i < |s.ps| && !SameGroup(s.ps, x, i) ensures Settled(after.ps, i) || Busy(after, i) {
      if Settled(s.ps, i) {
        OtherSettled(s.ps, x, status, i);
      } else {
        var u :| u in s.threads && Touches(s.ps, s.threads[u], i);
        assert u != t;
        assert Touches(after.ps, after.threads[u], i);
      }
    }
  }

  lemma OtherSettled(ps: seq<Promotion>, x: nat, status: Status, i: nat)
    requires x < |ps| && i < |ps| && !SameGroup(ps, x, i) && Settled(ps, i)
    ensures Settled(SetStatus(ps, x, status), i)
  {
    SetStatusGroups(ps, x, status);
    var qs := SetStatus(ps, x, status);
    assert forall j :: 0 <= j < |ps| && SameGroup(ps, i, j) ==> qs[j] == ps[j];
  }

  /** After x's release is settled, or its thread still touches it, everything is again. */
  lemma WholeAgain(s: Sys, t: nat, x: nat, status: Status, after: Sys)
    requires WholeInv(s) && t in s.threads && x < |s.ps| && Touches(s.ps, s.threads[t], x)
    requires after.ps == SetStatus(s.ps, x, status) && Inv(after)
    requires forall u :: u in s.threads && u != t ==> u in after.threads && after.threads[u] == s.threads[u]
    requires forall u :: u in after.threads && u != t ==> u in s.threads
    requires forall u :: u in s.threads && u != t ==> ThreadWhole(after.ps, s.threads[u])
    requires t in after.threads ==> ThreadWhole(after.ps, after.threads[t])
    requires Settled(after.ps, x) || (t in after.threads && Touches(after.ps, after.threads[t], x))
    ensures WholeInv(after)
  {
    hide Inv, ThreadWhole;
    OthersSettled(s, t, x, status, after);
    SetStatusGroups(s.ps, x, status);
    forall i | 0 <= i < |s.ps| && SameGroup(s.ps, x, i) ensures Settled(after.ps, i) || Busy(after, i) {
      if Settled(after.ps, x) {
        SettledTogether(after.ps, x, i);
      } else {
        assert Touches(after.ps, after.threads[t], i);
      }
    }
  }

  lemma SettledTogether(ps: seq<Promotion>, x: nat, i: nat)
    requires x < |ps| && i < |ps| && SameGroup(ps, x, i) && Settled(ps, x)
    ensures Settled(ps, i)
  {
    assert forall j :: 0 <= j < |ps| && SameGroup(ps, i, j) ==> SameGroup(ps, x, j);
  }

  /** A change of a member that t deploys or fails does not disturb another thread. */
  lemma DeployKeep(s: Sys, t: nat, u: nat, x: nat, status: Status)
    requires WholeInv(s) && t in s.threads && u in s.threads && t != u && x < |s.ps|
    requires s.ps[x].status == Deploying && Owns(s.threads[t], x) && Touches(s.ps, s.threads[t], x)
    requires s.threads[t].Deployer? || (s.threads[t].Failer? && status == Failed)
    ensures ThreadWhole(SetStatus(s.ps, x, status), s.threads[u])
  {
    var tt, tu := s.threads[t], s.threads[u];
    WholeThread(s, t);
    WholeThread(s, u);
    assert !Owns(tu, x);
    hide WholeInv, Owns, ThreadOk;
    if !Touches(s.ps, tu, x) {
      AsideKeep(s.ps, x, status, tu);
    } else if !tu.Roller? {
      DeployingOwned(s.ps, tu, x);
    } else {
      RollerCeased(s.ps, tu.todo, x);
      if tt.Deployer? {
        DeployerNotCeased(s.ps, tt.g, tt.k, x);
      } else {
        FailRoller(s.ps, x, tu.todo);
      }
    }
  }

  lemma RollerCeased(ps: seq<Promotion>, todo: seq<nat>, x: nat)
    requires RollerWhole(ps, todo) && x < |ps| && Touches(ps, Roller(todo), x)
    ensures Ceased(ps, x)
  {
    CeasedTogether(ps, todo[0], x);
  }

  /** Nor does undoing a member disturb anyone: nobody deploys that release. */
  lemma UndoneKeep(s: Sys, t: nat, u: nat, x: nat)
    requires WholeInv(s) && t in s.threads && u in s.threads && t != u && x < |s.ps|
    requires Shipped(s.ps[x].status) && Touches(s.ps, s.threads[t], x) && (s.threads[t].Undoer? || s.threads[t].Roller?)
    ensures ThreadWhole(SetStatus(s.ps, x, RolledBack), s.threads[u])
  {
    hide Owns, Settled, Touches;
    var tt, tu := s.threads[t], s.threads[u];
    assert ThreadOk(s.ps, tu) && ThreadWhole(s.ps, tu);
    if !tu.Deployer? {
      UndoKeep(s.ps, x, tu);
    } else {
      DeployerAlone(s, t, u, x);
      AsideKeep(s.ps, x, RolledBack, tu);
    }
  }

  lemma UndoerCeased(ps: seq<Promotion>, g: seq<nat>, j: nat, k: nat, x: nat)
    requires ThreadOk(ps, Undoer(g, j, k)) && Full(ps, g) && x < |ps| && Touches(ps, Undoer(g, j, k), x)
    ensures Ceased(ps, x)
  {
    FullFirst(ps, g, k);
    assert SameGroup(ps, x, g[k]) && ps[g[k]].status == Failed;
  }

  lemma DeployerAlone(s: Sys, t: nat, u: nat, x: nat)
    requires WholeInv(s) && t in s.threads && u in s.threads && t != u && x < |s.ps| && s.threads[u].Deployer?
    requires s.threads[t].Undoer? || s.threads[t].Roller?
    requires Touches(s.ps, s.threads[t], x)
    ensures !Touches(s.ps, s.threads[u], x)
  {
    var tt, tu := s.threads[t], s.threads[u];
    WholeThread(s, t);
    WholeThread(s, u);
    hide WholeInv, ThreadOk, Full, Touches, RollerWhole;
    if tt.Roller? {
      RollerCeased(s.ps, tt.todo, x);
    } else {
      UndoerCeased(s.ps, tt.g, tt.j, tt.k, x);
    }
    if Touches(s.ps, tu, x) { DeployerNotCeased(s.ps, tu.g, tu.k, x); }
  }

  // -------------------------------------------------------------- every action

  lemma NoneDeployedSettled(ps: seq<Promotion>, g: seq<nat>, x: nat)
    requires Full(ps, g) && x < |ps| && SameGroup(ps, g[0], x)
    requires forall k :: 0 <= k < |g| ==> g[k] < |ps| && ps[g[k]].status != Deployed
    ensures Settled(ps, x)
  {
    forall j: nat | j < |ps| && SameGroup(ps, x, j) ensures ps[j].status != Deployed {
      var a := FullAt(ps, g, j);
    }
  }

  lemma AllDeployedSettled(ps: seq<Promotion>, g: seq<nat>, x: nat)
    requires Full(ps, g) && x < |ps| && SameGroup(ps, g[0], x) && AllAre(ps, g, 0, |g|, Deployed)
    ensures Settled(ps, x)
  {
    forall j: nat | j < |ps| && SameGroup(ps, x, j) ensures ps[j].status == Deployed {
      var a := FullAt(ps, g, j);
    }
  }

  lemma FullFirst(ps: seq<Promotion>, g: seq<nat>, k: nat)
    requires Full(ps, g) && k < |g|
    ensures g[k] < |ps| && SameGroup(ps, g[0], g[k]) && SameGroup(ps, g[k], g[0])
  {
  }

  lemma DeployerWhole(ps: seq<Promotion>, g: seq<nat>, k: nat)
    requires ThreadOk(ps, Deployer(g, k)) && ThreadWhole(ps, Deployer(g, k))
    ensures var qs := SetStatus(ps, g[k], Deployed);
      if k + 1 < |g| then ThreadWhole(qs, Deployer(g, k + 1)) else Settled(qs, g[k])
    ensures var qs := SetStatus(ps, g[k], Failed);
      ThreadWhole(qs, Undoer(g, k, k)) && (|g| == 1 ==> Settled(qs, g[k]))
  {
    hide Group, Settled;
    FullFirst(ps, g, k);
    var qs, fs := SetStatus(ps, g[k], Deployed), SetStatus(ps, g[k], Failed);
    SetFull(ps, g[k], Deployed, g);
    SetFull(ps, g[k], Failed, g);
    SetStatusGroups(ps, g[k], Deployed);
    SetStatusGroups(ps, g[k], Failed);
    assert AllAre(qs, g, 0, k + 1, Deployed);
    if k + 1 == |g| { AllDeployedSettled(qs, g, g[k]); }
    if |g| == 1 { NoneDeployedSettled(fs, g, g[k]); }
  }

  /** What thread t at place k of its list knows about that member. */
  lemma PlaceFacts(s: Sys, t: nat, k: nat)
    requires WholeInv(s) && t in s.threads && k < |Work(s.threads[t])| && !s.threads[t].Roller?
    ensures var x := Work(s.threads[t])[k]; x < |s.ps| && Touches(s.ps, s.threads[t], x)
    ensures OwnsFrom(s.threads[t]) <= k ==>
        Owns(s.threads[t], Work(s.threads[t])[k]) && s.ps[Work(s.threads[t])[k]].status == Deploying
  {
    WholeThread(s, t);
    FullFirst(s.ps, Work(s.threads[t]), k);
    hide Group, WholeInv, Full;
    if OwnsFrom(s.threads[t]) <= k {
      OwnsAt(s.threads[t], k);
      OwnedDeploying(s.ps, s.threads[t], Work(s.threads[t])[k]);
    }
  }

  lemma DeployerFacts(ps: seq<Promotion>, g: seq<nat>, k: nat)
    requires ThreadOk(ps, Deployer(g, k)) && ThreadWhole(ps, Deployer(g, k))
    ensures k < |g| && g[k] < |ps| && Full(ps, g)
  {
    hide Full, AllAre, AllShipped, Increasing;
  }

  lemma DeployerNext(s: Sys, t: nat, g: seq<nat>, k: nat)
    requires WholeInv(s) && t in s.threads && s.threads[t] == Deployer(g, k)
    ensures k < |g| && g[k] < |s.ps|
    ensures var qs := SetStatus(s.ps, g[k], Deployed);
      if k + 1 < |g| then ThreadWhole(qs, Deployer(g, k + 1)) && Touches(qs, Deployer(g, k + 1), g[k])
          else Settled(qs, g[k])
    ensures var qs := SetStatus(s.ps, g[k], Failed);
      ThreadWhole(qs, Undoer(g, k, k)) && Touches(qs, Undoer(g, k, k), g[k]) && (|g| == 1 ==> Settled(qs, g[k]))
  {
    hide Group, WholeInv, ThreadWhole, ThreadOk, Settled, SameGroup, Full, Touches;
    WholeThread(s, t);
    DeployerFacts(s.ps, g, k);
    DeployerWhole(s.ps, g, k);
    StillTouches(s.ps, g, k, Deployed, Deployer(g, k + 1));
    StillTouches(s.ps, g, k, Failed, Undoer(g, k, k));
  }

  /** A thread at work on a release touches the member it has just changed. */
  lemma StillTouches(ps: seq<Promotion>, g: seq<nat>, k: nat, status: Status, t: Thread)
    requires Full(ps, g) && k < |g| && Work(t) == g
    ensures g[k] < |ps| && Touches(SetStatus(ps, g[k], status), t, g[k])
  {
    FullFirst(ps, g, k);
    hide Full;
    SetStatusGroups(ps, g[k], status);
    hide SameGroup;
  }

  lemma DeployWhole(s: Sys, a: Action)
    requires WholeInv(s) && Enabled(s, a) && (a.DeployOk? || a.DeployFails?)
    ensures WholeInv(Step(s, a))
  {
    hide Settled, Owns, Inv, WholeInv, Busy, ThreadWhole, ThreadOk, Full, Group, Touches;
    var after := Step(s, a);
    var Deployer(g, k) := s.threads[a.t];
    var status := if a.DeployOk? then Deployed else Failed;
    WholeIsInv(s);
    StepSafe(s, a);
    PlaceFacts(s, a.t, k);
    DeployerNext(s, a.t, g, k);
    forall u | u in s.threads && u != a.t ensures ThreadWhole(after.ps, s.threads[u]) {
      DeployKeep(s, a.t, u, g[k], status);
    }
    WholeAgain(s, a.t, g[k], status, after);
  }

  lemma WholeThread(s: Sys, t: nat)
    requires WholeInv(s) && t in s.threads
    ensures ThreadOk(s.ps, s.threads[t]) && ThreadWhole(s.ps, s.threads[t])
  {
  }

  lemma WholeIsInv(s: Sys)
    requires WholeInv(s)
    ensures Inv(s)
  {
  }

  lemma UndoerWhole(ps: seq<Promotion>, g: seq<nat>, j: nat, k: nat)
    requires 0 < j && ThreadOk(ps, Undoer(g, j, k)) && ThreadWhole(ps, Undoer(g, j, k))
    ensures ThreadWhole(SetStatus(ps, g[j - 1], RolledBack), Undoer(g, j - 1, k))
  {
    hide Group;
    SetFull(ps, g[j - 1], RolledBack, g);
  }

  lemma UndoerNext(s: Sys, t: nat, g: seq<nat>, j: nat, k: nat)
    requires WholeInv(s) && t in s.threads && s.threads[t] == Undoer(g, j, k) && 0 < j
    ensures j <= |g| && g[j - 1] < |s.ps| && Shipped(s.ps[g[j - 1]].status)
    ensures var qs := SetStatus(s.ps, g[j - 1], RolledBack);
      ThreadWhole(qs, Undoer(g, j - 1, k)) && Touches(qs, Undoer(g, j - 1, k), g[j - 1])
  {
    WholeThread(s, t);
    UndoerMoves(s.ps, g, j, k);
    UndoerWhole(s.ps, g, j, k);
    assert j <= k < |g| && Full(s.ps, g);
    hide Group, WholeInv, ThreadWhole, ThreadOk, Full, SameGroup, Touches;
    StillTouches(s.ps, g, j - 1, RolledBack, Undoer(g, j - 1, k));
  }

  lemma UndoWhole(s: Sys, a: Action)
    requires WholeInv(s) && Enabled(s, a) && a.UndoOk?
    ensures WholeInv(Step(s, a))
  {
    hide Settled, Owns, Inv, WholeInv, Busy, ThreadWhole, ThreadOk, Full, Group, Touches;
    var after := Step(s, a);
    var Undoer(g, j, k) := s.threads[a.t];
    WholeIsInv(s);
    StepSafe(s, a);
    PlaceFacts(s, a.t, j - 1);
    UndoerNext(s, a.t, g, j, k);
    forall u | u in s.threads && u != a.t ensures ThreadWhole(after.ps, s.threads[u]) {
      UndoneKeep(s, a.t, u, g[j - 1]);
    }
    WholeAgain(s, a.t, g[j - 1], RolledBack, after);
  }

  lemma FailerWhole(ps: seq<Promotion>, g: seq<nat>, m: nat)
    requires m < |g| && ThreadOk(ps, Failer(g, m)) && ThreadWhole(ps, Failer(g, m))
    ensures ThreadWhole(SetStatus(ps, g[m], Failed), Failer(g, m + 1))
  {
    hide Group;
    SetFull(ps, g[m], Failed, g);
  }

  lemma FailerNext(s: Sys, t: nat, g: seq<nat>, m: nat)
    requires WholeInv(s) && t in s.threads && s.threads[t] == Failer(g, m) && m < |g|
    ensures g[m] < |s.ps|
    ensures var qs := SetStatus(s.ps, g[m], Failed);
      ThreadWhole(qs, Failer(g, m + 1)) && Touches(qs, Failer(g, m + 1), g[m])
  {
    WholeThread(s, t);
    FailerWhole(s.ps, g, m);
    FullFirst(s.ps, g, m);
    hide Group, WholeInv, ThreadWhole, ThreadOk;
    SetStatusGroups(s.ps, g[m], Failed);
  }

  lemma FailWhole(s: Sys, a: Action)
    requires a.FailNext? && a.t in s.threads && s.threads[a.t].Failer? && s.threads[a.t].m < |s.threads[a.t].g|
    requires WholeInv(s) && Enabled(s, a)
    ensures WholeInv(Step(s, a))
  {
    hide Settled, Owns, Inv, WholeInv, Busy, ThreadWhole, ThreadOk, Full, Group, Touches;
    var after := Step(s, a);
    var Failer(g, m) := s.threads[a.t];
    WholeIsInv(s);
    StepSafe(s, a);
    PlaceFacts(s, a.t, m);
    FailerNext(s, a.t, g, m);
    forall u | u in s.threads && u != a.t ensures ThreadWhole(after.ps, s.threads[u]) {
      DeployKeep(s, a.t, u, g[m], Failed);
    }
    WholeAgain(s, a.t, g[m], Failed, after);
  }

  /** The last one left is undone: nothing of the release is deployed. */
  lemma RollerLast(ps: seq<Promotion>, x: nat)
    requires RollerWhole(ps, [x])
    ensures x < |ps| && Settled(SetStatus(ps, x, RolledBack), x)
  {
    assert [x][0] == x;
    SetStatusGroups(ps, x, RolledBack);
    var qs := SetStatus(ps, x, RolledBack);
    hide SameGroup;
    forall j: nat | j < |ps| && SameGroup(qs, x, j) ensures qs[j].status != Deployed {
      assert SameGroup(ps, [x][0], j);
      assert j == x || j !in [x];
    }
  }

  lemma RollerRest(ps: seq<Promotion>, rest: seq<nat>, x: nat)
    requires RollerWhole(ps, rest + [x]) && x < |ps| && Shipped(ps[x].status)
    ensures RollerWhole(SetStatus(ps, x, RolledBack), rest)
  {
    var todo := rest + [x];
    assert todo[|rest|] == x;
    UndoCeased(ps, x, todo[0]);
    var qs := SetStatus(ps, x, RolledBack);
    SetStatusGroups(ps, x, RolledBack);
    hide SameGroup, Ceased;
    assert forall k :: 0 <= k < |rest| ==> rest[k] == todo[k];
    if rest != [] {
      forall i: nat | i < |ps| && SameGroup(qs, rest[0], i) && qs[i].status == Deployed ensures i in rest {
        assert i in todo && i != x;
      }
    }
  }

  lemma RollerPops(ps: seq<Promotion>, todo: seq<nat>)
    requires todo != [] && RollerWhole(ps, todo) && AllShipped(ps, todo, |todo|)
    ensures var x := todo[|todo| - 1]; var qs := SetStatus(ps, x, RolledBack);
      && SameGroup(ps, todo[0], x)
      && RollerWhole(qs, todo[..|todo| - 1])
      && (|todo| == 1 ==> Settled(qs, x))
  {
    var x, rest := todo[|todo| - 1], todo[..|todo| - 1];
    assert SameGroup(ps, todo[0], todo[|todo| - 1]);
    assert todo == rest + [x];
    hide RollerWhole, SameGroup, Settled;
    RollerRest(ps, rest, x);
    if |todo| == 1 {
      assert todo == [x];
      RollerLast(ps, x);
    }
  }

  lemma RollWhole(s: Sys, a: Action)
    requires a.RollOk? && a.t in s.threads && s.threads[a.t].Roller? && s.threads[a.t].todo != []
    requires WholeInv(s) && Enabled(s, a)
    ensures WholeInv(Step(s, a))
  {
    hide Settled, Owns, Inv, WholeInv, Busy, RollerWhole;
    WholeThread(s, a.t);
    var after := Step(s, a);
    var todo := s.threads[a.t].todo;
    var x := todo[|todo| - 1];
    WholeIsInv(s);
    StepSafe(s, a);
    RollerPops(s.ps, todo);
    forall u | u in s.threads && u != a.t ensures ThreadWhole(after.ps, s.threads[u]) {
      UndoneKeep(s, a.t, u, x);
    }
    hide ThreadOk, Full, Group;
    SetStatusGroups(s.ps, x, RolledBack);
    assert |todo| > 1 ==> todo[..|todo| - 1][0] == todo[0];
    WholeAgain(s, a.t, x, RolledBack, after);
  }

  /** Thread t changes its mind, or ends, and no status changes. */
  lemma LocalWhole(s: Sys, t: nat, after: Sys)
    requires WholeInv(s) && Inv(after) && after.ps == s.ps
    requires forall u :: u in s.threads && u != t ==> u in after.threads && after.threads[u] == s.threads[u]
    requires forall u :: u in after.threads && u != t ==> u in s.threads
    requires t in after.threads ==> ThreadWhole(s.ps, after.threads[t])
    requires t in s.threads ==> forall i :: 0 <= i < |s.ps| && Touches(s.ps, s.threads[t], i) ==>
      Settled(s.ps, i) || (t in after.threads && Touches(s.ps, after.threads[t], i))
    ensures WholeInv(after)
  {
    hide Inv, ThreadWhole, Touches, Settled;
    forall i | 0 <= i < |s.ps| ensures Settled(s.ps, i) || Busy(after, i) {
      if !Settled(s.ps, i) {
        var u :| u in s.threads && Touches(s.ps, s.threads[u], i);
        assert u in after.threads && Touches(s.ps, after.threads[u], i);
      }
    }
  }

  lemma FinalSettled(ps: seq<Promotion>, g: seq<nat>, i: nat)
    requires Full(ps, g) && FinalTo(ps, g, |g|) && i < |ps| && SameGroup(ps, g[0], i)
    ensures Settled(ps, i)
  {
    hide Group, Settled, SameGroup, Full;
    NoneDeployedSettled(ps, g, i);
  }

  lemma FailerDone(s: Sys, t: nat, g: seq<nat>)
    requires WholeInv(s) && t in s.threads && s.threads[t] == Failer(g, |g|)
    ensures forall i :: 0 <= i < |s.ps| && Touches(s.ps, s.threads[t], i) ==> Settled(s.ps, i)
  {
    WholeThread(s, t);
    assert Full(s.ps, g) && FinalTo(s.ps, g, |g|);
    hide Group, WholeInv, Settled, ThreadOk, ThreadWhole, Full, FinalTo, SameGroup;
    forall i | 0 <= i < |s.ps| && Touches(s.ps, s.threads[t], i) ensures Settled(s.ps, i) {
      FinalSettled(s.ps, g, i);
    }
  }

  lemma RollStarts(ps: seq<Promotion>, i: nat)
    requires i < |ps| && ps[i].status == Deployed && Uniform(ps) && Ceased(ps, i)
    ensures RollerWhole(ps, DeployedOf(ps, Group(ps, i), |Group(ps, i)|))
  {
    var g := Group(ps, i);
    var d := DeployedOf(ps, g, |g|);
    forall k | 0 <= k < |d| ensures d[k] < |ps| && SameGroup(ps, i, d[k]) {
      var a :| 0 <= a < |g| && g[a] == d[k];
    }
    if d != [] {
      CeasedTogether(ps, i, d[0]);
      forall j: nat | j < |ps| && SameGroup(ps, d[0], j) ensures SameGroup(ps, i, j) && ps[j].status != Pending &&
          (ps[j].status == Deployed ==> j in d) {
        assert SameGroup(ps, i, d[0]);
        assert j in g;
      }
    }
  }

  lemma LoadWhole(s: Sys, a: Action)
    requires WholeInv(s) && Enabled(s, a) && Quiet(s, a)
    requires a.CheckRelease? || a.LoadGroup? || a.UndoneAll? || a.StartRollback?
    ensures WholeInv(Step(s, a))
  {
    hide WholeInv, Inv, Settled, ThreadOk, Group, DeployedOf, Busy, SameGroup, LegalMoves;
    var after := Step(s, a);
    WholeIsInv(s);
    StepSafe(s, a);
    if a.LoadGroup? {
      GroupFull(s.ps, s.threads[a.t].i);
    } else if a.UndoneAll? {
      WholeThread(s, a.t);
      UndoneFinal(s.ps, s.threads[a.t].g, s.threads[a.t].k);
    } else if a.StartRollback? {
      RollbackIsUniform(s);
      RollStarts(s.ps, a.i);
    }
    hide RollerWhole, Full;
    LocalWhole(s, a.t, after);
  }

  lemma RollbackIsUniform(s: Sys)
    requires Inv(s)
    ensures Uniform(s.ps)
  {
  }

  lemma UndoneFinal(ps: seq<Promotion>, g: seq<nat>, k: nat)
    requires ThreadOk(ps, Undoer(g, 0, k)) && ThreadWhole(ps, Undoer(g, 0, k))
    ensures ThreadWhole(ps, Failer(g, k + 1))
  {
    hide Full;
    forall a | 0 <= a < k + 1 <= |g| ensures g[a] < |ps| && Final(ps[g[a]].status) {
    }
  }

  /** The step takes a thread away and changes nothing else. */
  lemma EndsThread(s: Sys, a: Action)
    requires Enabled(s, a) && ((a.FailNext? && s.threads[a.t].m >= |s.threads[a.t].g|) ||
        (a.RollOk? && s.threads[a.t].todo == []))
    ensures Step(s, a).ps == s.ps && Step(s, a).threads == s.threads - {a.t} && a.t in s.threads
    ensures a.RollOk? ==> s.threads[a.t] == Roller([])
  {
  }

  lemma FailerEnds(s: Sys, t: nat)
    requires WholeInv(s) && t in s.threads && s.threads[t].Failer? && s.threads[t].m >= |s.threads[t].g|
    ensures s.threads[t] == Failer(s.threads[t].g, |s.threads[t].g|)
  {
    WholeThread(s, t);
    hide WholeInv, ThreadWhole, Increasing, AllAre;
  }

  lemma EndWhole(s: Sys, a: Action)
    requires WholeInv(s) && Enabled(s, a)
    requires (a.FailNext? && s.threads[a.t].m >= |s.threads[a.t].g|) || (a.RollOk? && s.threads[a.t].todo == [])
    ensures WholeInv(Step(s, a))
  {
    EndsThread(s, a);
    hide WholeInv, Inv, Settled, Busy, LegalMoves, Touches, Step, Enabled;
    WholeIsInv(s);
    StepSafe(s, a);
    if a.FailNext? {
      FailerEnds(s, a.t);
      FailerDone(s, a.t, s.threads[a.t].g);
    } else {
      EmptyTouches(s.ps);
    }
    LocalWhole(s, a.t, Step(s, a));
  }

  lemma EmptyTouches(ps: seq<Promotion>)
    ensures forall i :: 0 <= i < |ps| ==> !Touches(ps, Roller([]), i)
  {
  }

  // --------------------------------------------------- claiming, rejecting, arriving

  /** Every promotion past pending is as it was, in the same release. */
  ghost predicate KeepsDecided(ps: seq<Promotion>, qs: seq<Promotion>) {
    && |ps| <= |qs|
    && (forall j :: 0 <= j < |ps| && ps[j].status != Pending ==> qs[j] == ps[j])
    && (forall i, j :: 0 <= i < |ps| && 0 <= j < |ps| ==> (SameGroup(ps, i, j) <==> SameGroup(qs, i, j)))
    && (forall i, j :: 0 <= i < |ps| <= j < |qs| && SameGroup(qs, i, j) ==> ps[i].status == Pending)
    && (forall i: nat :: i < |ps| && ps[i].status != Pending ==> Group(qs, i) == Group(ps, i))
  }

  lemma KeepsLists(ps: seq<Promotion>, qs: seq<Promotion>, g: seq<nat>, lo: int, hi: int, st: Status)
    requires KeepsDecided(ps, qs) && st != Pending && AllAre(ps, g, lo, hi, st)
    ensures AllAre(qs, g, lo, hi, st)
  {
  }

  lemma KeepsFull(ps: seq<Promotion>, qs: seq<Promotion>, g: seq<nat>)
    requires KeepsDecided(ps, qs) && Full(ps, g) && ps[g[0]].status != Pending
    ensures Full(qs, g)
  {
    hide Group;
  }

  lemma KeepsRoller(ps: seq<Promotion>, qs: seq<Promotion>, todo: seq<nat>)
    requires KeepsDecided(ps, qs) && RollerWhole(ps, todo) && (todo != [] ==> ps[todo[0]].status != Pending)
    ensures RollerWhole(qs, todo)
  {
    if todo != [] { KeepsCeased(ps, qs, todo[0]); }
    hide Group, SameGroup, Ceased;
  }

  lemma KeepsCeased(ps: seq<Promotion>, qs: seq<Promotion>, i: nat)
    requires KeepsDecided(ps, qs) && i < |ps| && ps[i].status != Pending && Ceased(ps, i)
    requires forall j :: 0 <= j < |ps| && SameGroup(ps, i, j) ==> ps[j].status != Pending
    ensures Ceased(qs, i)
  {
    hide Group, SameGroup;
    if j :| 0 <= j < |ps| && SameGroup(ps, i, j) && ps[j].status == Failed {
      assert SameGroup(qs, i, j) && qs[j].status == Failed;
    }
  }

  lemma KeepsThread(ps: seq<Promotion>, qs: seq<Promotion>, t: Thread)
    requires KeepsDecided(ps, qs) && ThreadOk(ps, t) && ThreadWhole(ps, t)
    ensures ThreadWhole(qs, t)
  {
    hide Group, KeepsDecided, ThreadOk, AllAre, RollerWhole, FinalTo, SameGroup;
    if Work(t) != [] { WorkDecided(ps, t); }
    match t
    case Deployer(g, k) =>
      KeepsFull(ps, qs, g);
      KeepsLists(ps, qs, g, 0, k, Deployed);
    case Undoer(g, j, k) =>
      KeepsFull(ps, qs, g);
      KeepsLists(ps, qs, g, j, k, RolledBack);
    case Failer(g, m) =>
      KeepsFull(ps, qs, g);
      KeepsFinal(ps, qs, g, m);
    case Roller(todo) => KeepsRoller(ps, qs, todo);
    case _ =>
  }

  lemma KeepsFinal(ps: seq<Promotion>, qs: seq<Promotion>, g: seq<nat>, m: nat)
    requires KeepsDecided(ps, qs) && FinalTo(ps, g, m)
    ensures FinalTo(qs, g, m)
  {
    hide Group;
  }

  lemma MarkKeeps(ps: seq<Promotion>, qs: seq<Promotion>, g: seq<nat>, status: Status, who: string)
    requires Marked(ps, qs, g, status, who)
    ensures KeepsDecided(ps, qs)
  {
    MarkedAt(ps, qs, g, status, who);
    hide Marked, LegalMoves, Group;
    forall i: nat | i < |ps| ensures Group(qs, i) == Group(ps, i) { GroupKept(ps, qs, i); }
  }

  lemma JoinKeeps(ps: seq<Promotion>, more: seq<Promotion>)
    requires Joins(ps, more)
    ensures KeepsDecided(ps, ps + more)
  {
    JoinGroups(ps, more);
    hide Joins, Group;
    forall i: nat | i < |ps| && ps[i].status != Pending ensures Group(ps + more, i) ==
        Group(ps, i) { GroupMore(ps, more, i); }
  }

  lemma MarkSettled(ps: seq<Promotion>, qs: seq<Promotion>, m: nat, status: Status, who: string, i: nat)
    requires m < |ps| && Marked(ps, qs, Group(ps, m), status, who) && i < |ps| && Settled(ps, i)
    ensures |qs| == |ps| && Settled(qs, i)
  {
    var g := Group(ps, m);
    MarkedAt(ps, qs, g, status, who);
    hide Marked, LegalMoves, Group;
    assert forall j :: 0 <= j < |ps| ==> (SameGroup(ps, i, j) <==> SameGroup(qs, i, j));
    assert forall j :: 0 <= j < |ps| ==> (ps[j].status == Deployed <==> qs[j].status == Deployed);
  }

  lemma MarkWhole(s: Sys, after: Sys, i: nat, status: Status, who: string)
    requires WholeInv(s) && Inv(after) && i < |s.ps| && Marked(s.ps, after.ps, Group(s.ps, i), status, who)
    requires forall u :: u in s.threads ==> u in after.threads && after.threads[u] == s.threads[u]
    requires forall u :: u in after.threads && u !in s.threads ==> after.threads[u].Waiting?
    ensures WholeInv(after)
  {
    hide Inv, ThreadWhole, ThreadOk, Settled, Marked, Group;
    MarkedAt(s.ps, after.ps, Group(s.ps, i), status, who);
    MarkKeeps(s.ps, after.ps, Group(s.ps, i), status, who);
    hide LegalMoves, KeepsDecided;
    forall u | u in after.threads ensures ThreadWhole(after.ps, after.threads[u]) {
      if u in s.threads {
        WholeThread(s, u);
        KeepsThread(s.ps, after.ps, s.threads[u]);
      } else {
        WaitingWhole(after.ps, after.threads[u]);
      }
    }
    forall x: nat | x < |after.ps| ensures Settled(after.ps, x) || Busy(after, x) {
      if Settled(s.ps, x) {
        MarkSettled(s.ps, after.ps, i, status, who, x);
      } else {
        var u :| u in s.threads && Touches(s.ps, s.threads[u], x);
        assert Touches(after.ps, after.threads[u], x);
      }
    }
  }

  lemma WaitingWhole(ps: seq<Promotion>, t: Thread)
    requires t.Waiting?
    ensures ThreadWhole(ps, t)
  {
  }

  lemma ClaimMarks(s: Sys, a: Action)
    requires Enabled(s, a) && a.ClaimIt?
    ensures Marked(s.ps, Step(s, a).ps, Group(s.ps, a.i), Deploying, a.username)
  {
    var g := Group(s.ps, a.i);
    hide Group;
    forall k | 0 <= k < |g| ensures s.ps[g[k]].status == Pending {
      assert MemberVerdict(s.ps[g[k]], a.rules, a.username).Fine?;
    }
  }

  lemma ClaimThreads(s: Sys, a: Action)
    requires Enabled(s, a) && a.ClaimIt?
    ensures a.i < |s.ps| && a.t !in s.threads && Step(s, a).threads == s.threads[a.t := Waiting(a.i, Group(s.ps, a.i))]
  {
    hide Group, ClaimVerdict, Mark;
  }

  lemma ClaimedWhole(s: Sys, after: Sys, t: nat, i: nat, who: string)
    requires WholeInv(s) && Inv(after) && i < |s.ps| && t !in s.threads
    requires Marked(s.ps, after.ps, Group(s.ps, i), Deploying, who)
    requires after.threads == s.threads[t := Waiting(i, Group(s.ps, i))]
    ensures WholeInv(after)
  {
    hide WholeInv, Inv, Group, Marked;
    MarkWhole(s, after, i, Deploying, who);
  }

  lemma ClaimWhole(s: Sys, a: Action)
    requires WholeInv(s) && Enabled(s, a) && a.ClaimIt?
    ensures WholeInv(Step(s, a))
  {
    WholeIsInv(s);
    hide WholeInv, Inv, Group, LegalMoves, ClaimVerdict, AllPending, Mark, Marked, Step, Enabled;
    StepSafe(s, a);
    ClaimMarks(s, a);
    ClaimThreads(s, a);
    ClaimedWhole(s, Step(s, a), a.t, a.i, a.username);
  }

  lemma RejectMarks(s: Sys, a: Action)
    requires Enabled(s, a) && a.RejectIt?
    ensures a.i < |s.ps| && Marked(s.ps, Step(s, a).ps, Group(s.ps, a.i), Rejected, "") &&
        Step(s, a).threads == s.threads
  {
  }

  lemma RejectWhole(s: Sys, a: Action)
    requires WholeInv(s) && Enabled(s, a) && a.RejectIt?
    ensures WholeInv(Step(s, a))
  {
    WholeIsInv(s);
    hide WholeInv, Inv, Group, LegalMoves, ClaimVerdict, AllPending, Mark, Marked;
    StepSafe(s, a);
    RejectMarks(s, a);
    hide Step, Enabled;
    MarkWhole(s, Step(s, a), a.i, Rejected, "");
  }

  /** The release a thread is at work on is past pending. */
  lemma WorkDecided(ps: seq<Promotion>, t: Thread)
    requires ThreadOk(ps, t) && ThreadWhole(ps, t) && Work(t) != []
    ensures Work(t)[0] < |ps| && ps[Work(t)[0]].status != Pending
  {
    hide Group, Full, Increasing;
    match t
    case Deployer(g, k) => assert k == 0 ==> ps[g[0]].status == Deploying;
    case Undoer(g, j, k) => assert k > 0 ==> Shipped(ps[g[0]].status);
    case Failer(g, m) => assert m == 0 ==> ps[g[0]].status == Deploying;
    case Roller(todo) => assert Shipped(ps[todo[0]].status);
  }

  lemma JoinSettled(ps: seq<Promotion>, more: seq<Promotion>, i: nat)
    requires Joins(ps, more) && i < |ps + more| && (i < |ps| ==> Settled(ps, i))
    ensures Settled(ps + more, i)
  {
    JoinGroups(ps, more);
    var all := ps + more;
    if i < |ps| {
      if exists j :: |ps| <= j < |all| && SameGroup(all, i, j) {
        JoinedPending(ps, more, i);
      }
    } else {
      forall j | 0 <= j < |all| && SameGroup(all, i, j) ensures all[j].status != Deployed {
      }
    }
  }

  lemma JoinedPending(ps: seq<Promotion>, more: seq<Promotion>, i: nat)
    requires Joins(ps, more) && i < |ps| && exists j :: |ps| <= j < |ps + more| && SameGroup(ps + more, i, j)
    ensures forall j :: 0 <= j < |ps + more| && SameGroup(ps + more, i, j) ==> (ps + more)[j].status == Pending
  {
    var all := ps + more;
    var m :| |ps| <= m < |all| && SameGroup(all, i, m);
    assert all[m] == more[m - |ps|] && all[i] == ps[i];
    forall j | 0 <= j < |all| && SameGroup(all, i, j) ensures all[j].status == Pending {
      if j < |ps| {
        assert all[j] == ps[j];
        assert SameRelease(ps[j], more[m - |ps|]);
      }
    }
  }

  lemma ArriveWhole(s: Sys, after: Sys, more: seq<Promotion>)
    requires WholeInv(s) && Inv(after) && Joins(s.ps, more) && after.ps == s.ps + more
    requires forall u :: u in after.threads ==> u in s.threads && after.threads[u] == s.threads[u]
    requires forall u :: u in s.threads && u !in after.threads ==> s.threads[u].Receiver?
    ensures WholeInv(after)
  {
    hide Inv, ThreadWhole, ThreadOk, Settled, Joins;
    JoinGroups(s.ps, more);
    JoinKeeps(s.ps, more);
    hide KeepsDecided;
    forall u | u in after.threads ensures ThreadWhole(after.ps, after.threads[u]) {
      WholeThread(s, u);
      KeepsThread(s.ps, after.ps, s.threads[u]);
    }
    forall x: nat | x < |after.ps| ensures Settled(after.ps, x) || Busy(after, x) {
      if x >= |s.ps| || Settled(s.ps, x) {
        JoinSettled(s.ps, more, x);
      } else {
        var u :| u in s.threads && Touches(s.ps, s.threads[u], x);
        assert Touches(after.ps, after.threads[u], x);
      }
    }
  }

  lemma ComeWhole(s: Sys, a: Action)
    requires WholeInv(s) && Enabled(s, a) && Quiet(s, a) && (a.ArriveAlone? || a.StoreRelease?)
    ensures WholeInv(Step(s, a))
  {
    hide WholeInv, Inv;
    var after := Step(s, a);
    WholeIsInv(s);
    StepSafe(s, a);
    if a.ArriveAlone? {
      assert Joins(s.ps, [a.p]);
      ArriveWhole(s, after, [a.p]);
    } else {
      var batch := s.threads[a.t].batch;
      InvThread(s, a.t);
      assert forall k :: 0 <= k < |batch| ==> InRelease(batch[k], batch);
      forall i, k | 0 <= i < |s.ps| && 0 <= k < |batch| && SameRelease(s.ps[i], batch[k])
        ensures s.ps[i].status == Pending
      {
        assert InRelease(s.ps[i], batch);
      }
      assert Joins(s.ps, batch);
      ArriveWhole(s, after, batch);
    }
  }

  lemma StepWhole(s: Sys, a: Action)
    requires WholeInv(s) && Enabled(s, a) && Quiet(s, a)
    ensures WholeInv(Step(s, a))
  {
    hide WholeInv;
    match a
    case ArriveAlone(_) => ComeWhole(s, a);
    case StoreRelease(_) => ComeWhole(s, a);
    case ClaimIt(_, _, _, _) => ClaimWhole(s, a);
    case RejectIt(_) => RejectWhole(s, a);
    case DeployOk(_) => DeployWhole(s, a);
    case DeployFails(_) => DeployWhole(s, a);
    case UndoOk(_) => UndoWhole(s, a);
    case FailNext(t) => if s.threads[t].m < |s.threads[t].g| { FailWhole(s, a); } else { EndWhole(s, a); }
    case RollOk(t) => if s.threads[t].todo != [] { RollWhole(s, a); } else { EndWhole(s, a); }
    case CheckRelease(_, _) => LoadWhole(s, a);
    case LoadGroup(_) => LoadWhole(s, a);
    case UndoneAll(_) => LoadWhole(s, a);
    case StartRollback(_, _) => LoadWhole(s, a);
    case UndoFails(_) =>
    case RollFails(_) =>
  }

  ghost predicate QuietRun(s: Sys, actions: seq<Action>)
    decreases |actions|
  {
    actions == [] || (Enabled(s, actions[0]) && Quiet(s, actions[0]) && QuietRun(Step(s, actions[0]), actions[1..]))
  }

  /** Over every quiet interleaving, a release nobody is at work on is deployed whole or
      not at all. */
  lemma {:induction false} ReleasesSettleWhole(s: Sys, actions: seq<Action>)
    requires WholeInv(s) && QuietRun(s, actions)
    ensures WholeInv(End(s, actions))
    ensures forall i :: 0 <= i < |End(s, actions).ps| && !Busy(End(s, actions), i) ==> Settled(End(s, actions).ps, i)
    decreases |actions|
  {
    hide Inv, ThreadWhole, Step, Enabled, Quiet;
    if actions != [] {
      StepWhole(s, actions[0]);
      ReleasesSettleWhole(Step(s, actions[0]), actions[1..]);
    }
  }

  lemma StartWhole()
    ensures WholeInv(START)
  {
    StartOk();
  }
}
