/** What a call of the service does when nobody interferes is a run of the interleaving machine:
    the actions of one thread lead to the statuses the call leaves. */
module ProtocolFollows {
  import opened Promotions
  import opened Decisions
  import opened ReleaseAtomicity
  import opened RollbackStack
  import opened ReleaseProtocol
  import opened RollbackGuard

  /** The machine's promotions are those of the store, with the same statuses. */
  ghost predicate Mirrors(st: Store, s: Sys) {
    |s.ps| == |st.ps| && forall j :: 0 <= j < |st.ps| ==>
      s.ps[j].id == st.ps[j].id && s.ps[j].offer == st.ps[j].offer && s.ps[j].status == st.ps[j].status
  }

  /** The actions can happen one after the other, and lead from s to e. */
  ghost predicate Leads(s: Sys, acts: seq<Action>, e: Sys)
    decreases |acts|
  {
    if acts == [] then e == s else Enabled(s, acts[0]) && Leads(ReleaseProtocol.Step(s, acts[0]), acts[1..], e)
  }

  lemma {:induction false} LeadsOn(s: Sys, a: seq<Action>, m: Sys, b: seq<Action>, e: Sys)
    requires Leads(s, a, m) && Leads(m, b, e)
    ensures Leads(s, a + b, e)
    decreases |a|
  {
    hide Enabled, ReleaseProtocol.Step;
    if a == [] {
      assert a + b == b;
    } else {
      assert (a + b)[0] == a[0] && (a + b)[1..] == a[1..] + b;
      LeadsOn(ReleaseProtocol.Step(s, a[0]), a[1..], m, b, e);
    }
  }

  lemma OneAction(s: Sys, a: Action)
    requires Enabled(s, a)
    ensures Leads(s, [a], ReleaseProtocol.Step(s, a))
  {
    hide Enabled, ReleaseProtocol.Step;
    assert [a][1..] == [];
    assert Leads(ReleaseProtocol.Step(s, a), [], ReleaseProtocol.Step(s, a));
  }

  /** Only thread t changed among the threads. */
  ghost predicate OnlyThread(s: Sys, e: Sys, t: nat) {
    e.threads - {t} == s.threads - {t}
  }

  // ------------------------------------------------------------------------- undoing

  lemma UndoFollows(st: Store, s: Sys, t: nat, g: seq<nat>, j: nat, k: nat, env: Env) returns (a: Action)
    requires Valid(st) && Mirrors(st, s) && t in s.threads && s.threads[t] == Undoer(g, j, k)
    requires 0 < j <= |g| && InRange(g, |st.ps|)
    ensures Enabled(s, a)
    ensures var e := ReleaseProtocol.Step(s, a);
      && Mirrors(Undo(st, st.ps[g[j - 1]].id, env).0, e) && OnlyThread(s, e, t)
      && t in e.threads && e.threads[t] == Undoer(g, j - 1, k)
  {
    hide Undo, UndoneFlow, Valid;
    UndoEnds(st, g[j - 1], env);
    a := if Undo(st, st.ps[g[j - 1]].id, env).1 then UndoOk(t) else UndoFails(t);
  }

  lemma SameIDs(st: Store, u: Store, g: seq<nat>, ids: seq<string>)
    requires Names(ids, st, g) && |u.ps| == |st.ps| && forall j :: 0 <= j < |st.ps| ==> u.ps[j].id == st.ps[j].id
    ensures Names(ids, u, g)
  {
  }

  lemma UndoKeepsIDs(st: Store, id: string, env: Env)
    requires Valid(st)
    ensures var u := Undo(st, id, env).0;
      && Valid(u) && |u.ps| == |st.ps| && forall j :: 0 <= j < |st.ps| ==> u.ps[j].id == st.ps[j].id
  {
    var i := IndexOf(st.ps, id);
    if i >= 0 { UndoEnds(st, i, env); }
    hide Valid, UndoneFlow;
  }

  lemma {:induction false} UndoDownFollows(st: Store, s: Sys, t: nat, g: seq<nat>, ids: seq<string>, j: nat, k: nat,
                                           env: Env)
    returns (acts: seq<Action>, e: Sys)
    requires Valid(st) && Mirrors(st, s) && t in s.threads && s.threads[t] == Undoer(g, j, k)
    requires j <= |g| && Names(ids, st, g)
    ensures Leads(s, acts, e) && Mirrors(UndoDown(st, ids, j, env), e) && OnlyThread(s, e, t)
    ensures t in e.threads && e.threads[t] == Undoer(g, 0, k)
    ensures Valid(UndoDown(st, ids, j, env)) && Names(ids, UndoDown(st, ids, j, env), g)
    decreases j
  {
    hide Undo, Valid, Mirrors, ReleaseProtocol.Step, Enabled;
    if j == 0 {
      acts, e := [], s;
    } else {
      var a := UndoFollows(st, s, t, g, j, k, env);
      var u, m := Undo(st, ids[j - 1], env).0, ReleaseProtocol.Step(s, a);
      UndoKeepsIDs(st, ids[j - 1], env);
      SameIDs(st, u, g, ids);
      var more;
      more, e := UndoDownFollows(u, m, t, g, ids, j - 1, k, env);
      OneAction(s, a);
      LeadsOn(s, [a], m, more, e);
      acts := [a] + more;
    }
  }

  // ------------------------------------------------------------------------- failing

  lemma FailFollows(st: Store, s: Sys, t: nat, g: seq<nat>, m: nat, who: string)
    requires Valid(st) && Mirrors(st, s) && t in s.threads && s.threads[t] == Failer(g, m)
    requires m < |g| && InRange(g, |st.ps|)
    ensures Enabled(s, FailNext(t))
    ensures var e, u := ReleaseProtocol.Step(s, FailNext(t)), Fail(st, st.ps[g[m]].id, who);
      && Mirrors(u, e) && OnlyThread(s, e, t) && t in e.threads && e.threads[t] == Failer(g, m + 1)
      && Valid(u) && |u.ps| == |st.ps| && forall j :: 0 <= j < |st.ps| ==> u.ps[j].id == st.ps[j].id
  {
    hide Fail, Valid;
    FailKeeps(st, g[m], who);
  }

  lemma {:induction false} FailFromFollows(st: Store, s: Sys, t: nat, g: seq<nat>, ids: seq<string>, m: nat,
                                           who: string)
    returns (acts: seq<Action>, e: Sys)
    requires Valid(st) && Mirrors(st, s) && t in s.threads && s.threads[t] == Failer(g, m)
    requires m <= |g| && Names(ids, st, g)
    ensures Leads(s, acts, e) && Mirrors(FailFrom(st, ids, m, who), e) && OnlyThread(s, e, t) && t !in e.threads
    decreases |g| - m
  {
    hide Fail, Valid;
    if m == |g| {
      e := ReleaseProtocol.Step(s, FailNext(t));
      acts := [FailNext(t)];
      OneAction(s, FailNext(t));
    } else {
      FailFollows(st, s, t, g, m, who);
      hide Mirrors, ReleaseProtocol.Step, Enabled;
      var u, n := Fail(st, ids[m], who), ReleaseProtocol.Step(s, FailNext(t));
      SameIDs(st, u, g, ids);
      var more;
      more, e := FailFromFollows(u, n, t, g, ids, m + 1, who);
      OneAction(s, FailNext(t));
      LeadsOn(s, [FailNext(t)], n, more, e);
      acts := [FailNext(t)] + more;
    }
  }

  /** unwindRelease */
  lemma UnwindFollows(st: Store, s: Sys, t: nat, g: seq<nat>, ids: seq<string>, k: nat, who: string, env: Env)
    returns (acts: seq<Action>, e: Sys)
    requires Valid(st) && Mirrors(st, s) && t in s.threads && s.threads[t] == Undoer(g, k, k)
    requires k < |g| && Names(ids, st, g)
    ensures Leads(s, acts, e) && Mirrors(Unwind(st, ids, k, who, env), e) && OnlyThread(s, e, t) && t !in e.threads
  {
    hide Valid, UndoDown, FailFrom;
    var back, m := UndoDownFollows(st, s, t, g, ids, k, k, env);
    var n := ReleaseProtocol.Step(m, UndoneAll(t));
    OneAction(m, UndoneAll(t));
    var u := UndoDown(st, ids, k, env);
    assert Mirrors(u, n) && n.threads == m.threads[t := Failer(g, k + 1)];
    var on;
    on, e := FailFromFollows(u, n, t, g, ids, k + 1, who);
    LeadsOn(m, [UndoneAll(t)], n, on, e);
    LeadsOn(s, back, m, [UndoneAll(t)] + on, e);
    acts := back + ([UndoneAll(t)] + on);
  }

  // ----------------------------------------------------------------------- deploying

  lemma DeployFollows(st: Store, s: Sys, t: nat, g: seq<nat>, k: nat, terms: Terms, env: Env) returns (a: Action)
    requires Valid(st) && Mirrors(st, s) && t in s.threads && s.threads[t] == Deployer(g, k)
    requires k < |g| && InRange(g, |st.ps|)
    ensures Enabled(s, a)
    ensures var e, (u, ok) := ReleaseProtocol.Step(s, a), Deploy(st, st.ps[g[k]].id, terms, env);
      && Mirrors(u, e) && OnlyThread(s, e, t) && Valid(u) && |u.ps| == |st.ps|
      && (forall j :: 0 <= j < |st.ps| ==> u.ps[j].id == st.ps[j].id)
      && (t in e.threads <==> if ok then k + 1 < |g| else |g| > 1)
      && (t in e.threads ==> e.threads[t] == if ok then Deployer(g, k + 1) else Undoer(g, k, k))
  {
    hide Deploy, SavedOver, Valid;
    DeployEnds(st, g[k], terms, env);
    a := if Deploy(st, st.ps[g[k]].id, terms, env).1 then DeployOk(t) else DeployFails(t);
  }

  /** deployGroup's loop */
  lemma {:induction false} DeployFromFollows(st: Store, s: Sys, t: nat, g: seq<nat>, ids: seq<string>, k: nat,
                                             terms: Terms, env: Env)
    returns (acts: seq<Action>, e: Sys)
    requires Valid(st) && Mirrors(st, s) && t in s.threads && s.threads[t] == Deployer(g, k)
    requires k < |g| && Names(ids, st, g)
    ensures Leads(s, acts, e) && Mirrors(DeployFrom(st, ids, k, terms, env).0, e) && OnlyThread(s, e, t)
    ensures t !in e.threads
    decreases |g| - k
  {
    hide Deploy, Unwind, Valid;
    var a := DeployFollows(st, s, t, g, k, terms, env);
    var (u, ok) := Deploy(st, ids[k], terms, env);
    var m := ReleaseProtocol.Step(s, a);
    hide Mirrors, ReleaseProtocol.Step, Enabled;
    SameIDs(st, u, g, ids);
    OneAction(s, a);
    if t !in m.threads {
      acts, e := [a], m;
    } else {
      var more;
      if ok { more, e := DeployFromFollows(u, m, t, g, ids, k + 1, terms, env); }
      else { more, e := UnwindFollows(u, m, t, g, ids, k, terms.who, env); }
      LeadsOn(s, [a], m, more, e);
      acts := [a] + more;
    }
  }

  // --------------------------------------------------------------------- whole calls

  lemma MirrorsGroups(st: Store, s: Sys, i: nat)
    requires Mirrors(st, s) && i < |st.ps|
    ensures Group(s.ps, i) == Group(st.ps, i)
  {
    GroupSame(st.ps, s.ps, i);
  }

  lemma {:induction false} MirrorsClaim(st: Store, s: Sys, g: seq<nat>, n: nat, rules: Rules, username: string)
    requires Mirrors(st, s) && n <= |g| && InRange(g, |st.ps|)
    ensures ClaimVerdict(s.ps, g, n, rules, username) == ClaimVerdict(st.ps, g, n, rules, username)
  {
    if n > 0 { MirrorsClaim(st, s, g, n - 1, rules, username); }
  }

  /** The critical section of approve */
  lemma ClaimFollows(st: Store, s: Sys, t: nat, i: nat, rules: Rules, username: string, who: string,
                     typed: map<string, string>)
    requires Valid(st) && i < |st.ps| && Mirrors(st, s) && t !in s.threads
    requires Claim(st, rules, st.ps[i].id, username, who, typed).1.Fine?
    ensures Enabled(s, ClaimIt(t, i, username, rules))
    ensures var e, u := ReleaseProtocol.Step(s, ClaimIt(t, i, username, rules)),
                        Claim(st, rules, st.ps[i].id, username, who, typed).0;
      && Mirrors(u, e) && OnlyThread(s, e, t) && t in e.threads && e.threads[t] == Waiting(i, Group(st.ps, i))
      && u == st.(ps := Mark(st.ps, Group(st.ps, i), Deploying, who))
  {
    hide ClaimVerdict, ValuesAccepted, Group, Valid, Mark, Mirrors;
    IndexOfValid(st, i);
    MirrorsGroups(st, s, i);
    MirrorsClaim(st, s, Group(st.ps, i), |Group(st.ps, i)|, rules, username);
    ClaimMarks(st, i, rules, username, who, typed);
    hide Claim;
    MirrorsMark(st, s, Group(st.ps, i), Deploying, who, username);
    SameSize(st, s);
  }

  lemma SameSize(st: Store, s: Sys)
    requires Mirrors(st, s)
    ensures |s.ps| == |st.ps|
  {
  }

  lemma ClaimMarks(st: Store, i: nat, rules: Rules, username: string, who: string, typed: map<string, string>)
    requires i < |st.ps| && IndexOf(st.ps, st.ps[i].id) == i
    requires Claim(st, rules, st.ps[i].id, username, who, typed).1.Fine?
    ensures ClaimVerdict(st.ps, Group(st.ps, i), |Group(st.ps, i)|, rules, username).Fine?
    ensures Claim(st, rules, st.ps[i].id, username, who, typed).0 ==
            st.(ps := Mark(st.ps, Group(st.ps, i), Deploying, who))
  {
    hide ClaimVerdict, ValuesAccepted, Group, Mark;
  }

  lemma IndexOfValid(st: Store, i: nat)
    requires Valid(st) && i < |st.ps|
    ensures IndexOf(st.ps, st.ps[i].id) == i && UniqueIDs(st.ps)
  {
    IndexOfUnique(st.ps, i);
  }

  /** An approval: the claim, then the deploy of the whole release. */
  lemma ApproveFollows(st: Store, s: Sys, t: nat, i: nat, rules: Rules, username: string, who: string,
                       typed: map<string, string>, startAnyway: bool, env: Env)
    returns (acts: seq<Action>, e: Sys)
    requires Valid(st) && i < |st.ps| && Mirrors(st, s) && t !in s.threads
    requires Claim(st, rules, st.ps[i].id, username, who, typed).1.Fine?
    ensures Leads(s, acts, e) && OnlyThread(s, e, t) && t !in e.threads
    ensures Mirrors(Approve(st, rules, st.ps[i].id, username, who, typed, startAnyway, env).0, e)
  {
    hide Claim, DeployFrom, Group, Mirrors, Enabled, ReleaseProtocol.Step;
    var id := st.ps[i].id;
    var c := ClaimIt(t, i, username, rules);
    ClaimFollows(st, s, t, i, rules, username, who, typed);
    var u, m := Claim(st, rules, id, username, who, typed).0, ReleaseProtocol.Step(s, c);
    MarkedValid(st, u, Group(st.ps, i), Deploying, who);
    GroupLoads(u, m, t, i, Group(st.ps, i));
    var n := ReleaseProtocol.Step(m, LoadGroup(t));
    var g := Group(u.ps, i);
    IndexOfValid(u, i);
    var ids := IDsAt(u.ps, g);
    var more;
    more, e := DeployFromFollows(u, n, t, g, ids, 0, Terms(who, NonBlank(typed), startAnyway), env);
    OneAction(s, c);
    OneAction(m, LoadGroup(t));
    LeadsOn(m, [LoadGroup(t)], n, more, e);
    LeadsOn(s, [c], m, [LoadGroup(t)] + more, e);
    acts := [c] + ([LoadGroup(t)] + more);
  }

  lemma MarkedValid(st: Store, u: Store, g: seq<nat>, status: Status, who: string)
    requires Valid(st) && u == st.(ps := Mark(st.ps, g, status, who))
    ensures Valid(u) && |u.ps| == |st.ps| && forall j :: 0 <= j < |st.ps| ==> u.ps[j].id == st.ps[j].id
  {
    forall j | 0 <= j < |u.ps| ensures BodyFiled(u.bodies, u.ps[j]) { assert BodyFiled(st.bodies, st.ps[j]); }
  }

  lemma GroupLoads(u: Store, m: Sys, t: nat, i: nat, g: seq<nat>)
    requires Mirrors(u, m) && i < |u.ps| && t in m.threads && m.threads[t] == Waiting(i, g)
    ensures Enabled(m, LoadGroup(t))
    ensures var n := ReleaseProtocol.Step(m, LoadGroup(t));
      && Mirrors(u, n) && OnlyThread(m, n, t) && t in n.threads && n.threads[t] == Deployer(Group(u.ps, i), 0)
      && |Group(u.ps, i)| > 0
  {
    MirrorsGroups(u, m, i);
    assert i in Group(u.ps, i);
    hide Group;
  }

  lemma MirrorsPending(st: Store, s: Sys, g: seq<nat>)
    requires Mirrors(st, s) && InRange(g, |st.ps|)
    ensures InRange(g, |s.ps|) && (AllPending(s.ps, g) <==> AllPending(st.ps, g))
  {
  }

  lemma RejectMarksAll(st: Store, i: nat, username: string, reason: string)
    requires i < |st.ps| && IndexOf(st.ps, st.ps[i].id) == i && Reject(st, st.ps[i].id, username, reason).1.Fine?
    ensures AllPending(st.ps, Group(st.ps, i))
    ensures Reject(st, st.ps[i].id, username, reason).0.ps == Mark(st.ps, Group(st.ps, i), Rejected, username)
  {
    hide Group, DropAll, Mark, AllPending;
  }

  /** A rejection */
  lemma RejectFollows(st: Store, s: Sys, i: nat, username: string, reason: string)
    requires Valid(st) && i < |st.ps| && Mirrors(st, s) && Reject(st, st.ps[i].id, username, reason).1.Fine?
    ensures Enabled(s, RejectIt(i))
    ensures var e := ReleaseProtocol.Step(s, RejectIt(i));
      Mirrors(Reject(st, st.ps[i].id, username, reason).0, e) && e.threads == s.threads
  {
    hide Group, Valid, Mark, Mirrors, Reject, AllPending;
    IndexOfValid(st, i);
    SameSize(st, s);
    MirrorsGroups(st, s, i);
    RejectMarksAll(st, i, username, reason);
    MirrorsPending(st, s, Group(st.ps, i));
    MirrorsMark(st, s, Group(st.ps, i), Rejected, username, "");
  }

  lemma MirrorsMark(st: Store, s: Sys, g: seq<nat>, status: Status, a: string, b: string)
    requires Mirrors(st, s)
    ensures forall u: Store, e: Sys | u.ps == Mark(st.ps, g, status, a) && e.ps == Mark(s.ps, g, status, b) ::
              Mirrors(u, e)
  {
  }

  /** Rollback's loop, with todo[..k] still to undo. */
  lemma {:induction false} RollFollows(st: Store, s: Sys, t: nat, d: seq<nat>, ids: seq<string>, k: nat, env: Env)
    returns (acts: seq<Action>, e: Sys)
    requires Valid(st) && Mirrors(st, s) && k <= |d| && t in s.threads && s.threads[t] == Roller(d[..k])
    requires Names(ids, st, d)
    ensures Leads(s, acts, e) && OnlyThread(s, e, t) && t !in e.threads
    ensures Mirrors(UndoUntilError(st, ids, k, env).0, e)
    decreases k
  {
    hide Undo, Valid, UndoneFlow;
    if k == 0 {
      assert d[..0] == [];
      e := ReleaseProtocol.Step(s, RollOk(t));
      acts := [RollOk(t)];
      OneAction(s, RollOk(t));
    } else {
      RolledOne(st, s, t, d, ids, k, env);
      var (u, ok) := Undo(st, ids[k - 1], env);
      var a := if ok then RollOk(t) else RollFails(t);
      var m := ReleaseProtocol.Step(s, a);
      OneAction(s, a);
      hide Mirrors, ReleaseProtocol.Step, Enabled;
      if ok {
        UndoKeepsIDs(st, ids[k - 1], env);
        SameIDs(st, u, d, ids);
        var more;
        more, e := RollFollows(u, m, t, d, ids, k - 1, env);
        LeadsOn(s, [a], m, more, e);
        acts := [a] + more;
      } else {
        acts, e := [a], m;
      }
    }
  }

  lemma RolledOne(st: Store, s: Sys, t: nat, d: seq<nat>, ids: seq<string>, k: nat, env: Env)
    requires Valid(st) && Mirrors(st, s) && 0 < k <= |d| && t in s.threads && s.threads[t] == Roller(d[..k])
    requires Names(ids, st, d)
    ensures var (u, ok) := Undo(st, ids[k - 1], env); var a := if ok then RollOk(t) else RollFails(t);
      && Enabled(s, a)
      && var m := ReleaseProtocol.Step(s, a);
        && Mirrors(u, m) && OnlyThread(s, m, t)
        && (if ok then t in m.threads && m.threads[t] == Roller(d[..k - 1]) else t !in m.threads)
  {
    hide Undo, Valid, UndoneFlow;
    UndoEnds(st, d[k - 1], env);
    assert d[..k][..k - 1] == d[..k - 1] && d[..k][k - 1] == d[k - 1];
  }

  lemma MirrorsSame(st: Store, s: Sys, m: Sys)
    requires Mirrors(st, s) && m.ps == s.ps
    ensures Mirrors(st, m)
  {
  }

  /** A rollback: the guard, then the loop. */
  lemma RollbackFollows(st: Store, s: Sys, t: nat, i: nat, env: Env) returns (acts: seq<Action>, e: Sys)
    requires Valid(st) && ReleasesDistinct(st.ps) && i < |st.ps| && Mirrors(st, s) && t !in s.threads
    requires RollbackVerdict(st.ps, i).Fine?
    ensures Leads(s, acts, e) && OnlyThread(s, e, t) && t !in e.threads
    ensures Mirrors(Rollback(st, st.ps[i].id, env).0, e)
  {
    hide RollbackVerdict, Group, DeployedOf, UndoUntilError, Valid, ReleasesDistinct, Mirrors, Leads;
    IndexOfValid(st, i);
    SameSize(st, s);
    MirrorsRollback(st, s, i);
    var d := DeployedOf(st.ps, Group(st.ps, i), |Group(st.ps, i)|);
    var ids := IDsAt(st.ps, d);
    var m := ReleaseProtocol.Step(s, StartRollback(t, i));
    assert d[..|d|] == d;
    MirrorsSame(st, s, m);
    hide Mirrors;
    var more;
    more, e := RollFollows(st, m, t, d, ids, |d|, env);
    OneAction(s, StartRollback(t, i));
    LeadsOn(s, [StartRollback(t, i)], m, more, e);
    acts := [StartRollback(t, i)] + more;
  }

  lemma {:induction false} MirrorsDeployed(st: Store, s: Sys, g: seq<nat>, n: nat)
    requires Mirrors(st, s) && n <= |g| && InRange(g, |st.ps|)
    ensures DeployedOf(s.ps, g, n) == DeployedOf(st.ps, g, n)
  {
    if n > 0 { MirrorsDeployed(st, s, g, n - 1); }
  }

  lemma MirrorsRollback(st: Store, s: Sys, i: nat)
    requires Mirrors(st, s) && i < |st.ps| && ReleasesDistinct(st.ps)
    ensures RollbackVerdict(s.ps, i).Fine? <==> RollbackVerdict(st.ps, i).Fine?
    ensures var g := Group(st.ps, i); g == Group(s.ps, i) && DeployedOf(s.ps, g, |g|) == DeployedOf(st.ps, g, |g|)
  {
    hide Group, RollbackVerdict, DeployedOf, ReleasesDistinct;
    MirrorsGroups(st, s, i);
    MirrorsDeployed(st, s, Group(st.ps, i), |Group(st.ps, i)|);
    SameOffers(st.ps, s.ps);
    RollbackPermittedIff(st.ps, i);
    RollbackPermittedIff(s.ps, i);
  }
}
