/** When a rollback is permitted, what a permitted one leaves, and that the stack of deployed
    promotions of a workflow can be emptied by rolling back again and again (receive.go,
    Rollback). */
module RollbackGuard {
  import opened Workflows
  import opened Promotions
  import opened Decisions
  import opened ReleaseAtomicity
  import opened RollbackStack
  import opened ReleaseOutcome

  /** y is decided together with x: they came from one instance under one release id, or are
      the same promotion sent by itself. */
  predicate Together(ps: seq<Promotion>, x: nat, y: nat)
    requires x < |ps| && y < |ps|
  {
    x == y ||
    (ps[x].offer.releaseID != "" && ps[y].offer.releaseID == ps[x].offer.releaseID &&
     ps[y].offer.peerID == ps[x].offer.peerID)
  }

  /** A release is all of its members, in the order they were sent, and nothing else. */
  lemma GroupIs(ps: seq<Promotion>, i: nat)
    requires i < |ps|
    ensures forall x: nat :: x in Group(ps, i) <==> x < |ps| && Together(ps, i, x)
    ensures forall a, b :: 0 <= a < b < |Group(ps, i)| ==> Group(ps, i)[a] < Group(ps, i)[b]
  {
  }

  /** A newer deployed promotion of ps[j]'s workflow, at q. */
  predicate Newer(ps: seq<Promotion>, j: nat, q: nat)
    requires j < |ps|
  {
    j < q < |ps| && ps[q].status == Deployed && ps[q].offer.workflowID == ps[j].offer.workflowID
  }

  /** It comes from another instance under the same release id. */
  predicate FromElsewhere(p: Promotion, q: Promotion) {
    q.offer.releaseID == p.offer.releaseID != "" && q.offer.peerID != p.offer.peerID
  }

  /** Every deployed member of the release is its workflow's newest, as far as the guard sees. */
  ghost predicate SeemsNewest(ps: seq<Promotion>, i: nat)
    requires i < |ps|
  {
    forall j: nat, q: nat | j < |ps| && Together(ps, i, j) && ps[j].status == Deployed && Newer(ps, j, q) ::
      FromElsewhere(ps[j], ps[q])
  }

  /** A rollback is permitted exactly when the promotion is deployed and every deployed member
      of its release is the newest deployed promotion of its workflow, not counting those of
      another instance's release of the same id. */
  lemma RollbackPermittedIff(ps: seq<Promotion>, i: nat)
    requires i < |ps| && ReleasesDistinct(ps)
    ensures RollbackVerdict(ps, i).Fine? <==> ps[i].status == Deployed && SeemsNewest(ps, i)
    ensures RollbackVerdict(ps, i).Refuse? ==> RollbackVerdict(ps, i).why == Conflict
  {
    hide Group;
    var g := Group(ps, i);
    GroupIs(ps, i);
    forall j: nat | j < |ps| && Together(ps, i, j)
      ensures NewerBlocks(ps, j) <==> exists q: nat :: Newer(ps, j, q) && !FromElsewhere(ps[j], ps[q])
    {
      BlocksIs(ps, j);
    }
    if ps[i].status == Deployed && RollbackVerdict(ps, i).Refuse? {
      var k :| 0 <= k < |g| && ps[g[k]].status == Deployed && NewerBlocks(ps, g[k]);
      assert Together(ps, i, g[k]);
      var q: nat :| Newer(ps, g[k], q) && !FromElsewhere(ps[g[k]], ps[q]);
      assert !SeemsNewest(ps, i);
    }
    if RollbackVerdict(ps, i).Fine? {
      forall j: nat, q: nat | j < |ps| && Together(ps, i, j) && ps[j].status == Deployed && Newer(ps, j, q)
        ensures FromElsewhere(ps[j], ps[q])
      {
        assert j in g;
        var k :| 0 <= k < |g| && g[k] == j;
        assert !NewerBlocks(ps, g[k]);
      }
    }
  }

  lemma BlocksIs(ps: seq<Promotion>, j: nat)
    requires j < |ps| && ReleasesDistinct(ps)
    ensures NewerBlocks(ps, j) <==> exists q: nat :: Newer(ps, j, q) && !FromElsewhere(ps[j], ps[q])
  {
    forall q: nat | Newer(ps, j, q) ensures Blocks(ps[j], ps[q]) <==> !FromElsewhere(ps[j], ps[q]) {
      assert !SameGroup(ps, j, q);
    }
  }

  /** In the terms of the stack: the newest may be rolled back; and what may be rolled back is
      the newest, unless a newer one hides. */
  lemma NewestMayRollBack(ps: seq<Promotion>, i: nat)
    requires i < |ps| && ReleasesDistinct(ps)
    ensures ps[i].status == Deployed && (forall w: string :: UndoesNewest(ps, i, w)) ==> RollbackVerdict(ps, i).Fine?
    ensures RollbackVerdict(ps, i).Fine? ==>
              ps[i].status == Deployed && forall w: string :: UndoesNewest(ps, i, w) || HiddenNewer(ps, i, w)
  {
    hide Group, HiddenNewer;
    GroupIs(ps, i);
    RollbackPermittedIff(ps, i);
    var g := Group(ps, i);
    if forall w: string :: UndoesNewest(ps, i, w) {
      forall j: nat, q: nat | j < |ps| && Together(ps, i, j) && ps[j].status == Deployed ensures !Newer(ps, j, q) {
        var k :| 0 <= k < |g| && g[k] == j;
        assert UndoesNewest(ps, i, ps[j].offer.workflowID) && LiveFor(ps[g[k]], ps[j].offer.workflowID);
      }
    }
    if RollbackVerdict(ps, i).Fine? {
      forall w: string ensures UndoesNewest(ps, i, w) || HiddenNewer(ps, i, w) { RollbackNewestIff(ps, i, w); }
    }
  }

  // -------------------------------------------------------------- what a rollback leaves

  /** The deployed members of ps[i]'s release. */
  predicate Member(ps: seq<Promotion>, i: nat, j: nat)
    requires i < |ps| && j < |ps|
  {
    Together(ps, i, j) && ps[j].status == Deployed
  }

  /** Exactly the members d[k..] of st0 are undone in st. */
  ghost predicate UndoneFrom(st0: Store, st: Store, d: seq<nat>, k: nat) {
    && k <= |d| && |st.ps| == |st0.ps| && (forall a :: 0 <= a < |d| ==> d[a] < |st0.ps|)
    && st == st0.(ps := st.ps, flows := st.flows)
    && (forall j :: 0 <= j < |st0.ps| ==>
          st.ps[j] == if j in d[k..] then st0.ps[j].(status := RolledBack) else st0.ps[j])
    && (forall a :: k <= a < |d| ==>
          RowBack(st0.flows, st.flows, st0.ps[d[a]].offer.workflowID, st0.ps[d[a]].previous))
    && (forall w: string :: (forall a :: k <= a < |d| ==> st0.ps[d[a]].offer.workflowID != w) ==>
          SameFlow(st0.flows, st.flows, w))
  }

  /** Members of a store in rising order, no workflow twice. */
  ghost predicate Listed(st: Store, d: seq<nat>, ids: seq<string>) {
    && |ids| == |d| && (forall a :: 0 <= a < |d| ==> d[a] < |st.ps| && ids[a] == st.ps[d[a]].id)
    && (forall a, b :: 0 <= a < b < |d| ==> d[a] < d[b])
    && (forall a, b :: 0 <= a < b < |d| ==> st.ps[d[a]].offer.workflowID != st.ps[d[b]].offer.workflowID)
  }

  lemma RowBackSame(f0: Flows, f: Flows, g: Flows, w: string, previous: nat)
    requires SameFlow(f0, f, w) && RowBack(f, g, w, previous)
    ensures RowBack(f0, g, w, previous)
  {
  }

  lemma RowBackStays(f0: Flows, f: Flows, g: Flows, w: string, previous: nat)
    requires RowBack(f0, f, w, previous) && SameFlow(f, g, w)
    ensures RowBack(f0, g, w, previous)
  {
  }

  lemma CanUndoSame(st0: Store, st: Store, p: Promotion, env: Env)
    requires SameFlow(st0.flows, st.flows, p.offer.workflowID)
    ensures CanUndo(st0, p, env) <==> CanUndo(st, p, env)
  {
  }

  lemma UndoneOne(st0: Store, st: Store, u: Store, d: seq<nat>, ids: seq<string>, k: nat)
    requires k < |d| && Listed(st0, d, ids) && UndoneFrom(st0, st, d, k + 1)
    requires u == st.(ps := st.ps[d[k] := st.ps[d[k]].(status := RolledBack)], flows := u.flows)
    requires RowUndone(st.flows, u.flows, st.ps[d[k]].offer.workflowID, st.ps[d[k]].previous)
    ensures UndoneFrom(st0, u, d, k)
  {
    assert d[k] !in d[k + 1..];
    var w := st0.ps[d[k]].offer.workflowID;
    assert d[k..] == [d[k]] + d[k + 1..];
    hide RowBack, SameFlow;
    forall a | k <= a < |d|
      ensures RowBack(st0.flows, u.flows, st0.ps[d[a]].offer.workflowID, st0.ps[d[a]].previous)
    {
      if a == k {
        RowBackSame(st0.flows, st.flows, u.flows, w, st0.ps[d[k]].previous);
      } else {
        RowBackStays(st0.flows, st.flows, u.flows, st0.ps[d[a]].offer.workflowID, st0.ps[d[a]].previous);
      }
    }
    forall x: string | forall a :: k <= a < |d| ==> st0.ps[d[a]].offer.workflowID != x
      ensures SameFlow(st0.flows, u.flows, x)
    {
      assert x != w && forall a :: k + 1 <= a < |d| ==> st0.ps[d[a]].offer.workflowID != x;
      SameFlowTrans(st0.flows, st.flows, u.flows, x);
    }
  }

  lemma SameFlowTrans(f: Flows, g: Flows, h: Flows, w: string)
    requires SameFlow(f, g, w) && SameFlow(g, h, w)
    ensures SameFlow(f, h, w)
  {
  }

  /** Undoing newest first: all of them, or down to the first that cannot be undone. */
  lemma {:induction false} UndoneDown(st0: Store, st: Store, d: seq<nat>, ids: seq<string>, k: nat, env: Env)
    requires Valid(st) && k <= |d| && Listed(st0, d, ids) && UndoneFrom(st0, st, d, k)
    ensures var (s, ok) := UndoUntilError(st, ids, k, env);
      && Valid(s)
      && (ok <==> forall a :: 0 <= a < k ==> CanUndo(st0, st0.ps[d[a]], env))
      && exists m: nat :: m <= k && (m == 0 <==> ok) && UndoneFrom(st0, s, d, m) &&
           (m > 0 ==> !CanUndo(st0, st0.ps[d[m - 1]], env))
    decreases k
  {
    hide UndoneFrom, CanUndo, Undo, RowUndone, Valid;
    if k == 0 {
      assert UndoneFrom(st0, st, d, 0);
    } else {
      var (u, ok) := Undo(st, ids[k - 1], env);
      UndoneNext(st0, st, d, ids, k, env);
      if ok {
        UndoneDown(st0, u, d, ids, k - 1, env);
      } else {
        assert UndoneFrom(st0, st, d, k);
      }
    }
  }

  lemma UndoneNext(st0: Store, st: Store, d: seq<nat>, ids: seq<string>, k: nat, env: Env)
    requires Valid(st) && 0 < k <= |d| && Listed(st0, d, ids) && UndoneFrom(st0, st, d, k)
    ensures var (u, ok) := Undo(st, ids[k - 1], env);
      && Valid(u) && (ok <==> CanUndo(st0, st0.ps[d[k - 1]], env))
      && (if ok then UndoneFrom(st0, u, d, k - 1) else u == st)
  {
    hide CanUndo, Undo, RowUndone, RowBack, Valid;
    var j := d[k - 1];
    assert j !in d[k..];
    assert SameFlow(st0.flows, st.flows, st0.ps[j].offer.workflowID);
    hide UndoneFrom;
    CanUndoSame(st0, st, st0.ps[j], env);
    UndoLeaves(st, j, env);
    UndoEnds(st, j, env);
    if Undo(st, ids[k - 1], env).1 { UndoneOne(st0, st, Undo(st, ids[k - 1], env).0, d, ids, k - 1); }
  }

  /** The members of ps[i]'s release from place m on are rolled back, each workflow is back at
      its earlier version or stopped, and nothing else changed. */
  ghost predicate RolledBackFrom(st: Store, s: Store, i: nat, m: nat)
    requires i < |st.ps|
  {
    && |s.ps| == |st.ps| && s == st.(ps := s.ps, flows := s.flows)
    && (forall j :: 0 <= j < |st.ps| ==>
          s.ps[j] == if j >= m && Member(st.ps, i, j) then st.ps[j].(status := RolledBack) else st.ps[j])
    && (forall j :: m <= j < |st.ps| && Member(st.ps, i, j) ==>
          RowBack(st.flows, s.flows, st.ps[j].offer.workflowID, st.ps[j].previous))
    && (forall w: string :: (forall j :: m <= j < |st.ps| && Member(st.ps, i, j) ==> st.ps[j].offer.workflowID != w) ==>
          SameFlow(st.flows, s.flows, w))
  }

  /** The list Rollback undoes is the deployed members, in the order they were sent. */
  lemma DeployedMembers(ps: seq<Promotion>, i: nat)
    requires i < |ps|
    ensures var d := DeployedOf(ps, Group(ps, i), |Group(ps, i)|);
      && (forall j: nat :: j in d <==> j < |ps| && Member(ps, i, j))
      && (forall a, b :: 0 <= a < b < |d| ==> d[a] < d[b])
  {
    GroupIs(ps, i);
    hide Group;
    var g := Group(ps, i);
    forall j: nat | j < |ps| && Member(ps, i, j) ensures j in DeployedOf(ps, g, |g|) {
      assert j in g;
      var k :| 0 <= k < |g| && g[k] == j;
    }
  }

  lemma MembersListed(st: Store, i: nat)
    requires i < |st.ps| && ReleasesDistinct(st.ps)
    ensures var d := DeployedOf(st.ps, Group(st.ps, i), |Group(st.ps, i)|);
      Listed(st, d, IDsAt(st.ps, d))
  {
    DeployedMembers(st.ps, i);
    hide Group, DeployedOf;
    var d := DeployedOf(st.ps, Group(st.ps, i), |Group(st.ps, i)|);
    forall a, b | 0 <= a < b < |d| ensures st.ps[d[a]].offer.workflowID != st.ps[d[b]].offer.workflowID {
      assert d[a] in d && d[b] in d;
      assert SameGroup(st.ps, d[a], d[b]);
    }
  }

  /** The place from which on the list d[m..] counts. */
  function PlaceOf(d: seq<nat>, m: nat): nat
    requires m <= |d|
  {
    if m == 0 then 0 else d[m - 1] + 1
  }

  lemma FromPlace(d: seq<nat>, m: nat, j: nat)
    requires m <= |d| && forall a, b :: 0 <= a < b < |d| ==> d[a] < d[b]
    ensures j in d[m..] <==> j in d && j >= PlaceOf(d, m)
  {
    if j in d && j >= PlaceOf(d, m) {
      var a :| 0 <= a < |d| && d[a] == j;
      assert a >= m;
      assert d[m..][a - m] == j;
    }
  }

  lemma UndoneIsRolledBack(st: Store, s: Store, i: nat, d: seq<nat>, m: nat)
    requires i < |st.ps| && UndoneFrom(st, s, d, m)
    requires forall j: nat :: j in d <==> j < |st.ps| && Member(st.ps, i, j)
    requires forall a, b :: 0 <= a < b < |d| ==> d[a] < d[b]
    ensures RolledBackFrom(st, s, i, PlaceOf(d, m))
  {
    hide RowBack, SameFlow, Member;
    var p := PlaceOf(d, m);
    forall j: nat ensures j in d[m..] <==> j in d && j >= p { FromPlace(d, m, j); }
    forall j: nat | p <= j < |st.ps| && Member(st.ps, i, j)
      ensures exists a :: m <= a < |d| && d[a] == j
    {
      assert j in d[m..];
      var a :| 0 <= a < |d[m..]| && d[m..][a] == j;
      assert d[m + a] == j;
    }
    forall w: string | forall j :: p <= j < |st.ps| && Member(st.ps, i, j) ==> st.ps[j].offer.workflowID != w
      ensures SameFlow(st.flows, s.flows, w)
    {
      forall a | m <= a < |d| ensures st.ps[d[a]].offer.workflowID != w {
        assert d[a] in d[m..];
      }
    }
  }

  /** The rollback stopped at the member at place m, which cannot be undone: the later members
      are undone, and that one and the earlier ones untouched. */
  ghost predicate StoppedAt(st: Store, s: Store, i: nat, m: nat, env: Env)
    requires i < |st.ps|
  {
    m < |st.ps| && Member(st.ps, i, m) && !CanUndo(st, st.ps[m], env) && RolledBackFrom(st, s, i, m + 1)
  }

  /** Each deployed member of the release can be undone. */
  ghost predicate AllUndoable(st: Store, i: nat, env: Env)
    requires i < |st.ps|
  {
    forall j :: 0 <= j < |st.ps| && Member(st.ps, i, j) ==> CanUndo(st, st.ps[j], env)
  }

  lemma UndoAllEnds(st: Store, i: nat, d: seq<nat>, ids: seq<string>, env: Env)
    requires Valid(st) && i < |st.ps| && Listed(st, d, ids)
    requires forall j: nat :: j in d <==> j < |st.ps| && Member(st.ps, i, j)
    ensures var (s, ok) := UndoUntilError(st, ids, |d|, env);
      && (ok <==> AllUndoable(st, i, env)) && (ok ==> RolledBackFrom(st, s, i, 0))
      && (!ok ==> exists m: nat :: StoppedAt(st, s, i, m, env))
  {
    hide UndoneFrom, RolledBackFrom, CanUndo, Member, Valid;
    NoneUndone(st, d);
    UndoneDown(st, st, d, ids, |d|, env);
    var (s, ok) := UndoUntilError(st, ids, |d|, env);
    var m: nat :| m <= |d| && (m == 0 <==> ok) && UndoneFrom(st, s, d, m) &&
      (m > 0 ==> !CanUndo(st, st.ps[d[m - 1]], env));
    UndoneIsRolledBack(st, s, i, d, m);
    if m > 0 {
      assert d[m - 1] in d;
      assert StoppedAt(st, s, i, d[m - 1], env);
    }
    assert forall a :: 0 <= a < |d| ==> d[a] in d;
  }

  /** Every rollback: it is refused without a change when the guard refuses it; it succeeds
      exactly when the guard lets it through and each deployed member can be undone, and has
      then undone them all; otherwise it stopped at one that cannot be undone. */
  lemma RollbackEnds(st: Store, i: nat, env: Env)
    requires Valid(st) && ReleasesDistinct(st.ps) && i < |st.ps|
    ensures var (s, v) := Rollback(st, st.ps[i].id, env);
      var permitted := st.ps[i].status == Deployed && SeemsNewest(st.ps, i);
      && (!permitted ==> v == Refuse(Conflict) && s == st)
      && (v.Fine? <==> permitted && AllUndoable(st, i, env))
      && (v.Fine? ==> RolledBackFrom(st, s, i, 0))
      && (permitted && v.Refuse? ==> exists m: nat :: StoppedAt(st, s, i, m, env))
  {
    IndexOfUnique(st.ps, i);
    RollbackPermittedIff(st.ps, i);
    DeployedMembers(st.ps, i);
    MembersListed(st, i);
    hide RollbackVerdict, Group, DeployedOf, RolledBackFrom, StoppedAt, AllUndoable, Member, SeemsNewest, Valid, Listed,
         UndoUntilError;
    var d := DeployedOf(st.ps, Group(st.ps, i), |Group(st.ps, i)|);
    UndoAllEnds(st, i, d, IDsAt(st.ps, d), env);
  }

  lemma NoneUndone(st: Store, d: seq<nat>)
    requires forall a :: 0 <= a < |d| ==> d[a] < |st.ps|
    ensures UndoneFrom(st, st, d, |d|)
  {
    assert d[|d|..] == [];
  }

  // -------------------------------------------------------------- rolling back again

  lemma OffersStay(st: Store, s: Store, i: nat, m: nat)
    requires i < |st.ps| && RolledBackFrom(st, s, i, m)
    ensures SameOffersAs(st.ps, s.ps)
  {
  }

  /** Once a release is rolled back, an earlier one that only it covered may be rolled back. */
  lemma RollbackUncovers(st: Store, i: nat, r: nat, env: Env)
    requires Valid(st) && ReleasesDistinct(st.ps) && i < |st.ps| && Rollback(st, st.ps[i].id, env).1.Fine?
    requires r < |st.ps| && st.ps[r].status == Deployed && !Together(st.ps, i, r)
    requires forall j: nat, q: nat | j < |st.ps| && Together(st.ps, r, j) && Newer(st.ps, j, q) ::
               Together(st.ps, i, q) || FromElsewhere(st.ps[j], st.ps[q])
    ensures var s := Rollback(st, st.ps[i].id, env).0; |s.ps| == |st.ps| && RollbackVerdict(s.ps, r).Fine?
  {
    hide RollbackVerdict, Rollback, ReleasesDistinct, RowBack, SameFlow;
    var s := Rollback(st, st.ps[i].id, env).0;
    RollbackEnds(st, i, env);
    OffersStay(st, s, i, 0);
    SameOffers(st.ps, s.ps);
    RollbackPermittedIff(s.ps, r);
    forall j: nat, q: nat | j < |s.ps| && Together(s.ps, r, j) && s.ps[j].status == Deployed && Newer(s.ps, j, q)
      ensures FromElsewhere(s.ps[j], s.ps[q])
    {
      assert Together(st.ps, r, j) && Newer(st.ps, j, q);
      assert !Member(st.ps, i, q);
    }
  }

  /** Every promotion of w was sent by itself. */
  ghost predicate Single(ps: seq<Promotion>, w: string) {
    forall j :: 0 <= j < |ps| && ps[j].offer.workflowID == w ==> ps[j].offer.releaseID == ""
  }

  /** The newest deployed promotion of w is rolled back, up to n times. */
  function RollBackNewest(st: Store, w: string, n: nat, env: Env): Store
    decreases n
  {
    var r := Newest(st.ps, w, |st.ps|);
    if n == 0 || r < 0 then st else RollBackNewest(Rollback(st, st.ps[r].id, env).0, w, n - 1, env)
  }

  /** The newest one can always be rolled back, when the call goes through. */
  lemma NewestPops(st: Store, w: string, original: Definition, env: Env)
    requires Inv(st, w, original) && Single(st.ps, w) && Newest(st.ps, w, |st.ps|) >= 0
    requires st.ps[Newest(st.ps, w, |st.ps|)].id !in env.undoFails
    ensures var r := Newest(st.ps, w, |st.ps|); var (s, v) := Rollback(st, st.ps[r].id, env);
      && v.Fine? && Inv(s, w, original) && SameOffersAs(st.ps, s.ps) && Newest(s.ps, w, |s.ps|) < r
  {
    var r := Newest(st.ps, w, |st.ps|);
    var (s, v) := Rollback(st, st.ps[r].id, env);
    IndexOfUnique(st.ps, r);
    AloneNewest(st, w, original, r, env);
    NoneHidden(st.ps, r, w);
    hide Inv, Law, Valid, Rollback, HiddenNewer, ReleasesDistinct, Group, RollbackVerdict, SeemsNewest, AllUndoable,
         Single, StoppedAt, RolledBackFrom, Newest;
    RollbackInv(st, st.ps[r].id, env, w, original);
    InvIsValid(st, w, original);
    RollbackEnds(st, r, env);
    OffersStay(st, s, r, 0);
    NewestFalls(st, s, w, r);
  }

  lemma InvIsValid(st: Store, w: string, original: Definition)
    requires Inv(st, w, original)
    ensures Valid(st) && ReleasesDistinct(st.ps)
  {
  }

  lemma AloneNewest(st: Store, w: string, original: Definition, r: nat, env: Env)
    requires Inv(st, w, original) && Single(st.ps, w) && Newest(st.ps, w, |st.ps|) == r
    requires st.ps[r].id !in env.undoFails
    ensures SeemsNewest(st.ps, r) && AllUndoable(st, r, env)
  {
    hide Valid, ReleasesDistinct;
    assert Links(st, w, original, r);
    assert forall j: nat :: j < |st.ps| && Together(st.ps, r, j) ==> j == r;
  }

  lemma NewestFalls(st: Store, s: Store, w: string, r: nat)
    requires r == Newest(st.ps, w, |st.ps|) && RolledBackFrom(st, s, r, 0)
    ensures Newest(s.ps, w, |s.ps|) < r
  {
    hide RowBack, SameFlow;
    assert Member(st.ps, r, r);
  }

  lemma NoneHidden(ps: seq<Promotion>, r: nat, w: string)
    requires r < |ps| && Single(ps, w) && ps[r].offer.workflowID == w
    ensures !HiddenNewer(ps, r, w)
  {
    GroupIs(ps, r);
    hide Group;
  }

  /** Rolling back again and again takes w through its whole stack, to the definition it had
      before any promotion. */
  lemma {:induction false} StackEmpties(st: Store, w: string, original: Definition, n: nat, env: Env)
    requires Inv(st, w, original) && Single(st.ps, w) && Newest(st.ps, w, |st.ps|) < n
    requires forall j :: 0 <= j < |st.ps| && st.ps[j].offer.workflowID == w ==> st.ps[j].id !in env.undoFails
    ensures var end := RollBackNewest(st, w, n, env);
      && (forall j :: 0 <= j < |end.ps| ==> !LiveFor(end.ps[j], w))
      && w in end.flows.workflows && DefinitionOf(end.flows.workflows[w]) == original
    decreases n
  {
    hide Rollback, Valid, ReleasesDistinct, Links;
    var r := Newest(st.ps, w, |st.ps|);
    if r >= 0 {
      NewestPops(st, w, original, env);
      hide Inv;
      StackEmpties(Rollback(st, st.ps[r].id, env).0, w, original, n - 1, env);
    }
  }

  /** So whatever run brought a workflow where it is, its original definition can be had back. */
  lemma EveryStackEmpties(st: Store, ops: seq<Op>, w: string, env: Env)
    requires Valid(st) && ReleasesDistinct(st.ps) && w in st.flows.workflows
    requires (forall i :: 0 <= i < |st.ps| ==> !LiveFor(st.ps[i], w)) && AllowedRun(st, ops, w)
    requires var ps := RollbackStack.Run(st, ops).ps;
      Single(ps, w) && forall j :: 0 <= j < |ps| && ps[j].offer.workflowID == w ==> ps[j].id !in env.undoFails
    ensures var end := RollBackNewest(RollbackStack.Run(st, ops), w, |RollbackStack.Run(st, ops).ps|, env);
      w in end.flows.workflows && DefinitionOf(end.flows.workflows[w]) == DefinitionOf(st.flows.workflows[w])
  {
    hide RollbackStack.Run, AllowedRun, RollBackNewest;
    var original := DefinitionOf(st.flows.workflows[w]);
    assert Newest(st.ps, w, |st.ps|) < 0;
    RunInv(st, ops, w, original);
    StackEmpties(RollbackStack.Run(st, ops), w, original, |RollbackStack.Run(st, ops).ps|, env);
  }
}
