/** Runs in which interleaving breaks a promise of receive.go. */
module ReleaseRaces {
  import opened Promotions
  import opened Decisions
  import opened ReleaseProtocol
  import opened ReleaseWhole
  import RollbackStack

  function Of(id: string, workflow: string, status: Status, who: string): Promotion {
    Promotion(id, Offer("peer", "r", workflow, "", "sender", false, [], [], []), status, who, 0, 0, NOTHING, false)
  }

  const ANYONE := Rules(AnyAdmin, map[])
  const BY_ADMIN := Claimant("admin", ANYONE, 0)

  /** The action can happen in s and leads to e. */
  ghost predicate Goes(s: Sys, a: Action, e: Sys) {
    Enabled(s, a) && Step(s, a) == e
  }

  lemma GroupOfOne(p: Promotion)
    requires p.offer.releaseID == "r"
    ensures Group([p], 0) == [0]
  {
    assert GroupUpTo([p], 0, 0) == [];
  }

  lemma GroupOfTwo(p: Promotion, q: Promotion, i: nat)
    requires p.offer.releaseID == q.offer.releaseID == "r" && p.offer.peerID == q.offer.peerID && i < 2
    ensures Group([p, q], i) == [0, 1]
  {
    var ps := [p, q];
    assert SameGroup(ps, i, 0) && SameGroup(ps, i, 1);
    assert GroupUpTo(ps, i, 0) == [];
    assert GroupUpTo(ps, i, 1) == [0];
  }

  // ------------------------------------------------ one release received twice at once

  const P := Of("p", "w", Pending, "")
  const Q := Of("q", "w", Pending, "")
  const P_CLAIMED := Of("p", "w", Deploying, "admin")
  const P_LIVE := Of("p", "w", Deployed, "admin")
  const Q_LIVE := Of("q", "w", Deployed, "")

  const BOTH_CHECKED := Sys([], map[1 := Receiver([P]), 2 := Receiver([Q])], map[], 0)
  const FIRST_STORED := Sys([P], map[2 := Receiver([Q])], map[], 0)
  const FIRST_CLAIMED := Sys([P_CLAIMED], map[2 := Receiver([Q]), 3 := Waiting(0, [0])], map[0 := BY_ADMIN], 1)
  const SECOND_STORED := Sys([P_CLAIMED, Q], map[3 := Waiting(0, [0])], map[0 := BY_ADMIN], 1)
  const GROUP_LOADED := Sys([P_CLAIMED, Q], map[3 := Deployer([0, 1], 0)], map[0 := BY_ADMIN], 1)
  const FIRST_LIVE := Sys([P_LIVE, Q], map[3 := Deployer([0, 1], 1)], map[0 := BY_ADMIN], 1)
  const BOTH_LIVE := Sys([P_LIVE, Q_LIVE], map[], map[0 := BY_ADMIN], 1)

  lemma TwiceChecked()
    ensures Goes(START, CheckRelease(1, [P]), Sys([], map[1 := Receiver([P])], map[], 0))
    ensures Goes(Sys([], map[1 := Receiver([P])], map[], 0), CheckRelease(2, [Q]), BOTH_CHECKED)
    ensures Goes(BOTH_CHECKED, StoreRelease(1), FIRST_STORED)
  {
    assert BOTH_CHECKED.threads - {1} == FIRST_STORED.threads;
    assert [] + [P] == [P];
  }

  lemma ClaimsFirst()
    ensures Goes(FIRST_STORED, ClaimIt(3, 0, "admin", ANYONE), FIRST_CLAIMED)
  {
    hide Group;
    GroupOfOne(P);
    var g: seq<nat> := [0];
    assert ClaimVerdict([P], g, 0, ANYONE, "admin").Fine?;
    assert MemberVerdict(P, ANYONE, "admin").Fine?;
    assert Mark([P], g, Deploying, "admin") == [P_CLAIMED];
    assert map[] + (map x | x in g :: BY_ADMIN) == map[0 := BY_ADMIN];
  }

  lemma StoresSecond()
    ensures Goes(FIRST_CLAIMED, StoreRelease(2), SECOND_STORED)
    ensures Goes(SECOND_STORED, LoadGroup(3), GROUP_LOADED)
  {
    hide Group;
    assert FIRST_CLAIMED.threads - {2} == SECOND_STORED.threads;
    assert [P_CLAIMED] + [Q] == [P_CLAIMED, Q];
    GroupOfTwo(P_CLAIMED, Q, 0);
  }

  lemma DeploysBoth()
    ensures Goes(GROUP_LOADED, DeployOk(3), FIRST_LIVE)
    ensures Goes(FIRST_LIVE, DeployOk(3), BOTH_LIVE)
  {
    assert SetStatus([P_CLAIMED, Q], 0, Deployed) == [P_LIVE, Q];
    assert SetStatus([P_LIVE, Q], 1, Deployed) == [P_LIVE, Q_LIVE];
    assert FIRST_LIVE.threads - {3} == map[];
  }

  /** Both calls find the release absent; the first is stored and claimed, and the second
      is stored before the deploy reads which promotions belong to the release. The
      second promotion then goes from pending to deployed and nobody approved it. */
  lemma ReceivedTwiceDeploysUnapproved()
    ensures Goes(BOTH_CHECKED, StoreRelease(1), FIRST_STORED)
    ensures Goes(FIRST_STORED, ClaimIt(3, 0, "admin", ANYONE), FIRST_CLAIMED)
    ensures Goes(FIRST_CLAIMED, StoreRelease(2), SECOND_STORED) && !StoreOk(FIRST_CLAIMED, StoreRelease(2))
    ensures Goes(SECOND_STORED, LoadGroup(3), GROUP_LOADED)
    ensures Goes(GROUP_LOADED, DeployOk(3), FIRST_LIVE)
    ensures Goes(FIRST_LIVE, DeployOk(3), BOTH_LIVE)
    ensures !LegalMoves(FIRST_LIVE.ps, BOTH_LIVE.ps) && 1 !in BOTH_LIVE.claims
  {
    hide Goes;
    TwiceChecked();
    ClaimsFirst();
    StoresSecond();
    DeploysBoth();
    assert InRelease(FIRST_CLAIMED.ps[0], [Q]);
    assert FIRST_LIVE.ps[1].status == Pending && BOTH_LIVE.ps[1].status == Deployed;
  }

  // ------------------------------------------------- a release stored twice while pending

  const BOTH_STORED := Sys([P, Q], map[], map[], 0)

  /** A batch whose items are all of different workflows. */
  ghost predicate NoWorkflowTwice(batch: seq<Promotion>) {
    forall i, j :: 0 <= i < j < |batch| ==> batch[i].offer.workflowID != batch[j].offer.workflowID
  }

  lemma JoinsRelease(ps: seq<Promotion>, batch: seq<Promotion>, j: nat, k: nat)
    requires IsBatch(batch) && j < |ps| && k < |batch|
    ensures SameGroup(ps + batch, j, |ps| + k) <==> InRelease(ps[j], batch)
  {
    assert (ps + batch)[|ps| + k] == batch[k] && InRelease(batch[k], batch);
  }

  /** None of the batch's workflows is stored under its release. */
  ghost predicate NoneStored(ps: seq<Promotion>, batch: seq<Promotion>) {
    forall j, k :: 0 <= j < |ps| && InRelease(ps[j], batch) && 0 <= k < |batch| ==>
      ps[j].offer.workflowID != batch[k].offer.workflowID
  }

  /** Storing a release keeps every release free of repeated workflows exactly when none of its
      workflows is stored under it already. */
  lemma StoreDistinctIff(ps: seq<Promotion>, batch: seq<Promotion>)
    requires RollbackStack.ReleasesDistinct(ps) && IsBatch(batch) && NoWorkflowTwice(batch)
    ensures RollbackStack.ReleasesDistinct(ps + batch) <==> NoneStored(ps, batch)
  {
    var all := ps + batch;
    if RollbackStack.ReleasesDistinct(all) {
      forall j, k | 0 <= j < |ps| && InRelease(ps[j], batch) && 0 <= k < |batch|
        ensures ps[j].offer.workflowID != batch[k].offer.workflowID
      {
        JoinsRelease(ps, batch, j, k);
      }
    }
    if NoneStored(ps, batch) {
      forall i, j | 0 <= i < j < |all| && SameGroup(all, i, j)
        ensures all[i].offer.workflowID != all[j].offer.workflowID
      {
        if j < |ps| {
          assert SameGroup(ps, i, j);
        } else if i < |ps| {
          JoinsRelease(ps, batch, i, j - |ps|);
        } else {
          assert all[i] == batch[i - |ps|] && all[j] == batch[j - |ps|];
        }
      }
    }
  }

  /** Received twice at once and stored twice while nobody has decided, a release has a
      workflow twice, though the protocol's own invariant is kept. */
  lemma ReceivedTwiceStoredTwice()
    ensures Goes(BOTH_CHECKED, StoreRelease(1), FIRST_STORED)
    ensures Goes(FIRST_STORED, StoreRelease(2), BOTH_STORED) && StoreOk(FIRST_STORED, StoreRelease(2))
    ensures !RollbackStack.ReleasesDistinct(BOTH_STORED.ps)
  {
    TwiceChecked();
    assert FIRST_STORED.threads - {2} == BOTH_STORED.threads;
    assert [P] + [Q] == [P, Q];
    assert SameGroup(BOTH_STORED.ps, 0, 1);
  }

  // --------------------------------------------- a rollback while the release deploys

  const R := Of("r", "v", Deploying, "admin")
  const R_LIVE := Of("r", "v", Deployed, "admin")
  const P_BACK := Of("p", "w", RolledBack, "admin")
  const CLAIMS := map[0 := BY_ADMIN, 1 := BY_ADMIN]

  const HALF_LIVE := Sys([P_LIVE, R], map[3 := Deployer([0, 1], 1)], CLAIMS, 1)
  const ROLLING := Sys([P_LIVE, R], map[3 := Deployer([0, 1], 1), 4 := Roller([0])], CLAIMS, 1)
  const ROLLED := Sys([P_BACK, R], map[3 := Deployer([0, 1], 1), 4 := Roller([])], CLAIMS, 1)
  const SPLIT := Sys([P_BACK, R_LIVE], map[], CLAIMS, 1)

  lemma HalfLiveOk()
    ensures Inv(HALF_LIVE)
  {
    HalfLiveThread();
    assert ClaimsFair(HALF_LIVE);
    assert Uniform(HALF_LIVE.ps);
    hide ThreadOk, ThreadWhole, ClaimsFair, Uniform;
  }

  lemma HalfLiveThread()
    ensures ThreadOk([P_LIVE, R], Deployer([0, 1], 1)) && ThreadWhole([P_LIVE, R], Deployer([0, 1], 1))
    ensures forall i :: 0 <= i < 2 ==> Touches([P_LIVE, R], Deployer([0, 1], 1), i)
  {
    GroupOfTwo(P_LIVE, R, 0);
    hide Group;
    assert Full([P_LIVE, R], [0, 1]);
  }

  /** It is a state the release can get to, and one in which a rollback has to wait. */
  lemma HalfLiveWhole()
    ensures WholeInv(HALF_LIVE) && !Quiet(HALF_LIVE, StartRollback(4, 0)) && !Settled(SPLIT.ps, 0)
  {
    HalfLiveOk();
    HalfLiveThread();
    assert SameGroup(HALF_LIVE.ps, 0, 1) && SameGroup(SPLIT.ps, 0, 1) && SameGroup(SPLIT.ps, 0, 0);
    assert SPLIT.ps[0].status == RolledBack && SPLIT.ps[1].status == Deployed;
    hide Inv, ThreadWhole, ThreadOk, Touches, SameGroup, StoreOk;
    forall i | 0 <= i < |HALF_LIVE.ps| ensures Busy(HALF_LIVE, i) {
      assert 3 in HALF_LIVE.threads && Touches(HALF_LIVE.ps, HALF_LIVE.threads[3], i);
    }
  }

  lemma HalfLivePermits()
    ensures Group([P_LIVE, R], 0) == [0, 1] && RollbackVerdict([P_LIVE, R], 0).Fine?
  {
    var ps := [P_LIVE, R];
    GroupOfTwo(P_LIVE, R, 0);
    assert !Blocks(P_LIVE, R);
    assert !NewerBlocks(ps, 0);
    hide Group, Blocks, NewerBlocks;
    var g := Group(ps, 0);
    assert g[0] == 0 && g[1] == 1;
  }

  lemma HalfLiveTodo()
    ensures DeployedOf([P_LIVE, R], [0, 1], 2) == [0]
  {
    var ps, g: seq<nat> := [P_LIVE, R], [0, 1];
    assert DeployedOf(ps, g, 0) == [];
    assert DeployedOf(ps, g, 1) == [0];
  }

  lemma RollbackStarts()
    ensures Goes(HALF_LIVE, StartRollback(4, 0), ROLLING)
  {
    hide Group, RollbackVerdict, DeployedOf;
    HalfLivePermits();
    HalfLiveTodo();
  }

  lemma RollbackThenDeploys()
    ensures Goes(ROLLING, RollOk(4), ROLLED)
    ensures Goes(ROLLED, RollOk(4), ROLLED.(threads := map[3 := Deployer([0, 1], 1)]))
    ensures Goes(ROLLED.(threads := map[3 := Deployer([0, 1], 1)]), DeployOk(3), SPLIT)
  {
    var todo: seq<nat> := [0];
    assert todo[..0] == [];
    assert SetStatus([P_LIVE, R], 0, RolledBack) == [P_BACK, R];
    assert SetStatus([P_BACK, R], 1, Deployed) == [P_BACK, R_LIVE];
    var three: map<nat, Thread> := map[3 := Deployer([0, 1], 1)];
    assert ROLLED.threads - {4} == three;
    assert three - {3} == map[];
  }

  /** Rolling back a member that is live while a later member still deploys leaves the
      release half live with nobody working on it, although every call succeeded. */
  lemma RollbackDuringDeploySplitsRelease()
    ensures WholeInv(HALF_LIVE) && !Quiet(HALF_LIVE, StartRollback(4, 0))
    ensures Goes(HALF_LIVE, StartRollback(4, 0), ROLLING)
    ensures Goes(ROLLING, RollOk(4), ROLLED)
    ensures Goes(ROLLED, RollOk(4), ROLLED.(threads := map[3 := Deployer([0, 1], 1)]))
    ensures Goes(ROLLED.(threads := map[3 := Deployer([0, 1], 1)]), DeployOk(3), SPLIT)
    ensures SPLIT.threads == map[] && !Settled(SPLIT.ps, 0)
  {
    hide Goes, WholeInv, Quiet, Settled;
    HalfLiveWhole();
    RollbackStarts();
    RollbackThenDeploys();
  }
}
