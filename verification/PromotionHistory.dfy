/** The history of promotions is bounded (internal/environment/repository.go): past the cap
    the oldest that are not pending go, with the workflows they carried. */
module PromotionHistory {
  import opened Sequences
  import opened Promotions
  import opened ReleaseAtomicity

  const MAX_KEPT := 200

  /** The first that is not pending, or -1. */
  function FirstDecided(ps: seq<Promotion>): (i: int)
    ensures -1 <= i < |ps|
    ensures i >= 0 ==> ps[i].status != Pending && forall j :: 0 <= j < i ==> ps[j].status == Pending
    ensures i < 0 ==> forall j :: 0 <= j < |ps| ==> ps[j].status == Pending
  {
    if ps == [] then -1 else if ps[0].status != Pending then 0 else
      var i := FirstDecided(ps[1..]);
      if i < 0 then -1 else i + 1
  }

  /** Those of the two kinds, in order. */
  function Pendings(ps: seq<Promotion>): seq<Promotion> {
    if ps == [] then [] else (if ps[0].status == Pending then [ps[0]] else []) + Pendings(ps[1..])
  }

  function Others(ps: seq<Promotion>): seq<Promotion> {
    if ps == [] then [] else (if ps[0].status != Pending then [ps[0]] else []) + Others(ps[1..])
  }

  lemma WithoutTail(ps: seq<Promotion>, i: nat)
    requires 0 < i < |ps|
    ensures Without(ps, i) != [] && Without(ps, i)[0] == ps[0] && Without(ps, i)[1..] == Without(ps[1..], i - 1)
    ensures |Without(ps, i)| == |ps| - 1
  {
    var a, b := Without(ps, i)[1..], Without(ps[1..], i - 1);
    assert |a| == |b|;
    forall k | 0 <= k < |a| ensures a[k] == b[k] {
    }
  }

  lemma {:induction false} DroppedOne(ps: seq<Promotion>)
    requires FirstDecided(ps) >= 0
    ensures var qs := Without(ps, FirstDecided(ps));
            Pendings(qs) == Pendings(ps) && Others(ps) != [] && Others(qs) == Others(ps)[1..] &&
            Others(ps)[0] == ps[FirstDecided(ps)] && |qs| == |ps| - 1
  {
    var i := FirstDecided(ps);
    if i == 0 {
      assert Without(ps, 0) == ps[1..];
    } else {
      assert FirstDecided(ps[1..]) == i - 1 && ps[0].status == Pending;
      DroppedOne(ps[1..]);
      WithoutTail(ps, i);
      hide FirstDecided, Without;
    }
  }

  function Excess(ps: seq<Promotion>): nat { if |ps| > MAX_KEPT then |ps| - MAX_KEPT else 0 }

  function DropCount(ps: seq<Promotion>): (n: nat)
    ensures n <= |Others(ps)| && n <= Excess(ps)
  {
    Least(Excess(ps), |Others(ps)|)
  }

  /** kept is ps without the oldest past the cap that are not pending. */
  ghost predicate Trimmed(ps: seq<Promotion>, kept: seq<Promotion>) {
    Pendings(kept) == Pendings(ps) && Others(kept) == Others(ps)[DropCount(ps)..]
  }

  /** savePromotions: what is kept, and the ids whose stored workflow is blanked. */
  method TrimHistory(ps: seq<Promotion>) returns (kept: seq<Promotion>, blanked: seq<string>)
    ensures Trimmed(ps, kept) && |blanked| == DropCount(ps)
    ensures forall k :: 0 <= k < |blanked| ==> blanked[k] == Others(ps)[k].id
    ensures |kept| <= MAX_KEPT || Others(kept) == []
    ensures |ps| <= MAX_KEPT ==> kept == ps
  {
    hide Pendings, Others, FirstDecided, Without, Dropped;
    kept, blanked := ps, [];
    DroppedNone(ps);
    while |kept| > MAX_KEPT
      invariant Dropped(ps, kept, blanked) && |blanked| <= Excess(ps) && |kept| + |blanked| == |ps|
      decreases |kept|
    {
      var i := FirstDecided(kept);
      if i < 0 {
        DroppedAll(ps, kept, blanked);
        return;
      }
      FirstIsIn(kept);
      DroppedMore(ps, kept, blanked);
      blanked := blanked + [kept[i].id];
      kept := Without(kept, i);
    }
    DroppedEnough(ps, kept, blanked);
  }

  /** `blanked` names the oldest decided ones, and `kept` is the rest. */
  ghost predicate Dropped(ps: seq<Promotion>, kept: seq<Promotion>, blanked: seq<string>) {
    |blanked| <= |Others(ps)| && Pendings(kept) == Pendings(ps) && Others(kept) == Others(ps)[|blanked|..] &&
    (forall k :: 0 <= k < |blanked| ==> blanked[k] == Others(ps)[k].id) && (blanked == [] ==> kept == ps)
  }

  lemma DroppedNone(ps: seq<Promotion>)
    ensures Dropped(ps, ps, [])
  {
  }

  lemma FirstIsIn(ps: seq<Promotion>)
    ensures FirstDecided(ps) < |ps|
    ensures FirstDecided(ps) >= 0 ==> |Without(ps, FirstDecided(ps))| == |ps| - 1
  {
  }

  lemma DroppedMore(ps: seq<Promotion>, kept: seq<Promotion>, blanked: seq<string>)
    requires Dropped(ps, kept, blanked) && FirstDecided(kept) >= 0
    ensures Dropped(ps, Without(kept, FirstDecided(kept)), blanked + [kept[FirstDecided(kept)].id])
  {
    DroppedOne(kept);
    hide Pendings, Others, FirstDecided, Without;
    assert Others(kept)[0] == Others(ps)[|blanked|];
  }

  lemma DroppedAll(ps: seq<Promotion>, kept: seq<Promotion>, blanked: seq<string>)
    requires Dropped(ps, kept, blanked) && FirstDecided(kept) < 0
    ensures Others(kept) == [] && |blanked| == |Others(ps)| && Others(kept) == Others(ps)[|blanked|..]
    ensures Pendings(kept) == Pendings(ps) && forall k :: 0 <= k < |blanked| ==> blanked[k] == Others(ps)[k].id
    ensures blanked == [] ==> kept == ps
  {
    AllPending(kept);
  }

  lemma DroppedEnough(ps: seq<Promotion>, kept: seq<Promotion>, blanked: seq<string>)
    requires Dropped(ps, kept, blanked)
    ensures |blanked| <= |Others(ps)| && Others(kept) == Others(ps)[|blanked|..]
    ensures Pendings(kept) == Pendings(ps) && forall k :: 0 <= k < |blanked| ==> blanked[k] == Others(ps)[k].id
    ensures blanked == [] ==> kept == ps
  {
  }

  lemma {:induction false} AllPending(ps: seq<Promotion>)
    requires FirstDecided(ps) < 0
    ensures Others(ps) == []
  {
    if ps != [] { AllPending(ps[1..]); }
  }

  // ------------------------------------------------------------ what a trim may drop

  lemma {:induction false} TwoKinds(ps: seq<Promotion>, p: Promotion)
    ensures p in ps <==> p in Pendings(ps) || p in Others(ps)
    ensures p in Others(ps) ==> p.status != Pending
    ensures p in Pendings(ps) ==> p.status == Pending
  {
    if ps != [] {
      TwoKinds(ps[1..], p);
      assert ps == [ps[0]] + ps[1..];
    }
  }

  lemma {:induction false} OthersUnique(ps: seq<Promotion>)
    requires UniqueIDs(ps)
    ensures UniqueIDs(Others(ps))
  {
    if ps != [] {
      OthersUnique(ps[1..]);
      forall p | p in Others(ps[1..]) ensures p.id != ps[0].id {
        TwoKinds(ps[1..], p);
        var j :| 0 <= j < |ps[1..]| && ps[1..][j] == p;
        assert ps[j + 1] == p;
      }
    }
  }

  /** A trim keeps every promotion that is being deployed exactly when none is among the
      oldest past the cap that are not pending. */
  lemma DeployingKeptIff(ps: seq<Promotion>, kept: seq<Promotion>)
    requires UniqueIDs(ps) && Trimmed(ps, kept)
    ensures (forall p :: p in ps && p.status == Deploying ==> p in kept) <==>
            forall k :: 0 <= k < DropCount(ps) ==> Others(ps)[k].status != Deploying
  {
    OthersUnique(ps);
    forall p: Promotion | p.status == Deploying
      ensures (p in ps <==> p in Others(ps)) && (p in kept <==> p in Others(ps)[DropCount(ps)..])
    {
      TwoKinds(ps, p);
      TwoKinds(kept, p);
    }
    hide Pendings, Others, DropCount;
    SuffixKeepsIff(Others(ps), DropCount(ps));
  }

  lemma SuffixKeepsIff(os: seq<Promotion>, n: nat)
    requires UniqueIDs(os) && n <= |os|
    ensures (forall p :: p in os && p.status == Deploying ==> p in os[n..]) <==>
            forall k :: 0 <= k < n ==> os[k].status != Deploying
  {
    forall k | 0 <= k < n ensures os[k] in os && os[k] !in os[n..] {
    }
    forall p | p in os && p !in os[n..] ensures exists k :: 0 <= k < n && os[k] == p {
      assert os == os[..n] + os[n..];
      var k :| 0 <= k < n && os[..n][k] == p;
    }
  }

  function Waiting(i: nat): Promotion {
    Promotion(seq(i, _ => 'x'), Offer("a", "", "w", "", "", false, [], [], []), Pending, "", 0, 0, NOTHING, false)
  }

  /** A full history of promotions that wait, under one that is being deployed. */
  function Crowd(): (ps: seq<Promotion>)
    ensures |ps| == MAX_KEPT + 1
  {
    [Waiting(0).(status := Deploying)] + seq(MAX_KEPT, i requires 0 <= i => Waiting(i + 1))
  }

  /** The code's comment speaks of decided promotions, but one being deployed can go: with the
      200 newer ones pending it is the oldest that is not. */
  lemma DeployingIsDropped(kept: seq<Promotion>)
    requires Trimmed(Crowd(), kept)
    ensures UniqueIDs(Crowd()) && Crowd()[0].status == Deploying && Crowd()[0] !in kept
  {
    var ps, rest := Crowd(), Crowd()[1..];
    CrowdIsMixed();
    hide Crowd, Waiting;
    WaitingAreNotOthers(rest);
    assert Others(ps) == [ps[0]] + Others(rest) == [ps[0]];
    assert DropCount(ps) == 1 && Others(ps)[1..] == [];
    TwoKinds(kept, ps[0]);
  }

  lemma CrowdIsMixed()
    ensures forall i :: 0 <= i < MAX_KEPT + 1 ==> |Crowd()[i].id| == i
    ensures Crowd()[0].status == Deploying && forall i :: 0 <= i < MAX_KEPT ==> Crowd()[1..][i].status == Pending
  {
  }

  lemma {:induction false} WaitingAreNotOthers(ps: seq<Promotion>)
    requires forall i :: 0 <= i < |ps| ==> ps[i].status == Pending
    ensures Others(ps) == []
  {
    if ps != [] { WaitingAreNotOthers(ps[1..]); }
  }
}
