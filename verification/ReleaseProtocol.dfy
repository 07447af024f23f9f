/** Everyone at once: arrivals, approvals, rejections, deploys member by member,
    compensations and rollbacks, interleaved at every point where the service lets go of
    its lock (receive.go). Only statuses matter here. A promotion is named by its place
    in the stored list, which arrivals only extend. */
module ReleaseProtocol {
  import opened Promotions
  import opened Decisions

  /** Someone in the middle of an operation.
      Receiver: ReceiveRelease between finding the release absent and storing it.
      Waiting: approve after the claim, before deployGroup reads the group.
      Deployer: deployGroup with members ..k deployed.
      Undoer: unwindRelease after member k failed, with members ..j still to undo.
      Failer: unwindRelease with members m.. still to mark failed.
      Roller: Rollback with todo still to undo, last one first. */
  datatype Thread =
    | Receiver(batch: seq<Promotion>)
    | Waiting(i: nat, g: seq<nat>)
    | Deployer(g: seq<nat>, k: nat)
    | Undoer(g: seq<nat>, j: nat, k: nat)
    | Failer(g: seq<nat>, m: nat)
    | Roller(todo: seq<nat>)

  /** Who claimed a promotion, and under which rules. */
  datatype Claimant = Claimant(username: string, rules: Rules, claim: nat)

  datatype Sys = Sys(ps: seq<Promotion>, threads: map<nat, Thread>, claims: map<nat, Claimant>, clock: nat)

  datatype Action =
    | ArriveAlone(p: Promotion)
    | CheckRelease(t: nat, batch: seq<Promotion>)
    | StoreRelease(t: nat)
    | ClaimIt(t: nat, i: nat, username: string, rules: Rules)
    | LoadGroup(t: nat)
    | DeployOk(t: nat)
    | DeployFails(t: nat)
    | UndoOk(t: nat)
    | UndoFails(t: nat)
    | UndoneAll(t: nat)
    | FailNext(t: nat)
    | RejectIt(i: nat)
    | StartRollback(t: nat, i: nat)
    | RollOk(t: nat)
    | RollFails(t: nat)

  function SetStatus(ps: seq<Promotion>, i: nat, status: Status): (r: seq<Promotion>)
    requires i < |ps|
    ensures |r| == |ps|
  {
    ps[i := ps[i].(status := status)]
  }

  /** The stored promotions of batch's release. */
  predicate InRelease(p: Promotion, batch: seq<Promotion>) {
    batch != [] && p.offer.peerID == batch[0].offer.peerID && p.offer.releaseID == batch[0].offer.releaseID
  }

  /** A batch is one release: pending, and all of one release. */
  predicate IsBatch(batch: seq<Promotion>) {
    batch != [] && batch[0].offer.releaseID != "" &&
    forall k :: 0 <= k < |batch| ==> batch[k].status == Pending && InRelease(batch[k], batch)
  }

  function At(s: Sys, t: nat): Thread {
    if t in s.threads then s.threads[t] else Roller([])
  }

  predicate InRange(g: seq<nat>, n: nat) {
    forall k :: 0 <= k < |g| ==> g[k] < n
  }

  /** When an action can happen. */
  predicate Enabled(s: Sys, a: Action) {
    match a
    case ArriveAlone(p) => p.status == Pending && p.offer.releaseID == ""
    case CheckRelease(t, batch) => t !in s.threads && IsBatch(batch) && forall j :: 0 <= j < |s.ps| ==>
        !InRelease(s.ps[j], batch)
    case StoreRelease(t) => t in s.threads && s.threads[t].Receiver?
    case ClaimIt(t, i, username, rules) =>
      t !in s.threads && i < |s.ps| && ClaimVerdict(s.ps, Group(s.ps, i), |Group(s.ps, i)|, rules, username).Fine?
    case LoadGroup(t) => t in s.threads && s.threads[t].Waiting? && s.threads[t].i < |s.ps|
    case DeployOk(t) => t in s.threads && s.threads[t].Deployer? && s.threads[t].k < |s.threads[t].g| &&
        InRange(s.threads[t].g, |s.ps|)
    case DeployFails(t) => t in s.threads && s.threads[t].Deployer? && s.threads[t].k < |s.threads[t].g| &&
        InRange(s.threads[t].g, |s.ps|)
    case UndoOk(t) => t in s.threads && s.threads[t].Undoer? && 0 < s.threads[t].j <= |s.threads[t].g| &&
        InRange(s.threads[t].g, |s.ps|)
    case UndoFails(t) => t in s.threads && s.threads[t].Undoer? && 0 < s.threads[t].j
    case UndoneAll(t) => t in s.threads && s.threads[t].Undoer? && s.threads[t].j == 0
    case FailNext(t) => t in s.threads && s.threads[t].Failer? && InRange(s.threads[t].g, |s.ps|)
    case RejectIt(i) => i < |s.ps| && AllPending(s.ps, Group(s.ps, i))
    case StartRollback(t, i) => t !in s.threads && i < |s.ps| && RollbackVerdict(s.ps, i).Fine?
    case RollOk(t) => t in s.threads && s.threads[t].Roller? && InRange(s.threads[t].todo, |s.ps|)
    case RollFails(t) => t in s.threads && s.threads[t].Roller?
  }

  function Step(s: Sys, a: Action): Sys
    requires Enabled(s, a)
  {
    match a
    case ArriveAlone(p) => s.(ps := s.ps + [p])
    case CheckRelease(t, batch) => s.(threads := s.threads[t := Receiver(batch)])
    case StoreRelease(t) => s.(ps := s.ps + s.threads[t].batch, threads := s.threads - {t})
    case ClaimIt(t, i, username, rules) =>
      var g := Group(s.ps, i);
      Sys(Mark(s.ps, g, Deploying, username), s.threads[t := Waiting(i, g)],
          s.claims + (map x | x in g :: Claimant(username, rules, s.clock)), s.clock + 1)
    case LoadGroup(t) => s.(threads := s.threads[t := Deployer(Group(s.ps, s.threads[t].i), 0)])
    case DeployOk(t) =>
      var Deployer(g, k) := s.threads[t];
      s.(ps := SetStatus(s.ps, g[k], Deployed),
         threads := if k + 1 == |g| then s.threads - {t} else s.threads[t := Deployer(g, k + 1)])
    case DeployFails(t) =>
      var Deployer(g, k) := s.threads[t];
      s.(ps := SetStatus(s.ps, g[k], Failed), threads := if |g| > 1 then s.threads[t := Undoer(g, k, k)]
          else s.threads - {t})
    case UndoOk(t) =>
      var Undoer(g, j, k) := s.threads[t];
      s.(ps := SetStatus(s.ps, g[j - 1], RolledBack), threads := s.threads[t := Undoer(g, j - 1, k)])
    case UndoFails(t) =>
      var Undoer(g, j, k) := s.threads[t];
      s.(threads := s.threads[t := Undoer(g, j - 1, k)])
    case UndoneAll(t) => s.(threads := s.threads[t := Failer(s.threads[t].g, s.threads[t].k + 1)])
    case FailNext(t) =>
      var Failer(g, m) := s.threads[t];
      if m < |g| then s.(ps := SetStatus(s.ps, g[m], Failed), threads := s.threads[t := Failer(g, m + 1)])
      else s.(threads := s.threads - {t})
    case RejectIt(i) => s.(ps := Mark(s.ps, Group(s.ps, i), Rejected, ""))
    case StartRollback(t, i) => s.(threads := s.threads[t := Roller(DeployedOf(s.ps, Group(s.ps, i),
        |Group(s.ps, i)|))])
    case RollOk(t) =>
      var todo := s.threads[t].todo;
      if todo == [] then s.(threads := s.threads - {t})
      else s.(ps := SetStatus(s.ps, todo[|todo| - 1], RolledBack),
          threads := s.threads[t := Roller(todo[..|todo| - 1])])
    case RollFails(t) => s.(threads := s.threads - {t})
  }

  // ------------------------------------------------------------------- invariant

  predicate Shipped(st: Status) {
    st == Deployed || st == RolledBack
  }

  ghost predicate AllAre(ps: seq<Promotion>, g: seq<nat>, lo: int, hi: int, st: Status) {
    forall k :: 0 <= lo <= k < hi <= |g| ==> g[k] < |ps| && ps[g[k]].status == st
  }

  ghost predicate AllShipped(ps: seq<Promotion>, g: seq<nat>, hi: int) {
    forall k :: 0 <= k < hi <= |g| ==> g[k] < |ps| && Shipped(ps[g[k]].status)
  }

  ghost predicate Increasing(g: seq<nat>) {
    forall a, b :: 0 <= a < b < |g| ==> g[a] < g[b]
  }

  /** What a thread may rely on, whatever the others do. */
  ghost predicate ThreadOk(ps: seq<Promotion>, t: Thread) {
    match t
    case Receiver(batch) => IsBatch(batch)
    case Waiting(i, g) => i < |ps| && g == Group(ps, i) && AllAre(ps, g, 0, |g|, Deploying)
    case Deployer(g, k) => k < |g| && InRange(g, |ps|) && Increasing(g) && AllShipped(ps, g, k) &&
        AllAre(ps, g, k, |g|, Deploying)
    case Undoer(g, j, k) =>
      && j <= k < |g| && InRange(g, |ps|) && Increasing(g) && AllShipped(ps, g, k)
      && ps[g[k]].status == Failed && AllAre(ps, g, k + 1, |g|, Deploying)
    case Failer(g, m) => m <= |g| && InRange(g, |ps|) && Increasing(g) && AllAre(ps, g, m, |g|, Deploying)
    case Roller(todo) => AllShipped(ps, todo, |todo|)
  }

  /** The first place of t's list that is still being deployed by it. */
  function OwnsFrom(t: Thread): nat {
    match t
    case Waiting(_, _) => 0
    case Deployer(_, k) => k
    case Undoer(_, _, k) => k + 1
    case Failer(_, m) => m
    case _ => 0
  }

  function ListOf(t: Thread): seq<nat> {
    match t
    case Waiting(_, g) => g
    case Deployer(g, _) => g
    case Undoer(g, _, _) => g
    case Failer(g, _) => g
    case _ => []
  }

  /** Whether x is one of those. */
  ghost predicate Owns(t: Thread, x: nat) {
    exists k :: OwnsFrom(t) <= k < |ListOf(t)| && ListOf(t)[k] == x
  }

  /** A release leaves pending as a whole. */
  ghost predicate Uniform(ps: seq<Promotion>) {
    forall i, j :: 0 <= i < |ps| && 0 <= j < |ps| && SameGroup(ps, i, j) ==>
        (ps[i].status == Pending <==> ps[j].status == Pending)
  }

  /** Whatever was decided, other than rejected, was claimed. */
  ghost predicate ClaimsMatch(s: Sys) {
    && (forall i: nat :: i in s.claims ==> i < |s.ps| && s.claims[i].claim < s.clock)
    && (forall i :: 0 <= i < |s.ps| ==> (i in s.claims <==> s.ps[i].status != Pending && s.ps[i].status != Rejected))
  }

  /** Nobody claimed what they sent where the rules forbid it. */
  ghost predicate ClaimsFair(s: Sys) {
    forall i :: 0 <= i < |s.ps| && i in s.claims ==> !SentBy(s.ps[i], s.claims[i].rules, s.claims[i].username)
  }

  /** One claim covers the whole release. */
  ghost predicate ClaimsWhole(s: Sys) {
    forall i, j :: 0 <= i < |s.ps| && 0 <= j < |s.ps| && i in s.claims && SameGroup(s.ps, i, j) ==>
      j in s.claims && s.claims[j] == s.claims[i]
  }

  ghost predicate ClaimsOk(s: Sys) {
    ClaimsMatch(s) && ClaimsFair(s) && ClaimsWhole(s)
  }

  ghost predicate ThreadsOk(s: Sys) {
    && (forall t :: t in s.threads ==> ThreadOk(s.ps, s.threads[t]))
    && (forall t, u, x: nat :: t in s.threads && u in s.threads && t != u ==>
        !(Owns(s.threads[t], x) && Owns(s.threads[u], x)))
  }

  ghost predicate Inv(s: Sys) {
    Uniform(s.ps) && ClaimsOk(s) && ThreadsOk(s)
  }

  /** The release ReceiveRelease is about to store has no member that was already decided. */
  ghost predicate StoreOk(s: Sys, a: Action) {
    a.StoreRelease? && a.t in s.threads && s.threads[a.t].Receiver? ==>
      forall j :: 0 <= j < |s.ps| && InRelease(s.ps[j], s.threads[a.t].batch) ==> s.ps[j].status == Pending
  }

  predicate LegalMove(a: Status, b: Status) {
    || a == b
    || (a == Pending && (b == Deploying || b == Rejected))
    || (a == Deploying && (b == Deployed || b == Failed))
    || (a == Deployed && b == RolledBack)
  }

  /** Every stored promotion makes a legal move or none, and new ones start pending. */
  ghost predicate LegalMoves(before: seq<Promotion>, after: seq<Promotion>) {
    && |before| <= |after|
    && (forall i :: 0 <= i < |before| ==>
          after[i].id == before[i].id && after[i].offer == before[i].offer &&
              LegalMove(before[i].status, after[i].status))
    && (forall i :: |before| <= i < |after| ==> after[i].status == Pending)
  }

  // ------------------------------------------------------- one status at a time

  /** A change of x's status that x's owner, or an undo, makes. */
  ghost predicate OwnMove(ps: seq<Promotion>, x: nat, status: Status)
    requires x < |ps|
  {
    (ps[x].status == Deploying && (status == Deployed || status == Failed)) ||
        (Shipped(ps[x].status) && status == RolledBack)
  }

  lemma SetStatusGroups(ps: seq<Promotion>, x: nat, status: Status)
    requires x < |ps|
    ensures forall i, j :: 0 <= i < |ps| && 0 <= j < |ps| ==>
        (SameGroup(SetStatus(ps, x, status), i, j) <==> SameGroup(ps, i, j))
  {
  }

  lemma {:induction false} GroupUpToKept(ps: seq<Promotion>, qs: seq<Promotion>, i: nat, n: nat)
    requires |ps| == |qs| && i < |ps| && n <= |ps| && forall j :: 0 <= j < |ps| ==> ps[j].offer == qs[j].offer
    ensures GroupUpTo(ps, i, n) == GroupUpTo(qs, i, n)
  {
    if n > 0 { GroupUpToKept(ps, qs, i, n - 1); }
  }

  lemma ShippedKept(ps: seq<Promotion>, x: nat, status: Status, g: seq<nat>, hi: int)
    requires x < |ps| && OwnMove(ps, x, status) && AllShipped(ps, g, hi)
    ensures AllShipped(SetStatus(ps, x, status), g, hi)
  {
  }

  lemma AreKept(ps: seq<Promotion>, x: nat, status: Status, t: Thread)
    requires x < |ps| && AllAre(ps, ListOf(t), OwnsFrom(t), |ListOf(t)|, Deploying)
    requires ps[x].status == Deploying ==> !Owns(t, x)
    ensures AllAre(SetStatus(ps, x, status), ListOf(t), OwnsFrom(t), |ListOf(t)|, Deploying)
  {
    var g := ListOf(t);
    forall k | OwnsFrom(t) <= k < |g| ensures g[k] != x {
      assert g[k] == x ==> Owns(t, x);
    }
  }

  lemma UndoneKept(ps: seq<Promotion>, x: nat, status: Status, g: seq<nat>, j: nat, k: nat)
    requires x < |ps| && OwnMove(ps, x, status) && ThreadOk(ps, Undoer(g, j, k))
    requires ps[x].status == Deploying ==> !Owns(Undoer(g, j, k), x)
    ensures ThreadOk(SetStatus(ps, x, status), Undoer(g, j, k))
  {
    hide AllShipped, AllAre, Owns;
    ShippedKept(ps, x, status, g, k);
    AreKept(ps, x, status, Undoer(g, j, k));
    assert g[k] < |ps|;
    assert g[k] != x;
  }

  /** Another thread does not notice it. */
  lemma OthersKeep(ps: seq<Promotion>, x: nat, status: Status, t: Thread)
    requires x < |ps| && OwnMove(ps, x, status) && ThreadOk(ps, t)
    requires ps[x].status == Deploying ==> !Owns(t, x)
    ensures ThreadOk(SetStatus(ps, x, status), t)
  {
    hide AllShipped, AllAre, Owns, Group, Increasing, InRange;
    match t
    case Receiver(_) =>
    case Waiting(i, g) =>
      AreKept(ps, x, status, t);
      GroupKept(ps, SetStatus(ps, x, status), i);
    case Deployer(g, k) =>
      AreKept(ps, x, status, t);
      ShippedKept(ps, x, status, g, k);
    case Undoer(g, j, k) => UndoneKept(ps, x, status, g, j, k);
    case Failer(g, m) => AreKept(ps, x, status, t);
    case Roller(todo) => ShippedKept(ps, x, status, todo, |todo|);
  }

  lemma GroupKept(ps: seq<Promotion>, qs: seq<Promotion>, i: nat)
    requires |ps| == |qs| && i < |ps| && forall j :: 0 <= j < |ps| ==> ps[j].offer == qs[j].offer
    ensures Group(ps, i) == Group(qs, i)
  {
    GroupUpToKept(ps, qs, i, |ps|);
  }

  lemma MoveUniform(ps: seq<Promotion>, x: nat, status: Status)
    requires x < |ps| && OwnMove(ps, x, status) && Uniform(ps)
    ensures Uniform(SetStatus(ps, x, status))
  {
    SetStatusGroups(ps, x, status);
    var qs := SetStatus(ps, x, status);
    assert forall i :: 0 <= i < |qs| ==> (qs[i].status == Pending <==> ps[i].status == Pending);
    hide OwnMove, SameGroup;
  }

  lemma MoveClaims(s: Sys, x: nat, status: Status)
    requires x < |s.ps| && OwnMove(s.ps, x, status) && ClaimsOk(s)
    ensures ClaimsOk(s.(ps := SetStatus(s.ps, x, status)))
  {
    SetStatusGroups(s.ps, x, status);
    var qs := SetStatus(s.ps, x, status);
    assert forall i :: 0 <= i < |qs| ==>
        (qs[i].status == Pending <==> s.ps[i].status == Pending) &&
        (qs[i].status == Rejected <==> s.ps[i].status == Rejected);
    hide OwnMove, SameGroup;
  }

  lemma MoveKeepsGroups(s: Sys, x: nat, status: Status)
    requires x < |s.ps| && OwnMove(s.ps, x, status) && Uniform(s.ps) && ClaimsOk(s)
    ensures Uniform(SetStatus(s.ps, x, status)) && ClaimsOk(s.(ps := SetStatus(s.ps, x, status)))
    ensures LegalMoves(s.ps, SetStatus(s.ps, x, status))
  {
    MoveUniform(s.ps, x, status);
    MoveClaims(s, x, status);
    hide Uniform, ClaimsOk;
  }

  /** Thread t moves x and becomes next, or ends; the rest of the system stays in order. */
  lemma OwnerMoves(s: Sys, t: nat, x: nat, status: Status, after: Sys)
    requires Inv(s) && t in s.threads && x < |s.ps| && OwnMove(s.ps, x, status)
    requires s.ps[x].status == Deploying ==> Owns(s.threads[t], x)
    requires after.ps == SetStatus(s.ps, x, status) && after.claims == s.claims && after.clock == s.clock
    requires after.threads == s.threads - {t} || (t in after.threads &&
        after.threads == s.threads[t := after.threads[t]]
               && ThreadOk(after.ps, after.threads[t]) && forall y: nat :: Owns(after.threads[t], y) ==>
                   Owns(s.threads[t], y))
    ensures Inv(after) && LegalMoves(s.ps, after.ps)
  {
    hide ThreadOk, Owns, OwnMove, Uniform, ClaimsOk, LegalMoves;
    MoveKeepsGroups(s, x, status);
    ClaimsSame(s.(ps := after.ps), after);
    forall u | u in after.threads ensures ThreadOk(after.ps, after.threads[u]) {
      if u != t { OthersKeep(s.ps, x, status, s.threads[u]); }
    }
    forall u, v, y: nat | u in after.threads && v in after.threads && u != v
      ensures !(Owns(after.threads[u], y) && Owns(after.threads[v], y))
    {
      assert !(Owns(s.threads[u], y) && Owns(s.threads[v], y));
    }
  }

  lemma ClaimsSame(a: Sys, b: Sys)
    requires ClaimsOk(a) && a.ps == b.ps && a.claims == b.claims && a.clock == b.clock
    ensures ClaimsOk(b)
  {
  }

  lemma ReplaceThread(s: Sys, t: nat, after: Sys)
    requires Inv(s) && after.ps == s.ps && after.claims == s.claims && after.clock == s.clock
    requires t in after.threads && after.threads == s.threads[t := after.threads[t]] && ThreadOk(s.ps, after.threads[t])
    requires forall y: nat :: Owns(after.threads[t], y) ==> t in s.threads && Owns(s.threads[t], y)
    ensures Inv(after) && LegalMoves(s.ps, after.ps)
  {
    hide ThreadOk, Owns, Uniform, ClaimsOk;
    ClaimsSame(s, after);
    forall u, v, y: nat | u in after.threads && v in after.threads && u != v
      ensures !(Owns(after.threads[u], y) && Owns(after.threads[v], y))
    {
      if u in s.threads && v in s.threads { assert !(Owns(s.threads[u], y) && Owns(s.threads[v], y)); }
    }
  }

  lemma EndThread(s: Sys, t: nat, after: Sys)
    requires Inv(s) && after == s.(threads := s.threads - {t})
    ensures Inv(after) && LegalMoves(s.ps, after.ps)
  {
    hide ThreadOk, Owns, Uniform, ClaimsOk;
    ClaimsSame(s, after);
    forall u, v, y: nat | u in after.threads && v in after.threads && u != v
      ensures !(Owns(after.threads[u], y) && Owns(after.threads[v], y))
    {
      assert !(Owns(s.threads[u], y) && Owns(s.threads[v], y));
    }
  }

  // -------------------------------------------------------------- every action

  lemma OwnsAt(t: Thread, k: nat)
    requires OwnsFrom(t) <= k < |ListOf(t)|
    ensures Owns(t, ListOf(t)[k])
  {
  }

  lemma OwnsLess(t: Thread, u: Thread)
    requires ListOf(u) == ListOf(t) && OwnsFrom(t) <= OwnsFrom(u)
    ensures forall y: nat :: Owns(u, y) ==> Owns(t, y)
  {
    forall y: nat | Owns(u, y) ensures Owns(t, y) {
      var k :| OwnsFrom(u) <= k < |ListOf(u)| && ListOf(u)[k] == y;
      assert ListOf(t)[k] == y;
    }
  }

  lemma DeployerMoves(ps: seq<Promotion>, g: seq<nat>, k: nat)
    requires ThreadOk(ps, Deployer(g, k))
    ensures k < |g| && g[k] < |ps| && ps[g[k]].status == Deploying
    ensures k + 1 < |g| ==> ThreadOk(SetStatus(ps, g[k], Deployed), Deployer(g, k + 1))
    ensures ThreadOk(SetStatus(ps, g[k], Failed), Undoer(g, k, k))
  {
    var qs := SetStatus(ps, g[k], Failed);
    assert AllShipped(qs, g, k);
    assert AllAre(qs, g, k + 1, |g|, Deploying);
    var rs := SetStatus(ps, g[k], Deployed);
    assert AllAre(rs, g, k + 1, |g|, Deploying);
  }

  lemma UndoerMoves(ps: seq<Promotion>, g: seq<nat>, j: nat, k: nat)
    requires 0 < j && ThreadOk(ps, Undoer(g, j, k))
    ensures j <= |g| && g[j - 1] < |ps| && Shipped(ps[g[j - 1]].status)
    ensures ThreadOk(SetStatus(ps, g[j - 1], RolledBack), Undoer(g, j - 1, k))
  {
    var x := g[j - 1];
    assert ps[x].status != Deploying;
    hide AllShipped;
    ShippedKept(ps, x, RolledBack, g, k);
  }

  lemma DeployOkSafe(s: Sys, a: Action)
    requires Inv(s) && Enabled(s, a) && a.DeployOk?
    ensures Inv(Step(s, a)) && LegalMoves(s.ps, Step(s, a).ps)
  {
    hide ThreadOk, Owns, Uniform, ClaimsOk, LegalMoves, Inv;
    var t := a.t;
    var Deployer(g, k) := s.threads[t];
    InvThread(s, t);
    DeployerMoves(s.ps, g, k);
    OwnsAt(s.threads[t], k);
    OwnsLess(s.threads[t], Deployer(g, k + 1));
    OwnerMoves(s, t, g[k], Deployed, Step(s, a));
  }

  lemma InvThread(s: Sys, t: nat)
    requires Inv(s) && t in s.threads
    ensures ThreadOk(s.ps, s.threads[t])
  {
  }

  lemma DeployFailsSafe(s: Sys, a: Action)
    requires Inv(s) && Enabled(s, a) && a.DeployFails?
    ensures Inv(Step(s, a)) && LegalMoves(s.ps, Step(s, a).ps)
  {
    hide ThreadOk, Owns, Uniform, ClaimsOk, LegalMoves, Inv;
    var t := a.t;
    var Deployer(g, k) := s.threads[t];
    InvThread(s, t);
    DeployerMoves(s.ps, g, k);
    OwnsAt(s.threads[t], k);
    OwnsLess(s.threads[t], Undoer(g, k, k));
    OwnerMoves(s, t, g[k], Failed, Step(s, a));
  }

  lemma UndoOkSafe(s: Sys, a: Action)
    requires Inv(s) && Enabled(s, a) && a.UndoOk?
    ensures Inv(Step(s, a)) && LegalMoves(s.ps, Step(s, a).ps)
  {
    hide ThreadOk, Owns, Uniform, ClaimsOk, LegalMoves, Inv;
    var t := a.t;
    var Undoer(g, j, k) := s.threads[t];
    InvThread(s, t);
    UndoerMoves(s.ps, g, j, k);
    OwnsLess(s.threads[t], Undoer(g, j - 1, k));
    OwnerMoves(s, t, g[j - 1], RolledBack, Step(s, a));
  }

  lemma FailNextSafe(s: Sys, a: Action)
    requires Inv(s) && Enabled(s, a) && a.FailNext?
    ensures Inv(Step(s, a)) && LegalMoves(s.ps, Step(s, a).ps)
  {
    hide Uniform, ClaimsOk, LegalMoves, Group, RollbackVerdict;
    var t := a.t;
    var Failer(g, m) := s.threads[t];
    assert ThreadOk(s.ps, s.threads[t]);
    if m < |g| {
      OwnsAt(s.threads[t], m);
      OwnsLess(s.threads[t], Failer(g, m + 1));
      OwnerMoves(s, t, g[m], Failed, Step(s, a));
    } else {
      EndThread(s, t, Step(s, a));
    }
  }

  lemma RollOkSafe(s: Sys, a: Action)
    requires Inv(s) && Enabled(s, a) && a.RollOk?
    ensures Inv(Step(s, a)) && LegalMoves(s.ps, Step(s, a).ps)
  {
    hide Uniform, ClaimsOk, LegalMoves, Group, RollbackVerdict;
    var t := a.t;
    var todo := s.threads[t].todo;
    assert ThreadOk(s.ps, s.threads[t]);
    if todo == [] {
      EndThread(s, t, Step(s, a));
    } else {
      OwnsLess(s.threads[t], Roller(todo[..|todo| - 1]));
      OwnerMoves(s, t, todo[|todo| - 1], RolledBack, Step(s, a));
    }
  }

  lemma LocalSafe(s: Sys, a: Action)
    requires Inv(s) && Enabled(s, a)
    requires a.CheckRelease? || a.LoadGroup? || a.UndoFails? || a.UndoneAll? || a.StartRollback? || a.RollFails?
    ensures Inv(Step(s, a)) && LegalMoves(s.ps, Step(s, a).ps)
  {
    hide Group, DeployedOf, RollbackVerdict, Uniform, ClaimsOk;
    var after := Step(s, a);
    if a.RollFails? {
      EndThread(s, a.t, after);
    } else {
      assert a.t in s.threads ==> ThreadOk(s.ps, s.threads[a.t]);
      assert ThreadOk(s.ps, after.threads[a.t]);
      if a.t in s.threads { OwnsLess(s.threads[a.t], after.threads[a.t]); }
      ReplaceThread(s, a.t, after);
    }
  }

  // ------------------------------------------------- claiming, rejecting, arriving

  /** The members of g are pending and become `status`. */
  ghost predicate Marked(ps: seq<Promotion>, qs: seq<Promotion>, g: seq<nat>, status: Status, who: string) {
    && InRange(g, |ps|) && AllPending(ps, g) && qs == Mark(ps, g, status, who) &&
        (status == Deploying || status == Rejected)
  }

  lemma MarkedAt(ps: seq<Promotion>, qs: seq<Promotion>, g: seq<nat>, status: Status, who: string)
    requires Marked(ps, qs, g, status, who)
    ensures |qs| == |ps| && LegalMoves(ps, qs) && DecidedSame(ps, qs)
    ensures forall j: nat :: j < |ps| ==> qs[j].offer == ps[j].offer
    ensures forall j: nat :: j < |ps| && ps[j].status != Pending ==> qs[j] == ps[j]
    ensures forall j: nat :: j < |ps| && j in g ==> ps[j].status == Pending && qs[j].status == status
    ensures forall j: nat :: j < |ps| && j !in g ==> qs[j] == ps[j]
  {
    forall j: nat | j < |ps| && j in g ensures ps[j].status == Pending {
      var k :| 0 <= k < |g| && g[k] == j;
    }
  }

  lemma MarkThreads(ps: seq<Promotion>, qs: seq<Promotion>, g: seq<nat>, status: Status, who: string, t: Thread)
    requires Marked(ps, qs, g, status, who) && ThreadOk(ps, t)
    ensures ThreadOk(qs, t)
  {
    MarkedAt(ps, qs, g, status, who);
    hide Marked, Group, LegalMoves, AllAre, AllShipped, DecidedSame;
    match t
    case Receiver(_) =>
    case Waiting(i, h) =>
      GroupKept(ps, qs, i);
      AreMarked(ps, qs, h, 0, |h|);
    case Deployer(h, k) =>
      AreMarked(ps, qs, h, k, |h|);
      ShippedMarked(ps, qs, h, k);
    case Undoer(h, j, k) =>
      AreMarked(ps, qs, h, k + 1, |h|);
      ShippedMarked(ps, qs, h, k);
      assert h[k] < |ps|;
    case Failer(h, m) => AreMarked(ps, qs, h, m, |h|);
    case Roller(todo) => ShippedMarked(ps, qs, todo, |todo|);
  }

  /** What is decided stays as it is. */
  ghost predicate DecidedSame(ps: seq<Promotion>, qs: seq<Promotion>) {
    |qs| == |ps| && forall j: nat :: j < |ps| && ps[j].status != Pending ==> qs[j] == ps[j]
  }

  lemma AreMarked(ps: seq<Promotion>, qs: seq<Promotion>, h: seq<nat>, lo: int, hi: int)
    requires DecidedSame(ps, qs) && AllAre(ps, h, lo, hi, Deploying)
    ensures AllAre(qs, h, lo, hi, Deploying)
  {
  }

  lemma ShippedMarked(ps: seq<Promotion>, qs: seq<Promotion>, h: seq<nat>, hi: int)
    requires DecidedSame(ps, qs) && AllShipped(ps, h, hi)
    ensures AllShipped(qs, h, hi)
  {
  }

  lemma MarkUniform(ps: seq<Promotion>, qs: seq<Promotion>, i: nat, status: Status, who: string)
    requires i < |ps| && Marked(ps, qs, Group(ps, i), status, who) && Uniform(ps)
    ensures Uniform(qs)
  {
    MarkedAt(ps, qs, Group(ps, i), status, who);
    forall a, b | 0 <= a < |qs| && 0 <= b < |qs| && SameGroup(qs, a, b)
        ensures qs[a].status == Pending <==> qs[b].status == Pending {
      assert SameGroup(ps, a, b);
      assert SameGroup(ps, i, a) <==> SameGroup(ps, i, b);
    }
  }

  lemma ClaimClaims(s: Sys, after: Sys, i: nat, username: string, rules: Rules)
    requires ClaimsOk(s) && i < |s.ps| && Marked(s.ps, after.ps, Group(s.ps, i), Deploying, username)
    requires forall k :: 0 <= k < |Group(s.ps, i)| ==> !SentBy(s.ps[Group(s.ps, i)[k]], rules, username)
    requires after.claims == s.claims + (map x | x in Group(s.ps, i) :: Claimant(username, rules, s.clock)) &&
        after.clock == s.clock + 1
    ensures ClaimsOk(after)
  {
    var g := Group(s.ps, i);
    MarkedAt(s.ps, after.ps, g, Deploying, username);
    assert InRange(g, |s.ps|);
    assert NewClaims(s, after, g, Claimant(username, rules, s.clock));
    hide NewClaims, Marked, Group, SentBy, InRange, LegalMoves, DecidedSame;
    ClaimsNowMatch(s, after, g, Claimant(username, rules, s.clock));
    ClaimsNowFair(s, after, g, Claimant(username, rules, s.clock));
    ClaimsNowWhole(s, after, i, Claimant(username, rules, s.clock));
  }

  /** after is s with g marked and claimed by c. */
  ghost predicate NewClaims(s: Sys, after: Sys, g: seq<nat>, c: Claimant) {
    && |after.ps| == |s.ps| && InRange(g, |s.ps|)
    && (forall j: nat :: j < |s.ps| ==> after.ps[j].offer == s.ps[j].offer)
    && (forall j: nat :: j < |s.ps| && j in g ==> s.ps[j].status == Pending && after.ps[j].status == Deploying)
    && (forall j: nat :: j < |s.ps| && j !in g ==> after.ps[j] == s.ps[j])
    && after.claims == s.claims + (map x | x in g :: c) && after.clock == s.clock + 1 && c.claim == s.clock
  }

  lemma ClaimsNowMatch(s: Sys, after: Sys, g: seq<nat>, c: Claimant)
    requires ClaimsMatch(s) && NewClaims(s, after, g, c)
    ensures ClaimsMatch(after)
  {
  }

  lemma ClaimsNowFair(s: Sys, after: Sys, g: seq<nat>, c: Claimant)
    requires ClaimsFair(s) && NewClaims(s, after, g, c)
    requires forall k :: 0 <= k < |g| ==> !SentBy(s.ps[g[k]], c.rules, c.username)
    ensures ClaimsFair(after)
  {
    hide EqualFold;
    forall a | 0 <= a < |after.ps| && a in after.claims ensures !SentBy(after.ps[a], after.claims[a].rules,
        after.claims[a].username) {
      if a in g {
        var k :| 0 <= k < |g| && g[k] == a;
        assert !SentBy(s.ps[g[k]], c.rules, c.username);
      } else {
        assert a in s.claims;
      }
    }
  }

  lemma ClaimsNowAt(s: Sys, after: Sys, i: nat, c: Claimant, a: nat)
    requires i < |s.ps| && NewClaims(s, after, Group(s.ps, i), c) && a < |s.ps|
    ensures if SameGroup(s.ps, i, a) then a in after.claims && after.claims[a] == c
            else (a in after.claims <==> a in s.claims) && (a in s.claims ==> after.claims[a] == s.claims[a])
  {
    var g := Group(s.ps, i);
    hide Group;
    assert a in g <==> SameGroup(s.ps, i, a);
  }

  lemma ClaimsNowWhole(s: Sys, after: Sys, i: nat, c: Claimant)
    requires i < |s.ps| && ClaimsWhole(s) && NewClaims(s, after, Group(s.ps, i), c)
    ensures ClaimsWhole(after)
  {
    SameOfferGroups(s, after, i, c);
    hide Group, NewClaims, SameGroup;
    forall a: nat, b: nat | a < |after.ps| && b < |after.ps| && a in after.claims && SameGroup(after.ps, a, b)
      ensures b in after.claims && after.claims[b] == after.claims[a]
    {
      SameGroupJoins(s.ps, i, a, b);
      ClaimsNowAt(s, after, i, c, a);
      ClaimsNowAt(s, after, i, c, b);
    }
  }

  lemma SameGroupJoins(ps: seq<Promotion>, i: nat, a: nat, b: nat)
    requires i < |ps| && a < |ps| && b < |ps| && SameGroup(ps, a, b)
    ensures SameGroup(ps, i, a) <==> SameGroup(ps, i, b)
  {
  }

  lemma SameOfferGroups(s: Sys, after: Sys, i: nat, c: Claimant)
    requires i < |s.ps| && NewClaims(s, after, Group(s.ps, i), c)
    ensures |after.ps| == |s.ps|
    ensures forall a, b :: 0 <= a < |s.ps| && 0 <= b < |s.ps| ==> (SameGroup(after.ps, a, b) <==> SameGroup(s.ps, a, b))
  {
    hide Group;
  }

  lemma RejectClaims(s: Sys, after: Sys, g: seq<nat>, who: string)
    requires ClaimsOk(s) && Marked(s.ps, after.ps, g, Rejected, who) && after.claims == s.claims &&
        after.clock == s.clock
    ensures ClaimsOk(after)
  {
    MarkedAt(s.ps, after.ps, g, Rejected, who);
    hide Marked, LegalMoves;
    forall a, b | 0 <= a < |after.ps| && 0 <= b < |after.ps| && a in after.claims && SameGroup(after.ps, a, b)
      ensures b in after.claims && after.claims[b] == after.claims[a]
    {
      assert SameGroup(s.ps, a, b);
    }
  }

  /** Only promotions being deployed are owned. */
  lemma OwnedDeploying(ps: seq<Promotion>, t: Thread, x: nat)
    requires ThreadOk(ps, t) && Owns(t, x)
    ensures x < |ps| && ps[x].status == Deploying
  {
    var k :| OwnsFrom(t) <= k < |ListOf(t)| && ListOf(t)[k] == x;
  }

  lemma ClaimSafe(s: Sys, a: Action)
    requires Inv(s) && Enabled(s, a) && a.ClaimIt?
    ensures Inv(Step(s, a)) && LegalMoves(s.ps, Step(s, a).ps)
  {
    var after := Step(s, a);
    var g := Group(s.ps, a.i);
    forall k | 0 <= k < |g| ensures s.ps[g[k]].status == Pending && !SentBy(s.ps[g[k]], a.rules, a.username) {
      assert MemberVerdict(s.ps[g[k]], a.rules, a.username).Fine?;
    }
    assert Marked(s.ps, after.ps, g, Deploying, a.username);
    MarkedAt(s.ps, after.ps, g, Deploying, a.username);
    MarkUniform(s.ps, after.ps, a.i, Deploying, a.username);
    ClaimClaims(s, after, a.i, a.username, a.rules);
    ClaimThreads(s, after, a.t, a.i, a.username);
  }

  lemma ClaimThreads(s: Sys, after: Sys, t: nat, i: nat, who: string)
    requires ThreadsOk(s) && t !in s.threads && i < |s.ps|
    requires Marked(s.ps, after.ps, Group(s.ps, i), Deploying, who) &&
        after.threads == s.threads[t := Waiting(i, Group(s.ps, i))]
    ensures ThreadsOk(after)
  {
    var g := Group(s.ps, i);
    MarkedAt(s.ps, after.ps, g, Deploying, who);
    GroupKept(s.ps, after.ps, i);
    assert AllAre(after.ps, g, 0, |g|, Deploying) by {
      forall k | 0 <= k < |g| ensures after.ps[g[k]].status == Deploying { assert g[k] in g; }
    }
    hide Group, LegalMoves, ThreadOk, Owns;
    forall u | u in after.threads ensures ThreadOk(after.ps, after.threads[u]) {
      if u != t { MarkThreads(s.ps, after.ps, g, Deploying, who, s.threads[u]); } else { WaitingOk(after.ps, i, g); }
    }
    forall u, v, y: nat | u in after.threads && v in after.threads && u != v
      ensures !(Owns(after.threads[u], y) && Owns(after.threads[v], y))
    {
      if u != t && v != t {
        assert !(Owns(s.threads[u], y) && Owns(s.threads[v], y));
      } else {
        var other := if u == t then v else u;
        if Owns(Waiting(i, g), y) && Owns(s.threads[other], y) {
          OwnedDeploying(s.ps, s.threads[other], y);
          WaitingOwns(i, g, y);
        }
      }
    }
  }

  lemma WaitingOk(ps: seq<Promotion>, i: nat, g: seq<nat>)
    requires i < |ps| && g == Group(ps, i) && AllAre(ps, g, 0, |g|, Deploying)
    ensures ThreadOk(ps, Waiting(i, g))
  {
  }

  lemma WaitingOwns(i: nat, g: seq<nat>, y: nat)
    requires Owns(Waiting(i, g), y)
    ensures y in g
  {
  }

  lemma RejectThreads(s: Sys, after: Sys, g: seq<nat>, who: string)
    requires ThreadsOk(s) && Marked(s.ps, after.ps, g, Rejected, who) && after.threads == s.threads
    ensures ThreadsOk(after)
  {
    hide Owns, ThreadOk, Marked;
    forall u | u in after.threads ensures ThreadOk(after.ps, after.threads[u]) {
      MarkThreads(s.ps, after.ps, g, Rejected, who, s.threads[u]);
    }
  }

  lemma RejectSafe(s: Sys, a: Action)
    requires Inv(s) && Enabled(s, a) && a.RejectIt?
    ensures Inv(Step(s, a)) && LegalMoves(s.ps, Step(s, a).ps)
  {
    hide ThreadsOk, Uniform, ClaimsOk, LegalMoves, Group, AllPending;
    var after := Step(s, a);
    var g := Group(s.ps, a.i);
    assert Marked(s.ps, after.ps, g, Rejected, "");
    MarkedAt(s.ps, after.ps, g, Rejected, "");
    MarkUniform(s.ps, after.ps, a.i, Rejected, "");
    RejectClaims(s, after, g, "");
    RejectThreads(s, after, g, "");
  }

  predicate SameRelease(p: Promotion, q: Promotion) {
    p.offer.releaseID != "" && p.offer.peerID == q.offer.peerID && p.offer.releaseID == q.offer.releaseID
  }

  /** Pending promotions that join no release already decided. */
  ghost predicate Joins(ps: seq<Promotion>, more: seq<Promotion>) {
    && (forall k :: 0 <= k < |more| ==> more[k].status == Pending)
    && (forall i, k :: 0 <= i < |ps| && 0 <= k < |more| && SameRelease(ps[i], more[k]) ==> ps[i].status == Pending)
  }

  lemma {:induction false} GroupUpToMore(ps: seq<Promotion>, more: seq<Promotion>, i: nat, n: nat)
    requires i < |ps| && ps[i].status != Pending && Joins(ps, more) && n <= |ps + more|
    ensures GroupUpTo(ps + more, i, n) == GroupUpTo(ps, i, if n <= |ps| then n else |ps|)
  {
    if n > 0 {
      GroupUpToMore(ps, more, i, n - 1);
      var all := ps + more;
      assert all[i] == ps[i];
      if n > |ps| { assert all[n - 1] == more[n - 1 - |ps|] && !SameRelease(ps[i], more[n - 1 - |ps|]); }
      assert n > |ps| ==> !SameGroup(all, i, n - 1);
      assert n <= |ps| ==> (SameGroup(all, i, n - 1) <==> SameGroup(ps, i, n - 1));
    }
  }

  lemma JoinGroups(ps: seq<Promotion>, more: seq<Promotion>)
    requires Joins(ps, more)
    ensures forall i, j :: 0 <= i < |ps| && 0 <= j < |ps| ==> (SameGroup(ps + more, i, j) <==> SameGroup(ps, i, j))
    ensures forall i, j :: 0 <= i < |ps| <= j < |ps + more| && SameGroup(ps + more, i, j) ==> ps[i].status == Pending
    ensures forall i, j :: 0 <= i < |ps| <= j < |ps + more| && SameGroup(ps + more, j, i) ==> ps[i].status == Pending
  {
    var all := ps + more;
    forall i, j | 0 <= i < |ps| <= j < |all| && (SameGroup(all, i, j) || SameGroup(all, j, i))
        ensures ps[i].status == Pending {
      assert all[j] == more[j - |ps|] && all[i] == ps[i];
      assert SameRelease(ps[i], more[j - |ps|]);
    }
  }

  lemma JoinUniform(ps: seq<Promotion>, more: seq<Promotion>)
    requires Joins(ps, more) && Uniform(ps)
    ensures Uniform(ps + more)
  {
    JoinGroups(ps, more);
    var all := ps + more;
    forall i, j | 0 <= i < |all| && 0 <= j < |all| && SameGroup(all, i, j)
        ensures all[i].status == Pending <==> all[j].status == Pending {
      if i < |ps| && j < |ps| { assert SameGroup(ps, i, j); }
    }
  }

  lemma JoinClaims(s: Sys, after: Sys, more: seq<Promotion>)
    requires Joins(s.ps, more) && ClaimsOk(s) && after.ps == s.ps + more && after.claims == s.claims &&
        after.clock == s.clock
    ensures ClaimsOk(after)
  {
    JoinGroups(s.ps, more);
  }

  lemma JoinWaiting(ps: seq<Promotion>, more: seq<Promotion>, i: nat, g: seq<nat>)
    requires Joins(ps, more) && ThreadOk(ps, Waiting(i, g))
    ensures ThreadOk(ps + more, Waiting(i, g))
  {
    hide Group, Joins, AllAre;
    WaitingSelf(ps, i, g);
    GroupMore(ps, more, i);
    JoinLists(ps, more, g, 0, |g|);
  }

  lemma WaitingSelf(ps: seq<Promotion>, i: nat, g: seq<nat>)
    requires ThreadOk(ps, Waiting(i, g))
    ensures i < |ps| && ps[i].status == Deploying
  {
    hide GroupUpTo;
    var k :| 0 <= k < |g| && g[k] == i;
    assert ps[g[k]].status == Deploying;
  }

  lemma GroupMore(ps: seq<Promotion>, more: seq<Promotion>, i: nat)
    requires i < |ps| && ps[i].status != Pending && Joins(ps, more)
    ensures Group(ps + more, i) == Group(ps, i)
  {
    hide GroupUpTo, Joins;
    GroupUpToMore(ps, more, i, |ps + more|);
  }

  lemma JoinLists(ps: seq<Promotion>, more: seq<Promotion>, g: seq<nat>, lo: int, hi: int)
    ensures InRange(g, |ps|) ==> InRange(g, |ps + more|)
    ensures AllAre(ps, g, lo, hi, Deploying) ==> AllAre(ps + more, g, lo, hi, Deploying)
    ensures AllShipped(ps, g, hi) ==> AllShipped(ps + more, g, hi)
  {
  }

  lemma JoinThread(ps: seq<Promotion>, more: seq<Promotion>, t: Thread)
    requires Joins(ps, more) && ThreadOk(ps, t)
    ensures ThreadOk(ps + more, t)
  {
    hide AllAre, AllShipped, Increasing, Joins, Group;
    match t
    case Receiver(_) =>
    case Waiting(i, g) => JoinWaiting(ps, more, i, g);
    case Deployer(g, k) =>
      JoinLists(ps, more, g, k, |g|);
      JoinLists(ps, more, g, k, k);
    case Undoer(g, j, k) =>
      JoinLists(ps, more, g, k + 1, |g|);
      JoinLists(ps, more, g, k, k);
      assert g[k] < |ps| && (ps + more)[g[k]] == ps[g[k]];
    case Failer(g, m) => JoinLists(ps, more, g, m, |g|);
    case Roller(todo) => JoinLists(ps, more, todo, 0, |todo|);
  }

  lemma ArriveSafe(s: Sys, after: Sys, more: seq<Promotion>)
    requires Inv(s) && Joins(s.ps, more) && after.ps == s.ps + more && after.claims == s.claims &&
        after.clock == s.clock
    requires forall t :: t in after.threads ==> t in s.threads && after.threads[t] == s.threads[t]
    ensures Inv(after) && LegalMoves(s.ps, after.ps)
  {
    JoinUniform(s.ps, more);
    JoinClaims(s, after, more);
    assert LegalMoves(s.ps, after.ps);
    hide ThreadOk, Owns, Uniform, ClaimsOk, LegalMoves;
    forall t | t in after.threads ensures ThreadOk(after.ps, after.threads[t]) {
      JoinThread(s.ps, more, s.threads[t]);
    }
    forall u, v, y: nat | u in after.threads && v in after.threads && u != v
      ensures !(Owns(after.threads[u], y) && Owns(after.threads[v], y))
    {
      assert !(Owns(s.threads[u], y) && Owns(s.threads[v], y));
    }
  }

  lemma StoreSafe(s: Sys, a: Action)
    requires Inv(s) && Enabled(s, a) && a.StoreRelease? && StoreOk(s, a)
    ensures Inv(Step(s, a)) && LegalMoves(s.ps, Step(s, a).ps)
  {
    hide Uniform, ClaimsOk, LegalMoves, Owns;
    var batch := s.threads[a.t].batch;
    InvThread(s, a.t);
    assert forall k :: 0 <= k < |batch| ==> InRelease(batch[k], batch);
    forall i, k | 0 <= i < |s.ps| && 0 <= k < |batch| && SameRelease(s.ps[i], batch[k])
      ensures s.ps[i].status == Pending
    {
      assert InRelease(s.ps[i], batch);
    }
    ArriveSafe(s, Step(s, a), batch);
  }

  /** Every action keeps the invariant and makes only legal moves, in every state, as long
      as a release is not stored next to members that were already decided. */
  lemma StepSafe(s: Sys, a: Action)
    requires Inv(s) && Enabled(s, a) && StoreOk(s, a)
    ensures Inv(Step(s, a)) && LegalMoves(s.ps, Step(s, a).ps)
  {
    match a
    case ArriveAlone(p) =>
      hide Inv, LegalMoves;
      assert Joins(s.ps, [p]);
      ArriveSafe(s, Step(s, a), [p]);
    case StoreRelease(t) => StoreSafe(s, a);
    case ClaimIt(t, i, username, rules) => ClaimSafe(s, a);
    case RejectIt(i) => RejectSafe(s, a);
    case DeployOk(t) => DeployOkSafe(s, a);
    case DeployFails(t) => DeployFailsSafe(s, a);
    case UndoOk(t) => UndoOkSafe(s, a);
    case FailNext(t) => FailNextSafe(s, a);
    case RollOk(t) => RollOkSafe(s, a);
    case CheckRelease(_, _) => LocalSafe(s, a);
    case LoadGroup(_) => LocalSafe(s, a);
    case UndoFails(_) => LocalSafe(s, a);
    case UndoneAll(_) => LocalSafe(s, a);
    case StartRollback(_, _) => LocalSafe(s, a);
    case RollFails(_) => LocalSafe(s, a);
  }

  // ------------------------------------------------------------------ whole runs

  ghost predicate Runs(s: Sys, actions: seq<Action>)
    decreases |actions|
  {
    actions == [] || (Enabled(s, actions[0]) && StoreOk(s, actions[0]) && Runs(Step(s, actions[0]), actions[1..]))
  }

  function End(s: Sys, actions: seq<Action>): Sys
    decreases |actions|
  {
    if actions == [] || !Enabled(s, actions[0]) then s else End(Step(s, actions[0]), actions[1..])
  }

  predicate Final(st: Status) {
    st == Rejected || st == Failed || st == RolledBack
  }

  /** The statuses reachable from a by legal moves. */
  predicate Leads(a: Status, b: Status) {
    || a == b || a == Pending
    || (a == Deploying && (b == Deployed || b == Failed || b == RolledBack))
    || (a == Deployed && b == RolledBack)
  }

  /** What holds between any two moments of a run. */
  ghost predicate Since(s: Sys, e: Sys) {
    && |s.ps| <= |e.ps|
    && (forall i :: 0 <= i < |s.ps| ==> e.ps[i].offer == s.ps[i].offer && Leads(s.ps[i].status, e.ps[i].status))
    && (forall i :: 0 <= i < |s.ps| && Final(s.ps[i].status) ==> e.ps[i].status == s.ps[i].status)
    && (forall i :: i in s.claims ==> i in e.claims && e.claims[i] == s.claims[i])
  }

  lemma ClaimsStay(s: Sys, a: Action)
    requires Inv(s) && Enabled(s, a)
    ensures forall i :: i in s.claims ==> i in Step(s, a).claims && Step(s, a).claims[i] == s.claims[i]
  {
    hide ThreadsOk, Uniform;
    if a.ClaimIt? {
      var g := Group(s.ps, a.i);
      forall k | 0 <= k < |g| ensures s.ps[g[k]].status == Pending {
        assert MemberVerdict(s.ps[g[k]], a.rules, a.username).Fine?;
      }
    }
  }

  /** The protocol over every interleaving: statuses only go pending to deploying or
      rejected, deploying to deployed or failed, deployed to rolled back; the final ones
      never change; a release leaves pending as a whole; and a claim, once made, stays
      the only one, covers the whole release and is by nobody who may not approve it. */
  lemma {:induction false} EveryRunIsLegal(s: Sys, actions: seq<Action>)
    requires Inv(s) && Runs(s, actions)
    ensures Inv(End(s, actions)) && Since(s, End(s, actions))
    decreases |actions|
  {
    if actions != [] {
      var next := Step(s, actions[0]);
      StepSafe(s, actions[0]);
      ClaimsStay(s, actions[0]);
      EveryRunIsLegal(next, actions[1..]);
      SinceStep(s, next, End(next, actions[1..]));
    }
  }

  lemma SinceStep(s: Sys, next: Sys, e: Sys)
    requires LegalMoves(s.ps, next.ps) && Since(next, e)
    requires forall i :: i in s.claims ==> i in next.claims && next.claims[i] == s.claims[i]
    ensures Since(s, e)
  {
  }

  const START := Sys([], map[], map[], 0)

  lemma StartOk()
    ensures Inv(START)
  {
  }

  // ----------------------------------------------- a release received twice at once

  /** ReceiveRelease looks for the release before it takes the lock. Storing it keeps the
      invariant exactly when no stored member of it has been decided meanwhile. */
  lemma StoreSafeIff(s: Sys, a: Action)
    requires Inv(s) && Enabled(s, a) && a.StoreRelease?
    ensures Inv(Step(s, a)) <==> StoreOk(s, a)
  {
    if StoreOk(s, a) {
      StoreSafe(s, a);
    } else {
      InvThread(s, a.t);
      var batch := s.threads[a.t].batch;
      var j :| 0 <= j < |s.ps| && InRelease(s.ps[j], batch) && s.ps[j].status != Pending;
      var after := Step(s, a);
      assert after.ps[|s.ps|] == batch[0] && after.ps[j] == s.ps[j];
      assert InRelease(batch[0], batch);
      assert SameGroup(after.ps, j, |s.ps|);
      assert !Uniform(after.ps);
    }
  }
}
