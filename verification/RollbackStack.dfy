/** Rolling back is popping a stack: over whole runs of arrivals, approvals,
    rejections and rollbacks, a workflow's definition is that of the newest promotion
    still deployed (receive.go, applyPromoted, Rollback and undo). */
module RollbackStack {
  import opened Workflows
  import opened Promotions
  import opened Decisions
  import opened ReleaseAtomicity

  predicate LiveFor(p: Promotion, w: string) {
    p.status == Deployed && p.offer.workflowID == w
  }

  /** The newest promotion of w among the first n that is deployed, or -1. */
  function Newest(ps: seq<Promotion>, w: string, n: nat): (r: int)
    requires n <= |ps|
    ensures -1 <= r < n
    ensures r >= 0 ==> LiveFor(ps[r], w)
    ensures forall j :: r < j < n ==> !LiveFor(ps[j], w)
  {
    if n == 0 then -1 else if LiveFor(ps[n - 1], w) then n - 1 else Newest(ps, w, n - 1)
  }

  /** The definition w should have if only the first n promotions counted. */
  ghost function Expected(st: Store, w: string, original: Definition, n: nat): Definition
    requires n <= |st.ps|
  {
    var r := Newest(st.ps, w, n);
    if r < 0 || st.ps[r].id !in st.bodies then original else DefinitionOf(st.bodies[st.ps[r].id])
  }

  /** Undoing promotion i would bring back what the older ones left. */
  ghost predicate Links(st: Store, w: string, original: Definition, i: nat)
    requires i < |st.ps|
  {
    && st.ps[i].id in st.bodies
    && 1 <= st.ps[i].previous <= |HistoryOf(st.flows, w)|
    && DefinitionOf(HistoryOf(st.flows, w)[st.ps[i].previous - 1]) == Expected(st, w, original, i)
  }

  /** The stack law of w, whose definition was `original` before any promotion. */
  ghost predicate Law(st: Store, w: string, original: Definition) {
    && w in st.flows.workflows
    && DefinitionOf(st.flows.workflows[w]) == Expected(st, w, original, |st.ps|)
    && forall i :: 0 <= i < |st.ps| && LiveFor(st.ps[i], w) ==> Links(st, w, original, i)
  }

  /** No promotion of the same workflow that arrived after ps[i] is deployed. */
  ghost predicate Top(ps: seq<Promotion>, i: nat)
    requires i < |ps|
  {
    forall j :: i < j < |ps| ==> !LiveFor(ps[j], ps[i].offer.workflowID)
  }

  // --------------------------------------------------- one promotion at a time

  lemma NewestSame(ps: seq<Promotion>, qs: seq<Promotion>, w: string, n: nat)
    requires n <= |ps| && n <= |qs|
    requires forall j :: 0 <= j < n ==> (LiveFor(ps[j], w) <==> LiveFor(qs[j], w))
    ensures Newest(ps, w, n) == Newest(qs, w, n)
  {
  }

  /** A step that changes no outcome and no workflow of w keeps its law. */
  lemma LawFrame(before: Store, after: Store, w: string, original: Definition)
    requires Law(before, w, original)
    requires |after.ps| == |before.ps| && after.bodies == before.bodies
    requires forall j :: 0 <= j < |before.ps| ==>
        after.ps[j].id == before.ps[j].id && (LiveFor(after.ps[j], w) <==> LiveFor(before.ps[j], w))
    requires forall j :: 0 <= j < |before.ps| && LiveFor(before.ps[j], w) ==>
        after.ps[j].previous == before.ps[j].previous
    requires SameFlow(before.flows, after.flows, w)
    ensures Law(after, w, original)
  {
    forall n | 0 <= n <= |before.ps| ensures Expected(after, w, original, n) == Expected(before, w, original, n) {
      NewestSame(before.ps, after.ps, w, n);
    }
    forall i | 0 <= i < |after.ps| && LiveFor(after.ps[i], w) ensures Links(after, w, original, i) {
      assert Links(before, w, original, i);
    }
  }

  /** Everything below i is as before: the expected definitions there are too. */
  lemma ExpectedBelow(before: Store, after: Store, w: string, original: Definition, i: nat, n: nat)
    requires i < |before.ps| && |after.ps| == |before.ps| && after.bodies == before.bodies
    requires forall j :: 0 <= j < |before.ps| && j != i ==> after.ps[j] == before.ps[j]
    requires n <= i
    ensures Expected(after, w, original, n) == Expected(before, w, original, n)
  {
    NewestSame(before.ps, after.ps, w, n);
  }

  /** An older live promotion keeps its link while the history only grows. */
  lemma LinkKept(before: Store, after: Store, i: nat, j: nat, w: string, original: Definition)
    requires j < i < |before.ps| && |after.ps| == |before.ps| && after.bodies == before.bodies
    requires forall k :: 0 <= k < |before.ps| && k != i ==> after.ps[k] == before.ps[k]
    requires HistoryOf(before.flows, w) <= HistoryOf(after.flows, w)
    requires Links(before, w, original, j)
    ensures Links(after, w, original, j)
  {
    ExpectedBelow(before, after, w, original, i, j);
  }

  /** Deploying the newest promotion of w pushes it. */
  lemma LawPush(before: Store, after: Store, i: nat, original: Definition)
    requires i < |before.ps| && DeployedOver(before, after, i) && before.ps[i].status != Deployed
    requires Law(before, before.ps[i].offer.workflowID, original) && Top(before.ps, i)
    ensures Law(after, before.ps[i].offer.workflowID, original)
  {
    var w := before.ps[i].offer.workflowID;
    ExpectedBelow(before, after, w, original, i, i);
    assert Newest(before.ps, w, |before.ps|) == Newest(before.ps, w, i);
    assert Newest(after.ps, w, |after.ps|) == i;
    forall j | 0 <= j < |after.ps| && LiveFor(after.ps[j], w) ensures Links(after, w, original, j) {
      if j != i { LinkKept(before, after, i, j, w, original); }
    }
  }

  /** Undoing the newest deployed promotion of w pops it. */
  lemma LawPop(before: Store, after: Store, i: nat, original: Definition)
    requires i < |before.ps| && UndoneOver(before, after, i) && before.ps[i].status == Deployed
    requires Law(before, before.ps[i].offer.workflowID, original) && Top(before.ps, i)
    ensures Law(after, before.ps[i].offer.workflowID, original)
  {
    var w := before.ps[i].offer.workflowID;
    assert Links(before, w, original, i);
    ExpectedBelow(before, after, w, original, i, i);
    assert Newest(after.ps, w, |after.ps|) == Newest(after.ps, w, i);
    forall j | 0 <= j < |after.ps| && LiveFor(after.ps[j], w) ensures Links(after, w, original, j) {
      LinkKept(before, after, i, j, w, original);
    }
  }

  /** One of the three things that happen to a promotion once it is claimed. */
  ghost predicate Moves(before: Store, after: Store, i: nat)
    requires i < |before.ps|
  {
    || (before.ps[i].status != Deployed && FailedOver(before, after, i))
    || (before.ps[i].status != Deployed && DeployedOver(before, after, i))
    || (before.ps[i].status == Deployed && UndoneOver(before, after, i))
  }

  /** Whatever happens to promotion i, the law of w survives, provided i is the newest
      when it is w's. */
  lemma LawMove(before: Store, after: Store, i: nat, w: string, original: Definition)
    requires i < |before.ps| && Moves(before, after, i) && Law(before, w, original)
    requires before.ps[i].offer.workflowID == w ==> Top(before.ps, i)
    ensures Law(after, w, original)
  {
    if before.ps[i].offer.workflowID != w || FailedOver(before, after, i) {
      LawFrame(before, after, w, original);
    } else if DeployedOver(before, after, i) {
      LawPush(before, after, i, original);
    } else {
      LawPop(before, after, i, original);
    }
  }

  // ------------------------------------------------------------ groups of them

  /** The members of g: within ps, all different, and no workflow twice. */
  ghost predicate Members(ps: seq<Promotion>, g: seq<nat>, ids: seq<string>) {
    && |ids| == |g|
    && (forall k :: 0 <= k < |g| ==> g[k] < |ps| && ids[k] == ps[g[k]].id)
    && (forall a, b :: 0 <= a < b < |g| ==> g[a] != g[b] && ps[g[a]].offer.workflowID != ps[g[b]].offer.workflowID)
  }

  /** Members ..a are deployed, members b.. are not. */
  ghost predicate Band(ps: seq<Promotion>, g: seq<nat>, a: nat, b: nat) {
    && a <= |g|
    && (forall k :: 0 <= k < a ==> g[k] < |ps| && ps[g[k]].status == Deployed)
    && (forall k :: b <= k < |g| ==> g[k] < |ps| && ps[g[k]].status != Deployed)
  }

  /** The member that is w's, if any, is the newest promotion of w. */
  ghost predicate InOrder(ps: seq<Promotion>, g: seq<nat>, w: string) {
    forall k :: 0 <= k < |g| ==> g[k] < |ps| && (ps[g[k]].offer.workflowID == w ==> Top(ps, g[k]))
  }

  /** ps holds the promotions of base, each with whatever outcome it has by now. */
  ghost predicate SameOffersAs(base: seq<Promotion>, ps: seq<Promotion>) {
    |ps| == |base| && forall j :: 0 <= j < |base| ==> ps[j].id == base[j].id && ps[j].offer == base[j].offer
  }

  ghost predicate Keeps(st: Store, base: seq<Promotion>, g: seq<nat>, ids: seq<string>, w: string,
                        original: Definition) {
    Valid(st) && Law(st, w, original) && SameOffersAs(base, st.ps) && Members(st.ps, g, ids) && InOrder(st.ps, g, w)
  }

  /** A move of one member keeps the law, and leaves the other members where they are. */
  lemma MemberMove(before: Store, after: Store, base: seq<Promotion>, g: seq<nat>, ids: seq<string>, m: nat,
                   w: string, original: Definition)
    requires Keeps(before, base, g, ids, w, original) && m < |g|
    requires Valid(after) && Moves(before, after, g[m])
    ensures Keeps(after, base, g, ids, w, original)
    ensures forall k :: 0 <= k < |g| && k != m ==> after.ps[g[k]] == before.ps[g[k]]
  {
    hide Law;
    var i := g[m];
    LawMove(before, after, i, w, original);
    assert forall j :: 0 <= j < |before.ps| && j != i ==> after.ps[j] == before.ps[j];
    forall k | 0 <= k < |g|
      ensures after.ps[g[k]].offer.workflowID == w ==> Top(after.ps, g[k])
      ensures k != m ==> after.ps[g[k]] == before.ps[g[k]]
    {
      if before.ps[g[k]].offer.workflowID == w && k != m {
        assert before.ps[i].offer.workflowID != w;
      }
    }
  }

  lemma {:induction false} UndoDownLaw(st: Store, base: seq<Promotion>, g: seq<nat>, ids: seq<string>, a: nat, b: nat,
                                       env: Env, w: string, original: Definition)
    requires Keeps(st, base, g, ids, w, original) && a <= b <= |g| == |ids| && Band(st.ps, g, a, b)
    ensures Keeps(UndoDown(st, ids, a, env), base, g, ids, w, original)
    ensures Band(UndoDown(st, ids, a, env).ps, g, 0, b)
    decreases a
  {
    hide Keeps, Undo;
    if a > 0 {
      var next := Undo(st, ids[a - 1], env).0;
      UndoOneLaw(st, base, g, ids, a - 1, env, w, original);
      UndoDownLaw(next, base, g, ids, a - 1, b, env, w, original);
    }
  }

  lemma UndoOneLaw(st: Store, base: seq<Promotion>, g: seq<nat>, ids: seq<string>, m: nat, env: Env, w: string,
                   original: Definition)
    requires Keeps(st, base, g, ids, w, original) && m < |g| && g[m] < |st.ps| && st.ps[g[m]].status == Deployed
    ensures var (s, ok) := Undo(st, ids[m], env);
      && Keeps(s, base, g, ids, w, original) && |s.ps| == |st.ps|
      && (forall k :: 0 <= k < |g| && k != m ==> s.ps[g[k]] == st.ps[g[k]])
      && (if ok then s.ps[g[m]].status == RolledBack else s == st)
  {
    hide Undo;
    UndoEnds(st, g[m], env);
    var (s, ok) := Undo(st, ids[m], env);
    if ok {
      assert Moves(st, s, g[m]);
      MemberMove(st, s, base, g, ids, m, w, original);
    }
  }

  lemma FailOneLaw(st: Store, base: seq<Promotion>, g: seq<nat>, ids: seq<string>, m: nat, who: string, w: string,
                   original: Definition)
    requires Keeps(st, base, g, ids, w, original) && m < |g| && g[m] < |st.ps| && st.ps[g[m]].status != Deployed
    ensures var s := Fail(st, ids[m], who);
      && Keeps(s, base, g, ids, w, original) && |s.ps| == |st.ps|
      && (forall k :: 0 <= k < |g| && k != m ==> s.ps[g[k]] == st.ps[g[k]])
  {
    hide Fail;
    var s := Fail(st, ids[m], who);
    FailKeeps(st, g[m], who);
    assert Moves(st, s, g[m]);
    MemberMove(st, s, base, g, ids, m, w, original);
  }

  lemma {:induction false} FailFromLaw(st: Store, base: seq<Promotion>, g: seq<nat>, ids: seq<string>, k: nat,
                                       who: string, w: string, original: Definition)
    requires Keeps(st, base, g, ids, w, original) && k <= |g| == |ids| && Band(st.ps, g, 0, k)
    ensures Keeps(FailFrom(st, ids, k, who), base, g, ids, w, original)
    decreases |g| - k
  {
    hide Keeps, Fail;
    if k < |g| {
      FailOneLaw(st, base, g, ids, k, who, w, original);
      FailFromLaw(Fail(st, ids[k], who), base, g, ids, k + 1, who, w, original);
    }
  }

  lemma DeployOneLaw(st: Store, base: seq<Promotion>, g: seq<nat>, ids: seq<string>, m: nat, terms: Terms, env: Env,
                     w: string, original: Definition)
    requires Keeps(st, base, g, ids, w, original) && m < |g| && g[m] < |st.ps| && st.ps[g[m]].status != Deployed
    ensures var (s, ok) := Deploy(st, ids[m], terms, env);
      && Keeps(s, base, g, ids, w, original) && |s.ps| == |st.ps|
      && (forall k :: 0 <= k < |g| && k != m ==> s.ps[g[k]] == st.ps[g[k]])
      && s.ps[g[m]].status == if ok then Deployed else Failed
  {
    hide Deploy;
    var (s, ok) := Deploy(st, ids[m], terms, env);
    DeployEnds(st, g[m], terms, env);
    assert Moves(st, s, g[m]);
    MemberMove(st, s, base, g, ids, m, w, original);
  }

  lemma UnwindLaw(st: Store, base: seq<Promotion>, g: seq<nat>, ids: seq<string>, k: nat, who: string, env: Env,
                  w: string, original: Definition)
    requires Keeps(st, base, g, ids, w, original) && k < |g| == |ids| && Band(st.ps, g, k, k)
    ensures Keeps(Unwind(st, ids, k, who, env), base, g, ids, w, original)
  {
    hide Keeps, UndoDown, FailFrom;
    var u := UndoDown(st, ids, k, env);
    UndoDownLaw(st, base, g, ids, k, k, env, w, original);
    assert Band(u.ps, g, 0, k + 1);
    FailFromLaw(u, base, g, ids, k + 1, who, w, original);
  }

  /** deployGroup keeps the law of w wherever it fails, and even when an undo does. */
  lemma {:induction false} DeployFromLaw(st: Store, base: seq<Promotion>, g: seq<nat>, ids: seq<string>, k: nat,
                                         terms: Terms, env: Env, w: string, original: Definition)
    requires Keeps(st, base, g, ids, w, original) && k <= |g| == |ids| && Band(st.ps, g, k, k)
    ensures Keeps(DeployFrom(st, ids, k, terms, env).0, base, g, ids, w, original)
    decreases |g| - k
  {
    hide Keeps, Deploy, Unwind;
    if k < |g| {
      var (s, ok) := Deploy(st, ids[k], terms, env);
      DeployOneLaw(st, base, g, ids, k, terms, env, w, original);
      if ok {
        DeployFromLaw(s, base, g, ids, k + 1, terms, env, w, original);
      } else if |g| > 1 {
        UnwindLaw(s, base, g, ids, k, terms.who, env, w, original);
      }
    }
  }

  // ---------------------------------------------------------------- operations

  /** No release holds a workflow twice. */
  ghost predicate ReleasesDistinct(ps: seq<Promotion>) {
    forall i, j :: 0 <= i < j < |ps| && SameGroup(ps, i, j) ==> ps[i].offer.workflowID != ps[j].offer.workflowID
  }

  /** What every operation keeps: a well-formed store and the law of w. */
  ghost predicate Inv(st: Store, w: string, original: Definition) {
    Valid(st) && ReleasesDistinct(st.ps) && Law(st, w, original)
  }

  /** w's promotions are approved in arrival order: when ps[i]'s release is approved, no
      later promotion of w is deployed. */
  ghost predicate ApprovedInOrder(ps: seq<Promotion>, i: int, w: string) {
    0 <= i < |ps| ==> InOrder(ps, Group(ps, i), w)
  }

  lemma SameOffers(before: seq<Promotion>, after: seq<Promotion>)
    requires SameOffersAs(before, after)
    ensures ReleasesDistinct(before) ==> ReleasesDistinct(after)
    ensures UniqueIDs(before) ==> UniqueIDs(after)
    ensures forall i, j :: 0 <= i < |before| && 0 <= j < |before| ==>
        (SameGroup(before, i, j) <==> SameGroup(after, i, j))
  {
    forall i, j | 0 <= i < |before| && 0 <= j < |before| ensures SameGroup(before, i, j) <==> SameGroup(after, i, j) {
      assert after[i].offer == before[i].offer && after[j].offer == before[j].offer;
    }
    if ReleasesDistinct(before) {
      forall i, j | 0 <= i < j < |after| && SameGroup(after, i, j)
          ensures after[i].offer.workflowID != after[j].offer.workflowID {
        assert SameGroup(before, i, j);
      }
    }
    if UniqueIDs(before) {
      forall i, j | 0 <= i < j < |after| ensures after[i].id != after[j].id {
        assert after[i].id == before[i].id && after[j].id == before[j].id;
      }
    }
  }

  /** Marking members that are not deployed with a status that is not Deployed keeps everything. */
  lemma MarkInv(st: Store, after: Store, g: seq<nat>, status: Status, who: string, w: string, original: Definition)
    requires Inv(st, w, original) && status != Deployed
    requires forall k :: 0 <= k < |g| ==> g[k] < |st.ps| && st.ps[g[k]].status != Deployed
    requires after.ps == Mark(st.ps, g, status, who) && after.flows == st.flows && after.bodies == st.bodies
    ensures Inv(after, w, original)
    ensures forall x: string, j: nat :: j < |st.ps| ==> (LiveFor(after.ps[j], x) <==> LiveFor(st.ps[j], x))
  {
    forall x: string, j: nat | j < |st.ps| ensures LiveFor(after.ps[j], x) <==> LiveFor(st.ps[j], x) {
      if j in g { var k :| 0 <= k < |g| && g[k] == j; }
    }
    SameOffers(st.ps, after.ps);
    forall j | 0 <= j < |after.ps| ensures BodyFiled(after.bodies, after.ps[j]) {
      assert BodyFiled(st.bodies, st.ps[j]);
    }
    LawFrame(st, after, w, original);
  }

  lemma GroupMembers(ps: seq<Promotion>, i: nat)
    requires i < |ps| && ReleasesDistinct(ps)
    ensures Members(ps, Group(ps, i), IDsAt(ps, Group(ps, i)))
  {
    var g := Group(ps, i);
    forall a, b | 0 <= a < b < |g| ensures ps[g[a]].offer.workflowID != ps[g[b]].offer.workflowID {
      assert SameGroup(ps, g[a], g[b]) by {
        assert SameGroup(ps, i, g[a]) && SameGroup(ps, i, g[b]);
      }
    }
  }

  lemma KeepsInv(st: Store, base: seq<Promotion>, g: seq<nat>, ids: seq<string>, w: string, original: Definition)
    requires Keeps(st, base, g, ids, w, original) && ReleasesDistinct(base)
    ensures Inv(st, w, original)
  {
    SameOffers(base, st.ps);
  }

  /** A claim that succeeds: who is claimed, and that nothing else moved. */
  ghost predicate ClaimedFrom(st: Store, s: Store, i: nat, who: string) {
    && i < |st.ps| && |s.ps| == |st.ps| && s == st.(ps := Mark(st.ps, Group(st.ps, i), Deploying, who))
    && forall k :: 0 <= k < |Group(st.ps, i)| ==> st.ps[Group(st.ps, i)[k]].status == Pending
  }

  lemma ClaimEnds(st: Store, rules: Rules, id: string, username: string, who: string, typed: map<string, string>)
    ensures var (s, v) := Claim(st, rules, id, username, who, typed);
      if v.Fine? then IndexOf(st.ps, id) >= 0 && ClaimedFrom(st, s, IndexOf(st.ps, id), who) else s == st
  {
    var (s, v) := Claim(st, rules, id, username, who, typed);
    if v.Fine? {
      var g := Group(st.ps, IndexOf(st.ps, id));
      forall k | 0 <= k < |g| ensures st.ps[g[k]].status == Pending {
        assert MemberVerdict(st.ps[g[k]], rules, username).Fine?;
      }
    }
  }

  lemma ClaimInv(st: Store, s: Store, i: nat, who: string, w: string, original: Definition)
    requires Inv(st, w, original) && ClaimedFrom(st, s, i, who)
    ensures Inv(s, w, original) && SameOffersAs(st.ps, s.ps)
    ensures IndexOf(s.ps, st.ps[i].id) == i && Group(s.ps, i) == Group(st.ps, i) && Band(s.ps, Group(st.ps, i), 0, 0)
    ensures InOrder(st.ps, Group(st.ps, i), w) ==> InOrder(s.ps, Group(st.ps, i), w)
  {
    hide Group, Law, ReleasesDistinct;
    var g := Group(st.ps, i);
    MarkInv(st, s, g, Deploying, who, w, original);
    assert SameOffersAs(st.ps, s.ps);
    IndexOfUnique(s.ps, i);
    GroupSame(st.ps, s.ps, i);
    forall k | 0 <= k < |g| ensures s.ps[g[k]].status == Deploying {
      assert g[k] in g;
    }
  }

  lemma GroupSame(ps: seq<Promotion>, qs: seq<Promotion>, i: nat)
    requires SameOffersAs(ps, qs) && i < |ps|
    ensures Group(ps, i) == Group(qs, i)
  {
    GroupUpToSame(ps, qs, i, |ps|);
  }

  lemma {:induction false} GroupUpToSame(ps: seq<Promotion>, qs: seq<Promotion>, i: nat, n: nat)
    requires SameOffersAs(ps, qs) && i < |ps| && n <= |ps|
    ensures GroupUpTo(ps, i, n) == GroupUpTo(qs, i, n)
  {
    if n > 0 { GroupUpToSame(ps, qs, i, n - 1); }
  }

  /** An approval, with the deploy it starts, in any world. */
  lemma ApproveInv(st: Store, rules: Rules, id: string, username: string, who: string, typed: map<string, string>,
                   startAnyway: bool, env: Env, w: string, original: Definition)
    requires Inv(st, w, original) && ApprovedInOrder(st.ps, IndexOf(st.ps, id), w)
    ensures Inv(Approve(st, rules, id, username, who, typed, startAnyway, env).0, w, original)
  {
    hide Inv, Claim, DeployFrom;
    var (s, v) := Claim(st, rules, id, username, who, typed);
    ClaimEnds(st, rules, id, username, who, typed);
    if v.Fine? {
      ClaimInv(st, s, IndexOf(st.ps, id), who, w, original);
      DeployClaimed(s, IndexOf(s.ps, id), Terms(who, NonBlank(typed), startAnyway), env, w, original);
    }
  }

  lemma DeployClaimed(s: Store, i: nat, terms: Terms, env: Env, w: string, original: Definition)
    requires Inv(s, w, original) && i < |s.ps| && Band(s.ps, Group(s.ps, i), 0, 0) && InOrder(s.ps, Group(s.ps, i), w)
    ensures Inv(DeployFrom(s, IDsAt(s.ps, Group(s.ps, i)), 0, terms, env).0, w, original)
  {
    hide DeployFrom;
    var g := Group(s.ps, i);
    var ids := IDsAt(s.ps, g);
    GroupMembers(s.ps, i);
    DeployFromLaw(s, s.ps, g, ids, 0, terms, env, w, original);
    KeepsInv(DeployFrom(s, ids, 0, terms, env).0, s.ps, g, ids, w, original);
  }

  lemma RejectInv(st: Store, id: string, username: string, reason: string, w: string, original: Definition)
    requires Inv(st, w, original)
    ensures Inv(Reject(st, id, username, reason).0, w, original)
  {
    var (s, v) := Reject(st, id, username, reason);
    if v.Fine? {
      var g := Group(st.ps, IndexOf(st.ps, id));
      MarkInv(st, s, g, Rejected, username, w, original);
    }
  }

  // ------------------------------------------------------------------ rollbacks

  /** A deployed newer promotion of p's workflow the guard does not see: it comes from
      another instance under the same release ID. */
  ghost predicate Hides(p: Promotion, q: Promotion) {
    && LiveFor(q, p.offer.workflowID)
    && q.offer.releaseID == p.offer.releaseID != "" && q.offer.peerID != p.offer.peerID
  }

  ghost predicate HiddenNewer(ps: seq<Promotion>, i: nat, w: string)
    requires i < |ps|
  {
    exists k, q :: 0 <= k < |Group(ps, i)| && Group(ps, i)[k] < q < |ps| && LiveFor(ps[Group(ps, i)[k]], w) &&
        Hides(ps[Group(ps, i)[k]], ps[q])
  }

  /** The members of ps[i]'s release that are deployed are the newest of their workflow. */
  ghost predicate UndoesNewest(ps: seq<Promotion>, i: nat, w: string)
    requires i < |ps|
  {
    forall k :: 0 <= k < |Group(ps, i)| && LiveFor(ps[Group(ps, i)[k]], w) ==> Top(ps, Group(ps, i)[k])
  }

  /** A permitted rollback undoes only the newest deployed promotion of w exactly when
      no newer one of w hides behind the same release ID of another instance. */
  lemma RollbackNewestIff(ps: seq<Promotion>, i: nat, w: string)
    requires i < |ps| && ReleasesDistinct(ps) && RollbackVerdict(ps, i).Fine?
    ensures UndoesNewest(ps, i, w) <==> !HiddenNewer(ps, i, w)
  {
    var g := Group(ps, i);
    if HiddenNewer(ps, i, w) {
      var k, q :| 0 <= k < |g| && g[k] < q < |ps| && LiveFor(ps[g[k]], w) && Hides(ps[g[k]], ps[q]);
      assert !Top(ps, g[k]);
    } else {
      forall k, q | 0 <= k < |g| && LiveFor(ps[g[k]], w) && g[k] < q < |ps| ensures !LiveFor(ps[q], w) {
        if LiveFor(ps[q], w) { NewerKinds(ps, g[k], q); }
      }
    }
  }

  /** Among promotions of one workflow, a newer deployed one blocks the rollback or hides from it. */
  lemma NewerKinds(ps: seq<Promotion>, j: nat, q: nat)
    requires ReleasesDistinct(ps) && j < q < |ps| && LiveFor(ps[q], ps[j].offer.workflowID)
    ensures Blocks(ps[j], ps[q]) || Hides(ps[j], ps[q])
  {
    assert !SameGroup(ps, j, q);
  }

  lemma {:induction false} UndoUntilErrorLaw(st: Store, base: seq<Promotion>, g: seq<nat>, ids: seq<string>, k: nat,
                                             env: Env, w: string, original: Definition)
    requires Keeps(st, base, g, ids, w, original) && k <= |g| == |ids| && Band(st.ps, g, k, |g|)
    ensures Keeps(UndoUntilError(st, ids, k, env).0, base, g, ids, w, original)
    decreases k
  {
    hide Keeps, Undo;
    if k > 0 {
      var (s, ok) := Undo(st, ids[k - 1], env);
      UndoOneLaw(st, base, g, ids, k - 1, env, w, original);
      if ok { UndoUntilErrorLaw(s, base, g, ids, k - 1, env, w, original); }
    }
  }

  lemma GroupTogether(ps: seq<Promotion>, i: nat, x: nat, y: nat)
    requires i < |ps| && x in Group(ps, i) && y in Group(ps, i)
    ensures x < |ps| && y < |ps| && SameGroup(ps, i, x) && SameGroup(ps, i, y) && SameGroup(ps, x, y)
  {
  }

  lemma RollbackMembers(ps: seq<Promotion>, i: nat, w: string)
    requires i < |ps| && ReleasesDistinct(ps) && UndoesNewest(ps, i, w)
    ensures var g := Group(ps, i); var d := DeployedOf(ps, g, |g|);
      Members(ps, d, IDsAt(ps, d)) && InOrder(ps, d, w) && Band(ps, d, |d|, |d|)
  {
    hide Group, DeployedOf;
    var g := Group(ps, i);
    var d := DeployedOf(ps, g, |g|);
    forall a, b | 0 <= a < b < |d| ensures ps[d[a]].offer.workflowID != ps[d[b]].offer.workflowID {
      GroupTogether(ps, i, d[a], d[b]);
    }
    forall a | 0 <= a < |d| && ps[d[a]].offer.workflowID == w ensures Top(ps, d[a]) {
      var x :| 0 <= x < |g| && g[x] == d[a];
      assert LiveFor(ps[g[x]], w);
    }
  }

  /** A permitted rollback, whether its undo calls succeed or not. */
  lemma RollbackInv(st: Store, id: string, env: Env, w: string, original: Definition)
    requires Inv(st, w, original)
    requires IndexOf(st.ps, id) >= 0 && RollbackVerdict(st.ps, IndexOf(st.ps, id)).Fine? ==>
        !HiddenNewer(st.ps, IndexOf(st.ps, id), w)
    ensures Inv(Rollback(st, id, env).0, w, original)
  {
    hide UndoUntilError, DeployedOf;
    var i := IndexOf(st.ps, id);
    if RollbackVerdict(st.ps, i).Fine? {
      RollbackNewestIff(st.ps, i, w);
      RollbackMembers(st.ps, i, w);
      var d := DeployedOf(st.ps, Group(st.ps, i), |Group(st.ps, i)|);
      var ids := IDsAt(st.ps, d);
      UndoUntilErrorLaw(st, st.ps, d, ids, |ids|, env, w, original);
      KeepsInv(UndoUntilError(st, ids, |ids|, env).0, st.ps, d, ids, w, original);
    }
  }

  // ----------------------------------------------------------------- whole runs

  /** What can happen to the stored promotions. */
  datatype Op =
    | Arrive(sent: seq<Promotion>, bodies: map<string, Workflow>)
    | ApproveOp(rules: Rules, id: string, username: string, who: string, typed: map<string, string>, startAnyway: bool,
                env: Env)
    | RejectOp(id: string, username: string, reason: string)
    | RollbackOp(id: string, env: Env)

  function Step(st: Store, op: Op): Store {
    match op
    case Arrive(sent, bodies) => st.(ps := st.ps + sent, bodies := st.bodies + bodies)
    case ApproveOp(rules, id, username, who, typed, startAnyway, env) =>
      Approve(st, rules, id, username, who, typed, startAnyway, env).0
    case RejectOp(id, username, reason) => Reject(st, id, username, reason).0
    case RollbackOp(id, env) => Rollback(st, id, env).0
  }

  /** A promotion or a whole release arrives, as storePromotions keeps it. */
  ghost predicate Arrives(st: Store, sent: seq<Promotion>, bodies: map<string, Workflow>) {
    var ps := st.ps + sent;
    && UniqueIDs(ps) && ReleasesDistinct(ps)
    && (forall k :: 0 <= k < |sent| ==> sent[k].status == Pending && BodyFiled(bodies, sent[k]) && sent[k].id in bodies)
    && (forall j :: 0 <= j < |st.ps| ==> st.ps[j].id !in bodies)
  }

  /** The run is one the stack law is promised for: promotions of w are approved in
      arrival order, and no two instances use one release ID for w. */
  ghost predicate Allowed(st: Store, op: Op, w: string) {
    match op
    case Arrive(sent, bodies) => Arrives(st, sent, bodies)
    case ApproveOp(_, id, _, _, _, _, _) => ApprovedInOrder(st.ps, IndexOf(st.ps, id), w)
    case RejectOp(_, _, _) => true
    case RollbackOp(id, _) =>
      IndexOf(st.ps, id) >= 0 && RollbackVerdict(st.ps, IndexOf(st.ps, id)).Fine? ==>
          !HiddenNewer(st.ps, IndexOf(st.ps, id), w)
  }

  function Run(st: Store, ops: seq<Op>): Store
    decreases |ops|
  {
    if ops == [] then st else Run(Step(st, ops[0]), ops[1..])
  }

  ghost predicate AllowedRun(st: Store, ops: seq<Op>, w: string)
    decreases |ops|
  {
    ops == [] || (Allowed(st, ops[0], w) && AllowedRun(Step(st, ops[0]), ops[1..], w))
  }

  lemma ArriveLaw(st: Store, after: Store, w: string, original: Definition)
    requires Law(st, w, original) && |st.ps| <= |after.ps| && st.ps == after.ps[..|st.ps|] && after.flows == st.flows
    requires forall j :: |st.ps| <= j < |after.ps| ==> !LiveFor(after.ps[j], w)
    requires forall j :: 0 <= j < |st.ps| && st.ps[j].id in st.bodies ==>
        st.ps[j].id in after.bodies && after.bodies[st.ps[j].id] == st.bodies[st.ps[j].id]
    requires forall j :: 0 <= j < |st.ps| && st.ps[j].id in after.bodies ==> st.ps[j].id in st.bodies
    ensures Law(after, w, original)
  {
    forall n | 0 <= n <= |st.ps| ensures Expected(after, w, original, n) == Expected(st, w, original, n) {
      NewestSame(st.ps, after.ps, w, n);
    }
    assert Newest(after.ps, w, |after.ps|) == Newest(after.ps, w, |st.ps|);
    forall i | 0 <= i < |after.ps| && LiveFor(after.ps[i], w) ensures Links(after, w, original, i) {
      assert i < |st.ps| && Links(st, w, original, i);
    }
  }

  lemma ArriveInv(st: Store, sent: seq<Promotion>, bodies: map<string, Workflow>, w: string, original: Definition)
    requires Inv(st, w, original) && Arrives(st, sent, bodies)
    ensures Inv(st.(ps := st.ps + sent, bodies := st.bodies + bodies), w, original)
  {
    hide Law, ReleasesDistinct;
    var after := st.(ps := st.ps + sent, bodies := st.bodies + bodies);
    ArriveLaw(st, after, w, original);
    forall i | 0 <= i < |after.ps| ensures BodyFiled(after.bodies, after.ps[i]) {
      if i < |st.ps| { assert BodyFiled(st.bodies, st.ps[i]); } else { assert BodyFiled(bodies, sent[i - |st.ps|]); }
    }
  }

  lemma StepInv(st: Store, op: Op, w: string, original: Definition)
    requires Inv(st, w, original) && Allowed(st, op, w)
    ensures Inv(Step(st, op), w, original)
  {
    hide Inv, Approve, Reject, Rollback;
    match op
    case Arrive(sent, bodies) => ArriveInv(st, sent, bodies, w, original);
    case ApproveOp(rules, id, username, who, typed, startAnyway, env) =>
      ApproveInv(st, rules, id, username, who, typed, startAnyway, env, w, original);
    case RejectOp(id, username, reason) => RejectInv(st, id, username, reason, w, original);
    case RollbackOp(id, env) => RollbackInv(st, id, env, w, original);
  }

  lemma {:induction false} RunInv(st: Store, ops: seq<Op>, w: string, original: Definition)
    requires Inv(st, w, original) && AllowedRun(st, ops, w)
    ensures Inv(Run(st, ops), w, original)
    decreases |ops|
  {
    hide Inv, Step, Allowed;
    if ops != [] {
      StepInv(st, ops[0], w, original);
      RunInv(Step(st, ops[0]), ops[1..], w, original);
    }
  }

  /** Over every allowed run from a store where w has no deployed promotion, w's
      definition is that of its newest promotion still deployed, or what it was at the
      start when there is none. */
  lemma RollbackIsAStackPop(st: Store, ops: seq<Op>, w: string)
    requires Valid(st) && ReleasesDistinct(st.ps) && w in st.flows.workflows
    requires forall i :: 0 <= i < |st.ps| ==> !LiveFor(st.ps[i], w)
    requires AllowedRun(st, ops, w)
    ensures var end := Run(st, ops); var r := Newest(end.ps, w, |end.ps|);
      && w in end.flows.workflows
      && (if r < 0 then DefinitionOf(end.flows.workflows[w]) == DefinitionOf(st.flows.workflows[w])
          else end.ps[r].id in end.bodies &&
               DefinitionOf(end.flows.workflows[w]) == DefinitionOf(end.bodies[end.ps[r].id]))
  {
    hide Run, AllowedRun;
    var original := DefinitionOf(st.flows.workflows[w]);
    assert Newest(st.ps, w, |st.ps|) < 0;
    RunInv(st, ops, w, original);
    var end := Run(st, ops);
    var r := Newest(end.ps, w, |end.ps|);
    if r >= 0 { assert Links(end, w, original, r); }
  }

  // ------------------------------------------------- where the guard looks away

  function Named(name: string): Workflow {
    Workflow("w", name, "", [], [], "", true, Run_)
  }

  const Run_ := Workflows.Run("", "", "", 0, 0)

  function FromPeer(id: string, peer: string, previous: nat): Promotion {
    Promotion(id, Offer(peer, "r", "w", "", "", false, [], [], []), Deployed, "", previous, previous + 1, NOTHING,
        false)
  }

  /** Two instances sent workflow w under the same release ID, and both are deployed. */
  const SHARED_RELEASE: Store := Store(
    [FromPeer("p", "a", 1), FromPeer("q", "b", 2)], map["p" := Named("A"), "q" := Named("B")], map[],
    Flows(map["w" := Named("B")], map["w" := [Named("0"), Named("A"), Named("B")]]),
    Conns(map[], map[]), map[], [], NoSecrets)

  const CALM := Env({}, {}, {}, map[], {})

  lemma SharedReleaseHolds()
    ensures Inv(SHARED_RELEASE, "w", DefinitionOf(Named("0")))
  {
    var st := SHARED_RELEASE;
    var original := DefinitionOf(Named("0"));
    assert Newest(st.ps, "w", 0) == -1 && Newest(st.ps, "w", 1) == 0 && Newest(st.ps, "w", 2) == 1;
    assert HistoryOf(st.flows, "w") == [Named("0"), Named("A"), Named("B")];
    assert Links(st, "w", original, 0);
    assert Links(st, "w", original, 1);
    assert !SameGroup(st.ps, 0, 1);
  }

  /** The guard lets the older one through. */
  lemma SharedReleasePermitted()
    ensures var ps := SHARED_RELEASE.ps;
      && IndexOf(ps, "p") == 0 && Group(ps, 0) == [0] && RollbackVerdict(ps, 0).Fine?
      && DeployedOf(ps, [0], 1) == [0] && IDsAt(ps, [0]) == ["p"] && HiddenNewer(ps, 0, "w")
  {
    var ps := SHARED_RELEASE.ps;
    assert ps[0] == FromPeer("p", "a", 1) && ps[1] == FromPeer("q", "b", 2);
    assert !SameGroup(ps, 0, 1) && SameGroup(ps, 0, 0);
    assert GroupUpTo(ps, 0, 0) == [] && GroupUpTo(ps, 0, 1) == [0];
    var g := Group(ps, 0);
    assert g == [0];
    assert !Blocks(ps[0], ps[1]) && LiveFor(ps[g[0]], "w") && Hides(ps[g[0]], ps[1]);
    assert DeployedOf(ps, [0], 0) == [];
  }

  /** The older one may be rolled back, which undoes the newer one's change: w is back at
      its first definition while the newer promotion still counts as deployed. */
  lemma OlderUndoesNewer()
    ensures var (s, v) := Rollback(SHARED_RELEASE, "p", CALM);
      && v.Fine? && HiddenNewer(SHARED_RELEASE.ps, 0, "w")
      && |s.ps| == 2 && s.ps[1].status == Deployed && "w" in s.flows.workflows
      && DefinitionOf(s.flows.workflows["w"]) == DefinitionOf(Named("0"))
      && !Law(s, "w", DefinitionOf(Named("0")))
  {
    hide HiddenNewer, RollbackVerdict, Group, DeployedOf, Undo;
    var st := SHARED_RELEASE;
    SharedReleaseHolds();
    SharedReleasePermitted();
    UndoEnds(st, 0, CALM);
    var (u, ok) := Undo(st, "p", CALM);
    assert UndoUntilError(st, ["p"], 1, CALM) == UndoUntilError(u, ["p"], 0, CALM);
    assert Newest(u.ps, "w", 2) == 1;
  }
}
