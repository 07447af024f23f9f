/** The stack law when operations overlap. receive.go lets go of its lock between the claim
    and the deploy (approve), and between one member and the next (deployGroup,
    unwindRelease, Rollback). Every operation is a run of the moves below, one promotion at
    a time, and overlapping operations mix their moves in any way. */
module OverlappingApprovals {
  import opened Workflows
  import opened Promotions
  import opened Decisions
  import opened ReleaseAtomicity
  import opened RollbackStack

  datatype Move =
    | Come(sent: seq<Promotion>, bodies: map<string, Workflow>)
    | ClaimIt(rules: Rules, id: string, username: string, who: string, typed: map<string, string>)
    | DeployIt(id: string, terms: Terms, env: Env)
    | UndoIt(id: string, env: Env)
    | FailIt(id: string, who: string)
    | RejectIt(id: string, username: string, reason: string)

  function MoveTo(st: Store, m: Move): Store {
    match m
    case Come(sent, bodies) => st.(ps := st.ps + sent, bodies := st.bodies + bodies)
    case ClaimIt(rules, id, username, who, typed) => Claim(st, rules, id, username, who, typed).0
    case DeployIt(id, terms, env) => Deploy(st, id, terms, env).0
    case UndoIt(id, env) => Undo(st, id, env).0
    case FailIt(id, who) => Fail(st, id, who)
    case RejectIt(id, username, reason) => Reject(st, id, username, reason).0
  }

  function RunMoves(st: Store, ms: seq<Move>): Store
    decreases |ms|
  {
    if ms == [] then st else RunMoves(MoveTo(st, ms[0]), ms[1..])
  }

  // -------------------------------------------------- operations are runs of moves

  lemma {:induction false} RunTwice(st: Store, a: seq<Move>, b: seq<Move>)
    ensures RunMoves(st, a + b) == RunMoves(RunMoves(st, a), b)
    decreases |a|
  {
    hide MoveTo;
    if a == [] {
      assert a + b == b;
    } else {
      assert (a + b)[0] == a[0] && (a + b)[1..] == a[1..] + b;
      RunTwice(MoveTo(st, a[0]), a[1..], b);
    }
  }

  lemma OneMove(st: Store, m: Move)
    ensures RunMoves(st, [m]) == MoveTo(st, m)
  {
    hide MoveTo;
    assert [m][1..] == [];
    assert RunMoves(MoveTo(st, m), []) == MoveTo(st, m);
  }

  lemma {:induction false} UndoDownMoves(st: Store, ids: seq<string>, j: nat, env: Env) returns (ms: seq<Move>)
    requires j <= |ids|
    ensures RunMoves(st, ms) == UndoDown(st, ids, j, env)
    decreases j
  {
    hide Undo, RunMoves;
    if j == 0 {
      ms := [];
      NoMoves(st);
    } else {
      var more := UndoDownMoves(Undo(st, ids[j - 1], env).0, ids, j - 1, env);
      OneMove(st, UndoIt(ids[j - 1], env));
      RunTwice(st, [UndoIt(ids[j - 1], env)], more);
      ms := [UndoIt(ids[j - 1], env)] + more;
    }
  }

  lemma NoMoves(st: Store)
    ensures RunMoves(st, []) == st
  {
  }

  lemma {:induction false} FailFromMoves(st: Store, ids: seq<string>, k: nat, who: string) returns (ms: seq<Move>)
    requires k <= |ids|
    ensures RunMoves(st, ms) == FailFrom(st, ids, k, who)
    decreases |ids| - k
  {
    hide Fail, RunMoves;
    if k == |ids| {
      ms := [];
      NoMoves(st);
    } else {
      var more := FailFromMoves(Fail(st, ids[k], who), ids, k + 1, who);
      OneMove(st, FailIt(ids[k], who));
      RunTwice(st, [FailIt(ids[k], who)], more);
      ms := [FailIt(ids[k], who)] + more;
    }
  }

  lemma UnwindMoves(st: Store, ids: seq<string>, k: nat, who: string, env: Env) returns (ms: seq<Move>)
    requires k < |ids|
    ensures RunMoves(st, ms) == Unwind(st, ids, k, who, env)
  {
    hide RunMoves, UndoDown, FailFrom;
    var back := UndoDownMoves(st, ids, k, env);
    var on := FailFromMoves(UndoDown(st, ids, k, env), ids, k + 1, who);
    RunTwice(st, back, on);
    ms := back + on;
  }

  lemma {:induction false} DeployFromMoves(st: Store, ids: seq<string>, k: nat, terms: Terms, env: Env)
    returns (ms: seq<Move>)
    requires k <= |ids|
    ensures RunMoves(st, ms) == DeployFrom(st, ids, k, terms, env).0
    decreases |ids| - k
  {
    hide Deploy, Unwind, RunMoves;
    if k == |ids| {
      ms := [];
      NoMoves(st);
    } else {
      var (s, ok) := Deploy(st, ids[k], terms, env);
      var more := [];
      NoMoves(s);
      if ok {
        more := DeployFromMoves(s, ids, k + 1, terms, env);
      } else if |ids| > 1 {
        more := UnwindMoves(s, ids, k, terms.who, env);
      }
      OneMove(st, DeployIt(ids[k], terms, env));
      RunTwice(st, [DeployIt(ids[k], terms, env)], more);
      ms := [DeployIt(ids[k], terms, env)] + more;
    }
  }

  lemma {:induction false} UndoUntilErrorMoves(st: Store, ids: seq<string>, k: nat, env: Env) returns (ms: seq<Move>)
    requires k <= |ids|
    ensures RunMoves(st, ms) == UndoUntilError(st, ids, k, env).0
    decreases k
  {
    hide Undo, RunMoves;
    if k == 0 {
      ms := [];
      NoMoves(st);
    } else {
      var (s, ok) := Undo(st, ids[k - 1], env);
      var more := [];
      NoMoves(s);
      if ok { more := UndoUntilErrorMoves(s, ids, k - 1, env); }
      OneMove(st, UndoIt(ids[k - 1], env));
      RunTwice(st, [UndoIt(ids[k - 1], env)], more);
      ms := [UndoIt(ids[k - 1], env)] + more;
    }
  }

  lemma ApproveMoves(st: Store, op: Op) returns (ms: seq<Move>)
    requires op.ApproveOp?
    ensures RunMoves(st, ms) == Step(st, op)
  {
    hide RunMoves, Claim, DeployFrom;
    var claim := ClaimIt(op.rules, op.id, op.username, op.who, op.typed);
    var (s, v) := Claim(st, op.rules, op.id, op.username, op.who, op.typed);
    var more := [];
    NoMoves(s);
    var i := IndexOf(s.ps, op.id);
    if v.Fine? && i >= 0 {
      more := DeployFromMoves(s, IDsAt(s.ps, Group(s.ps, i)), 0, Terms(op.who, NonBlank(op.typed), op.startAnyway),
          op.env);
    }
    OneMove(st, claim);
    RunTwice(st, [claim], more);
    ms := [claim] + more;
  }

  /** Each operation of RollbackStack is a run of moves. */
  lemma OperationIsMoves(st: Store, op: Op) returns (ms: seq<Move>)
    ensures RunMoves(st, ms) == Step(st, op)
  {
    hide RunMoves, Approve, Reject, UndoUntilError;
    match op
    case Arrive(sent, bodies) =>
      ms := [Come(sent, bodies)];
      OneMove(st, ms[0]);
    case ApproveOp(_, _, _, _, _, _, _) => ms := ApproveMoves(st, op);
    case RejectOp(id, username, reason) =>
      ms := [RejectIt(id, username, reason)];
      OneMove(st, ms[0]);
    case RollbackOp(id, env) =>
      var i := IndexOf(st.ps, id);
      if RollbackVerdict(st.ps, i).Fine? {
        var g := Group(st.ps, i);
        var ids := IDsAt(st.ps, DeployedOf(st.ps, g, |g|));
        ms := UndoUntilErrorMoves(st, ids, |ids|, env);
      } else {
        ms := [];
        NoMoves(st);
      }
  }

  // --------------------------------------------------------------------- in turn

  /** No older promotion of ps[j]'s workflow is still being deployed. */
  ghost predicate Waited(ps: seq<Promotion>, j: nat)
    requires j < |ps|
  {
    forall i :: 0 <= i < j && ps[i].offer.workflowID == ps[j].offer.workflowID ==> ps[i].status != Deploying
  }

  /** No promotion of w is being deployed under a newer one that is deployed. */
  ghost predicate NoStraggler(ps: seq<Promotion>, w: string) {
    forall i, j :: 0 <= i < j < |ps| && ps[i].offer.workflowID == w && ps[i].status == Deploying ==> !LiveFor(ps[j], w)
  }

  /** The move comes in turn for w: a release is claimed over no newer deployed promotion of
      w; a promotion of w is deployed when it has been claimed and no older one of w is still
      being deployed; only the newest deployed one of w is undone. */
  ghost predicate InTurn(st: Store, m: Move, w: string) {
    match m
    case Come(sent, bodies) => Arrives(st, sent, bodies)
    case ClaimIt(_, id, _, _, _) => ApprovedInOrder(st.ps, IndexOf(st.ps, id), w)
    case DeployIt(id, _, _) =>
      var i := IndexOf(st.ps, id);
      i >= 0 && st.ps[i].offer.workflowID == w ==> st.ps[i].status == Deploying && Waited(st.ps, i)
    case UndoIt(id, _) =>
      var i := IndexOf(st.ps, id);
      i >= 0 && st.ps[i].offer.workflowID == w ==> st.ps[i].status == Deployed && Top(st.ps, i)
    case FailIt(id, _) =>
      var i := IndexOf(st.ps, id);
      i >= 0 && st.ps[i].offer.workflowID == w ==> st.ps[i].status != Deployed
    case RejectIt(_, _, _) => true
  }

  ghost predicate InTurnRun(st: Store, ms: seq<Move>, w: string)
    decreases |ms|
  {
    ms == [] || (InTurn(st, ms[0], w) && InTurnRun(MoveTo(st, ms[0]), ms[1..], w))
  }

  ghost predicate TurnInv(st: Store, w: string, original: Definition) {
    Inv(st, w, original) && NoStraggler(st.ps, w)
  }

  /** Deploying j leaves no straggler exactly when no older one of w was being deployed. */
  lemma DeployStragglerIff(before: Store, after: Store, j: nat)
    requires j < |before.ps| && DeployedOver(before, after, j)
    requires NoStraggler(before.ps, before.ps[j].offer.workflowID)
    ensures NoStraggler(after.ps, before.ps[j].offer.workflowID) <==> Waited(before.ps, j)
  {
    var w := before.ps[j].offer.workflowID;
    assert forall k :: 0 <= k < |before.ps| && k != j ==> after.ps[k] == before.ps[k];
    if !Waited(before.ps, j) {
      var i :| 0 <= i < j && before.ps[i].offer.workflowID == w && before.ps[i].status == Deploying;
      assert LiveFor(after.ps[j], w);
    }
  }

  /** A deploy that succeeds keeps the law exactly when no newer promotion of the workflow
      is deployed; unless the two happen to hold one definition. */
  lemma DeployKeepsLawIff(before: Store, after: Store, i: nat, original: Definition)
    requires i < |before.ps| && DeployedOver(before, after, i) && before.ps[i].status != Deployed
    requires Law(before, before.ps[i].offer.workflowID, original)
    requires DefinitionOf(before.bodies[before.ps[i].id]) !=
             Expected(before, before.ps[i].offer.workflowID, original, |before.ps|)
    ensures Law(after, before.ps[i].offer.workflowID, original) <==> Top(before.ps, i)
  {
    var w := before.ps[i].offer.workflowID;
    if Top(before.ps, i) {
      LawPush(before, after, i, original);
    } else {
      SameNewest(before, after, i, w, original);
    }
  }

  /** What is above i decides what is expected. */
  lemma SameNewest(before: Store, after: Store, i: nat, w: string, original: Definition)
    requires i < |before.ps| == |after.ps| && after.bodies == before.bodies && before.ps[i].offer.workflowID == w
    requires forall k :: 0 <= k < |before.ps| && k != i ==> after.ps[k] == before.ps[k]
    requires !Top(before.ps, i)
    ensures Expected(after, w, original, |after.ps|) == Expected(before, w, original, |before.ps|)
  {
    var r, r' := Newest(before.ps, w, |before.ps|), Newest(after.ps, w, |after.ps|);
    var j :| i < j < |before.ps| && LiveFor(before.ps[j], w);
    assert r >= j && r' >= j;
    assert LiveFor(after.ps[r], w) && LiveFor(before.ps[r'], w);
    assert r == r';
  }

  lemma UndoneBelow(before: Store, after: Store, i: nat, original: Definition)
    requires i < |before.ps| && UndoneOver(before, after, i) && before.ps[i].status == Deployed
    requires Law(before, before.ps[i].offer.workflowID, original)
    ensures var w := before.ps[i].offer.workflowID;
      w in after.flows.workflows && DefinitionOf(after.flows.workflows[w]) == Expected(before, w, original, i)
  {
    assert LiveFor(before.ps[i], before.ps[i].offer.workflowID);
    assert Links(before, before.ps[i].offer.workflowID, original, i);
    hide Expected;
  }

  /** The same for an undo: unwindRelease and an overtaken Rollback have no newest-only guard
      of their own. */
  lemma UndoKeepsLawIff(before: Store, after: Store, i: nat, original: Definition)
    requires i < |before.ps| && UndoneOver(before, after, i) && before.ps[i].status == Deployed
    requires Law(before, before.ps[i].offer.workflowID, original)
    requires Expected(before, before.ps[i].offer.workflowID, original, i) !=
             Expected(before, before.ps[i].offer.workflowID, original, |before.ps|)
    ensures Law(after, before.ps[i].offer.workflowID, original) <==> Top(before.ps, i)
  {
    if Top(before.ps, i) {
      LawPop(before, after, i, original);
    } else {
      UndoneBelow(before, after, i, original);
      SameNewest(before, after, i, before.ps[i].offer.workflowID, original);
    }
    hide Expected, Top, Links;
  }

  // ----------------------------------------------------------------- every move

  lemma ClaimTurn(st: Store, m: Move, w: string, original: Definition)
    requires TurnInv(st, w, original) && InTurn(st, m, w) && m.ClaimIt?
    ensures TurnInv(MoveTo(st, m), w, original)
  {
    hide Inv, Claim, Group;
    var s := MoveTo(st, m);
    ClaimEnds(st, m.rules, m.id, m.username, m.who, m.typed);
    if s != st {
      var i := IndexOf(st.ps, m.id);
      ClaimInv(st, s, i, m.who, w, original);
      ClaimNoStraggler(st.ps, s.ps, Group(st.ps, i), m.who, w);
    }
  }

  lemma ClaimNoStraggler(ps: seq<Promotion>, qs: seq<Promotion>, g: seq<nat>, who: string, w: string)
    requires NoStraggler(ps, w) && InOrder(ps, g, w) && qs == Mark(ps, g, Deploying, who)
    ensures NoStraggler(qs, w)
  {
    assert |qs| == |ps| && forall j :: 0 <= j < |ps| ==> LiveFor(qs[j], w) ==> LiveFor(ps[j], w);
    forall i, j | 0 <= i < j < |qs| && qs[i].offer.workflowID == w && qs[i].status == Deploying
      ensures !LiveFor(qs[j], w)
    {
      if i in g {
        var k :| 0 <= k < |g| && g[k] == i;
        assert Top(ps, g[k]);
      }
    }
  }

  /** Where one promotion is touched and the law is kept, everything is. */
  lemma TouchTurn(before: Store, after: Store, i: nat, w: string, original: Definition)
    requires TurnInv(before, w, original) && i < |before.ps| && OnlyOutcome(before.ps, after.ps, i)
    requires Valid(after) && Law(after, w, original) && after.ps[i].status != Deploying
    requires before.ps[i].offer.workflowID == w && after.ps[i].status == Deployed ==> Waited(before.ps, i)
    ensures TurnInv(after, w, original)
  {
    SameOffers(before.ps, after.ps);
    hide Law, Valid, ReleasesDistinct;
  }

  lemma DeployTurn(st: Store, m: Move, w: string, original: Definition)
    requires TurnInv(st, w, original) && InTurn(st, m, w) && m.DeployIt?
    ensures TurnInv(MoveTo(st, m), w, original)
  {
    hide Deploy, Law, ReleasesDistinct;
    var i := IndexOf(st.ps, m.id);
    if i < 0 {
      NothingDeployed(st, m.id, m.terms, m.env);
    } else {
      DeployEnds(st, i, m.terms, m.env);
      var s := MoveTo(st, m);
      if st.ps[i].offer.workflowID == w {
        assert Top(st.ps, i);
        LawMove(st, s, i, w, original);
      } else {
        OtherMove(st, s, i, w, original);
      }
      TouchTurn(st, s, i, w, original);
    }
  }

  lemma NothingDeployed(st: Store, id: string, terms: Terms, env: Env)
    requires IndexOf(st.ps, id) < 0
    ensures Deploy(st, id, terms, env).0 == st
  {
  }

  /** What happens to a promotion of another workflow leaves w's law alone. */
  lemma OtherMove(before: Store, after: Store, i: nat, w: string, original: Definition)
    requires i < |before.ps| && before.ps[i].offer.workflowID != w && Law(before, w, original)
    requires FailedOver(before, after, i) || DeployedOver(before, after, i) || UndoneOver(before, after, i)
    ensures Law(after, w, original)
  {
    LawFrame(before, after, w, original);
  }

  lemma NothingUndone(st: Store, id: string, env: Env)
    requires IndexOf(st.ps, id) < 0
    ensures Undo(st, id, env).0 == st
  {
  }

  lemma UndoTurn(st: Store, m: Move, w: string, original: Definition)
    requires TurnInv(st, w, original) && InTurn(st, m, w) && m.UndoIt?
    ensures TurnInv(MoveTo(st, m), w, original)
  {
    hide Undo, Law, ReleasesDistinct, Undoable, Links;
    var i := IndexOf(st.ps, m.id);
    if i < 0 {
      NothingUndone(st, m.id, m.env);
    } else {
      UndoEnds(st, i, m.env);
      var s := MoveTo(st, m);
      if s != st {
        if st.ps[i].offer.workflowID == w {
          LawMove(st, s, i, w, original);
        } else {
          OtherMove(st, s, i, w, original);
        }
        TouchTurn(st, s, i, w, original);
      }
    }
  }

  lemma FailTurn(st: Store, m: Move, w: string, original: Definition)
    requires TurnInv(st, w, original) && InTurn(st, m, w) && m.FailIt?
    ensures TurnInv(MoveTo(st, m), w, original)
  {
    var i := IndexOf(st.ps, m.id);
    if i >= 0 {
      FailKeeps(st, i, m.who);
      hide Fail, Law, ReleasesDistinct;
      var s := MoveTo(st, m);
      FailedLaw(st, s, i, w, original);
      TouchTurn(st, s, i, w, original);
    }
  }

  lemma FailedLaw(before: Store, after: Store, i: nat, w: string, original: Definition)
    requires i < |before.ps| && FailedOver(before, after, i) && Law(before, w, original)
    requires before.ps[i].offer.workflowID == w ==> before.ps[i].status != Deployed
    ensures Law(after, w, original)
  {
    LawFrame(before, after, w, original);
  }

  lemma RejectTurn(st: Store, m: Move, w: string, original: Definition)
    requires TurnInv(st, w, original) && m.RejectIt?
    ensures TurnInv(MoveTo(st, m), w, original)
  {
    RejectInv(st, m.id, m.username, m.reason, w, original);
    hide Inv, Group, DropAll;
    RejectNoStraggler(st, m.id, m.username, m.reason, w);
  }

  lemma RejectNoStraggler(st: Store, id: string, username: string, reason: string, w: string)
    requires NoStraggler(st.ps, w)
    ensures NoStraggler(Reject(st, id, username, reason).0.ps, w)
  {
    hide Group, DropAll;
    var ps, qs := st.ps, Reject(st, id, username, reason).0.ps;
    assert |qs| == |ps| && forall j :: 0 <= j < |ps| ==> qs[j].offer == ps[j].offer;
    assert forall j :: 0 <= j < |ps| ==> qs[j].status == ps[j].status || qs[j].status == Rejected;
  }

  lemma ComeTurn(st: Store, m: Move, w: string, original: Definition)
    requires TurnInv(st, w, original) && InTurn(st, m, w) && m.Come?
    ensures TurnInv(MoveTo(st, m), w, original)
  {
    ArriveInv(st, m.sent, m.bodies, w, original);
    hide Inv;
  }

  lemma MoveTurn(st: Store, m: Move, w: string, original: Definition)
    requires TurnInv(st, w, original) && InTurn(st, m, w)
    ensures TurnInv(MoveTo(st, m), w, original)
  {
    hide TurnInv, InTurn, MoveTo;
    match m
    case Come(_, _) => ComeTurn(st, m, w, original);
    case ClaimIt(_, _, _, _, _) => ClaimTurn(st, m, w, original);
    case DeployIt(_, _, _) => DeployTurn(st, m, w, original);
    case UndoIt(_, _) => UndoTurn(st, m, w, original);
    case FailIt(_, _) => FailTurn(st, m, w, original);
    case RejectIt(_, _, _) => RejectTurn(st, m, w, original);
  }

  lemma {:induction false} RunTurn(st: Store, ms: seq<Move>, w: string, original: Definition)
    requires TurnInv(st, w, original) && InTurnRun(st, ms, w)
    ensures TurnInv(RunMoves(st, ms), w, original)
    decreases |ms|
  {
    hide TurnInv, MoveTo, InTurn;
    if ms != [] {
      MoveTurn(st, ms[0], w, original);
      RunTurn(MoveTo(st, ms[0]), ms[1..], w, original);
    }
  }

  /** However the moves of approvals, compensations, rejections and rollbacks mix, if those
      of w come in turn, w's definition is that of its newest promotion still deployed, or
      what it was at the start when there is none. */
  lemma OverlapsKeepTheStack(st: Store, ms: seq<Move>, w: string)
    requires Valid(st) && ReleasesDistinct(st.ps) && w in st.flows.workflows
    requires forall i :: 0 <= i < |st.ps| ==> !LiveFor(st.ps[i], w)
    requires InTurnRun(st, ms, w)
    ensures var end := RunMoves(st, ms); var r := Newest(end.ps, w, |end.ps|);
      && w in end.flows.workflows
      && (if r < 0 then DefinitionOf(end.flows.workflows[w]) == DefinitionOf(st.flows.workflows[w])
          else end.ps[r].id in end.bodies &&
               DefinitionOf(end.flows.workflows[w]) == DefinitionOf(end.bodies[end.ps[r].id]))
  {
    hide RunMoves, InTurnRun;
    var original := DefinitionOf(st.flows.workflows[w]);
    assert Newest(st.ps, w, |st.ps|) < 0;
    RunTurn(st, ms, w, original);
    var end := RunMoves(st, ms);
    var r := Newest(end.ps, w, |end.ps|);
    if r >= 0 { assert Links(end, w, original, r); }
  }

  // ------------------------------------------------------------------- out of turn

  function ClaimedFor(id: string): Promotion {
    Promotion(id, Offer("a", "", "w", "", "", false, [], [], []), Deploying, "", 0, 0, NOTHING, false)
  }

  /** Two promotions of w, claimed one after the other and not yet deployed. */
  const BOTH_CLAIMED: Store := Store(
    [ClaimedFor("p"), ClaimedFor("q")], map["p" := Named("A"), "q" := Named("B")], map[],
    Flows(map["w" := Named("0")], map["w" := [Named("0")]]),
    Conns(map[], map[]), map[], [], NoSecrets)

  const TERMS := Terms("admin", map[], false)

  /** A promotion that needs nothing else deploys when the call goes through. */
  lemma PlainDeploys(st: Store, i: nat, terms: Terms, env: Env)
    requires Valid(st) && i < |st.ps| && st.ps[i].id in st.bodies && st.ps[i].id !in env.applyFails
    requires Sources(st.bodies[st.ps[i].id]) == [] && Sinks(st.bodies[st.ps[i].id]) == []
    requires st.ps[i].offer.filled == [] && st.ps[i].offer.secrets == [] && st.ps[i].offer.connections == []
    ensures Deploy(st, st.ps[i].id, terms, env).1
    ensures var s := Deploy(st, st.ps[i].id, terms, env).0; Valid(s) && DeployedOver(st, s, i)
  {
    IndexOfUnique(st.ps, i);
    DeployEnds(st, i, terms, env);
    hide ApplyPromoted, Valid, DeployedOver, FailedOver;
  }

  lemma NamedIsPlain(name: string)
    ensures Sources(Named(name)) == [] && Sinks(Named(name)) == []
  {
  }

  lemma BothClaimedInTurn()
    ensures TurnInv(BOTH_CLAIMED, "w", DefinitionOf(Named("0")))
  {
    var st := BOTH_CLAIMED;
    assert Newest(st.ps, "w", 0) == -1 && Newest(st.ps, "w", 1) == -1 && Newest(st.ps, "w", 2) == -1;
    assert HistoryOf(st.flows, "w") == [Named("0")];
    assert st.ps[0].offer.releaseID == "" && !SameGroup(st.ps, 0, 1);
  }

  /** Two approvals whose deploys overlap: the newer promotion is deployed first and the older
      one over it. Every call succeeds, and the workflow is left at the older definition. */
  lemma DeployedOutOfTurn()
    ensures TurnInv(BOTH_CLAIMED, "w", DefinitionOf(Named("0")))
    ensures !InTurn(BOTH_CLAIMED, DeployIt("q", TERMS, CALM), "w")
    ensures var end := RunMoves(BOTH_CLAIMED, [DeployIt("q", TERMS, CALM), DeployIt("p", TERMS, CALM)]);
      && |end.ps| == 2 && end.ps[0].status == end.ps[1].status == Deployed
      && "w" in end.flows.workflows && DefinitionOf(end.flows.workflows["w"]) == DefinitionOf(Named("A"))
      && !Law(end, "w", DefinitionOf(Named("0")))
  {
    var st, first, second := BOTH_CLAIMED, DeployIt("q", TERMS, CALM), DeployIt("p", TERMS, CALM);
    BothClaimedInTurn();
    NamedIsPlain("A");
    NamedIsPlain("B");
    hide Sources, Sinks;
    assert st.ps[0].id == "p" && st.ps[1].id == "q" && st.ps[0].status == Deploying;
    assert IndexOf(st.ps, "q") == 1 && !Waited(st.ps, 1);
    PlainDeploys(st, 1, TERMS, CALM);
    hide Deploy, IndexOf;
    var one := MoveTo(st, first);
    assert one.ps[0] == st.ps[0] && one.bodies == st.bodies;
    PlainDeploys(one, 0, TERMS, CALM);
    var two := MoveTo(one, second);
    OneMove(st, first);
    OneMove(one, second);
    RunTwice(st, [first], [second]);
    assert [first] + [second] == [first, second];
    OlderWins(one, two);
  }

  lemma OlderWins(one: Store, two: Store)
    requires |one.ps| == 2 && DeployedOver(one, two, 0) && one.ps[0].id == "p" && one.ps[0].offer.workflowID == "w"
    requires one.ps[1].id == "q" && LiveFor(one.ps[1], "w")
    requires one.bodies == map["p" := Named("A"), "q" := Named("B")]
    ensures two.ps[1] == one.ps[1] && "w" in two.flows.workflows
    ensures DefinitionOf(two.flows.workflows["w"]) == DefinitionOf(Named("A"))
    ensures !Law(two, "w", DefinitionOf(Named("0")))
  {
    assert Newest(two.ps, "w", 2) == 1;
    assert DefinitionOf(Named("A")) != DefinitionOf(Named("B"));
  }
}
