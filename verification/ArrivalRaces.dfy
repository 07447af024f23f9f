/** A release that is deployed as it arrives is not claimed while that goes on: its promotions
    wait, and may be approved meanwhile (receive.go, ReceiveRelease and approve). */
module ArrivalRaces {
  import opened Workflows
  import opened Promotions
  import opened Decisions
  import opened ReleaseAtomicity
  import opened RollbackStack
  import opened OverlappingApprovals

  /** Deploying a promotion that is deployed already keeps the stack law exactly when it changes
      nothing below: what it records to go back to is its own definition. */
  lemma RedeployKeepsLawIff(before: Store, after: Store, i: nat, original: Definition)
    requires i < |before.ps| && DeployedOver(before, after, i) && before.ps[i].status == Deployed
    requires Law(before, before.ps[i].offer.workflowID, original) && Top(before.ps, i)
    ensures Law(after, before.ps[i].offer.workflowID, original) <==>
            DefinitionOf(before.bodies[before.ps[i].id]) ==
              Expected(before, before.ps[i].offer.workflowID, original, i)
  {
    var w := before.ps[i].offer.workflowID;
    ExpectedBelow(before, after, w, original, i, i);
    assert LiveFor(before.ps[i], w) && LiveFor(after.ps[i], w);
    assert Newest(before.ps, w, |before.ps|) == i;
    assert Newest(after.ps, w, |after.ps|) == i;
    forall j | 0 <= j < i && LiveFor(after.ps[j], w) ensures Links(after, w, original, j) {
      LinkKept(before, after, i, j, w, original);
    }
    assert Law(after, w, original) ==> Links(after, w, original, i);
  }

  /** Undoing it then leaves what was promoted where it is. */
  lemma RedeployStays(one: Store, two: Store, end: Store, i: nat)
    requires i < |one.ps| && one.ps[i].id in one.bodies && one.ps[i].offer.workflowID in one.flows.workflows
    requires DefinitionOf(one.flows.workflows[one.ps[i].offer.workflowID]) == DefinitionOf(one.bodies[one.ps[i].id])
    requires DeployedOver(one, two, i) && UndoneOver(two, end, i)
    ensures var w := one.ps[i].offer.workflowID;
      && w in end.flows.workflows && end.ps[i].status == RolledBack
      && DefinitionOf(end.flows.workflows[w]) == DefinitionOf(one.bodies[one.ps[i].id])
  {
  }

  const WAITS := Promotion("p", Offer("a", "", "w", "", "", false, [], [], []), Pending, "", 0, 0, NOTHING, false)

  /** The promotion has just arrived where nobody is asked. */
  const ARRIVED: Store := Store(
    [WAITS], map["p" := Named("A")], map[], Flows(map["w" := Named("0")], map["w" := [Named("0")]]),
    Conns(map[], map[]), map[], [], NoSecrets)

  const NOBODY_ASKED := Rules(NoApproval, map[])
  const APPROVE := ClaimIt(NOBODY_ASKED, "p", "admin", "admin", map[])
  const BY_ITSELF := DeployIt("p", Terms("automatic", map[], false), CALM)
  const BY_ADMIN := DeployIt("p", Terms("admin", map[], false), CALM)
  const BACK := UndoIt("p", CALM)

  lemma ArrivedHolds()
    ensures Inv(ARRIVED, "w", DefinitionOf(Named("0")))
  {
    assert HistoryOf(ARRIVED.flows, "w") == [Named("0")];
    assert Newest(ARRIVED.ps, "w", 1) == -1;
  }

  const CLAIMED := WAITS.(status := Deploying, decidedBy := "admin")

  lemma AloneInGroup()
    ensures Group([WAITS], 0) == [0] && IndexOf([WAITS], "p") == 0
  {
    var ps := [WAITS];
    assert SameGroup(ps, 0, 0) && GroupUpTo(ps, 0, 0) == [];
  }

  lemma MayBeClaimed()
    ensures ClaimVerdict([WAITS], [0], 1, NOBODY_ASKED, "admin").Fine?
    ensures Mark([WAITS], [0], Deploying, "admin") == [CLAIMED]
  {
    var ps := [WAITS];
    assert ClaimVerdict(ps, [0], 0, NOBODY_ASKED, "admin").Fine? && !SentBy(ps[0], NOBODY_ASKED, "admin");
  }

  lemma IsClaimed()
    ensures MoveTo(ARRIVED, APPROVE) == ARRIVED.(ps := [CLAIMED])
  {
    AloneInGroup();
    MayBeClaimed();
    hide Group, IndexOf, ClaimVerdict, Mark;
    assert NonBlank(map[]) == map[];
  }

  lemma DeploysHere(st: Store, terms: Terms)
    requires Valid(st) && |st.ps| == 1 && st.ps[0].id == "p" && st.ps[0].offer == WAITS.offer
    requires st.bodies == ARRIVED.bodies
    ensures var s := MoveTo(st, DeployIt("p", terms, CALM)); Valid(s) && DeployedOver(st, s, 0)
  {
    NamedIsPlain("A");
    hide Sources, Sinks, Deploy, DeployedOver, Valid;
    PlainDeploys(st, 0, terms, CALM);
  }

  lemma UndoesHere(st: Store)
    requires Valid(st) && |st.ps| == 1 && st.ps[0].id == "p" && Undoable(st.flows, st.ps[0], CALM)
    ensures UndoneOver(st, MoveTo(st, BACK), 0)
  {
    hide Undo, UndoneOver, Undoable, Valid;
    UndoEnds(st, 0, CALM);
  }

  /** A promotion that is being deployed as it arrives is approved meanwhile, and so deployed
      twice. Every call succeeds; and rolling it back then leaves its workflow as promoted, with
      no promotion deployed. */
  lemma ApprovedWhileArriving()
    ensures Inv(ARRIVED, "w", DefinitionOf(Named("0")))
    ensures var end := RunMoves(ARRIVED, [APPROVE, BY_ITSELF, BY_ADMIN, BACK]);
      && |end.ps| == 1 && end.ps[0].status == RolledBack && "w" in end.flows.workflows
      && DefinitionOf(end.flows.workflows["w"]) == DefinitionOf(Named("A")) != DefinitionOf(Named("0"))
      && !Law(end, "w", DefinitionOf(Named("0")))
  {
    ArrivedHolds();
    IsClaimed();
    var claimed := MoveTo(ARRIVED, APPROVE);
    assert BodyFiled(claimed.bodies, claimed.ps[0]) && Valid(claimed);
    hide MoveTo, Valid;
    DeploysHere(claimed, Terms("automatic", map[], false));
    var one := MoveTo(claimed, BY_ITSELF);
    DeploysHere(one, Terms("admin", map[], false));
    var two := MoveTo(one, BY_ADMIN);
    UndoesHere(two);
    var end := MoveTo(two, BACK);
    RedeployStays(one, two, end, 0);
    FourMoves(ARRIVED, [APPROVE, BY_ITSELF, BY_ADMIN, BACK]);
    assert Newest(end.ps, "w", 1) == -1;
  }

  lemma FourMoves(st: Store, ms: seq<Move>)
    requires |ms| == 4
    ensures RunMoves(st, ms) == MoveTo(MoveTo(MoveTo(MoveTo(st, ms[0]), ms[1]), ms[2]), ms[3])
  {
    hide MoveTo;
    var a, b, c, d := ms[0], ms[1], ms[2], ms[3];
    OneMove(st, a);
    OneMove(MoveTo(st, a), b);
    OneMove(MoveTo(MoveTo(st, a), b), c);
    OneMove(MoveTo(MoveTo(MoveTo(st, a), b), c), d);
    RunTwice(st, [a], [b]);
    RunTwice(st, [a] + [b], [c]);
    RunTwice(st, [a] + [b] + [c], [d]);
    assert ms == [a] + [b] + [c] + [d];
  }
}
