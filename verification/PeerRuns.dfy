/** Late calls and unfinished saves on the receiving side: how a connection that was cut off
    comes back, and how often one allow adds a peer (internal/environment/connection.go). */
module PeerRuns {
  import opened Sequences
  import opened PeerConnections
  import opened PeerHistory

  const CALM := Env(false, false)
  const CUT_SHORT := Env(false, true)

  ghost predicate Goes(w: World, a: Action, after: World) {
    Enabled(w, a) && Step(w, a) == after
  }

  // ------------------------------------------------------------ coming back after the cut

  const OPEN_CODE := Code("h", "hr", true, 10)
  const KNOWN := Peer("p", "hr", "", true)
  const BACK := Peer("q", "fin", "p", true)

  const ISSUED := World(Recv([], [], [OPEN_CODE], 0), [CodeIssued(OPEN_CODE)], {}, {})
  const PAIRED := World(Recv([KNOWN], [], [], 0), [CodeIssued(OPEN_CODE), Paired("p", OPEN_CODE)], {KNOWN}, {"p"})
  const CUT_OFF := World(Recv([], [], [], 0), [CodeIssued(OPEN_CODE), Paired("p", OPEN_CODE)], {KNOWN}, {"p"})
  const RETURNED := World(Recv([BACK], [], [], 0),
    [CodeIssued(OPEN_CODE), Paired("p", OPEN_CODE), AddedByPermission("q", "p", "fin")], {KNOWN, BACK}, {"p", "q"})

  lemma Issues()
    ensures Goes(START, IssueCode(OPEN_CODE, 0), ISSUED)
  {
  }

  lemma Pairs()
    ensures Goes(ISSUED, PairWith("h", 1, "p", CALM), PAIRED)
  {
    OneCode(OPEN_CODE);
    hide Unexpired, CodeAt;
    assert ISSUED.r.codes == [OPEN_CODE] && OPEN_CODE.hash == "h" && ISSUED.r.peers + [KNOWN] == [KNOWN];
    assert Pair(ISSUED.r, "h", 1, "p", CALM) == (PAIRED.r, Granted);
  }

  lemma OneCode(c: Code)
    requires 1 < c.expires
    ensures Unexpired([c], 1) == [c] && CodeAt([c], c.hash) == 0 && Without([c], 0) == []
  {
    assert [c][..0] == [];
    assert Unexpired([c][..0], 1) == [];
  }

  lemma CutsOff()
    ensures Goes(PAIRED, RevokeGroup("p", CALM), CUT_OFF)
  {
    assert PeersOutside([KNOWN], "p") == [];
  }

  lemma Returns()
    ensures Goes(CUT_OFF, AskVHost(KNOWN, "fin", "q", "r", CALM), RETURNED)
  {
  }

  /** A call that was let in before its connection was revoked as a whole is served after it,
      and the connection is there again. */
  lemma CutOffComesBack()
    ensures Goes(START, IssueCode(OPEN_CODE, 0), ISSUED)
    ensures Goes(ISSUED, PairWith("h", 1, "p", CALM), PAIRED)
    ensures Goes(PAIRED, RevokeGroup("p", CALM), CUT_OFF) && CUT_OFF.r.peers == []
    ensures Goes(CUT_OFF, AskVHost(KNOWN, "fin", "q", "r", CALM), RETURNED)
    ensures |RETURNED.r.peers| == 1 && GroupOf(RETURNED.r.peers[0]) == "p"
  {
    Issues();
    Pairs();
    CutsOff();
    Returns();
  }
}
