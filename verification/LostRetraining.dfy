/** A run in which a replica that read a model without a status writes one over it. */
module LostRetraining {
  import opened Sequences
  import opened ClaimedSchedules

  /** Every tenth moment. */
  function EveryTen(e: string, t: nat): Option<nat> { Some((t / 10 + 1) * 10) }

  const ROW := Row("e", 0, 0, false, 5, 0)
  const DONE := ROW.(ran := 10, counted := true)
  const FORGOTTEN := ROW.(counted := true)

  function At(row: Row, claim: Claim, observers: nat, served: seq<nat>): Sys {
    Sys(10, row, claim, observers, [Setting("e", 0, served, 0)])
  }

  ghost predicate Goes(s: Sys, a: Action, t: Sys) {
    Enabled(EveryTen, s, a) && Step(EveryTen, s, a) == t
  }

  lemma FirstRun()
    ensures Goes(Start("e", 5), Observe, Start("e", 5).(observers := 1))
    ensures Goes(Start("e", 5).(observers := 1), Wait(10), At(ROW, Free, 1, []))
    ensures Goes(At(ROW, Free, 1, []), Take(1), At(ROW, Claimed(1), 1, []))
    ensures Goes(At(ROW, Claimed(1), 1, []), Read, At(ROW, Fresh(1, ROW), 1, []))
    ensures Goes(At(ROW, Fresh(1, ROW), 1, []), Begin(true), At(ROW, Running(1, 0, 10, true), 1, [10]))
    ensures Goes(At(ROW, Running(1, 0, 10, true), 1, [10]), End(Recorded), At(DONE, Free, 1, [10]))
  {
    assert [] + [10] == [10];
    assert At(ROW, Fresh(1, ROW), 1, []).settings[0 := Setting("e", 0, [10], 0)] == [Setting("e", 0, [10], 0)];
  }

  lemma SecondRun()
    ensures Goes(At(DONE, Free, 1, [10]), NoteRows, At(FORGOTTEN, Free, 0, [10]))
    ensures Goes(At(FORGOTTEN, Free, 0, [10]), Take(1), At(FORGOTTEN, Claimed(1), 0, [10]))
    ensures Goes(At(FORGOTTEN, Claimed(1), 0, [10]), Read, At(FORGOTTEN, Fresh(1, FORGOTTEN), 0, [10]))
    ensures Goes(At(FORGOTTEN, Fresh(1, FORGOTTEN), 0, [10]), Begin(true),
        At(FORGOTTEN, Running(1, 0, 10, true), 0, [10, 10]))
  {
    assert [10] + [10] == [10, 10];
  }

  lemma OneInstant()
    ensures Instants(EveryTen, "e", 0, 10) == {10} && Proper(EveryTen)
  {
    assert EveryTen("e", 0) == Some(10);
    forall t: nat | 0 < t <= 10 && IsInstant(EveryTen, "e", t) ensures t == 10 {
      var b: nat :| EveryTen("e", b) == Some(t);
    }
  }

  /** Noting the dataset's rows is not done under the claim: it can wipe out when the model
      last retrained, and the same instant retrains it again. */
  lemma NotedRowsRetrainTwice() returns (run: seq<Sys>, acts: seq<Action>)
    ensures IsRun(EveryTen, run, acts) && Proper(EveryTen) && |run| == 11
    ensures |run[10].settings| == 1
    ensures var st := run[10].settings[0];
            st.lost == 0 && |st.served| == 2 && |Instants(EveryTen, st.expr, st.setAt, run[10].now)| == 1
  {
    FirstRun();
    SecondRun();
    OneInstant();
    run := [Start("e", 5), Start("e", 5).(observers := 1), At(ROW, Free, 1, []), At(ROW, Claimed(1), 1, []),
            At(ROW, Fresh(1, ROW), 1, []), At(ROW, Running(1, 0, 10, true), 1, [10]), At(DONE, Free, 1, [10]),
            At(FORGOTTEN, Free, 0, [10]), At(FORGOTTEN, Claimed(1), 0, [10]),
                At(FORGOTTEN, Fresh(1, FORGOTTEN), 0, [10]),
            At(FORGOTTEN, Running(1, 0, 10, true), 0, [10, 10])];
    acts := [Observe, Wait(10), Take(1), Read, Begin(true), End(Recorded), NoteRows, Take(1), Read, Begin(true)];
    assert run[0] == Start("e", 5);
    forall i | 0 <= i < |acts| ensures Enabled(EveryTen, run[i], acts[i]) &&
        run[i + 1] == Step(EveryTen, run[i], acts[i]) {
      assert Goes(run[i], acts[i], run[i + 1]);
    }
  }
}
