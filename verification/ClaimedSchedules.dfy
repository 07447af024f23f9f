/** Schedules that every replica looks at and one of them runs, under an exclusive claim
    that outlives the run: dataset refreshes and model builds (internal/ml/schedules.go)
    and schedule-triggered retrainings (internal/ml/retrain.go). A run of the system is an
    interleaving of the store operations of all replicas over one schedule. */
module ClaimedSchedules {
  import opened Sequences

  /** What the cron parser gives: the first instant after a time, or nothing for an
      expression that does not parse. */
  type Cron = (string, nat) -> Option<nat>

  ghost predicate Proper(cron: Cron) {
    forall e, t :: cron(e, t).Some? ==> cron(e, t).value > t
  }

  ghost predicate IsInstant(cron: Cron, expr: string, t: nat) {
    exists b: nat :: cron(expr, b) == Some(t)
  }

  ghost function Instants(cron: Cron, expr: string, after: nat, now: nat): set<nat> {
    set t: nat | after < t <= now && IsInstant(cron, expr, t)
  }

  /** A schedule as stored. `ran` is when its last run started, 0 for never; `counted` is
      whether a retraining status is stored, `newRows` the policy's row trigger, 0 for none;
      `gen` numbers the times it was set. */
  datatype Row = Row(expr: string, setAt: nat, ran: nat, counted: bool, newRows: nat, gen: nat)

  /** scheduleBasis: the last run, or when it was set if that is later. */
  function Basis(r: Row): (b: nat)
    ensures b >= r.ran && b >= r.setAt && (b == r.ran || b == r.setAt)
  {
    if r.ran > r.setAt then r.ran else r.setAt
  }

  /** scheduleDue: the first instant after the basis has come. */
  predicate Due(cron: Cron, r: Row, now: nat) {
    cron(r.expr, Basis(r)).Some? && cron(r.expr, Basis(r)).value <= now
  }

  /** The parser skips no instant. */
  ghost predicate Exact(cron: Cron) {
    Proper(cron) &&
    forall e: string, b: nat, t: nat :: IsInstant(cron, e, t) && b < t ==> cron(e, b).Some? && cron(e, b).value <= t
  }

  /** An instant of the schedule came since it last ran, and since it was set. */
  ghost predicate InstantCame(cron: Cron, r: Row, now: nat) {
    exists t: nat :: r.ran < t <= now && r.setAt < t && IsInstant(cron, r.expr, t)
  }

  /** A schedule is due exactly when an instant came, however many did; so a run that is recorded
      at any time answers all that came until then. */
  lemma DueIff(cron: Cron, r: Row, now: nat)
    requires Exact(cron)
    ensures Due(cron, r, now) <==> InstantCame(cron, r, now)
    ensures !Due(cron, r.(ran := now), now)
  {
    if Due(cron, r, now) { assert IsInstant(cron, r.expr, cron(r.expr, Basis(r)).value); }
    assert Basis(r.(ran := now)) >= now;
  }

  datatype Trigger = NoTrigger | OnSchedule | OnNewRows

  /** The stored status of a model's retraining. */
  datatype Status = Status(at: nat, failed: bool, datasetRows: nat)

  /** retrainDue: what makes the model retrain now; rows is -1 when not known. */
  function RetrainDue(cron: Cron, expr: string, setAt: nat, newRows: nat, st: Option<Status>, rows: int, now: nat,
                      retryAfter: nat): Trigger
  {
    var basis := if st.Some? && st.value.at > setAt then st.value.at else setAt;
    if expr != "" && cron(expr, basis).Some? && cron(expr, basis).value <= now then OnSchedule
    else if newRows <= 0 || rows < 0 || st.None? then NoTrigger
    else if st.value.failed && now < st.value.at + retryAfter then NoTrigger
    else
      var added := if rows < st.value.datasetRows then rows else rows - st.value.datasetRows;
      if added >= newRows then OnNewRows else NoTrigger
  }

  /** Seen through the stored row, the two rules are one: a schedule triggers a retraining
      exactly when it would make a dataset refresh due. */
  lemma RetrainDueIff(cron: Cron, r: Row, st: Option<Status>, rows: int, now: nat, retryAfter: nat)
    requires r.expr != "" && r.ran == (if st.Some? then st.value.at else 0)
    ensures RetrainDue(cron, r.expr, r.setAt, r.newRows, st, rows, now, retryAfter) == OnSchedule <==> Due(cron, r, now)
  {
  }

  /** The rows that are new: those past the last count, or all of them in a dataset that shrank. */
  predicate EnoughNew(rows: int, before: nat, wanted: nat) {
    rows >= before + wanted || wanted <= rows < before
  }

  /** New rows trigger a retraining exactly when the schedule does not, there are enough of them
      since the last one, and that one, if it failed, is long enough ago. */
  lemma RetrainOnRowsIff(cron: Cron, expr: string, setAt: nat, newRows: nat, st: Option<Status>, rows: int, now: nat,
                         retryAfter: nat)
    ensures RetrainDue(cron, expr, setAt, newRows, st, rows, now, retryAfter) == OnNewRows <==>
      && RetrainDue(cron, expr, setAt, newRows, st, rows, now, retryAfter) != OnSchedule
      && newRows > 0 && rows >= 0 && st.Some? && EnoughNew(rows, st.value.datasetRows, newRows)
      && (st.value.failed ==> st.value.at + retryAfter <= now)
  {
  }

  // ----------------------------------------------------------------- the replicas

  /** Where the holder of the claim stands. */
  datatype Claim =
    | Free
    | Claimed(owner: int)
    | Fresh(owner: int, row: Row)
    | Running(owner: int, gen: nat, at: nat, scheduled: bool)

  /** What is remembered of one setting of the schedule: the instants that runs of it
      answered, and how many of its runs were not recorded. */
  datatype Setting = Setting(expr: string, setAt: nat, served: seq<nat>, lost: nat)

  /** `observers` are replicas about to note a dataset's rows for a model they read
      without a status. */
  datatype Sys = Sys(now: nat, row: Row, claim: Claim, observers: nat, settings: seq<Setting>)

  datatype Outcome = Recorded | Unrecorded | Busy

  datatype Action =
    | Put(expr: string, newRows: nat)
    | Take(owner: int)
    | Read
    | Leave
    | Begin(scheduled: bool)
    | End(outcome: Outcome)
    | Observe
    | NoteRows
    | RecordRows
    | Wait(d: nat)

  function Start(expr: string, newRows: nat): Sys {
    Sys(0, Row(expr, 0, 0, false, newRows, 0), Free, 0, [Setting(expr, 0, [], 0)])
  }

  predicate Enabled(cron: Cron, s: Sys, a: Action) {
    match a
    case Take(_) => s.claim.Free?
    case Read => s.claim.Claimed?
    case Leave => s.claim.Claimed? || s.claim.Fresh?
    case Begin(scheduled) =>
      s.claim.Fresh? && s.claim.row.gen < |s.settings| && (scheduled ==> Due(cron, s.claim.row, s.now))
    case End(_) => s.claim.Running? && s.claim.gen < |s.settings| &&
        (s.claim.scheduled ==> s.settings[s.claim.gen].served != [])
    case Observe => !s.row.counted && s.row.newRows > 0
    case NoteRows => s.observers > 0
    case RecordRows => s.claim.Running?
    case _ => true
  }

  function Serve(st: Setting, t: nat): Setting { st.(served := st.served + [t]) }

  function Unserve(st: Setting): Setting
    requires st.served != []
  {
    st.(served := st.served[..|st.served| - 1])
  }

  function AfterEnd(s: Sys, o: Outcome): Sys
    requires s.claim.Running? && s.claim.gen < |s.settings| &&
        (s.claim.scheduled ==> s.settings[s.claim.gen].served != [])
  {
    var c := s.claim;
    var st := s.settings[c.gen];
    match o
    case Recorded => s.(claim := Free, row := s.row.(ran := c.at, counted := true))
    case Busy =>
      s.(claim := Free, row := s.row.(counted := true),
         settings := s.settings[c.gen := if c.scheduled then Unserve(st) else st])
    case Unrecorded =>
      s.(claim := Free,
         settings := s.settings[c.gen := if c.scheduled then Unserve(st).(lost := st.lost + 1) else st])
  }

  function Step(cron: Cron, s: Sys, a: Action): Sys
    requires Enabled(cron, s, a)
  {
    match a
    case Put(expr, newRows) =>
      s.(row := s.row.(expr := expr, setAt := s.now, newRows := newRows, gen := s.row.gen + 1),
         settings := s.settings + [Setting(expr, s.now, [], 0)])
    case Take(o) => s.(claim := Claimed(o))
    case Read => s.(claim := Fresh(s.claim.owner, s.row))
    case Leave => s.(claim := Free)
    case Begin(scheduled) =>
      var f := s.claim.row;
      var t := s.(claim := Running(s.claim.owner, f.gen, s.now, scheduled));
      if scheduled then t.(settings := t.settings[f.gen := Serve(t.settings[f.gen], cron(f.expr, Basis(f)).value)])
          else t
    case End(o) => AfterEnd(s, o)
    case Observe => s.(observers := s.observers + 1)
    case NoteRows => s.(observers := s.observers - 1, row := s.row.(ran := 0, counted := true))
    case RecordRows => s.(row := s.row.(counted := true))
    case Wait(d) => s.(now := s.now + d)
  }

  ghost predicate IsRun(cron: Cron, run: seq<Sys>, acts: seq<Action>) {
    |run| == |acts| + 1 && (exists expr, newRows :: run[0] == Start(expr, newRows)) &&
    forall i :: 0 <= i < |acts| ==> Enabled(cron, run[i], acts[i]) && run[i + 1] == Step(cron, run[i], acts[i])
  }

  /** Whoever notes the rows finds no run since the schedule was set. A row without a status
      is such a row, so a compare-and-set of the status would see to it. */
  ghost predicate NotesLoseNothing(run: seq<Sys>, acts: seq<Action>) {
    |run| == |acts| + 1 && forall i :: 0 <= i < |acts| && acts[i].NoteRows? ==> run[i].row.ran <= run[i].row.setAt
  }

  // ------------------------------------------------------------------ the invariant

  /** The runs of a setting answered rising instants, the last not after `until`. */
  ghost predicate Answered(cron: Cron, st: Setting, until: nat) {
    (forall i, j :: 0 <= i < j < |st.served| ==> st.served[i] < st.served[j]) &&
    (forall i :: 0 <= i < |st.served| ==> st.setAt < st.served[i] <= until && IsInstant(cron, st.expr, st.served[i]))
  }

  /** The row and what is remembered of it agree, and its clock is not ahead. */
  ghost predicate RowOk(s: Sys) {
    |s.settings| == s.row.gen + 1 && s.row.setAt <= s.now && s.row.ran <= s.now &&
    s.row.expr == s.settings[s.row.gen].expr && s.row.setAt == s.settings[s.row.gen].setAt &&
    (!s.row.counted ==> s.row.ran == 0)
  }

  /** A row read under the claim: of this setting, or of an earlier one while this one has
      not run. */
  ghost predicate ReadOk(cron: Cron, s: Sys, f: Row) {
    f.gen <= s.row.gen && f.gen < |s.settings| && f.setAt <= s.now &&
    f.expr == s.settings[f.gen].expr && f.setAt == s.settings[f.gen].setAt &&
    Answered(cron, s.settings[f.gen], Basis(f)) &&
    (f.gen < s.row.gen ==> s.row.gen < |s.settings| && s.settings[s.row.gen].served == [])
  }

  function Later(a: nat, b: nat): nat { if a > b then a else b }

  /** The setting before the run under way. */
  function Prior(st: Setting, scheduled: bool): Setting {
    if scheduled && st.served != [] then Unserve(st) else st
  }

  ghost predicate RunOk(cron: Cron, s: Sys, gen: nat, at: nat, scheduled: bool) {
    gen <= s.row.gen && gen < |s.settings| && at <= s.now && s.row.ran <= at &&
    (scheduled ==> s.settings[gen].served != []) &&
    (gen == s.row.gen ==> Answered(cron, Prior(s.settings[gen], scheduled), Basis(s.row))) &&
    Answered(cron, s.settings[gen], Later(at, s.settings[gen].setAt)) &&
    (gen < s.row.gen ==> s.row.gen < |s.settings| && s.settings[s.row.gen].served == [])
  }

  ghost predicate ClaimOk(cron: Cron, s: Sys) {
    match s.claim
    case Fresh(_, f) => ReadOk(cron, s, f)
    case Running(_, gen, at, scheduled) => RunOk(cron, s, gen, at, scheduled)
    case _ => true
  }

  /** Unless a run of it is under way, the present setting's runs were before its basis. */
  ghost predicate CurrentOk(cron: Cron, s: Sys) {
    s.row.gen < |s.settings| &&
    ((s.claim.Running? && s.claim.gen == s.row.gen) || Answered(cron, s.settings[s.row.gen], Basis(s.row)))
  }

  ghost predicate PastOk(cron: Cron, s: Sys) {
    forall g :: 0 <= g < |s.settings| ==> Answered(cron, s.settings[g], s.now)
  }

  ghost predicate Inv(cron: Cron, s: Sys) {
    RowOk(s) && ClaimOk(cron, s) && CurrentOk(cron, s) && PastOk(cron, s)
  }

  lemma StartOk(cron: Cron, expr: string, newRows: nat)
    ensures Inv(cron, Start(expr, newRows))
  {
  }

  lemma AnsweredLater(cron: Cron, st: Setting, until: nat, later: nat)
    requires Answered(cron, st, until) && until <= later
    ensures Answered(cron, st, later)
  {
    hide IsInstant;
  }

  lemma ServeOne(cron: Cron, st: Setting, basis: nat, t: nat)
    requires Proper(cron) && Answered(cron, st, basis) && st.setAt <= basis && cron(st.expr, basis) == Some(t)
    ensures basis < t && Answered(cron, Serve(st, t), t)
    ensures Prior(Serve(st, t), true) == st
  {
    assert t > basis;
    assert IsInstant(cron, st.expr, t);
    hide IsInstant;
    var st' := Serve(st, t);
    assert st'.served[..|st'.served| - 1] == st.served;
    forall i, j | 0 <= i < j < |st'.served| ensures st'.served[i] < st'.served[j] {
      if j == |st.served| { assert st.served[i] <= basis; }
    }
  }

  lemma PutOk(cron: Cron, s: Sys, a: Action)
    requires Inv(cron, s) && a.Put?
    ensures Inv(cron, Step(cron, s, a))
  {
    hide Answered;
    var t := Step(cron, s, a);
    assert t.settings[..|s.settings|] == s.settings;
    NothingAnswered(cron, a.expr, s.now, 0, Basis(t.row));
    NothingAnswered(cron, a.expr, s.now, 0, s.now);
  }

  lemma NothingAnswered(cron: Cron, expr: string, setAt: nat, lost: nat, until: nat)
    ensures Answered(cron, Setting(expr, setAt, [], lost), until)
  {
  }

  lemma BeginOk(cron: Cron, s: Sys, a: Action)
    requires Proper(cron) && Inv(cron, s) && a.Begin? && Enabled(cron, s, a)
    ensures Inv(cron, Step(cron, s, a))
  {
    hide Answered, Proper;
    var t, f := Step(cron, s, a), s.claim.row;
    var st := s.settings[f.gen];
    if a.scheduled {
      ServeOne(cron, st, Basis(f), cron(f.expr, Basis(f)).value);
      AnsweredLater(cron, t.settings[f.gen], cron(f.expr, Basis(f)).value, s.now);
    }
  }

  lemma UnservedIsPrior(cron: Cron, st: Setting, scheduled: bool, lost: nat, until: nat, now: nat)
    requires (scheduled ==> st.served != []) && Answered(cron, Prior(st, scheduled), until) && Answered(cron, st, now)
    ensures Answered(cron, Prior(st, scheduled).(lost := lost), until)
    ensures Answered(cron, Prior(st, scheduled).(lost := lost), now)
  {
  }

  lemma PriorAnswered(cron: Cron, st: Setting, scheduled: bool, until: nat)
    requires Answered(cron, st, until)
    ensures Answered(cron, Prior(st, scheduled), until)
  {
    hide IsInstant;
  }

  lemma EndOk(cron: Cron, s: Sys, a: Action)
    requires Inv(cron, s) && a.End? && Enabled(cron, s, a)
    ensures Inv(cron, Step(cron, s, a))
  {
    hide Answered;
    var t, c := Step(cron, s, a), s.claim;
    var st := s.settings[c.gen];
    var until := if c.gen == s.row.gen then Basis(s.row) else s.now;
    PriorAnswered(cron, st, c.scheduled, s.now);
    UnservedIsPrior(cron, st, c.scheduled, st.lost, until, s.now);
    UnservedIsPrior(cron, st, c.scheduled, st.lost + 1, until, s.now);
    assert st.(lost := st.lost) == st;
    if c.gen < s.row.gen {
      assert s.settings[s.row.gen].served == [];
      EmptyAnswered(cron, s.settings[s.row.gen], Basis(t.row));
    }
  }

  lemma EmptyAnswered(cron: Cron, st: Setting, until: nat)
    requires st.served == []
    ensures Answered(cron, st, until)
  {
  }

  lemma WaitOk(cron: Cron, s: Sys, a: Action)
    requires Inv(cron, s) && a.Wait?
    ensures Inv(cron, Step(cron, s, a))
  {
    hide Answered;
    var t := Step(cron, s, a);
    forall g | 0 <= g < |t.settings| ensures Answered(cron, t.settings[g], t.now) {
      AnsweredLater(cron, s.settings[g], s.now, t.now);
    }
  }

  /** What is recorded of the present setting: its answered instants without a run under way. */
  function RecordedOf(s: Sys): seq<nat>
    requires s.row.gen < |s.settings|
  {
    Prior(s.settings[s.row.gen], s.claim.Running? && s.claim.gen == s.row.gen && s.claim.scheduled).served
  }

  lemma NothingBeforeSet(cron: Cron, st: Setting)
    ensures Answered(cron, st, st.setAt) <==> st.served == []
  {
    if st.served != [] { assert !(st.setAt < st.served[0] <= st.setAt); }
  }

  /** Noting the rows keeps the invariant exactly when nothing recorded of the present
      setting is lost by it, whoever holds the claim. */
  lemma NoteRowsKeepsIff(cron: Cron, s: Sys)
    requires Inv(cron, s) && Enabled(cron, s, NoteRows)
    ensures Inv(cron, Step(cron, s, NoteRows)) <==> RecordedOf(s) == []
    ensures s.row.ran <= s.row.setAt ==> RecordedOf(s) == []
  {
    var t, st := Step(cron, s, NoteRows), s.settings[s.row.gen];
    NothingBeforeSet(cron, st);
    NothingBeforeSet(cron, Prior(st, s.claim.Running? && s.claim.gen == s.row.gen && s.claim.scheduled));
    hide Answered;
    assert Basis(t.row) == s.row.setAt == st.setAt;
  }

  /** Between runs, noting the rows makes the schedule due again for an instant no later than
      one already answered exactly when the present setting has answered one. */
  lemma NoteRowsRepeatsIff(cron: Cron, s: Sys)
    requires Exact(cron) && Inv(cron, s) && Enabled(cron, s, NoteRows) && s.claim.Free?
    ensures var t, served := Step(cron, s, NoteRows), s.settings[s.row.gen].served;
            (Due(cron, t.row, t.now) &&
             exists k :: 0 <= k < |served| && cron(t.row.expr, Basis(t.row)).value <= served[k])
            <==> served != []
  {
    var t, st := Step(cron, s, NoteRows), s.settings[s.row.gen];
    assert Basis(t.row) == st.setAt;
    if st.served != [] {
      assert Answered(cron, st, s.now);
      assert IsInstant(cron, st.expr, st.served[0]) && st.setAt < st.served[0] <= s.now;
    }
  }

  /** Every step keeps the invariant, if noting the rows loses nothing. */
  lemma StepOk(cron: Cron, s: Sys, a: Action)
    requires Proper(cron) && Inv(cron, s) && Enabled(cron, s, a) && (a.NoteRows? ==> s.row.ran <= s.row.setAt)
    ensures Inv(cron, Step(cron, s, a))
  {
    hide Answered, Proper;
    match a
    case Put(_, _) => PutOk(cron, s, a);
    case Begin(_) => BeginOk(cron, s, a);
    case End(_) => EndOk(cron, s, a);
    case Wait(_) => WaitOk(cron, s, a);
    case NoteRows => NoteRowsKeepsIff(cron, s);
    case _ =>
  }

  lemma {:induction false} EveryRunOk(cron: Cron, run: seq<Sys>, acts: seq<Action>, i: nat)
    requires Proper(cron) && IsRun(cron, run, acts) && NotesLoseNothing(run, acts) && i < |run|
    ensures Inv(cron, run[i])
  {
    if i == 0 {
      var expr, newRows :| run[0] == Start(expr, newRows);
      StartOk(cron, expr, newRows);
    } else {
      EveryRunOk(cron, run, acts, i - 1);
      assert Enabled(cron, run[i - 1], acts[i - 1]) && run[i - 1 + 1] == Step(cron, run[i - 1], acts[i - 1]);
      hide Inv, Step, Enabled, IsRun, Proper;
      StepOk(cron, run[i - 1], acts[i - 1]);
    }
  }

  lemma {:induction false} RisingIsFew(s: seq<nat>, all: set<nat>)
    requires forall i, j :: 0 <= i < j < |s| ==> s[i] < s[j]
    requires forall i :: 0 <= i < |s| ==> s[i] in all
    ensures |s| <= |all|
  {
    if s != [] {
      var last := s[|s| - 1];
      RisingIsFew(s[..|s| - 1], all - {last});
    }
  }

  /** How often a setting has run, refusals of a busy worker not counted. */
  function Runs(st: Setting): nat { |st.served| + st.lost }

  /** A setting's runs, those under way included, are at most the cron instants since it was
      set, with one more for each run whose outcome was not recorded: missed instants
      collapse into one run. */
  lemma RunsAtMostInstants(cron: Cron, run: seq<Sys>, acts: seq<Action>, i: nat, g: nat)
    requires Proper(cron) && IsRun(cron, run, acts) && NotesLoseNothing(run, acts) && i < |run| && g < |run[i].settings|
    ensures var st := run[i].settings[g];
            Runs(st) <= |Instants(cron, st.expr, st.setAt, run[i].now)| + st.lost
  {
    EveryRunOk(cron, run, acts, i);
    var st := run[i].settings[g];
    assert Answered(cron, st, run[i].now);
    RisingIsFew(st.served, Instants(cron, st.expr, st.setAt, run[i].now));
  }
}
