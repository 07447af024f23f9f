/** A prediction job larger than one call: it is cut into calls that the vhost's quota lets
    through, each repeated while it is refused for a reason that waiting cures
    (internal/ml/jobrunner.go, internal/ml/quotas.go). Times are in milliseconds. */
module PacedJobs {

  type Row = string

  const MAX_ROWS_PER_CALL := 1000
  const FIRST_PAUSE := 250
  const LONGEST_PAUSE := 30_000
  const MAX_QUOTA_WAIT := 3_600_000

  datatype Error = TooManyRows | SplitIt | TryAgain | WorkerBusy | Other | Cancelled

  datatype Result<T> = Ok(value: T) | Err(error: Error)

  /** A refusal that waiting cures, as the code takes it. */
  predicate Retryable(e: Error) { e == SplitIt || e == TryAgain || e == WorkerBusy }

  function Ceil(r: real): (c: int)
    ensures r <= c as real < r + 1.0
  {
    -((-r).Floor)
  }

  function Max(a: int, b: int): int { if a < b then b else a }
  function Min(a: int, b: int): int { if a < b then a else b }

  /** The bucket's burst for a rate. */
  function Burst(perSecond: real): int { Max(Ceil(perSecond), 1) }

  /** The rows a job sends per call; a quota that cannot be read is taken as none. */
  function Chunk(perSecond: real, readable: bool): int {
    if readable && perSecond > 0.0 then Max(1, Min(MAX_ROWS_PER_CALL, Ceil(perSecond))) else MAX_ROWS_PER_CALL
  }

  /** Calls of at most the chunk fit the burst exactly when the quota could be read, there is
      none, or it lets a full call through. */
  lemma ChunkFitsIff(perSecond: real, readable: bool)
    ensures 1 <= Chunk(perSecond, readable) <= 1000
    ensures !readable || perSecond <= 0.0 ==> Chunk(perSecond, readable) == 1000
    ensures readable && perSecond > 0.0 ==> Chunk(perSecond, readable) == Min(Burst(perSecond), 1000)
    ensures perSecond >= 1.0 ==> perSecond <= Burst(perSecond) as real < perSecond + 1.0
    ensures perSecond > 0.0 ==> (Chunk(perSecond, readable) <= Burst(perSecond) <==>
        readable || Burst(perSecond) >= MAX_ROWS_PER_CALL)
  {
  }

  /** The call's rows fit one burst, so it need not be split. */
  predicate FitsBurst(perSecond: real, rows: nat) {
    perSecond <= 0.0 || rows <= Burst(perSecond)
  }

  lemma SmallFits(perSecond: real, rows: nat)
    requires rows <= Chunk(perSecond, true)
    ensures FitsBurst(perSecond, rows)
  {
    ChunkFitsIff(perSecond, true);
  }

  /** allowPredictions; `taken` is what the bucket says. */
  function AllowPredictions(perSecond: real, rows: nat, taken: bool): (r: Result<()>)
    ensures r == Err(SplitIt) <==> !FitsBurst(perSecond, rows)
    ensures r == Err(TryAgain) <==> perSecond > 0.0 && FitsBurst(perSecond, rows) && !taken
    ensures r.Err? ==> r.error == SplitIt || r.error == TryAgain
  {
    if perSecond <= 0.0 then Ok(())
    else if rows > Burst(perSecond) then Err(SplitIt)
    else if !taken then Err(TryAgain)
    else Ok(())
  }

  // ------------------------------------------------------------------------ waiting

  /** The pause after n pauses, and the time waited in n pauses. */
  function Pause(n: nat): nat {
    if n == 0 then FIRST_PAUSE else Min(Pause(n - 1) * 2, LONGEST_PAUSE)
  }

  function Waited(n: nat): nat {
    if n == 0 then 0 else Waited(n - 1) + Pause(n - 1)
  }

  lemma FirstPauses()
    ensures Pause(7) == LONGEST_PAUSE && Waited(7) == 31_750
  {
    assert Pause(1) == 500 && Pause(2) == 1000 && Pause(3) == 2000;
    assert Pause(4) == 4000 && Pause(5) == 8000 && Pause(6) == 16000;
    assert Waited(1) == 250 && Waited(2) == 750 && Waited(3) == 1750;
    assert Waited(4) == 3750 && Waited(5) == 7750 && Waited(6) == 15750;
  }

  /** From the eighth on, every pause is the longest. */
  lemma {:induction false} LaterPauses(n: nat)
    requires n >= 7
    ensures Pause(n) == LONGEST_PAUSE && Waited(n) == 31_750 + (n - 7) * LONGEST_PAUSE
  {
    if n == 7 {
      FirstPauses();
    } else {
      LaterPauses(n - 1);
    }
  }

  lemma {:induction false} PausesRise(n: nat, m: nat)
    requires n <= m
    ensures Waited(n) <= Waited(m)
    decreases m
  {
    if n < m { PausesRise(n, m - 1); }
  }

  lemma NoPause()
    ensures Pause(0) == FIRST_PAUSE && Waited(0) == 0
  {
  }

  lemma NextPause(n: nat)
    ensures Pause(n + 1) == Min(Pause(n) * 2, LONGEST_PAUSE) && Waited(n + 1) == Waited(n) + Pause(n)
  {
  }

  /** How many pauses a call that never succeeds makes. */
  const MOST_PAUSES := 126

  lemma GivesUp(n: nat)
    ensures Waited(n) >= MAX_QUOTA_WAIT <==> n >= MOST_PAUSES
    ensures Waited(MOST_PAUSES) == 3_601_750 && Waited(MOST_PAUSES) < MAX_QUOTA_WAIT + LONGEST_PAUSE
  {
    LaterPauses(MOST_PAUSES - 1);
    LaterPauses(MOST_PAUSES);
    if n >= MOST_PAUSES { PausesRise(MOST_PAUSES, n); } else { PausesRise(n, MOST_PAUSES - 1); }
  }

  lemma PausedSoFar(n: nat)
    requires n <= MOST_PAUSES
    ensures Waited(n) <= 3_601_750 && (Waited(n) >= MAX_QUOTA_WAIT <==> n == MOST_PAUSES)
  {
    GivesUp(n);
    PausesRise(n, MOST_PAUSES);
  }

  // ---------------------------------------------------------------------- the service

  /** The calls added to the log held at most so many rows. */
  ghost predicate Grew(before: seq<nat>, after: seq<nat>, most: nat) {
    before <= after && forall i :: |before| <= i < |after| ==> after[i] <= most
  }

  lemma GrewNone(sizes: seq<nat>, most: nat)
    ensures Grew(sizes, sizes, most)
  {
  }

  lemma GrewOne(before: seq<nat>, after: seq<nat>, most: nat)
    requires Grew(before, after, most)
    ensures Grew(before, after + [most], most)
  {
  }

  lemma GrewMore(a: seq<nat>, b: seq<nat>, c: seq<nat>, n: nat, most: nat)
    requires Grew(a, b, most) && Grew(b, c, n) && n <= most
    ensures Grew(a, c, most)
  {
  }

  /** What the model's backend does with a call that the quota let through. */
  datatype Backend = Answers | Busy | Fails

  /** One answer per row. */
  ghost predicate OnePerRow(model: seq<Row> -> seq<Row>) {
    forall rows :: |model(rows)| == |rows|
  }

  class Service {
    const perSecond: real
    const model: seq<Row> -> seq<Row>
    /** What the bucket and the backend say at each attempt, and whether the job is
        cancelled in the pause after it. */
    const taken: nat -> bool
    const backend: nat -> Backend
    const cancelled: nat -> bool
    /** How many calls were attempted, and what they held. */
    var attempts: nat
    var sizes: seq<nat>

    constructor (perSecond: real, model: seq<Row> -> seq<Row>, taken: nat -> bool, backend: nat -> Backend,
        cancelled: nat -> bool)
      ensures this.perSecond == perSecond && this.model == model && this.taken == taken
      ensures this.backend == backend && this.cancelled == cancelled && attempts == 0 && sizes == []
    {
      this.perSecond, this.model, this.taken := perSecond, model, taken;
      this.backend, this.cancelled := backend, cancelled;
      attempts, sizes := 0, [];
    }

    /** Attempt k at a call with these rows is within a call's size, gets through the quota and
        is answered. */
    ghost predicate Gets(rows: seq<Row>, k: nat) {
      |rows| <= 1000 && FitsBurst(perSecond, |rows|) && (perSecond <= 0.0 || taken(k)) && backend(k) == Answers
    }

    /** It is refused for a reason the code waits for: the quota, or a busy worker. */
    ghost predicate PutOff(rows: seq<Row>, k: nat) {
      |rows| <= 1000 &&
      (!FitsBurst(perSecond, |rows|) || (perSecond > 0.0 && !taken(k)) || backend(k) == Busy)
    }

    /** Predict, as far as a job sees it. */
    method Predict(rows: seq<Row>) returns (r: Result<seq<Row>>)
      modifies this
      ensures attempts == old(attempts) + 1 && sizes == old(sizes) + [|rows|]
      ensures r.Ok? <==> Gets(rows, old(attempts))
      ensures r.Ok? ==> r.value == model(rows)
      ensures r == Err(TryAgain) || r == Err(SplitIt) || r == Err(WorkerBusy) <==> PutOff(rows, old(attempts))
      ensures r == Err(TooManyRows) <==> |rows| > MAX_ROWS_PER_CALL
      ensures r == Err(SplitIt) <==> |rows| <= MAX_ROWS_PER_CALL && !FitsBurst(perSecond, |rows|)
      ensures r != Err(Cancelled)
    {
      var k := attempts;
      attempts, sizes := attempts + 1, sizes + [|rows|];
      if |rows| > MAX_ROWS_PER_CALL {
        return Err(TooManyRows);
      }
      var allowed := AllowPredictions(perSecond, |rows|, taken(k));
      if allowed.Err? {
        return Err(allowed.error);
      }
      match backend(k)
      case Answers => return Ok(model(rows));
      case Busy => return Err(WorkerBusy);
      case Fails => return Err(Other);
    }

    /** From attempt k on the call is answered within 126 pauses, put off before that and not
        cancelled in any of the pauses. */
    ghost predicate Lasts(rows: seq<Row>, k: nat) {
      exists e: nat :: k <= e <= k + 126 && Gets(rows, e) && PutOffUntil(rows, k, e)
    }

    ghost predicate PutOffUntil(rows: seq<Row>, k: nat, e: nat) {
      forall j: nat :: k <= j < e ==> PutOff(rows, j) && !cancelled(j)
    }

    /** An attempt after which nothing is tried ends the call. */
    lemma EndsAt(rows: seq<Row>, k: nat, e: nat)
      requires k <= e <= k + 126 && PutOffUntil(rows, k, e)
      requires Gets(rows, e) || !PutOff(rows, e) || cancelled(e) || e == k + 126
      ensures Lasts(rows, k) <==> Gets(rows, e)
    {
      if j: nat :| k <= j <= k + 126 && Gets(rows, j) && PutOffUntil(rows, k, j) {
        assert j < e ==> PutOff(rows, j);
      }
    }

    /** waitForQuota around one call: it gives up after about an hour. */
    method PredictPaced(rows: seq<Row>) returns (r: Result<seq<Row>>, waited: nat)
      modifies this
      ensures r.Ok? ==> r.value == model(rows)
      ensures r.Ok? <==> Lasts(rows, old(attempts))
      ensures waited <= 3_601_750 < MAX_QUOTA_WAIT + LONGEST_PAUSE
      ensures old(attempts) < attempts <= old(attempts) + MOST_PAUSES + 1
      ensures Grew(old(sizes), sizes, |rows|)
      ensures r == Err(TooManyRows) ==> |rows| > MAX_ROWS_PER_CALL
      ensures r == Err(SplitIt) ==> !FitsBurst(perSecond, |rows|)
      ensures r == Err(TryAgain) || r == Err(SplitIt) || r == Err(WorkerBusy) ==> waited >= 3_600_000
    {
      var pause := FIRST_PAUSE;
      waited := 0;
      ghost var n := 0;
      GrewNone(sizes, |rows|);
      hide Pause, Waited, FitsBurst, Grew, Min, Gets, PutOff, Lasts;
      NoPause();
      while true
        invariant n <= MOST_PAUSES && pause == Pause(n) && waited == Waited(n) && attempts == old(attempts) + n
        invariant PutOffUntil(rows, old(attempts), attempts)
        invariant Grew(old(sizes), sizes, |rows|)
        decreases MOST_PAUSES - n
      {
        PausedSoFar(n);
        GrewOne(old(sizes), sizes, |rows|);
        r := Predict(rows);
        var retry := r.Err? && Retryable(r.error);
        if !retry || waited >= MAX_QUOTA_WAIT {
          EndsAt(rows, old(attempts), attempts - 1);
          return;
        }
        if cancelled(attempts - 1) {
          EndsAt(rows, old(attempts), attempts - 1);
          return Err(Cancelled), waited;
        }
        NextPause(n);
        waited := waited + pause;
        pause := Min(pause * 2, LONGEST_PAUSE);
        n := n + 1;
      }
    }
  }

  // -------------------------------------------------------------------------- the job

  /** The answers of a job that sends `chunk` rows a call. */
  function Answered(model: seq<Row> -> seq<Row>, rows: seq<Row>, chunk: nat): seq<Row>
    requires chunk > 0
    decreases |rows|
  {
    if |rows| == 0 then [] else
      var n := Min(chunk, |rows|);
      model(rows[..n]) + Answered(model, rows[n..], chunk)
  }

  /** The next call's answers come next. */
  lemma AnsweredNext(model: seq<Row> -> seq<Row>, rows: seq<Row>, chunk: nat, k: nat)
    requires chunk > 0 && k < |rows|
    ensures var n := Min(k + chunk, |rows|);
            Answered(model, rows[k..], chunk) == model(rows[k..n]) + Answered(model, rows[n..], chunk)
  {
    var n := Min(k + chunk, |rows|);
    assert rows[k..][..n - k] == rows[k..n] && rows[k..][n - k..] == rows[n..];
  }

  lemma {:induction false} AnsweredSize(model: seq<Row> -> seq<Row>, rows: seq<Row>, chunk: nat)
    requires chunk > 0 && OnePerRow(model)
    ensures |Answered(model, rows, chunk)| == |rows|
    decreases |rows|
  {
    if |rows| > 0 {
      AnsweredSize(model, rows[Min(chunk, |rows|)..], chunk);
    }
  }

  /** predict: the rows in calls the quota lets through, in order. */
  method PredictJob(svc: Service, rows: seq<Row>, readable: bool) returns (r: Result<seq<Row>>, done: nat)
    requires OnePerRow(svc.model)
    modifies svc
    ensures r.Ok? ==> r.value == Answered(svc.model, rows, Chunk(svc.perSecond, readable)) && |r.value| == |rows|
    ensures done <= |rows| && (r.Ok? ==> done == |rows|)
    ensures Grew(old(svc.sizes), svc.sizes, Chunk(svc.perSecond, readable))
    ensures readable ==> r != Err(SplitIt)
    ensures r != Err(TooManyRows)
    ensures readable && (forall k :: svc.taken(k) && svc.backend(k) == Answers) ==> r.Ok?
  {
    ChunkFitsIff(svc.perSecond, readable);
    var chunk := Chunk(svc.perSecond, readable);
    var out: seq<Row> := [];
    ProgressStart(svc.model, rows, chunk);
    GrewNone(svc.sizes, chunk);
    hide Chunk, OnePerRow, Answered, FitsBurst, Grew, Progress;
    while |out| < |rows|
      invariant |out| <= |rows| && Progress(svc.model, rows, chunk, out)
      invariant Grew(old(svc.sizes), svc.sizes, chunk)
      decreases |rows| - |out|
    {
      var n := Min(|out| + chunk, |rows|);
      var part := rows[|out|..n];
      ghost var was := svc.sizes;
      ghost var k := svc.attempts;
      var preds, waited := svc.PredictPaced(part);
      if readable { SmallFits(svc.perSecond, |part|); }
      assert svc.Gets(part, k) ==> svc.Lasts(part, k) by { assert svc.PutOffUntil(part, k, k); }
      GrewMore(old(svc.sizes), was, svc.sizes, |part|, chunk);
      if preds.Err? {
        return preds, |out|;
      }
      ProgressNext(svc.model, rows, chunk, out);
      out := out + preds.value;
    }
    ProgressDone(svc.model, rows, chunk, out);
    return Ok(out), |out|;
  }

  /** What has come and what is to come make up the job's answers. */
  ghost predicate Progress(model: seq<Row> -> seq<Row>, rows: seq<Row>, chunk: nat, out: seq<Row>) {
    chunk > 0 && |out| <= |rows| && out + Answered(model, rows[|out|..], chunk) == Answered(model, rows, chunk)
  }

  lemma ProgressStart(model: seq<Row> -> seq<Row>, rows: seq<Row>, chunk: nat)
    requires chunk > 0
    ensures Progress(model, rows, chunk, [])
  {
    assert rows[0..] == rows;
  }

  lemma ProgressNext(model: seq<Row> -> seq<Row>, rows: seq<Row>, chunk: nat, out: seq<Row>)
    requires Progress(model, rows, chunk, out) && OnePerRow(model) && |out| < |rows|
    ensures var n := Min(|out| + chunk, |rows|);
            Progress(model, rows, chunk, out + model(rows[|out|..n])) && |model(rows[|out|..n])| == n - |out|
  {
    var n := Min(|out| + chunk, |rows|);
    OneEach(model, rows[|out|..n]);
    AnsweredNext(model, rows, chunk, |out|);
    hide Answered;
    JoinedAgain(out, model(rows[|out|..n]), Answered(model, rows[n..], chunk));
  }

  lemma ProgressDone(model: seq<Row> -> seq<Row>, rows: seq<Row>, chunk: nat, out: seq<Row>)
    requires Progress(model, rows, chunk, out) && |out| == |rows|
    ensures out == Answered(model, rows, chunk)
  {
    assert rows[|out|..] == [];
    AnsweredNone(model, chunk);
  }

  lemma AnsweredNone(model: seq<Row> -> seq<Row>, chunk: nat)
    requires chunk > 0
    ensures Answered(model, [], chunk) == []
  {
  }

  lemma JoinedAgain(a: seq<Row>, b: seq<Row>, c: seq<Row>)
    ensures a + (b + c) == a + b + c
  {
  }

  lemma OneEach(model: seq<Row> -> seq<Row>, rows: seq<Row>)
    requires OnePerRow(model)
    ensures |model(rows)| == |rows|
  {
  }

  /** A model that answers row by row gives a job the answers of one call with every row,
      whatever the chunk. */
  lemma {:induction false} ChunksDoNotShow(model: seq<Row> -> seq<Row>, each: Row -> Row, rows: seq<Row>, chunk: nat,
                                           i: nat)
    requires chunk > 0 && OnePerRow(model) && i < |rows|
    requires forall part: seq<Row>, j: nat {:trigger model(part)[j]} :: j < |part| && |model(part)| == |part| ==>
        model(part)[j] == each(part[j])
    ensures |Answered(model, rows, chunk)| == |rows| && Answered(model, rows, chunk)[i] == each(rows[i])
    decreases |rows|
  {
    AnsweredSize(model, rows, chunk);
    var n := Min(chunk, |rows|);
    OneEach(model, rows[..n]);
    if i < n {
      assert model(rows[..n])[i] == each(rows[..n][i]);
    } else {
      ChunksDoNotShow(model, each, rows[n..], chunk, i - n);
      assert rows[n..][i - n] == rows[i];
    }
  }
}
