/** Filling a dataset from a query: the rows go to the worker in chunks, the first of which
    replaces what the dataset held (internal/ml/datasets.go). */
module DatasetUpload {
  import opened Sequences

  /** A row as sent. */
  type Row = string

  const CHUNK_ROWS := 1000
  const DEFAULT_MAX_ROWS := 1_000_000

  /** What becomes of one call to the worker: it works, or fails before or after its effect. */
  datatype Outcome = Works | FailsUndone | FailsDone

  datatype Call = Call(rows: seq<Row>, replace: bool)

  /** What the query gives before it ends, in good order or with an error. */
  datatype Cursor = Cursor(rows: seq<Row>, broken: bool)

  datatype Error = TooManyRows(limit: nat, byQuota: bool) | TooManyBytes | NotEncoded | WorkerFailed | QueryBroken

  datatype Result = Done | Refused(error: Error)

  /** The size of some rows as sent; negative when they cannot be encoded. */
  type Sizes = seq<Row> -> int

  function Applied(data: seq<Row>, c: Call): seq<Row> {
    if c.replace then c.rows else data + c.rows
  }

  /** The worker's dataset, and the calls made to it. */
  class Worker {
    var data: seq<Row>
    var calls: seq<Call>
    const outcome: nat -> Outcome

    constructor (data: seq<Row>, outcome: nat -> Outcome)
      ensures this.data == data && calls == [] && this.outcome == outcome
    {
      this.data, this.calls, this.outcome := data, [], outcome;
    }

    method AppendRows(rows: seq<Row>, replace: bool) returns (n: nat, ok: bool)
      modifies this
      ensures calls == old(calls) + [Call(rows, replace)]
      ensures ok <==> outcome(|old(calls)|) == Works
      ensures data == if outcome(|old(calls)|) == FailsUndone then old(data)
          else Applied(old(data), Call(rows, replace))
      ensures n == |data|
    {
      var o := outcome(|calls|);
      calls := calls + [Call(rows, replace)];
      if o != FailsUndone {
        data := if replace then rows else data + rows;
      }
      return |data|, o == Works;
    }
  }

  // ------------------------------------------------------------- the calls intended

  /** The j-th call of a fill with these rows. */
  function CallAt(rows: seq<Row>, j: nat): Call
    requires CHUNK_ROWS * j <= |rows|
  {
    Call(rows[CHUNK_ROWS * j..Least(CHUNK_ROWS * (j + 1), |rows|)], j == 0)
  }

  /** How many calls a whole fill takes; one, of nothing, when there are no rows. */
  function CallCount(rows: seq<Row>): (n: nat)
    ensures n >= 1 && CHUNK_ROWS * (n - 1) <= |rows| <= CHUNK_ROWS * n
    ensures |rows| > 0 ==> CHUNK_ROWS * (n - 1) < |rows|
  {
    if |rows| == 0 then 1 else (|rows| + CHUNK_ROWS - 1) / CHUNK_ROWS
  }

  ghost predicate CallsAre(rows: seq<Row>, calls: seq<Call>) {
    |calls| <= CallCount(rows) && forall j :: 0 <= j < |calls| ==> calls[j] == CallAt(rows, j)
  }

  ghost function Bytes(size: Sizes, rows: seq<Row>, k: nat): int
    requires k <= CallCount(rows)
  {
    if k == 0 then 0 else Bytes(size, rows, k - 1) + size(CallAt(rows, k - 1).rows)
  }

  /** The first k calls can be encoded, fit the byte quota and work. */
  ghost predicate Goes(size: Sizes, maxBytes: nat, outcome: nat -> Outcome, rows: seq<Row>, k: nat)
    requires k <= CallCount(rows)
  {
    (forall j :: 0 <= j < k ==> outcome(j) == Works) &&
    (maxBytes > 0 ==> Bytes(size, rows, k) <= maxBytes && forall j :: 0 <= j < k ==> size(CallAt(rows, j).rows) >= 0)
  }

  lemma {:induction false} GoesBefore(size: Sizes, maxBytes: nat, outcome: nat -> Outcome, rows: seq<Row>, k: nat,
                                      n: nat)
    requires k <= n <= CallCount(rows) && Goes(size, maxBytes, outcome, rows, n)
    ensures Goes(size, maxBytes, outcome, rows, k)
    decreases n
  {
    if k < n {
      assert maxBytes > 0 ==> size(CallAt(rows, n - 1).rows) >= 0;
      GoesBefore(size, maxBytes, outcome, rows, k, n - 1);
    }
  }

  /** What the dataset holds once k calls of a fill have worked. */
  function Held(before: seq<Row>, rows: seq<Row>, k: nat): seq<Row>
    requires k <= CallCount(rows)
  {
    if k == 0 then before else rows[..Least(CHUNK_ROWS * k, |rows|)]
  }

  lemma HeldNext(before: seq<Row>, rows: seq<Row>, k: nat)
    requires k < CallCount(rows)
    ensures Applied(Held(before, rows, k), CallAt(rows, k)) == Held(before, rows, k + 1)
  {
    if k > 0 {
      var a, b := CHUNK_ROWS * k, Least(CHUNK_ROWS * (k + 1), |rows|);
      assert rows[..a] + rows[a..b] == rows[..b];
    }
  }

  /** k calls have been made, all of them worked, and this is where that leaves things. */
  ghost predicate Sent(size: Sizes, maxBytes: nat, outcome: nat -> Outcome, before: seq<Row>, rows: seq<Row>,
                       k: nat, data: seq<Row>, calls: seq<Call>, sent: nat, bytes: int) {
    k <= CallCount(rows) && |calls| == k && CallsAre(rows, calls) && data == Held(before, rows, k) &&
    Goes(size, maxBytes, outcome, rows, k) && (maxBytes > 0 ==> bytes == Bytes(size, rows, k)) &&
    sent == Least(CHUNK_ROWS * k, |rows|)
  }

  /** What a fill may leave behind: whole calls of it, or one more that failed, and within
      the quota of bytes. */
  ghost predicate Left(size: Sizes, maxBytes: nat, before: seq<Row>, rows: seq<Row>, data: seq<Row>, calls: seq<Call>) {
    CallsAre(rows, calls) && (data == before || data <= rows) &&
    (maxBytes > 0 ==> Bytes(size, rows, |calls|) <= maxBytes)
  }

  lemma SentNext(size: Sizes, maxBytes: nat, outcome: nat -> Outcome, before: seq<Row>, rows: seq<Row>,
                 k: nat, data: seq<Row>, calls: seq<Call>, sent: nat, bytes: int, bytes': int, c: Call)
    requires Sent(size, maxBytes, outcome, before, rows, k, data, calls, sent, bytes) && k < CallCount(rows)
    requires c == CallAt(rows, k)
    requires maxBytes > 0 ==> 0 <= size(c.rows) && bytes' == bytes + size(c.rows) <= maxBytes
    ensures outcome(k) == Works ==>
            Sent(size, maxBytes, outcome, before, rows, k + 1, Applied(data, c), calls + [c], sent + |c.rows|, bytes')
    ensures Left(size, maxBytes, before, rows, data, calls + [c])
    ensures Left(size, maxBytes, before, rows, Applied(data, c), calls + [c])
    ensures outcome(k) != Works ==> !Goes(size, maxBytes, outcome, rows, k + 1)
  {
    HeldNext(before, rows, k);
    assert Bytes(size, rows, k + 1) == Bytes(size, rows, k) + size(CallAt(rows, k).rows);
    assert CallsAre(rows, calls + [c]);
  }

  // --------------------------------------------------------------------- the uploader

  /** uploader: sends rows to a dataset in chunks; the first chunk replaces it. */
  class Uploader {
    const w: Worker
    const size: Sizes
    const maxBytes: nat
    var chunk: seq<Row>
    var sent: nat
    var total: nat
    var bytes: int

    constructor (w: Worker, size: Sizes, maxBytes: nat)
      ensures this.w == w && this.size == size && this.maxBytes == maxBytes
      ensures chunk == [] && sent == 0 && total == 0 && bytes == 0
    {
      this.w, this.size, this.maxBytes := w, size, maxBytes;
      chunk, sent, total, bytes := [], 0, 0, 0;
    }

    /** flush: the chunk, which is the next call of the fill. */
    method Flush(ghost before: seq<Row>, ghost rows: seq<Row>, ghost k: nat) returns (r: Result)
      requires Sent(size, maxBytes, w.outcome, before, rows, k, w.data, w.calls, sent, bytes)
      requires k < CallCount(rows) && CallAt(rows, k) == Call(chunk, sent == 0)
      modifies this, w
      ensures r.Done? ==> Sent(size, maxBytes, w.outcome, before, rows, k + 1, w.data, w.calls, sent, bytes) &&
                          chunk == [] && total == |w.data|
      ensures r.Refused? ==> Left(size, maxBytes, before, rows, w.data, w.calls) &&
                             !Goes(size, maxBytes, w.outcome, rows, k + 1)
      ensures r.Refused? ==> r.error == WorkerFailed || (maxBytes > 0 && r.error in {NotEncoded, TooManyBytes})
    {
      hide Left, CallsAre;
      LeftNow(size, maxBytes, w.outcome, before, rows, k, w.data, w.calls, sent, bytes);
      var more := bytes;
      if maxBytes > 0 {
        var b := size(chunk);
        if b < 0 {
          return Refused(NotEncoded);
        }
        if bytes + b > maxBytes {
          return Refused(TooManyBytes);
        }
        more := bytes + b;
      }
      SentNext(size, maxBytes, w.outcome, before, rows, k, w.data, w.calls, sent, bytes, more, Call(chunk, sent == 0));
      hide Sent, Goes;
      bytes := more;
      var n, ok := w.AppendRows(chunk, sent == 0);
      if !ok {
        return Refused(WorkerFailed);
      }
      sent := sent + |chunk|;
      total := n;
      chunk := [];
      return Done;
    }

    /** add: flushes once the chunk is full. */
    method Add(row: Row, ghost before: seq<Row>, ghost rows: seq<Row>, ghost i: nat, ghost k: nat) returns (r: Result,
               ghost k': nat)
      requires Streaming(size, maxBytes, w.outcome, before, rows, i, k, w.data, w.calls, chunk, sent, bytes)
      requires i < |rows| && rows[i] == row && (sent > 0 ==> total == |w.data|)
      modifies this, w
      ensures r.Done? && sent > 0 ==> total == |w.data|
      ensures r.Done? ==> Streaming(size, maxBytes, w.outcome, before, rows, i + 1, k', w.data, w.calls, chunk, sent,
          bytes)
      ensures r.Refused? ==> Left(size, maxBytes, before, rows, w.data, w.calls) &&
                             !Goes(size, maxBytes, w.outcome, rows, CallCount(rows))
      ensures r.Refused? ==> r.error == WorkerFailed || (maxBytes > 0 && r.error in {NotEncoded, TooManyBytes})
    {
      hide Sent, Goes, Left;
      assert rows[CHUNK_ROWS * k..i + 1] == rows[CHUNK_ROWS * k..i] + [rows[i]];
      chunk := chunk + [row];
      k' := k;
      if |chunk| < CHUNK_ROWS {
        return Done, k';
      }
      SentStart(size, maxBytes, w.outcome, before, rows, k, w.data, w.calls, sent, bytes);
      r := Flush(before, rows, k);
      k' := k + 1;
      if r.Done? {
        SentStart(size, maxBytes, w.outcome, before, rows, k + 1, w.data, w.calls, sent, bytes);
      } else {
        NotGoes(size, maxBytes, w.outcome, rows, k + 1);
      }
    }
  }

  /** i rows are read: k full chunks of them sent, the rest waiting in the chunk. */
  ghost predicate Streaming(size: Sizes, maxBytes: nat, outcome: nat -> Outcome, before: seq<Row>, rows: seq<Row>,
                            i: nat, k: nat, data: seq<Row>, calls: seq<Call>, chunk: seq<Row>, sent: nat, bytes: int) {
    CHUNK_ROWS * k <= i <= |rows| && i - CHUNK_ROWS * k < CHUNK_ROWS && chunk == rows[CHUNK_ROWS * k..i] &&
    Sent(size, maxBytes, outcome, before, rows, k, data, calls, sent, bytes)
  }

  lemma SentStart(size: Sizes, maxBytes: nat, outcome: nat -> Outcome, before: seq<Row>, rows: seq<Row>,
                  k: nat, data: seq<Row>, calls: seq<Call>, sent: nat, bytes: int)
    requires Sent(size, maxBytes, outcome, before, rows, k, data, calls, sent, bytes) && CHUNK_ROWS * k <= |rows|
    ensures sent == CHUNK_ROWS * k && |calls| == k
  {
  }

  lemma NotGoes(size: Sizes, maxBytes: nat, outcome: nat -> Outcome, rows: seq<Row>, k: nat)
    requires k <= CallCount(rows) && !Goes(size, maxBytes, outcome, rows, k)
    ensures !Goes(size, maxBytes, outcome, rows, CallCount(rows))
  {
    if Goes(size, maxBytes, outcome, rows, CallCount(rows)) {
      GoesBefore(size, maxBytes, outcome, rows, k, CallCount(rows));
    }
  }

  lemma LeftNow(size: Sizes, maxBytes: nat, outcome: nat -> Outcome, before: seq<Row>, rows: seq<Row>,
                k: nat, data: seq<Row>, calls: seq<Call>, sent: nat, bytes: int)
    requires Sent(size, maxBytes, outcome, before, rows, k, data, calls, sent, bytes)
    ensures Left(size, maxBytes, before, rows, data, calls)
    ensures k < CallCount(rows) ==> Bytes(size, rows, k + 1) == Bytes(size, rows, k) + size(CallAt(rows, k).rows)
  {
  }

  // ------------------------------------------------------------------------ the fill

  /** The cap that binds: the caller's, a default without one, or a smaller row quota. */
  function RowCap(asked: int, quotaRows: nat): (cap: nat)
    ensures asked > 0 ==> cap <= asked
    ensures asked <= 0 ==> cap <= 1_000_000
    ensures quotaRows > 0 ==> cap <= quotaRows
    ensures cap == quotaRows > 0 || (cap == if asked > 0 then asked else 1_000_000)
  {
    var cap := if asked <= 0 then DEFAULT_MAX_ROWS else asked;
    if 0 < quotaRows < cap then quotaRows else cap
  }

  /** A fill is a replacement by the query's rows, or a refusal that leaves the old rows or
      a prefix of the new: the part of DatasetFromQuery that reads and sends. */
  method FillDataset(w: Worker, size: Sizes, cursor: Cursor, asked: int, quotaRows: nat, quotaBytes: nat)
    returns (n: nat, r: Result)
    requires w.calls == []
    modifies w
    ensures r.Done? <==> !cursor.broken && |cursor.rows| <= RowCap(asked, quotaRows) &&
                         Goes(size, quotaBytes, w.outcome, cursor.rows, CallCount(cursor.rows))
    ensures r.Done? ==> w.data == cursor.rows && n == |cursor.rows| && |w.calls| == CallCount(cursor.rows)
    ensures Left(size, quotaBytes, old(w.data), cursor.rows, w.data, w.calls)
    ensures r == Refused(QueryBroken) ==> cursor.broken && |cursor.rows| <= RowCap(asked, quotaRows)
    ensures r.Refused? && r.error.TooManyRows? ==>
      && r.error.limit == RowCap(asked, quotaRows) < |cursor.rows|
      && (r.error.byQuota <==> 0 < quotaRows < if asked > 0 then asked else 1_000_000)
  {
    hide Sent, Goes, Left;
    var up := new Uploader(w, size, quotaBytes);
    var maxRows := RowCap(asked, quotaRows);
    ghost var before, rows := w.data, cursor.rows;
    ghost var k := 0;
    StreamStart(size, quotaBytes, w.outcome, before, rows);
    var i := 0;
    while i < |cursor.rows|
      invariant 0 <= i <= |rows| && i <= maxRows && up.w == w && up.size == size && up.maxBytes == quotaBytes
      invariant Streaming(size, quotaBytes, w.outcome, before, rows, i, k, w.data, w.calls, up.chunk, up.sent, up.bytes)
      invariant up.sent > 0 ==> up.total == |w.data|
    {
      if i >= maxRows {
        LeftNow(size, quotaBytes, w.outcome, before, rows, k, w.data, w.calls, up.sent, up.bytes);
        return up.total, Refused(TooManyRows(maxRows, 0 < quotaRows < RowCap(asked, 0)));
      }
      r, k := up.Add(cursor.rows[i], before, rows, i, k);
      if r.Refused? {
        return up.total, r;
      }
      i := i + 1;
    }
    if cursor.broken {
      LeftNow(size, quotaBytes, w.outcome, before, rows, k, w.data, w.calls, up.sent, up.bytes);
      return up.total, Refused(QueryBroken);
    }
    SentStart(size, quotaBytes, w.outcome, before, rows, k, w.data, w.calls, up.sent, up.bytes);
    if |up.chunk| > 0 || up.sent == 0 {
      r := up.Flush(before, rows, k);
      if r.Refused? {
        NotGoes(size, quotaBytes, w.outcome, rows, k + 1);
        return up.total, r;
      }
      k := k + 1;
    }
    LeftNow(size, quotaBytes, w.outcome, before, rows, k, w.data, w.calls, up.sent, up.bytes);
    SentAll(size, quotaBytes, w.outcome, before, rows, w.data, w.calls, up.sent, up.bytes);
    return up.total, Done;
  }

  lemma StreamStart(size: Sizes, maxBytes: nat, outcome: nat -> Outcome, before: seq<Row>, rows: seq<Row>)
    ensures Streaming(size, maxBytes, outcome, before, rows, 0, 0, before, [], [], 0, 0)
  {
  }

  lemma SentAll(size: Sizes, maxBytes: nat, outcome: nat -> Outcome, before: seq<Row>, rows: seq<Row>,
                data: seq<Row>, calls: seq<Call>, sent: nat, bytes: int)
    requires Sent(size, maxBytes, outcome, before, rows, CallCount(rows), data, calls, sent, bytes)
    ensures data == rows && Goes(size, maxBytes, outcome, rows, CallCount(rows)) && |calls| == CallCount(rows)
  {
  }

  /** What is sent, whatever comes of it: the query's rows in order, at most a thousand a
      call, and only the first call replaces. */
  lemma LeftMeans(size: Sizes, maxBytes: nat, before: seq<Row>, rows: seq<Row>, data: seq<Row>, calls: seq<Call>)
    requires Left(size, maxBytes, before, rows, data, calls)
    ensures forall j :: 0 <= j < |calls| ==> |calls[j].rows| <= 1000 && (calls[j].replace <==> j == 0)
    ensures Joined(calls) <= rows
    ensures maxBytes > 0 ==> Size(size, calls) <= maxBytes
  {
    JoinedPrefix(rows, calls);
    if |calls| > 0 {
      assert Joined(calls) == rows[..Least(CHUNK_ROWS * |calls|, |rows|)];
    }
    SizeIsBytes(size, rows, calls);
  }

  function Joined(calls: seq<Call>): seq<Row> {
    if calls == [] then [] else Joined(calls[..|calls| - 1]) + calls[|calls| - 1].rows
  }

  function Size(size: Sizes, calls: seq<Call>): int {
    if calls == [] then 0 else Size(size, calls[..|calls| - 1]) + size(calls[|calls| - 1].rows)
  }

  lemma {:induction false} JoinedPrefix(rows: seq<Row>, calls: seq<Call>)
    requires CallsAre(rows, calls)
    ensures Joined(calls) == rows[..Least(CHUNK_ROWS * |calls|, |rows|)]
  {
    if calls != [] {
      var k := |calls| - 1;
      JoinedPrefix(rows, calls[..k]);
      assert calls[k] == CallAt(rows, k);
      var a, b := CHUNK_ROWS * k, Least(CHUNK_ROWS * (k + 1), |rows|);
      assert rows[..a] + rows[a..b] == rows[..b];
    }
  }

  lemma {:induction false} SizeIsBytes(size: Sizes, rows: seq<Row>, calls: seq<Call>)
    requires CallsAre(rows, calls)
    ensures Size(size, calls) == Bytes(size, rows, |calls|)
  {
    if calls != [] {
      SizeIsBytes(size, rows, calls[..|calls| - 1]);
    }
  }
}
