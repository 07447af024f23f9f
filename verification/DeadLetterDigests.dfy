/** Dead letters gathered per workflow into windows that close once, on their timer or on a
    forced flush (internal/notification/dead_letters.go). The critical sections are
    functions; a run is an interleaving of them with the timers. */
module DeadLetterDigests {
  import opened Sequences

  const SAMPLES := 10

  /** A parked message; its sample is what a mail would show of it, if the caller gave one. */
  datatype Letter = Letter(id: nat, sample: Option<string>)

  /** An open window. `serial` tells windows apart; the code knows them by address. */
  datatype Batch = Batch(serial: nat, count: nat, samples: seq<string>)

  type Windows = map<string, Batch>

  // --------------------------------------------------------------- critical sections

  function Sampled(samples: seq<string>, l: Letter): seq<string> {
    if |samples| < SAMPLES && l.sample.Some? then samples + [l.sample.value] else samples
  }

  /** DeadLettered, under the lock: opens the workflow's window if there is none. */
  function Counted(open: Windows, wf: string, serial: nat, l: Letter): Windows {
    var b := if wf in open then open[wf] else Batch(serial, 0, []);
    open[wf := Batch(b.serial, b.count + 1, Sampled(b.samples, l))]
  }

  /** The digest and its lock-protected operations. */
  class Digest {
    var pending: Windows
    var next: nat

    constructor ()
      ensures pending == map[] && next == 0
    {
      pending, next := map[], 0;
    }

    /** DeadLettered: says whether the window was open already. */
    method DeadLettered(wf: string, l: Letter) returns (open: bool)
      modifies this
      ensures open <==> wf in old(pending)
      ensures pending == Counted(old(pending), wf, old(next), l)
      ensures next == if open then old(next) else old(next) + 1
    {
      open := wf in pending;
      if !open {
        pending := pending[wf := Batch(next, 0, [])];
        next := next + 1;
      }
      var b := pending[wf];
      b := b.(count := b.count + 1);
      if |b.samples| < SAMPLES && l.sample.Some? {
        b := b.(samples := b.samples + [l.sample.value]);
      }
      pending := pending[wf := b];
    }

    /** flushDeadLetters, under the lock: takes the window out, if it is still there. */
    method Close(wf: string) returns (b: Option<Batch>)
      modifies this`pending
      ensures b == if wf in old(pending) then Some(old(pending)[wf]) else None
      ensures pending == old(pending) - {wf}
    {
      b := if wf in pending then Some(pending[wf]) else None;
      pending := pending - {wf};
    }

    /** FlushDeadLetters, under the lock: the workflows with a window open. */
    method OpenWorkflows() returns (ids: seq<string>)
      ensures forall id :: id in ids <==> id in pending
      ensures forall i, j :: 0 <= i < j < |ids| ==> ids[i] != ids[j]
    {
      ids := [];
      var rest := pending.Keys;
      while rest != {}
        invariant rest <= pending.Keys
        invariant forall id :: id in ids <==> id in pending && id !in rest
        invariant forall i, j :: 0 <= i < j < |ids| ==> ids[i] != ids[j]
        decreases rest
      {
        var id :| id in rest;
        ids := ids + [id];
        rest := rest - {id};
      }
    }
  }

  // ------------------------------------------------------------------- interleavings

  datatype Timer = Timer(wf: string, serial: nat)

  /** `unset` are timers of windows just opened, not yet set; `flushing` what each forced
      flush has still to close; `arrived` and `closed` the history of each workflow. */
  datatype Sys = Sys(pending: Windows, next: nat, timers: multiset<Timer>, unset: multiset<Timer>,
                     flushing: map<int, seq<string>>,
                     arrived: map<string, seq<Letter>>, closed: map<string, seq<Batch>>)

  const START := Sys(map[], 0, multiset{}, multiset{}, map[], map[], map[])

  datatype Action =
    | Arrive(wf: string, letter: Letter)
    | SetTimer(timer: Timer)
    | Fire(timer: Timer)
    | BeginFlush(id: int, ids: seq<string>)
    | FlushNext(id: int)

  function Arrived(s: Sys, wf: string): seq<Letter> { if wf in s.arrived then s.arrived[wf] else [] }

  function Closed(s: Sys, wf: string): seq<Batch> { if wf in s.closed then s.closed[wf] else [] }

  function AfterClose(s: Sys, wf: string): Sys {
    if wf in s.pending
    then s.(pending := s.pending - {wf}, closed := s.closed[wf := Closed(s, wf) + [s.pending[wf]]])
    else s
  }

  predicate Enabled(s: Sys, a: Action) {
    match a
    case Arrive(_, _) => true
    case SetTimer(t) => t in s.unset
    case Fire(t) => t in s.timers
    case BeginFlush(id, ids) => id !in s.flushing
    case FlushNext(id) => id in s.flushing && s.flushing[id] != []
  }

  function AfterArrive(s: Sys, wf: string, l: Letter): Sys {
    var t := s.(pending := Counted(s.pending, wf, s.next, l), arrived := s.arrived[wf := Arrived(s, wf) + [l]]);
    if wf in s.pending then t
    else t.(next := s.next + 1, unset := s.unset + multiset{Timer(wf, s.next)})
  }

  function Step(s: Sys, a: Action): Sys
    requires Enabled(s, a)
  {
    match a
    case Arrive(wf, l) => AfterArrive(s, wf, l)
    case SetTimer(t) => s.(unset := s.unset - multiset{t}, timers := s.timers + multiset{t})
    case Fire(t) => AfterClose(s.(timers := s.timers - multiset{t}), t.wf)
    case BeginFlush(id, ids) => s.(flushing := s.flushing[id := ids])
    case FlushNext(id) =>
      var ids := s.flushing[id];
      AfterClose(s.(flushing := if |ids| == 1 then s.flushing - {id} else s.flushing[id := ids[1..]]), ids[0])
  }

  ghost predicate IsRun(run: seq<Sys>, acts: seq<Action>) {
    |run| == |acts| + 1 && run[0] == START &&
    forall i :: 0 <= i < |acts| ==> Enabled(run[i], acts[i]) && run[i + 1] == Step(run[i], acts[i])
  }

  // ------------------------------------------------------------------- the promises

  /** What a window shows of its letters. */
  function FirstSamples(letters: seq<Letter>): seq<string> {
    if letters == [] then [] else Sampled(FirstSamples(letters[..|letters| - 1]), letters[|letters| - 1])
  }

  /** The windows, in the order they closed, cut the letters into consecutive stretches:
      each window counts its stretch and shows its first samples. */
  ghost predicate Covers(letters: seq<Letter>, windows: seq<Batch>)
    decreases |windows|
  {
    if windows == [] then letters == [] else
      var b := windows[|windows| - 1];
      0 < b.count <= |letters| && b.samples == FirstSamples(letters[|letters| - b.count..]) &&
      Covers(letters[..|letters| - b.count], windows[..|windows| - 1])
  }

  function Open(s: Sys, wf: string): seq<Batch> { if wf in s.pending then [s.pending[wf]] else [] }

  /** Every dead letter of the workflow is in exactly one window, closed or open. */
  ghost predicate Conserved(s: Sys, wf: string) {
    Covers(Arrived(s, wf), Closed(s, wf) + Open(s, wf))
  }

  ghost predicate Rising(bs: seq<Batch>, next: nat) {
    (forall i, j :: 0 <= i < j < |bs| ==> bs[i].serial < bs[j].serial) &&
    (forall i :: 0 <= i < |bs| ==> bs[i].serial < next)
  }

  /** No window of the workflow closes twice, nor after it closed opens again. */
  ghost predicate ClosesOnce(s: Sys, wf: string) {
    Rising(Closed(s, wf) + Open(s, wf), s.next)
  }

  /** An open window's own timer is set, or about to be. */
  ghost predicate HasTimer(s: Sys, wf: string) {
    wf in s.pending ==> Timer(wf, s.pending[wf].serial) in s.timers + s.unset
  }

  /** A timer for a serial is there at most once, only for serials given out, and gone once
      it has fired. */
  ghost predicate TimersOnce(s: Sys) {
    forall t :: (s.timers + s.unset)[t] <= 1 && (t in s.timers + s.unset ==> t.serial < s.next)
  }

  ghost predicate Inv(s: Sys, wf: string) {
    Conserved(s, wf) && ClosesOnce(s, wf) && HasTimer(s, wf)
  }

  lemma CoversNew(letters: seq<Letter>, windows: seq<Batch>, serial: nat, l: Letter)
    requires Covers(letters, windows)
    ensures Covers(letters + [l], windows + [Batch(serial, 1, Sampled([], l))])
  {
    var ls, ws := letters + [l], windows + [Batch(serial, 1, Sampled([], l))];
    assert ws[..|ws| - 1] == windows && ls[..|ls| - 1] == letters && ls[|ls| - 1..] == [l];
    assert [l][..0] == [];
    assert FirstSamples([l]) == Sampled(FirstSamples([l][..0]), l);
  }

  lemma CoversMore(letters: seq<Letter>, closed: seq<Batch>, b: Batch, l: Letter)
    requires Covers(letters, closed + [b])
    ensures Covers(letters + [l], closed + [b.(count := b.count + 1, samples := Sampled(b.samples, l))])
  {
    var b' := b.(count := b.count + 1, samples := Sampled(b.samples, l));
    assert (closed + [b])[..|closed|] == closed && (closed + [b'])[..|closed|] == closed;
    var ls := letters + [l];
    var mine := letters[|letters| - b.count..];
    assert ls[|ls| - b'.count..] == mine + [l] && (mine + [l])[..|mine|] == mine;
    assert ls[..|ls| - b'.count] == letters[..|letters| - b.count];
  }

  /** What an arrival does to its own workflow, and that it leaves the others. */
  lemma ArriveEffect(s: Sys, wf: string, l: Letter)
    ensures var t := AfterArrive(s, wf, l);
      Arrived(t, wf) == Arrived(s, wf) + [l] && Closed(t, wf) == Closed(s, wf) &&
      Open(t, wf) == if wf in s.pending
        then [s.pending[wf].(count := s.pending[wf].count + 1, samples := Sampled(s.pending[wf].samples, l))]
        else [Batch(s.next, 1, Sampled([], l))]
  {
    hide Sampled;
  }

  lemma ArriveLeaves(s: Sys, wf: string, l: Letter, x: string)
    requires x != wf
    ensures var t := AfterArrive(s, wf, l);
      Arrived(t, x) == Arrived(s, x) && Closed(t, x) == Closed(s, x) && Open(t, x) == Open(s, x)
  {
    hide Sampled;
  }

  lemma ArriveConserved(s: Sys, wf: string, l: Letter, x: string)
    requires Conserved(s, x)
    ensures Conserved(AfterArrive(s, wf, l), x)
  {
    if x != wf {
      ArriveLeaves(s, wf, l, x);
    } else {
      ArriveEffect(s, wf, l);
      hide Covers, Sampled, AfterArrive, Arrived, Closed;
      if wf in s.pending {
        CoversMore(Arrived(s, wf), Closed(s, wf), s.pending[wf], l);
      } else {
        assert Closed(s, wf) + [] == Closed(s, wf);
        CoversNew(Arrived(s, wf), Closed(s, wf), s.next, l);
      }
    }
  }

  lemma ArriveClosesOnce(s: Sys, wf: string, l: Letter, x: string)
    requires ClosesOnce(s, x)
    ensures ClosesOnce(AfterArrive(s, wf, l), x)
  {
    hide Sampled, Rising;
    var t := AfterArrive(s, wf, l);
    RisingLater(Closed(s, x) + Open(s, x), s.next, t.next);
    if x == wf {
      if wf in s.pending {
        RisingSame(Closed(s, x), s.pending[x], t.pending[x], t.next);
      } else {
        assert Closed(s, x) + [] == Closed(s, x);
        RisingNew(Closed(s, x), t.pending[x]);
      }
    }
  }

  lemma RisingLater(bs: seq<Batch>, next: nat, later: nat)
    requires Rising(bs, next) && next <= later
    ensures Rising(bs, later)
  {
  }

  lemma RisingSame(bs: seq<Batch>, b: Batch, b': Batch, next: nat)
    requires Rising(bs + [b], next) && b'.serial == b.serial
    ensures Rising(bs + [b'], next)
  {
    assert forall i :: 0 <= i < |bs| + 1 ==> (bs + [b'])[i].serial == (bs + [b])[i].serial;
  }

  lemma RisingNew(bs: seq<Batch>, b: Batch)
    requires Rising(bs, b.serial)
    ensures Rising(bs + [b], b.serial + 1)
  {
  }

  lemma ArriveHasTimer(s: Sys, wf: string, l: Letter, x: string)
    requires HasTimer(s, x)
    ensures HasTimer(AfterArrive(s, wf, l), x)
  {
    hide Sampled;
  }

  lemma CloseKeeps(s: Sys, wf: string, x: string)
    ensures Closed(AfterClose(s, wf), x) + Open(AfterClose(s, wf), x) == Closed(s, x) + Open(s, x)
    ensures Arrived(AfterClose(s, wf), x) == Arrived(s, x)
  {
  }

  /** Closing whatever window is open, for whatever reason, keeps everything. */
  lemma CloseInv(s: Sys, t: Sys, wf: string, x: string)
    requires Conserved(s, x) && ClosesOnce(s, x)
    requires t.pending == s.pending && t.arrived == s.arrived && t.closed == s.closed && t.next == s.next
    requires x != wf ==> HasTimer(t, x)
    ensures Inv(AfterClose(t, wf), x)
  {
    hide Covers, Rising;
    CloseKeeps(t, wf, x);
    assert Open(t, x) == Open(s, x) && Closed(t, x) == Closed(s, x);
  }

  lemma StepInv(s: Sys, a: Action, x: string)
    requires Inv(s, x) && TimersOnce(s) && Enabled(s, a)
    ensures Inv(Step(s, a), x)
  {
    hide Covers, Rising, TimersOnce;
    match a
    case Arrive(wf, l) =>
      hide Conserved, ClosesOnce, HasTimer;
      ArriveConserved(s, wf, l, x);
      ArriveClosesOnce(s, wf, l, x);
      ArriveHasTimer(s, wf, l, x);
    case SetTimer(t) =>
    case Fire(t) =>
      CloseInv(s, s.(timers := s.timers - multiset{t}), t.wf, x);
    case BeginFlush(id, ids) =>
    case FlushNext(id) =>
      var ids := s.flushing[id];
      CloseInv(s, s.(flushing := if |ids| == 1 then s.flushing - {id} else s.flushing[id := ids[1..]]), ids[0], x);
  }

  lemma StepTimersOnce(s: Sys, a: Action)
    requires TimersOnce(s) && Enabled(s, a)
    ensures TimersOnce(Step(s, a))
  {
    hide Counted;
    var t := Step(s, a);
    forall x ensures (t.timers + t.unset)[x] <= 1 && (x in t.timers + t.unset ==> x.serial < t.next) {
      assert (s.timers + s.unset)[x] <= 1 && (x in s.timers + s.unset ==> x.serial < s.next);
    }
  }

  /** In every interleaving of arrivals, timers old and new and forced flushes: each dead
      letter is counted in exactly one window, windows close at most once, and an open
      window's own timer has still to fire. */
  lemma {:induction false} DeadLettersConserved(run: seq<Sys>, acts: seq<Action>, i: nat, wf: string)
    requires IsRun(run, acts) && i < |run|
    ensures Inv(run[i], wf) && TimersOnce(run[i])
  {
    if i > 0 {
      DeadLettersConserved(run, acts, i - 1, wf);
      assert Enabled(run[i - 1], acts[i - 1]) && run[i - 1 + 1] == Step(run[i - 1], acts[i - 1]);
      hide IsRun, Enabled, Step, Inv, TimersOnce;
      StepInv(run[i - 1], acts[i - 1], wf);
      StepTimersOnce(run[i - 1], acts[i - 1]);
    }
  }

  /** A timer that fires, or a flush that comes to it, closes the workflow's window if it is open,
      once, and leaves every other window open. */
  lemma Closes(s: Sys, a: Action)
    requires Enabled(s, a) && (a.Fire? || a.FlushNext?)
    ensures var t := Step(s, a); var wf := if a.Fire? then a.timer.wf else s.flushing[a.id][0];
      && Open(t, wf) == [] && Closed(t, wf) == Closed(s, wf) + Open(s, wf)
      && (forall x :: x != wf ==> Open(t, x) == Open(s, x) && Closed(t, x) == Closed(s, x))
      && t.arrived == s.arrived
      && (a.FlushNext? ==> (if |s.flushing[a.id]| == 1 then a.id !in t.flushing
                            else a.id in t.flushing && t.flushing[a.id] == s.flushing[a.id][1..]))
  {
  }

  // --------------------------------------------------------------- in plain numbers

  function CountOf(windows: seq<Batch>): nat {
    if windows == [] then 0 else CountOf(windows[..|windows| - 1]) + windows[|windows| - 1].count
  }

  /** The windows' counts add up to the letters. */
  lemma {:induction false} CoversCounts(letters: seq<Letter>, windows: seq<Batch>)
    requires Covers(letters, windows)
    ensures CountOf(windows) == |letters|
    decreases |windows|
  {
    if windows != [] {
      var b := windows[|windows| - 1];
      CoversCounts(letters[..|letters| - b.count], windows[..|windows| - 1]);
    }
  }

  /** A window whose every letter has a sample shows the first ten of them, or all. */
  lemma {:induction false} ShowsFirst(letters: seq<Letter>)
    requires forall i :: 0 <= i < |letters| ==> letters[i].sample.Some?
    ensures |FirstSamples(letters)| == if |letters| < 10 then |letters| else 10
    ensures forall i :: 0 <= i < |FirstSamples(letters)| ==> FirstSamples(letters)[i] == letters[i].sample.value
  {
    if letters != [] {
      ShowsFirst(letters[..|letters| - 1]);
    }
  }
}
