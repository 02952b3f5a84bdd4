/** The worker pool that moves and copies share: a dispatcher hands out item
numbers, workers take them, and every result is counted and published under one
lock.  A `Step` is one atomic action of the dispatcher, of a worker or of the
outside; a run is any list of steps that are possible one after the other. */
module WorkerPool {
  import opened Wrappers

  /** ItemTracking, as far as a batch uses it. */
  datatype Track = Track(source: string, dest: string, ok: bool, bytes: nat)

  /** What the task shows after an update. */
  datatype Progress = Progress(done: int, failed: int, bytes: int, items: seq<Track>)

  /** What the lock guards. */
  datatype Counters = Counters(slots: seq<Option<Track>>, done: nat, succeeded: nat, bytes: nat,
      published: Option<Progress>)

  function Empty(n: nat): seq<Option<Track>> {
    seq(n, _ => None)
  }

  function Compact(slots: seq<Option<Track>>): seq<Track> {
    if slots == [] then []
    else Compact(slots[..|slots| - 1]) + (if slots[|slots| - 1].Some? then [slots[|slots| - 1].value] else [])
  }

  /** The critical section at the end of an item: its slot is filled, and the new numbers are published. */
  function Fill(c: Counters, i: nat, t: Track, bytes: nat): Counters
    requires i < |c.slots|
  {
    var slots := c.slots[i := Some(t)];
    var done, succeeded, total := c.done + 1, c.succeeded + (if t.ok then 1 else 0), c.bytes + bytes;
    Counters(slots, done, succeeded, total, Some(Progress(done, done - succeeded, total, Compact(slots))))
  }

  /** The shared variables of runMoveBatch and runCopyTask. */
  class Batch {
    const results: array<Option<Track>>
    var done: nat
    var succeeded: nat
    var bytesDone: nat
    var published: Option<Progress>

    constructor (n: nat)
      ensures fresh(results) && results.Length == n
      ensures Value() == Counters(Empty(n), 0, 0, 0, None)
    {
      results := new Option<Track>[n](_ => None);
      done, succeeded, bytesDone, published := 0, 0, 0, None;
    }

    ghost function Value(): Counters
      reads this, results
    {
      Counters(results[..], done, succeeded, bytesDone, published)
    }

    /** compactTrackingItems. */
    method CompactItems() returns (items: seq<Track>)
      ensures items == Compact(results[..])
    {
      items := [];
      for i := 0 to results.Length
        invariant items == Compact(results[..i])
      {
        assert results[..i + 1][..i] == results[..i];
        if results[i].Some? {
          items := items + [results[i].value];
        }
      }
      assert results[..results.Length] == results[..];
    }

    method Publish()
      modifies `published
      ensures published == Some(Progress(done, done - succeeded, bytesDone, Compact(results[..])))
    {
      var items := CompactItems();
      published := Some(Progress(done, done - succeeded, bytesDone, items));
    }

    /** One item is over; `bytes` is what it adds to the transferred bytes. */
    method FinishItem(i: nat, t: Track, bytes: nat)
      requires i < results.Length
      modifies this, results
      ensures Value() == Fill(old(Value()), i, t, bytes)
    {
      results[i] := Some(t);
      done := done + 1;
      if t.ok {
        succeeded := succeeded + 1;
      }
      bytesDone := bytesDone + bytes;
      Publish();
    }
  }

  // ------------------------------------------------------------------------ the pool

  datatype Worker = Idle | Holding(index: nat) | Working(index: nat) | Gone

  datatype Outcome = Interrupted | AllDone | PartialFailed | AllFailed

  datatype Pool = Pool(workers: seq<Worker>, next: nat, closed: bool, aborted: bool, canceled: bool,
      counters: Counters, over: Option<Outcome>)

  datatype Step =
    | Hand(worker: nat)
    | Close
    | Abort
    | Begin(worker: nat)
    | Finish(worker: nat, track: Track, bytes: nat)
    | Leave(worker: nat)
    | Cancel
    | End

  function Start(n: nat, workers: nat): Pool {
    Pool(seq(workers, _ => Idle), 0, false, false, false, Counters(Empty(n), 0, 0, 0, None), None)
  }

  /** How a batch that was not interrupted ends. */
  function Classify(n: nat, succeeded: nat): Outcome {
    var failed := n - succeeded;
    if failed == 0 then AllDone else if succeeded > 0 then PartialFailed else AllFailed
  }

  predicate Can(s: Pool, step: Step) {
    var n := |s.counters.slots|;
    && s.over.None?
    && match step
       case Hand(w) => !s.closed && s.next < n && w < |s.workers| && s.workers[w].Idle?
       case Close => !s.closed && s.next == n
       case Abort => !s.closed && s.next < n && s.canceled
       case Begin(w) => w < |s.workers| && s.workers[w].Holding?
       case Finish(w, _, _) => w < |s.workers| && s.workers[w].Working? && s.workers[w].index < n
       case Leave(w) => s.closed && w < |s.workers| && s.workers[w].Idle?
       case Cancel => true
       case End => s.closed && forall w | 0 <= w < |s.workers| :: s.workers[w].Gone?
  }

  function Next(s: Pool, step: Step): Pool
    requires Can(s, step)
  {
    match step
    case Hand(w) => s.(workers := s.workers[w := Holding(s.next)], next := s.next + 1)
    case Close => s.(closed := true)
    case Abort => s.(closed := true, aborted := true)
    case Begin(w) => s.(workers := s.workers[w := if s.canceled then Gone else Working(s.workers[w].index)])
    case Finish(w, t, bytes) =>
        s.(counters := Fill(s.counters, s.workers[w].index, t, bytes), workers := s.workers[w := Idle])
    case Leave(w) => s.(workers := s.workers[w := Gone])
    case Cancel => s.(canceled := true)
    case End => s.(over := Some(if s.aborted ||
        s.canceled then Interrupted else Classify(|s.counters.slots|, s.counters.succeeded)))
  }

  predicate Runs(s: Pool, steps: seq<Step>)
    decreases |steps|
  {
    steps == [] || (Can(s, steps[0]) && Runs(Next(s, steps[0]), steps[1..]))
  }

  function After(s: Pool, steps: seq<Step>): Pool
    requires Runs(s, steps)
    decreases |steps|
  {
    if steps == [] then s else After(Next(s, steps[0]), steps[1..])
  }

  // --------------------------------------------------------------------- the invariant

  function Filled(slots: seq<Option<Track>>): nat {
    if slots == [] then 0 else Filled(slots[..|slots| - 1]) + (if slots[|slots| - 1].Some? then 1 else 0)
  }

  function Good(slots: seq<Option<Track>>): nat {
    if slots == [] then 0
        else Good(slots[..|slots| - 1]) + (if slots[|slots| - 1].Some? && slots[|slots| - 1].value.ok then 1 else 0)
  }

  predicate Busy(w: Worker) {
    w.Holding? || w.Working?
  }

  ghost predicate Taken(workers: seq<Worker>, i: int) {
    exists w | 0 <= w < |workers| :: Busy(workers[w]) && workers[w].index == i
  }

  ghost predicate WorkersInv(s: Pool) {
    && s.next <= |s.counters.slots|
    && (forall i | s.next <= i < |s.counters.slots| :: s.counters.slots[i].None?)
    && (forall w | 0 <= w < |s.workers| && Busy(s.workers[w]) ::
        s.workers[w].index < s.next && s.counters.slots[s.workers[w].index].None?)
    && (forall v, w | 0 <= v < w < |s.workers| && Busy(s.workers[v]) &&
        Busy(s.workers[w]) :: s.workers[v].index != s.workers[w].index)
  }

  predicate CountersInv(c: Counters) {
    && c.done == Filled(c.slots) && c.succeeded == Good(c.slots)
    && (match c.published
        case None => c.done == 0 && c.bytes == 0
        case Some(p) => p == Progress(c.done, c.done - c.succeeded, c.bytes, Compact(c.slots)))
  }

  /** As long as nobody canceled, nothing that was handed out is dropped. */
  ghost predicate NothingDropped(s: Pool)
    requires s.next <= |s.counters.slots|
  {
    && !s.aborted
    && (forall i | 0 <= i < s.next :: s.counters.slots[i].Some? || Taken(s.workers, i))
    && (s.closed ==> s.next == |s.counters.slots|)
    && (forall w | 0 <= w < |s.workers| && s.workers[w].Gone? :: s.closed)
  }

  ghost predicate OverInv(s: Pool) {
    s.over.Some? && s.over != Some(Interrupted) ==>
      && !s.canceled && s.over == Some(Classify(|s.counters.slots|, s.counters.succeeded))
      && forall i | 0 <= i < |s.counters.slots| :: s.counters.slots[i].Some?
  }

  ghost predicate Inv(s: Pool) {
    WorkersInv(s) && CountersInv(s.counters) && (!s.canceled ==> s.next <= |s.counters.slots| && NothingDropped(s)) &&
        OverInv(s)
  }

  lemma {:induction false} FillOne(slots: seq<Option<Track>>, i: nat, t: Track)
    requires i < |slots| && slots[i].None?
    ensures Filled(slots[i := Some(t)]) == Filled(slots) + 1
    ensures Good(slots[i := Some(t)]) == Good(slots) + (if t.ok then 1 else 0)
  {
    var n := |slots| - 1;
    if i < n {
      FillOne(slots[..n], i, t);
      assert slots[i := Some(t)][..n] == slots[..n][i := Some(t)];
    } else {
      assert slots[i := Some(t)][..n] == slots[..n];
    }
  }

  lemma {:induction false} NoneFilled(n: nat)
    ensures Filled(Empty(n)) == 0 && Good(Empty(n)) == 0
  {
    if n > 0 {
      NoneFilled(n - 1);
      assert Empty(n)[..n - 1] == Empty(n - 1);
    }
  }

  lemma {:induction false} AllFilled(slots: seq<Option<Track>>)
    ensures Good(slots) <= Filled(slots) <= |slots|
    ensures (forall i | 0 <= i < |slots| :: slots[i].Some?) ==> Filled(slots) == |slots| == |Compact(slots)|
  {
    if slots != [] {
      AllFilled(slots[..|slots| - 1]);
    }
  }

  lemma StartInv(n: nat, workers: nat)
    ensures Inv(Start(n, workers))
  {
    NoneFilled(n);
  }

  lemma FinishKeeps(s: Pool, step: Step)
    requires Inv(s) && Can(s, step) && step.Finish?
    ensures Inv(Next(s, step)) && s.counters.slots[s.workers[step.worker].index].None?
  {
    hide Filled, Good, Compact;
    var w, t := step.worker, Next(s, step);
    var i := s.workers[w].index;
    FillOne(s.counters.slots, i, step.track);
    if !t.canceled {
      forall k | 0 <= k < t.next ensures t.counters.slots[k].Some? || Taken(t.workers, k) {
        if k != i && s.counters.slots[k].None? {
          assert Taken(s.workers, k);
          var v :| 0 <= v < |s.workers| && Busy(s.workers[v]) && s.workers[v].index == k;
          assert Busy(t.workers[v]) && t.workers[v].index == k;
        }
      }
    }
  }

  /** A worker that keeps its item keeps every item taken. */
  lemma StillTaken(workers: seq<Worker>, w: nat, now: Worker, k: int)
    requires w < |workers| && (Busy(workers[w]) ==> Busy(now) && now.index == workers[w].index)
    requires Taken(workers, k)
    ensures Taken(workers[w := now], k)
  {
    var v :| 0 <= v < |workers| && Busy(workers[v]) && workers[v].index == k;
    assert Busy(workers[w := now][v]) && workers[w := now][v].index == k;
  }

  lemma HandKeeps(s: Pool, step: Step)
    requires Inv(s) && Can(s, step) && step.Hand?
    ensures Inv(Next(s, step))
  {
    hide CountersInv, Taken, Fill;
    var w, t := step.worker, Next(s, step);
    if !t.canceled {
      forall k | 0 <= k < t.next ensures t.counters.slots[k].Some? || Taken(t.workers, k) {
        if k == s.next {
          TakenBy(t.workers, w);
        } else if s.counters.slots[k].None? {
          StillTaken(s.workers, w, Holding(s.next), k);
        }
      }
    }
  }

  lemma TakenBy(workers: seq<Worker>, w: nat)
    requires w < |workers| && Busy(workers[w])
    ensures Taken(workers, workers[w].index)
  {
  }

  lemma BeginKeeps(s: Pool, step: Step)
    requires Inv(s) && Can(s, step) && step.Begin?
    ensures Inv(Next(s, step))
  {
    hide CountersInv, Taken, Fill;
    var w, t := step.worker, Next(s, step);
    if !t.canceled {
      forall k | 0 <= k < t.next ensures t.counters.slots[k].Some? || Taken(t.workers, k) {
        if s.counters.slots[k].None? {
          StillTaken(s.workers, w, Working(s.workers[w].index), k);
        }
      }
    }
  }

  lemma LeaveKeeps(s: Pool, step: Step)
    requires Inv(s) && Can(s, step) && step.Leave?
    ensures Inv(Next(s, step))
  {
    hide CountersInv, Taken, Fill;
    var w, t := step.worker, Next(s, step);
    if !t.canceled {
      forall k | 0 <= k < t.next ensures t.counters.slots[k].Some? || Taken(t.workers, k) {
        if s.counters.slots[k].None? {
          StillTaken(s.workers, w, Gone, k);
        }
      }
    }
  }

  lemma EndKeeps(s: Pool, step: Step)
    requires Inv(s) && Can(s, step) && (step.Close? || step.Abort? || step.Cancel? || step.End?)
    ensures Inv(Next(s, step))
  {
    hide Filled, Good, Compact;
  }

  lemma StepKeeps(s: Pool, step: Step)
    requires Inv(s) && Can(s, step)
    ensures Inv(Next(s, step))
  {
    hide Inv, Next, Can;
    match step
    case Finish(_, _, _) => FinishKeeps(s, step);
    case Hand(_) => HandKeeps(s, step);
    case Begin(_) => BeginKeeps(s, step);
    case Leave(_) => LeaveKeeps(s, step);
    case Close => EndKeeps(s, step);
    case Abort => EndKeeps(s, step);
    case Cancel => EndKeeps(s, step);
    case End => EndKeeps(s, step);
  }

  lemma {:induction false} RunKeeps(s: Pool, steps: seq<Step>)
    requires Inv(s) && Runs(s, steps)
    ensures Inv(After(s, steps))
    decreases |steps|
  {
    hide Inv, Next, Can;
    if steps != [] {
      StepKeeps(s, steps[0]);
      RunKeeps(Next(s, steps[0]), steps[1..]);
    }
  }

  // ------------------------------------------------------------------- whole runs

  /** What the task shows is always the exact count: ItemsFailed is ItemsDone less the successes, and the
      items shown are those that are over. */
  lemma PublishedIsExact(n: nat, workers: nat, steps: seq<Step>)
    requires Runs(Start(n, workers), steps)
    ensures var c := After(Start(n, workers), steps).counters;
            && (c.published.None? ==> Filled(c.slots) == 0)
            && (c.published.Some? ==>
                  && c.published.value.done == Filled(c.slots) &&
                      c.published.value.failed == Filled(c.slots) - Good(c.slots)
                  && c.published.value.items == Compact(c.slots) &&
                      0 <= c.published.value.failed <= c.published.value.done <= |c.slots|)
  {
    StartInv(n, workers);
    RunKeeps(Start(n, workers), steps);
    AllFilled(After(Start(n, workers), steps).counters.slots);
  }

  function Shown(p: Option<Progress>): Progress {
    if p.Some? then p.value else Progress(0, 0, 0, [])
  }

  /** The numbers shown never go down. */
  lemma {:induction false} ProgressNeverDecreases(s: Pool, steps: seq<Step>)
    requires Inv(s) && Runs(s, steps)
    ensures var before, after := Shown(s.counters.published), Shown(After(s, steps).counters.published);
            before.done <= after.done && before.failed <= after.failed && before.bytes <= after.bytes
    decreases |steps|
  {
    hide Inv, Next, Can, Shown;
    if steps != [] {
      StepKeeps(s, steps[0]);
      ShowsMore(s, steps[0]);
      ProgressNeverDecreases(Next(s, steps[0]), steps[1..]);
    }
  }

  lemma ShowsMore(s: Pool, step: Step)
    requires Inv(s) && Can(s, step)
    ensures var before, after := Shown(s.counters.published), Shown(Next(s, step).counters.published);
            before.done <= after.done && before.failed <= after.failed && before.bytes <= after.bytes
  {
    hide Filled, Good, Compact, WorkersInv, NothingDropped, OverInv;
    AllFilled(s.counters.slots);
  }

  /** How often a run fills the slot `i`. */
  function Fillings(s: Pool, steps: seq<Step>, i: nat): nat
    requires Runs(s, steps)
    decreases |steps|
  {
    if steps == [] then 0
    else
      (if Fills(s, steps[0], i) then 1 else 0) + Fillings(Next(s, steps[0]), steps[1..], i)
  }

  lemma {:induction false} FilledAtMostOnce(s: Pool, steps: seq<Step>, i: nat)
    requires Inv(s) && Runs(s, steps) && i < |s.counters.slots|
    ensures |After(s, steps).counters.slots| == |s.counters.slots|
    ensures Fillings(s, steps, i) + (if s.counters.slots[i].Some? then 1 else 0) ==
        if After(s, steps).counters.slots[i].Some? then 1 else 0
    decreases |steps|
  {
    hide Inv, Next, Can;
    if steps != [] {
      StepKeeps(s, steps[0]);
      FillsOne(s, steps[0], i);
      FilledAtMostOnce(Next(s, steps[0]), steps[1..], i);
    }
  }

  predicate Fills(s: Pool, step: Step, i: nat)
    requires Can(s, step)
  {
    step.Finish? && s.workers[step.worker].index == i
  }

  lemma FillsOne(s: Pool, step: Step, i: nat)
    requires Inv(s) && Can(s, step) && i < |s.counters.slots|
    ensures |Next(s, step).counters.slots| == |s.counters.slots|
    ensures Fills(s, step, i) ==> s.counters.slots[i].None? && Next(s, step).counters.slots[i].Some?
    ensures !Fills(s, step, i) ==> Next(s, step).counters.slots[i] == s.counters.slots[i]
  {
    hide Filled, Good, Compact, NothingDropped, OverInv, CountersInv;
  }

  /** A batch that ends without having seen a cancel has filled every slot exactly once, and ends as all
      done, partial or failed exactly as all, some or none of its items succeeded. */
  lemma EndIsExact(n: nat, workers: nat, steps: seq<Step>)
    requires Runs(Start(n, workers), steps)
    requires var s := After(Start(n, workers), steps); s.over.Some? && s.over != Some(Interrupted)
    ensures var s := After(Start(n, workers), steps);
            && !s.canceled && |s.counters.slots| == n && s.counters.done == n
            && (forall i | 0 <= i < n :: s.counters.slots[i].Some? && Fillings(Start(n, workers), steps, i) == 1)
            && (s.over == Some(PartialFailed) <==> 0 < Good(s.counters.slots) < n)
            && (s.over == Some(AllFailed) <==> 0 == Good(s.counters.slots) < n)
            && (s.over == Some(AllDone) <==> Good(s.counters.slots) == n)
  {
    var s0 := Start(n, workers);
    var s := After(s0, steps);
    StartInv(n, workers);
    RunKeeps(s0, steps);
    hide Filled, Good, Compact, After, Runs, Fillings;
    SameLength(s0, steps);
    AllFilled(s.counters.slots);
    forall i | 0 <= i < n ensures Fillings(s0, steps, i) == 1 {
      FilledAtMostOnce(s0, steps, i);
    }
  }

  lemma {:induction false} SameLength(s: Pool, steps: seq<Step>)
    requires Runs(s, steps)
    ensures |After(s, steps).counters.slots| == |s.counters.slots|
    decreases |steps|
  {
    if steps != [] {
      SameLength(Next(s, steps[0]), steps[1..]);
    }
  }

  lemma {:induction false} CancelIsForGood(s: Pool, steps: seq<Step>)
    requires Runs(s, steps) && s.canceled
    ensures After(s, steps).canceled
    decreases |steps|
  {
    if steps != [] {
      CancelIsForGood(Next(s, steps[0]), steps[1..]);
    }
  }

  /** A pool that sees a cancel ends as interrupted. */
  lemma CanceledIsInterrupted(s: Pool, steps: seq<Step>)
    requires Inv(s) && s.canceled && Runs(s, steps) && After(s, steps).over.Some?
    ensures After(s, steps).over == Some(Interrupted)
  {
    hide Runs, After;
    RunKeeps(s, steps);
    CancelIsForGood(s, steps);
  }

  /** A pool is never stuck before its end: not one with a worker, and not one whose workers all left it after
      a cancel. */
  lemma NeverStuck(s: Pool)
    requires Inv(s) && s.over.None? && (s.workers == [] && !s.canceled ==> s.counters.slots == [])
    ensures exists step :: Can(s, step) && !step.Cancel?
  {
    var n := |s.counters.slots|;
    if w :| 0 <= w < |s.workers| && s.workers[w].Holding? {
      assert Can(s, Begin(w));
    } else if w :| 0 <= w < |s.workers| && s.workers[w].Working? {
      assert Can(s, Finish(w, Track("", "", false, 0), 0));
    } else if !s.closed {
      if s.next == n {
        assert Can(s, Close);
      } else if s.canceled {
        assert Can(s, Abort);
      } else {
        assert s.workers[0].Idle?;
        assert Can(s, Hand(0));
      }
    } else if w :| 0 <= w < |s.workers| && s.workers[w].Idle? {
      assert Can(s, Leave(w));
    } else {
      assert Can(s, End);
    }
  }
}
