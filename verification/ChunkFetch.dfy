/** offlineURLFetch.runChunks (transfer.go): parallel workers copy the chunks of a
file in any order, and the attempt reports the prefix that has no gap.  A `Step`
is one atomic action of a worker; a run is any list of possible steps. */
module ChunkFetch {
  import opened Wrappers

  /** The bytes from `start` up to `size` are to be copied, `chunk` at a time. */
  datatype Span = Span(start: int, size: int, chunk: int) {
    predicate Valid() {
      0 <= start < size && chunk > 0
    }

    function End(offset: int): int {
      if offset + chunk < size then offset + chunk else size
    }
  }

  /** What the lock guards. */
  datatype Shared = Shared(next: int, contiguous: int, completed: map<int, int>, failed: bool, whole: bool)

  /** Extends the prefix over the completed chunks that follow it without a gap. */
  function Advance(contiguous: int, completed: map<int, int>): (int, map<int, int>)
    decreases |completed|
  {
    if contiguous in completed then
      Smaller(completed, contiguous);
      Advance(completed[contiguous], completed - {contiguous})
    else (contiguous, completed)
  }

  lemma Smaller(m: map<int, int>, k: int)
    requires k in m
    ensures |m - {k}| < |m|
  {
    assert m == (m - {k})[k := m[k]];
  }

  function Take(s: Shared, span: Span): Shared {
    s.(next := s.next + span.chunk)
  }

  predicate Exhausted(s: Shared, span: Span) {
    s.failed || s.whole || s.next >= span.size
  }

  function Record(s: Shared, offset: int, end: int): Shared {
    var (contiguous, completed) := Advance(s.contiguous, s.completed[offset := end]);
    s.(contiguous := contiguous, completed := completed)
  }

  /** The variables that the workers of one attempt share. */
  class Attempt {
    const span: Span
    var next: int
    var contiguous: int
    var completed: map<int, int>
    var failed: bool
    var whole: bool

    constructor (span: Span)
      ensures this.span == span && Value() == Shared(span.start, span.start, map[], false, false)
    {
      this.span := span;
      next, contiguous, completed, failed, whole := span.start, span.start, map[], false, false;
    }

    function Value(): Shared
      reads this
    {
      Shared(next, contiguous, completed, failed, whole)
    }

    /** A worker asks for the next chunk. */
    method TakeChunk() returns (offset: Option<int>)
      modifies this
      ensures offset == if Exhausted(old(Value()), span) then None else Some(old(next))
      ensures Value() == if offset.Some? then Take(old(Value()), span) else old(Value())
    {
      if failed || whole || next >= span.size {
        return None;
      }
      offset := Some(next);
      next := next + span.chunk;
    }

    /** A chunk has landed: it is noted, and the prefix moves over all chunks that now follow it. */
    method RecordChunk(offset: int, end: int)
      modifies this
      ensures Value() == Record(old(Value()), offset, end)
    {
      completed := completed[offset := end];
      while contiguous in completed
        invariant next == old(next) && failed == old(failed) && whole == old(whole)
        invariant Advance(contiguous, completed) == Advance(old(contiguous), old(completed)[offset := end])
        decreases |completed|
      {
        var reached := completed[contiguous];
        Smaller(completed, contiguous);
        completed := completed - {contiguous};
        contiguous := reached;
      }
    }

    method Fail()
      modifies this
      ensures Value() == old(Value()).(failed := true)
    {
      failed := true;
    }

    /** A provider that ignores ranges sends the whole file on one connection. */
    method TakeWhole()
      modifies this
      ensures Value() == old(Value()).(whole := true)
    {
      whole := true;
    }

    method RecordWhole(copied: int)
      modifies this
      ensures Value() == old(Value()).(completed := map[], contiguous := span.start + copied)
    {
      completed := map[];
      contiguous := span.start + copied;
    }
  }

  // ----------------------------------------------------------------------- the workers

  datatype Worker = Idle | Fetching(offset: int) | Landed(offset: int) | Streaming | Streamed(copied: int) | Stopped

  /** `taken` are the offsets handed out, `written` the positions written so far. */
  datatype State = State(span: Span, shared: Shared, workers: seq<Worker>, taken: set<int>, written: set<int>)

  datatype Step =
    | TakeNext(worker: nat)
    | Stop(worker: nat)
    | Write(worker: nat, copied: nat)
    | Note(worker: nat)
    | Break(worker: nat, copied: nat)
    | Ignored(worker: nat)
    | Stream(worker: nat, copied: nat)
    | NoteWhole(worker: nat)

  function Range(a: int, b: int): (r: set<int>)
    ensures forall k :: k in r <==> a <= k < b
    decreases b - a
  {
    if a >= b then {} else {a} + Range(a + 1, b)
  }

  function Begin(span: Span, workers: nat): State {
    State(span, Shared(span.start, span.start, map[], false, false), seq(workers, _ => Idle), {}, {})
  }

  /** A chunk counts as landed only with its full length; a shorter one, or any error, breaks the attempt. */
  predicate Can(s: State, step: Step) {
    step.worker < |s.workers| &&
    var w := s.workers[step.worker];
    match step
    case TakeNext(_) => w.Idle? && !Exhausted(s.shared, s.span)
    case Stop(_) => w.Idle? && Exhausted(s.shared, s.span)
    case Write(_, copied) => w.Fetching? && copied == s.span.End(w.offset) - w.offset
    case Note(_) => w.Landed?
    case Break(_, copied) => (w.Fetching? && w.offset + copied <= s.span.End(w.offset)) ||
        (w.Streaming? && s.span.start + copied <= s.span.size)
    case Ignored(_) => w.Fetching?
    case Stream(_, copied) => w.Streaming? && s.span.start + copied <= s.span.size
    case NoteWhole(_) => w.Streamed?
  }

  function Next(s: State, step: Step): State
    requires Can(s, step)
  {
    var i, w := step.worker, s.workers[step.worker];
    match step
    case TakeNext(_) => s.(shared := Take(s.shared, s.span), workers := s.workers[i := Fetching(s.shared.next)],
        taken := s.taken + {s.shared.next})
    case Stop(_) => s.(workers := s.workers[i := Stopped])
    case Write(_, copied) => s.(workers := s.workers[i := Landed(w.offset)],
        written := s.written + Range(w.offset, w.offset + copied))
    case Note(_) => s.(shared := Record(s.shared, w.offset, s.span.End(w.offset)), workers := s.workers[i := Idle])
    case Break(_, copied) =>
      var from := if w.Fetching? then w.offset else s.span.start;
      s.(shared := s.shared.(failed := true), workers := s.workers[i := Stopped],
          written := s.written + Range(from, from + copied))
    case Ignored(_) => s.(shared := s.shared.(whole := true), workers := s.workers[i := Streaming])
    case Stream(_, copied) => s.(workers := s.workers[i := Streamed(copied)],
        written := s.written + Range(s.span.start, s.span.start + copied))
    case NoteWhole(_) => s.(shared := s.shared.(completed := map[], contiguous := s.span.start + w.copied),
        workers := s.workers[i := Stopped])
  }

  predicate Runs(s: State, steps: seq<Step>)
    decreases |steps|
  {
    steps == [] || (Can(s, steps[0]) && Runs(Next(s, steps[0]), steps[1..]))
  }

  function After(s: State, steps: seq<Step>): State
    requires Runs(s, steps)
    decreases |steps|
  {
    if steps == [] then s else After(Next(s, steps[0]), steps[1..])
  }

  predicate Finished(s: State) {
    forall i | 0 <= i < |s.workers| :: s.workers[i].Stopped?
  }

  // ------------------------------------------------------------------ nothing but written bytes

  predicate Covers(written: set<int>, a: int, b: int) {
    forall k | a <= k < b :: k in written
  }

  predicate AllCovered(written: set<int>, completed: map<int, int>) {
    forall o | o in completed :: Covers(written, o, completed[o])
  }

  predicate WorkerCovered(s: State, w: Worker) {
    && (w.Landed? ==> Covers(s.written, w.offset, s.span.End(w.offset)))
    && (w.Streamed? ==> Covers(s.written, s.span.start, s.span.start + w.copied))
  }

  predicate Honest(s: State) {
    && Covers(s.written, s.span.start, s.shared.contiguous)
    && AllCovered(s.written, s.shared.completed)
    && forall i | 0 <= i < |s.workers| :: WorkerCovered(s, s.workers[i])
  }

  lemma {:induction false} AdvanceCovers(written: set<int>, start: int, contiguous: int, completed: map<int, int>)
    requires Covers(written, start, contiguous) && AllCovered(written, completed)
    ensures Covers(written, start, Advance(contiguous, completed).0) &&
        AllCovered(written, Advance(contiguous, completed).1)
    decreases |completed|
  {
    if contiguous in completed {
      Smaller(completed, contiguous);
      AdvanceCovers(written, start, completed[contiguous], completed - {contiguous});
    }
  }

  lemma HonestStep(s: State, step: Step)
    requires Honest(s) && Can(s, step)
    ensures Honest(Next(s, step))
  {
    hide Advance;
    if step.Note? {
      var w := s.workers[step.worker];
      assert WorkerCovered(s, w);
      AdvanceCovers(s.written, s.span.start, s.shared.contiguous, s.shared.completed[w.offset := s.span.End(w.offset)]);
    }
    if step.NoteWhole? {
      assert WorkerCovered(s, s.workers[step.worker]);
    }
    forall i | 0 <= i < |s.workers| ensures WorkerCovered(Next(s, step), Next(s, step).workers[i]) {
      assert WorkerCovered(s, s.workers[i]);
    }
  }

  // ---------------------------------------------------------------------- nothing forgotten

  predicate InFlight(w: Worker, o: int) {
    (w.Fetching? || w.Landed?) && w.offset == o
  }

  /** The offsets handed out follow one another, and each is passed, noted or in flight. */
  ghost predicate Orderly(s: State) {
    var h := s.shared;
    && (h.next == s.span.start || s.span.start in s.taken)
    && (forall o | o in s.taken ::
        s.span.start <= o < h.next && o < s.span.size && (o + s.span.chunk in s.taken || o + s.span.chunk == h.next))
    && (h.contiguous in s.taken || h.contiguous == h.next || h.contiguous == s.span.size)
    && h.contiguous !in h.completed
    && (forall o | o in h.completed :: o in s.taken && h.completed[o] == s.span.End(o))
    && (forall i | 0 <= i < |s.workers| &&
        (s.workers[i].Fetching? || s.workers[i].Landed?) :: s.workers[i].offset in s.taken)
    && (forall i | 0 <= i < |s.workers| :: !s.workers[i].Streaming? && !s.workers[i].Streamed?)
    && (forall o | o in s.taken :: Accounted(s, o))
    && (forall i | 0 <= i < |s.workers| && s.workers[i].Stopped? :: h.next >= s.span.size)
  }

  ghost predicate Accounted(s: State, o: int) {
    o < s.shared.contiguous || o in s.shared.completed || exists i | 0 <= i < |s.workers| :: InFlight(s.workers[i], o)
  }

  ghost predicate Inv(s: State) {
    s.span.Valid() && Honest(s) && (!s.shared.failed && !s.shared.whole ==> Orderly(s))
  }

  /** Advancing passes every chunk it takes off the table, and ends at a chunk border. */
  lemma {:induction false} AdvanceAccounts(s: State, contiguous: int, completed: map<int, int>)
    requires s.span.Valid()
    requires contiguous in s.taken || contiguous == s.shared.next || contiguous == s.span.size
    requires forall o | o in completed :: o in s.taken && completed[o] == s.span.End(o)
    requires forall o | o in s.taken ::
        o < s.span.size && (o + s.span.chunk in s.taken || o + s.span.chunk == s.shared.next)
    ensures var (c, m) := Advance(contiguous, completed);
            && (c in s.taken || c == s.shared.next || c == s.span.size) && c >= contiguous && c !in m
            && (forall o | o in m :: o in completed && m[o] == completed[o])
            && (forall o | o in completed :: o in m || o < c)
    decreases |completed|
  {
    if contiguous in completed {
      Smaller(completed, contiguous);
      AdvanceAccounts(s, completed[contiguous], completed - {contiguous});
    }
  }

  lemma NoteKeeps(s: State, step: Step)
    requires s.span.Valid() && Orderly(s) && Can(s, step) && step.Note?
    ensures Orderly(Next(s, step))
  {
    hide Advance;
    var w, t := s.workers[step.worker], Next(s, step);
    var noted := s.shared.completed[w.offset := s.span.End(w.offset)];
    AdvanceAccounts(s, s.shared.contiguous, noted);
    forall o | o in t.taken ensures Accounted(t, o) {
      assert Accounted(s, o);
      if o >= s.shared.contiguous && o !in noted {
        var i :| 0 <= i < |s.workers| && InFlight(s.workers[i], o);
        assert InFlight(t.workers[i], o);
      }
    }
  }

  lemma OrderlyStep(s: State, step: Step)
    requires s.span.Valid() && Orderly(s) && Can(s, step) && !step.Note? && !Next(s, step).shared.failed &&
        !Next(s, step).shared.whole
    ensures Orderly(Next(s, step))
  {
    hide Advance;
    var t := Next(s, step);
    forall o | o in t.taken ensures Accounted(t, o) {
      if o in s.taken {
        assert Accounted(s, o);
        if i :| 0 <= i < |s.workers| && InFlight(s.workers[i], o) {
          assert InFlight(t.workers[i], o);
        }
      } else {
        assert InFlight(t.workers[step.worker], o);
      }
    }
  }

  lemma StepKeeps(s: State, step: Step)
    requires Inv(s) && Can(s, step)
    ensures Inv(Next(s, step)) && Next(s, step).span == s.span
  {
    hide Advance, Honest, Orderly;
    HonestStep(s, step);
    if !Next(s, step).shared.failed && !Next(s, step).shared.whole {
      if step.Note? {
        NoteKeeps(s, step);
      } else {
        OrderlyStep(s, step);
      }
    }
  }

  lemma {:induction false} RunKeeps(s: State, steps: seq<Step>)
    requires Inv(s) && Runs(s, steps)
    ensures Inv(After(s, steps)) && After(s, steps).span == s.span
    decreases |steps|
  {
    hide Inv, Can, Next;
    if steps != [] {
      StepKeeps(s, steps[0]);
      RunKeeps(Next(s, steps[0]), steps[1..]);
    }
  }

  // ------------------------------------------------------------------------ whole attempts

  /** Whatever the order and whatever fails, every byte of the prefix that the attempt reports was written;
      so resuming right after it never skips a hole, and an attempt that reports the file done has written
      all of it. */
  lemma ReportedPrefixIsWritten(span: Span, workers: nat, steps: seq<Step>)
    requires span.Valid() && Runs(Begin(span, workers), steps)
    ensures var s := After(Begin(span, workers), steps);
            && Covers(s.written, span.start, s.shared.contiguous)
            && (s.shared.contiguous >= span.size ==> Covers(s.written, span.start, span.size))
  {
    RunKeeps(Begin(span, workers), steps);
  }

  /** And if no worker failed and the provider honoured the ranges, the attempt does report the file done. */
  lemma NoFailureIsDone(span: Span, workers: nat, steps: seq<Step>)
    requires span.Valid() && workers > 0 && Runs(Begin(span, workers), steps)
    requires var s := After(Begin(span, workers), steps); Finished(s) && !s.shared.failed && !s.shared.whole
    ensures After(Begin(span, workers), steps).shared.contiguous >= span.size
  {
    RunKeeps(Begin(span, workers), steps);
    SameWorkers(Begin(span, workers), steps);
    hide Runs, After, Honest;
    var s := After(Begin(span, workers), steps);
    assert s.workers[0].Stopped?;
  }

  lemma {:induction false} SameWorkers(s: State, steps: seq<Step>)
    requires Runs(s, steps)
    ensures |After(s, steps).workers| == |s.workers|
    decreases |steps|
  {
    hide Advance;
    if steps != [] {
      SameWorkers(Next(s, steps[0]), steps[1..]);
    }
  }
}
