/** The download stream batch: items that are read, acknowledged and committed
through handles while items and the whole task can be canceled.

`Batch` is the state behind the batch lock together with the handles given out
and the runner's position.  Each critical section of the source is one function
on it; `Exec` runs any interleaving of them.  `ReadInto` gives up the batch lock
around the actual read, so it is two steps, `ReadBegin` and `ReadEnd`, and the
handle's own mutex (held throughout) is the handle's `reading` field. */
module StreamBatch {
  import opened Wrappers

  datatype ItemState = Queued | Running | WaitingOutput | Succeeded | Failed | Canceled

  datatype Item = Item(size: nat, acked: int, readOffset: int, open: bool, state: ItemState)

  /** `reading` is the largest number of bytes the read in progress can return. */
  datatype Handle = Handle(item: nat, closed: bool, reading: Option<int>)

  datatype Phase = Download | Ready | Complete | PartialFailed | AllFailed

  datatype Progress = Progress(itemsDone: int, itemsFailed: int, bytesDone: int, bytesTotal: int, phase: Phase)

  datatype Outcome = Interruption | Completion | PartialFailure | Failure

  /** Where the task's runner stands: `Starting` has installed the update function
      but not published yet, `Interrupted` has marked the batch canceled but not
      published yet, `Finishing` has left the lock with its two counts. */
  datatype Runner =
    | NotStarted
    | Starting
    | Waiting
    | Interrupted
    | Finishing(itemsDone: int, itemsFailed: int)
    | Returned(outcome: Outcome)

  datatype Batch = Batch(
    items: seq<Item>,
    handles: seq<Handle>,
    bytesTotal: int,
    canceled: bool,
    done: bool,
    runner: Runner,
    published: Option<Progress>)

  datatype Error =
    | NotReady
    | TaskCanceled
    | NotFound
    | AlreadyOpen
    | ItemEnded
    | HandleClosed
    | NegativeAck
    | AckExceedsRead
    | NotAllAcked

  datatype Result = Ok | Err(error: Error)

  predicate Terminal(s: ItemState) {
    s == Succeeded || s == Failed || s == Canceled
  }

  predicate Bad(s: ItemState) {
    s == Failed || s == Canceled
  }

  predicate AllTerminal(items: seq<Item>) {
    forall i | 0 <= i < |items| :: Terminal(items[i].state)
  }

  // ------------------------------------------------------------------ counting

  function Sum(items: seq<Item>, f: Item -> int): int {
    if items == [] then 0 else Sum(items[..|items| - 1], f) + f(items[|items| - 1])
  }

  function Acked(x: Item): int { x.acked }
  function Size(x: Item): int { x.size }
  function Ended(x: Item): int { if Terminal(x.state) then 1 else 0 }
  function Lost(x: Item): int { if Bad(x.state) then 1 else 0 }

  predicate SomeWaiting(items: seq<Item>) {
    exists i | 0 <= i < |items| :: items[i].state == WaitingOutput
  }

  function PhaseOf(total: int, itemsDone: int, itemsFailed: int, waiting: bool): Phase {
    if itemsDone == total && itemsFailed == 0 then Complete
    else if itemsDone == total && itemsFailed > 0 then
      if itemsFailed == total then AllFailed else PartialFailed
    else if waiting then Ready
    else Download
  }

  function Summary(items: seq<Item>, bytesTotal: int): Progress {
    var d, f := Sum(items, Ended), Sum(items, Lost);
    Progress(d, f, Sum(items, Acked), bytesTotal, PhaseOf(|items|, d, f, SomeWaiting(items)))
  }

  // --------------------------------------------------------------------- steps

  function Fresh(sizes: seq<nat>): seq<Item> {
    seq(|sizes|, i requires 0 <= i < |sizes| => Item(sizes[i], 0, 0, false, Queued))
  }

  function Init(sizes: seq<nat>): Batch {
    Batch(Fresh(sizes), [], Sum(Fresh(sizes), Size), false, false, NotStarted, None)
  }

  /** updateTaskSnapshotLocked: a no-op until the runner has installed the update function. */
  function Publish(b: Batch): Batch {
    if b.runner.NotStarted? then b
    else b.(published := Some(Summary(b.items, b.bytesTotal)))
  }

  function CloseDone(b: Batch): Batch {
    if AllTerminal(b.items) then b.(done := true) else b
  }

  function SetItem(b: Batch, i: nat, x: Item): Batch
    requires i < |b.items|
  {
    b.(items := b.items[i := x])
  }

  function SetHandle(b: Batch, h: nat, x: Handle): Batch
    requires h < |b.handles|
  {
    b.(handles := b.handles[h := x])
  }

  function Open(b: Batch, i: nat): (Batch, Result) {
    if b.runner.NotStarted? then (b, Err(NotReady))
    else if b.canceled then (b, Err(TaskCanceled))
    else if i >= |b.items| then (b, Err(NotFound))
    else if b.items[i].open then (b, Err(AlreadyOpen))
    else if Terminal(b.items[i].state) then (b, Err(ItemEnded))
    else
      var x := b.items[i];
      var b1 := Publish(SetItem(b, i, x.(open := true, state := Running, readOffset := x.acked)));
      (b1.(handles := b1.handles + [Handle(i, false, None)]), Ok)
  }

  /** itemLocked: what every operation on a handle checks first. */
  function ItemError(b: Batch, h: nat): Option<Error>
    requires h < |b.handles|
  {
    var x := b.handles[h];
    if x.closed then Some(HandleClosed)
    else if x.item >= |b.items| then Some(NotFound)
    else if Bad(b.items[x.item].state) then Some(ItemEnded)
    else None
  }

  function ReadBegin(b: Batch, h: nat, length: nat): (Batch, Result)
    requires h < |b.handles|
  {
    if length == 0 then (b, Ok)
    else if ItemError(b, h).Some? then (b, Err(ItemError(b, h).value))
    else
      var x := b.items[b.handles[h].item];
      if x.readOffset >= x.size then (b, Ok)
      else
        var most := if length > x.size - x.readOffset then x.size - x.readOffset else length;
        (SetHandle(b, h, b.handles[h].(reading := Some(most))), Ok)
  }

  function ReadEnd(b: Batch, h: nat, n: int): Batch
    requires h < |b.handles|
  {
    var x := b.handles[h];
    var b1 := SetHandle(b, h, x.(reading := None));
    if x.item < |b.items| && !x.closed && n > 0 then
      SetItem(b1, x.item, b.items[x.item].(readOffset := b.items[x.item].readOffset + n))
    else b1
  }

  function Ack(b: Batch, h: nat, bytes: int): (Batch, Result)
    requires h < |b.handles|
  {
    if bytes < 0 then (b, Err(NegativeAck))
    else if ItemError(b, h).Some? then (b, Err(ItemError(b, h).value))
    else
      var i := b.handles[h].item;
      var x := b.items[i];
      if x.acked + bytes > x.readOffset then (b, Err(AckExceedsRead))
      else (Publish(SetItem(b, i, x.(acked := x.acked + bytes, state := Running))), Ok)
  }

  function Commit(b: Batch, h: nat): (Batch, Result)
    requires h < |b.handles|
  {
    if ItemError(b, h).Some? then (b, Err(ItemError(b, h).value))
    else
      var i := b.handles[h].item;
      var x := b.items[i];
      if x.acked != x.size then (b, Err(NotAllAcked))
      else
        var b1 := SetItem(b, i, x.(open := false, state := Succeeded));
        (CloseDone(Publish(SetHandle(b1, h, b.handles[h].(closed := true)))), Ok)
  }

  function Fail(b: Batch, h: nat): (Batch, Result)
    requires h < |b.handles|
  {
    if ItemError(b, h).Some? then (b, Err(ItemError(b, h).value))
    else
      var i := b.handles[h].item;
      var x := b.items[i];
      var b1 := SetItem(b, i, x.(open := false, state := WaitingOutput, readOffset := x.acked));
      (Publish(SetHandle(b1, h, b.handles[h].(closed := true))), Ok)
  }

  function Close(b: Batch, h: nat): Batch
    requires h < |b.handles|
  {
    if b.handles[h].closed then b
    else
      var i := b.handles[h].item;
      var b1 :=
        if i >= |b.items| then b
        else if b.items[i].state == Running then
          SetItem(b, i, b.items[i].(open := false, state := WaitingOutput, readOffset := b.items[i].acked))
        else SetItem(b, i, b.items[i].(open := false));
      Publish(SetHandle(b1, h, b.handles[h].(closed := true)))
  }

  function CancelItem(b: Batch, i: nat): (Batch, Result) {
    if b.canceled then (b, Err(TaskCanceled))
    else if i >= |b.items| then (b, Err(NotFound))
    else if b.items[i].state == Succeeded || b.items[i].state == Canceled then (b, Ok)
    else
      var x := b.items[i];
      (CloseDone(Publish(SetItem(b, i, x.(open := false, readOffset := x.acked, state := Canceled)))), Ok)
  }

  function Interrupt(x: Item): Item {
    if x.state == Succeeded || x.state == Failed then x else x.(open := false, state := Failed)
  }

  function MarkCanceled(b: Batch): Batch {
    b.(canceled := true, items := seq(|b.items|, i requires 0 <= i < |b.items| => Interrupt(b.items[i])))
  }

  /** The convergence at the start of finishTask: what is still in flight becomes failed. */
  function Abandon(x: Item): Item {
    if Terminal(x.state) then x else x.(open := false, state := Failed)
  }

  function AbandonAll(items: seq<Item>): seq<Item> {
    seq(|items|, i requires 0 <= i < |items| => Abandon(items[i]))
  }

  function FinishCollect(b: Batch): Batch {
    var items := AbandonAll(b.items);
    b.(items := items, runner := Finishing(Sum(items, Ended), Sum(items, Lost)))
  }

  function FinishOutcome(total: int, itemsDone: int, itemsFailed: int): Outcome {
    if itemsDone == total && itemsFailed == 0 then Completion
    else if itemsFailed < total then PartialFailure
    else Failure
  }

  function FinishPhase(o: Outcome): Phase {
    if o == Completion then Complete else if o == PartialFailure then PartialFailed else AllFailed
  }

  /** The update after finishTask has left the lock: it writes its counts and the
      phase and leaves the byte counters as last published. */
  function FinishPublish(b: Batch): Batch
    requires b.runner.Finishing?
  {
    var d, f := b.runner.itemsDone, b.runner.itemsFailed;
    var o := FinishOutcome(|b.items|, d, f);
    var p := if b.published.Some? then b.published.value else Progress(0, 0, 0, b.bytesTotal, Download);
    b.(published := Some(p.(itemsDone := d, itemsFailed := f, phase := FinishPhase(o))), runner := Returned(o))
  }

  // -------------------------------------------------------------- interleavings

  datatype Op =
    | DoOpen(item: nat)
    | DoReadBegin(handle: nat, length: nat)
    | DoReadEnd(handle: nat, n: int)
    | DoAck(handle: nat, bytes: int)
    | DoCommit(handle: nat)
    | DoFail(handle: nat)
    | DoClose(handle: nat)
    | DoCancelItem(item: nat)
    | RunnerStart
    | RunnerSnapshot
    | RunnerInterrupt
    | RunnerFinish
    | RunnerPublish

  /** The handle exists and its mutex is free. */
  predicate Free(b: Batch, h: nat) {
    h < |b.handles| && b.handles[h].reading.None?
  }

  /** One step; a step that cannot be taken yet leaves the state alone. */
  function Step(b: Batch, op: Op): Batch {
    match op
    case DoOpen(i) => Open(b, i).0
    case DoReadBegin(h, length) => if Free(b, h) then ReadBegin(b, h, length).0 else b
    case DoReadEnd(h, n) =>
      if h < |b.handles| && b.handles[h].reading.Some? &&
          0 <= n <= b.handles[h].reading.value then ReadEnd(b, h, n) else b
    case DoAck(h, bytes) => if Free(b, h) then Ack(b, h, bytes).0 else b
    case DoCommit(h) => if Free(b, h) then Commit(b, h).0 else b
    case DoFail(h) => if Free(b, h) then Fail(b, h).0 else b
    case DoClose(h) => if Free(b, h) then Close(b, h) else b
    case DoCancelItem(i) => CancelItem(b, i).0
    case RunnerStart => if b.runner.NotStarted? then b.(runner := Starting) else b
    case RunnerSnapshot =>
      if b.runner.Starting? || b.runner.Waiting? then Publish(b).(runner := Waiting)
      else if b.runner.Interrupted? then Publish(b).(runner := Returned(Interruption))
      else b
    case RunnerInterrupt => if b.runner.Waiting? then MarkCanceled(b).(runner := Interrupted) else b
    case RunnerFinish => if b.runner.Waiting? && b.done then FinishCollect(b) else b
    case RunnerPublish => if b.runner.Finishing? then FinishPublish(b) else b
  }

  function Exec(b: Batch, ops: seq<Op>): Batch {
    if ops == [] then b else Step(Exec(b, ops[..|ops| - 1]), ops[|ops| - 1])
  }

  // ----------------------------------------------------------------- invariants

  predicate ItemInv(x: Item) {
    && 0 <= x.acked <= x.readOffset <= x.size
    && (x.state == Succeeded ==> x.acked == x.size)
    && (x.state == Running <==> x.open)
    && (x.state == Queued || x.state == WaitingOutput ==> x.readOffset == x.acked)
  }

  predicate ItemsInv(items: seq<Item>) {
    forall i | 0 <= i < |items| :: ItemInv(items[i])
  }

  /** An unclosed handle: its item is running, or was ended under it; a read in
      progress still fits behind the item's read offset. */
  predicate HandleInv(items: seq<Item>, h: Handle) {
    && h.item < |items|
    && (h.closed ==> h.reading.None?)
    && (!h.closed ==> items[h.item].open || Bad(items[h.item].state))
    && (h.reading.Some? ==> 0 <= h.reading.value <= items[h.item].size - items[h.item].readOffset)
  }

  predicate HandlesInv(items: seq<Item>, handles: seq<Handle>) {
    && (forall h | 0 <= h < |handles| :: HandleInv(items, handles[h]))
    && (forall h, k | 0 <= h < k < |handles| && handles[h].item == handles[k].item ::
        handles[h].closed || handles[k].closed)
  }

  ghost predicate Held(handles: seq<Handle>, i: nat) {
    exists h :: 0 <= h < |handles| && handles[h].item == i && !handles[h].closed
  }

  ghost predicate OpenHeld(items: seq<Item>, handles: seq<Handle>) {
    forall i | 0 <= i < |items| && items[i].open :: Held(handles, i)
  }

  /** `done` is closed exactly at the end, unless the batch was canceled. */
  predicate EndInv(b: Batch) {
    && (b.done ==> AllTerminal(b.items))
    && (b.canceled ==> AllTerminal(b.items))
    && (AllTerminal(b.items) ==> b.done || b.canceled)
    && (b.runner.Finishing? || (b.runner.Returned? && b.runner.outcome != Interruption) ==> b.done)
    && (b.runner.Interrupted? || b.runner == Returned(Interruption) <==> b.canceled)
  }

  predicate Below(p: Progress, q: Progress) {
    && p.itemsDone <= q.itemsDone
    && p.itemsFailed <= q.itemsFailed
    && p.bytesDone <= q.bytesDone
    && p.bytesTotal == q.bytesTotal
  }

  predicate PublishInv(b: Batch) {
    var s := Summary(b.items, b.bytesTotal);
    && b.bytesTotal == Sum(b.items, Size)
    && (b.runner.NotStarted? ==> b.published.None?)
    && (b.runner.Waiting? || b.runner.Finishing? || b.runner.Returned? ==> b.published == Some(s))
    && (b.published.Some? ==> Below(b.published.value, s))
    && (b.runner.Finishing? ==> b.runner.itemsDone == s.itemsDone && b.runner.itemsFailed == s.itemsFailed)
    && (b.runner.Returned? && b.runner.outcome != Interruption ==>
          b.runner.outcome == FinishOutcome(|b.items|, s.itemsDone, s.itemsFailed))
  }

  ghost predicate Inv(b: Batch) {
    && |b.items| > 0
    && ItemsInv(b.items)
    && HandlesInv(b.items, b.handles)
    && OpenHeld(b.items, b.handles)
    && EndInv(b)
    && PublishInv(b)
  }

  // ------------------------------------------------------------ counting lemmas

  lemma {:induction false} SumMonotone(xs: seq<Item>, ys: seq<Item>, f: Item -> int)
    requires |xs| == |ys| && forall i | 0 <= i < |xs| :: f(xs[i]) <= f(ys[i])
    ensures Sum(xs, f) <= Sum(ys, f)
  {
    if xs != [] {
      SumMonotone(xs[..|xs| - 1], ys[..|ys| - 1], f);
    }
  }

  lemma SumSame(xs: seq<Item>, ys: seq<Item>, f: Item -> int)
    requires |xs| == |ys| && forall i | 0 <= i < |xs| :: f(xs[i]) == f(ys[i])
    ensures Sum(xs, f) == Sum(ys, f)
  {
    SumMonotone(xs, ys, f);
    SumMonotone(ys, xs, f);
  }

  /** Over a flag: the sum is the length exactly when every item has it, zero exactly when none has. */
  lemma {:induction false} SumOfFlag(xs: seq<Item>, f: Item -> int)
    requires forall x :: f(x) == 0 || f(x) == 1
    ensures 0 <= Sum(xs, f) <= |xs|
    ensures Sum(xs, f) == |xs| <==> forall i | 0 <= i < |xs| :: f(xs[i]) == 1
    ensures Sum(xs, f) == 0 <==> forall i | 0 <= i < |xs| :: f(xs[i]) == 0
  {
    if xs != [] {
      var n := |xs| - 1;
      SumOfFlag(xs[..n], f);
      assert forall i | 0 <= i < n :: xs[..n][i] == xs[i];
    }
  }

  lemma {:induction false} SumBelow(xs: seq<Item>, f: Item -> int, g: Item -> int)
    requires forall i | 0 <= i < |xs| :: f(xs[i]) <= g(xs[i])
    ensures Sum(xs, f) <= Sum(xs, g)
  {
    if xs != [] {
      SumBelow(xs[..|xs| - 1], f, g);
    }
  }

  /** How an item may change in one step: its acknowledged bytes never go back,
      and once it has ended only Canceled may still turn into Failed. */
  predicate Evolves(x: Item, y: Item) {
    && y.size == x.size
    && x.acked <= y.acked
    && (Terminal(x.state) ==> Terminal(y.state) && Bad(x.state) == Bad(y.state) && y.acked == x.acked)
  }

  predicate AllEvolve(xs: seq<Item>, ys: seq<Item>) {
    |xs| == |ys| && forall i | 0 <= i < |xs| :: Evolves(xs[i], ys[i])
  }

  lemma EvolvingSums(xs: seq<Item>, ys: seq<Item>)
    requires AllEvolve(xs, ys)
    ensures Sum(xs, Size) == Sum(ys, Size)
    ensures Sum(xs, Acked) <= Sum(ys, Acked)
    ensures Sum(xs, Ended) <= Sum(ys, Ended)
    ensures Sum(xs, Lost) <= Sum(ys, Lost)
  {
    SumSame(xs, ys, Size);
    SumMonotone(xs, ys, Acked);
    SumMonotone(xs, ys, Ended);
    SumMonotone(xs, ys, Lost);
  }

  lemma EndedSums(xs: seq<Item>, ys: seq<Item>)
    requires AllEvolve(xs, ys) && AllTerminal(xs)
    ensures Sum(xs, Acked) == Sum(ys, Acked)
    ensures Sum(xs, Ended) == Sum(ys, Ended)
    ensures Sum(xs, Lost) == Sum(ys, Lost)
    ensures SomeWaiting(xs) == SomeWaiting(ys) == false
  {
    SumSame(xs, ys, Acked);
    SumSame(xs, ys, Ended);
    SumSame(xs, ys, Lost);
  }

  // ------------------------------------------------ what one critical section keeps

  /** A section that changes items as `Evolves` allows and publishes at its end. */
  lemma PublishKeeps(b: Batch, c: Batch)
    requires PublishInv(b) && EndInv(b) && AllEvolve(b.items, c.items)
    requires c.bytesTotal == b.bytesTotal && c.runner == b.runner && c.published == b.published
    ensures PublishInv(Publish(c))
  {
    hide Sum;
    EvolvingSums(b.items, c.items);
    if AllTerminal(b.items) {
      EndedSums(b.items, c.items);
    }
  }

  /** A section that changes nothing the summary looks at. */
  lemma SameSummary(xs: seq<Item>, ys: seq<Item>, bytesTotal: int)
    requires |xs| == |ys|
    requires forall i | 0 <= i < |xs| ::
        xs[i].acked == ys[i].acked && xs[i].size == ys[i].size && xs[i].state == ys[i].state
    ensures Summary(xs, bytesTotal) == Summary(ys, bytesTotal)
    ensures Sum(xs, Size) == Sum(ys, Size)
  {
    hide Sum;
    SumSame(xs, ys, Acked);
    SumSame(xs, ys, Ended);
    SumSame(xs, ys, Lost);
    SumSame(xs, ys, Size);
    assert forall i | 0 <= i < |xs| :: xs[i].state == WaitingOutput <==> ys[i].state == WaitingOutput;
    if SomeWaiting(xs) {
      var i :| 0 <= i < |xs| && xs[i].state == WaitingOutput;
      assert ys[i].state == WaitingOutput;
    }
    if SomeWaiting(ys) {
      var i :| 0 <= i < |ys| && ys[i].state == WaitingOutput;
      assert xs[i].state == WaitingOutput;
    }
  }

  /** One item changed and `done` re-examined or not: the end conditions are kept. */
  lemma EndKeeps(b: Batch, i: nat, y: Item, closing: bool)
    requires EndInv(b) && i < |b.items|
    requires Terminal(b.items[i].state) ==> Terminal(y.state)
    requires !closing && Terminal(y.state) ==> Terminal(b.items[i].state)
    ensures var c := SetItem(b, i, y); EndInv(if closing then CloseDone(c) else c)
  {
    var c := SetItem(b, i, y);
    assert AllTerminal(b.items) ==> AllTerminal(c.items);
    if AllTerminal(c.items) && !closing {
      forall k | 0 <= k < |b.items| ensures Terminal(b.items[k].state) {
        assert Terminal(c.items[k].state);
      }
    }
  }

  lemma UpdateItem(items: seq<Item>, i: nat, y: Item)
    requires i < |items| && ItemsInv(items) && ItemInv(y) && Evolves(items[i], y)
    ensures ItemsInv(items[i := y]) && AllEvolve(items, items[i := y])
  {
  }

  /** What is published and the end conditions do not depend on the handles. */
  lemma Frame(c: Batch, handles: seq<Handle>)
    ensures PublishInv(Publish(c.(handles := handles))) == PublishInv(Publish(c))
    ensures EndInv(Publish(c.(handles := handles))) == EndInv(c)
    ensures EndInv(CloseDone(Publish(c.(handles := handles)))) == EndInv(CloseDone(c))
    ensures PublishInv(CloseDone(Publish(c.(handles := handles)))) == PublishInv(Publish(c))
  {
    hide Sum, Summary;
  }

  /** The shape of every section on one item: change it, change the handles,
      publish, and close `done` if that was the last item. */
  function Section(b: Batch, i: nat, y: Item, handles: seq<Handle>, closing: bool): Batch
    requires i < |b.items|
  {
    var c := Publish(SetItem(b, i, y).(handles := handles));
    if closing then CloseDone(c) else c
  }

  lemma SectionKeeps(b: Batch, i: nat, y: Item, handles: seq<Handle>, closing: bool)
    requires Inv(b) && i < |b.items| && ItemInv(y) && Evolves(b.items[i], y)
    requires !closing && Terminal(y.state) ==> Terminal(b.items[i].state)
    requires HandlesInv(b.items[i := y], handles) && OpenHeld(b.items[i := y], handles)
    ensures Inv(Section(b, i, y, handles, closing)) && AllEvolve(b.items, Section(b, i, y, handles, closing).items)
  {
    hide Sum, Summary, PublishInv, EndInv, HandlesInv, OpenHeld;
    UpdateItem(b.items, i, y);
    PublishKeeps(b, SetItem(b, i, y));
    EndKeeps(b, i, y, closing);
    Frame(SetItem(b, i, y), handles);
  }

  lemma OpenHandles(items: seq<Item>, handles: seq<Handle>, i: nat, y: Item)
    requires HandlesInv(items, handles) && OpenHeld(items, handles) && i < |items|
    requires !items[i].open && !Terminal(items[i].state) && y.open && y.size == items[i].size
    ensures HandlesInv(items[i := y], handles + [Handle(i, false, None)])
    ensures OpenHeld(items[i := y], handles + [Handle(i, false, None)])
  {
    var more := handles + [Handle(i, false, None)];
    forall k | 0 <= k < |items| && items[i := y][k].open ensures Held(more, k) {
      if k == i {
        assert more[|handles|].item == i;
      } else {
        var h :| 0 <= h < |handles| && handles[h].item == k && !handles[h].closed;
        assert more[h] == handles[h];
      }
    }
  }

  lemma CloseHandle(items: seq<Item>, handles: seq<Handle>, h: nat, y: Item)
    requires HandlesInv(items, handles) && OpenHeld(items, handles)
    requires h < |handles| && !handles[h].closed && handles[h].reading.None?
    requires !y.open && y.size == items[handles[h].item].size
    ensures HandlesInv(items[handles[h].item := y], handles[h := handles[h].(closed := true)])
    ensures OpenHeld(items[handles[h].item := y], handles[h := handles[h].(closed := true)])
  {
    var i := handles[h].item;
    var fewer := handles[h := handles[h].(closed := true)];
    forall k | 0 <= k < |items| && items[i := y][k].open ensures Held(fewer, k) {
      var g :| 0 <= g < |handles| && handles[g].item == k && !handles[g].closed;
      assert fewer[g] == handles[g];
    }
  }

  lemma KeepHandles(items: seq<Item>, handles: seq<Handle>, i: nat, y: Item)
    requires HandlesInv(items, handles) && OpenHeld(items, handles) && i < |items|
    requires y.size == items[i].size && y.readOffset <= items[i].readOffset
    requires (y.open ==> items[i].open) && (items[i].open || Bad(items[i].state) ==> y.open || Bad(y.state))
    ensures HandlesInv(items[i := y], handles) && OpenHeld(items[i := y], handles)
  {
  }

  lemma OpenKeeps(b: Batch, i: nat)
    requires Inv(b)
    ensures Inv(Open(b, i).0) && AllEvolve(b.items, Open(b, i).0.items)
  {
    hide Sum, Summary, PublishInv, EndInv, HandlesInv, OpenHeld;
    if Open(b, i).1.Ok? {
      var x := b.items[i];
      var y := x.(open := true, state := Running, readOffset := x.acked);
      OpenHandles(b.items, b.handles, i, y);
      SectionKeeps(b, i, y, b.handles + [Handle(i, false, None)], false);
    }
  }

  lemma AckKeeps(b: Batch, h: nat, bytes: int)
    requires Inv(b) && Free(b, h)
    ensures Inv(Ack(b, h, bytes).0) && AllEvolve(b.items, Ack(b, h, bytes).0.items)
  {
    hide Sum, Summary, PublishInv, EndInv, OpenHeld;
    if Ack(b, h, bytes).1.Ok? {
      var i := b.handles[h].item;
      var y := b.items[i].(acked := b.items[i].acked + bytes, state := Running);
      assert HandleInv(b.items, b.handles[h]);
      KeepHandles(b.items, b.handles, i, y);
      SectionKeeps(b, i, y, b.handles, false);
    }
  }

  lemma CommitKeeps(b: Batch, h: nat)
    requires Inv(b) && Free(b, h)
    ensures Inv(Commit(b, h).0) && AllEvolve(b.items, Commit(b, h).0.items)
  {
    hide Sum, Summary, PublishInv, EndInv, OpenHeld;
    if Commit(b, h).1.Ok? {
      var i := b.handles[h].item;
      var y := b.items[i].(open := false, state := Succeeded);
      assert HandleInv(b.items, b.handles[h]);
      CloseHandle(b.items, b.handles, h, y);
      SectionKeeps(b, i, y, b.handles[h := b.handles[h].(closed := true)], true);
    }
  }

  lemma FailKeeps(b: Batch, h: nat)
    requires Inv(b) && Free(b, h)
    ensures Inv(Fail(b, h).0) && AllEvolve(b.items, Fail(b, h).0.items)
  {
    hide Sum, Summary, PublishInv, EndInv, OpenHeld;
    if Fail(b, h).1.Ok? {
      var i := b.handles[h].item;
      var y := b.items[i].(open := false, state := WaitingOutput, readOffset := b.items[i].acked);
      assert HandleInv(b.items, b.handles[h]);
      CloseHandle(b.items, b.handles, h, y);
      SectionKeeps(b, i, y, b.handles[h := b.handles[h].(closed := true)], false);
    }
  }

  lemma CloseKeeps(b: Batch, h: nat)
    requires Inv(b) && Free(b, h)
    ensures Inv(Close(b, h)) && AllEvolve(b.items, Close(b, h).items)
  {
    hide Sum, Summary, PublishInv, EndInv, OpenHeld;
    if !b.handles[h].closed {
      assert HandleInv(b.items, b.handles[h]);
      var i := b.handles[h].item;
      var x := b.items[i];
      var y := if x.state == Running then x.(open := false, state := WaitingOutput, readOffset := x.acked)
          else x.(open := false);
      CloseHandle(b.items, b.handles, h, y);
      SectionKeeps(b, i, y, b.handles[h := b.handles[h].(closed := true)], false);
    }
  }

  lemma CancelItemKeeps(b: Batch, i: nat)
    requires Inv(b)
    ensures Inv(CancelItem(b, i).0) && AllEvolve(b.items, CancelItem(b, i).0.items)
  {
    hide Sum, Summary, PublishInv, EndInv, HandlesInv, OpenHeld;
    if !b.canceled && i < |b.items| && b.items[i].state != Succeeded && b.items[i].state != Canceled {
      var y := b.items[i].(open := false, readOffset := b.items[i].acked, state := Canceled);
      KeepHandles(b.items, b.handles, i, y);
      SectionKeeps(b, i, y, b.handles, true);
      assert b.items[i := y] == SetItem(b, i, y).items;
    }
  }

  lemma ReadBeginKeeps(b: Batch, h: nat, length: nat)
    requires Inv(b) && Free(b, h)
    ensures Inv(ReadBegin(b, h, length).0) && ReadBegin(b, h, length).0.items == b.items
  {
    hide Sum, Summary;
    var c := ReadBegin(b, h, length).0;
    assert HandleInv(b.items, b.handles[h]);
    forall k | 0 <= k < |b.items| && b.items[k].open ensures Held(c.handles, k) {
      var g :| 0 <= g < |b.handles| && b.handles[g].item == k && !b.handles[g].closed;
      assert c.handles[g].item == k && !c.handles[g].closed;
    }
  }

  lemma ReadEndKeeps(b: Batch, h: nat, n: int)
    requires Inv(b) && h < |b.handles| && b.handles[h].reading.Some? && 0 <= n <= b.handles[h].reading.value
    ensures Inv(ReadEnd(b, h, n)) && AllEvolve(b.items, ReadEnd(b, h, n).items)
  {
    hide Sum, Summary;
    var c := ReadEnd(b, h, n);
    assert HandleInv(b.items, b.handles[h]);
    SameSummary(b.items, c.items, b.bytesTotal);
    ReadEndHandles(b, h, n);
    assert AllTerminal(b.items) <==> AllTerminal(c.items) by {
      assert forall k | 0 <= k < |b.items| :: c.items[k].state == b.items[k].state;
    }
  }

  lemma ReadEndHandles(b: Batch, h: nat, n: int)
    requires HandlesInv(b.items, b.handles) && OpenHeld(b.items, b.handles)
    requires h < |b.handles| && b.handles[h].reading.Some? && 0 <= n <= b.handles[h].reading.value
    ensures HandlesInv(ReadEnd(b, h, n).items, ReadEnd(b, h, n).handles)
    ensures OpenHeld(ReadEnd(b, h, n).items, ReadEnd(b, h, n).handles)
  {
    var c := ReadEnd(b, h, n);
    forall k | 0 <= k < |b.items| && b.items[k].open ensures Held(c.handles, k) {
      var g :| 0 <= g < |b.handles| && b.handles[g].item == k && !b.handles[g].closed;
      assert c.handles[g].item == k && !c.handles[g].closed;
    }
  }

  lemma InterruptKeeps(b: Batch)
    requires Inv(b) && b.runner.Waiting?
    ensures var c := MarkCanceled(b).(runner := Interrupted); Inv(c) && AllEvolve(b.items, c.items)
  {
    hide Sum;
    var c := MarkCanceled(b).(runner := Interrupted);
    EvolvingSums(b.items, c.items);
    assert AllTerminal(c.items);
  }

  /** Once `done` is closed nothing is left for finishTask to abandon. */
  lemma NothingToAbandon(items: seq<Item>)
    requires AllTerminal(items)
    ensures AbandonAll(items) == items
  {
  }

  lemma FinishKeeps(b: Batch)
    requires Inv(b) && b.runner.Waiting? && b.done
    ensures Inv(FinishCollect(b)) && FinishCollect(b).items == b.items
  {
    hide Sum;
    NothingToAbandon(b.items);
  }

  lemma FinishPublishKeeps(b: Batch)
    requires Inv(b) && b.runner.Finishing?
    ensures Inv(FinishPublish(b)) && FinishPublish(b).items == b.items
  {
    hide Sum;
    SumOfFlag(b.items, Ended);
    SumOfFlag(b.items, Lost);
  }

  lemma SnapshotKeeps(b: Batch)
    requires Inv(b)
    ensures Inv(Step(b, RunnerSnapshot)) && Step(b, RunnerSnapshot).items == b.items
    ensures Inv(Step(b, RunnerStart)) && Step(b, RunnerStart).items == b.items
  {
    hide Sum;
  }

  lemma StepKeeps(b: Batch, op: Op)
    requires Inv(b)
    ensures Inv(Step(b, op)) && AllEvolve(b.items, Step(b, op).items)
  {
    hide Inv;
    match op
    case DoOpen(i) => OpenKeeps(b, i);
    case DoReadBegin(h, length) => if Free(b, h) { ReadBeginKeeps(b, h, length); }
    case DoReadEnd(h, n) =>
      if h < |b.handles| && b.handles[h].reading.Some? &&
          0 <= n <= b.handles[h].reading.value { ReadEndKeeps(b, h, n); }
    case DoAck(h, bytes) => if Free(b, h) { AckKeeps(b, h, bytes); }
    case DoCommit(h) => if Free(b, h) { CommitKeeps(b, h); }
    case DoFail(h) => if Free(b, h) { FailKeeps(b, h); }
    case DoClose(h) => if Free(b, h) { CloseKeeps(b, h); }
    case DoCancelItem(i) => CancelItemKeeps(b, i);
    case RunnerStart => SnapshotKeeps(b);
    case RunnerSnapshot => SnapshotKeeps(b);
    case RunnerInterrupt => if b.runner.Waiting? { InterruptKeeps(b); }
    case RunnerFinish => if b.runner.Waiting? && b.done { FinishKeeps(b); }
    case RunnerPublish => if b.runner.Finishing? { FinishPublishKeeps(b); }
  }

  // ------------------------------------------------------------------ whole runs

  lemma InitInv(sizes: seq<nat>)
    requires |sizes| > 0
    ensures Inv(Init(sizes))
  {
    hide Sum;
    var items := Fresh(sizes);
    assert !Terminal(items[0].state);
    SumOfFlag(items, Ended);
  }

  lemma {:induction false} ExecKeeps(b: Batch, ops: seq<Op>)
    requires Inv(b)
    ensures Inv(Exec(b, ops)) && AllEvolve(b.items, Exec(b, ops).items)
  {
    hide Inv, Step;
    if ops != [] {
      var before := Exec(b, ops[..|ops| - 1]);
      ExecKeeps(b, ops[..|ops| - 1]);
      StepKeeps(before, ops[|ops| - 1]);
      EvolveTransitive(b.items, before.items, Exec(b, ops).items);
    }
  }

  lemma EvolveTransitive(xs: seq<Item>, ys: seq<Item>, zs: seq<Item>)
    requires AllEvolve(xs, ys) && AllEvolve(ys, zs)
    ensures AllEvolve(xs, zs)
  {
  }

  lemma {:induction false} ExecAppend(b: Batch, ops: seq<Op>, more: seq<Op>)
    ensures Exec(b, ops + more) == Exec(Exec(b, ops), more)
  {
    hide Step;
    if more == [] {
      assert ops + more == ops;
    } else {
      var all, n := ops + more, |more| - 1;
      assert all[..|all| - 1] == ops + more[..n];
      ExecAppend(b, ops, more[..n]);
    }
  }

  /** Offsets, states and handles of every item, in every interleaving. */
  lemma ItemsStaySound(sizes: seq<nat>, ops: seq<Op>)
    requires |sizes| > 0
    ensures var b := Exec(Init(sizes), ops);
            && |b.items| == |sizes|
            && (forall i | 0 <= i < |sizes| ::
                b.items[i].size == sizes[i] && 0 <= b.items[i].acked <= b.items[i].readOffset <= sizes[i])
            && (forall i | 0 <= i < |sizes| && b.items[i].state == Succeeded :: b.items[i].acked == sizes[i])
            && (forall i | 0 <= i < |sizes| :: b.items[i].state == Running <==> b.items[i].open)
            // an item at rest resumes at what was acknowledged
            && (forall i | 0 <= i < |sizes| && !b.items[i].open &&
                !Terminal(b.items[i].state) :: b.items[i].readOffset == b.items[i].acked)
            // an open item has exactly one unclosed handle, a resting or succeeded one none, a failed or canceled
            // one at most one
            && (forall i | 0 <= i < |sizes| && b.items[i].open :: Held(b.handles, i))
            && (forall i | 0 <= i < |sizes| && Held(b.handles, i) :: b.items[i].open || Bad(b.items[i].state))
            && (forall h, k | 0 <= h < k < |b.handles| &&
                b.handles[h].item == b.handles[k].item :: b.handles[h].closed || b.handles[k].closed)
  {
    hide Exec, Sum, Summary, PublishInv, EndInv;
    InitInv(sizes);
    ExecKeeps(Init(sizes), ops);
    var b := Exec(Init(sizes), ops);
    forall i | 0 <= i < |sizes| ensures b.items[i].size == sizes[i] && ItemInv(b.items[i]) {
      assert Evolves(Init(sizes).items[i], b.items[i]);
    }
    forall i | 0 <= i < |sizes| && Held(b.handles, i) ensures b.items[i].open || Bad(b.items[i].state) {
      var h :| 0 <= h < |b.handles| && b.handles[h].item == i && !b.handles[h].closed;
      assert HandleInv(b.items, b.handles[h]);
    }
  }

  /** The numbers published: conserved, bounded, and the phase says what it should. */
  lemma PublishedNumbers(sizes: seq<nat>, ops: seq<Op>)
    requires |sizes| > 0
    ensures var b := Exec(Init(sizes), ops);
            var s := Summary(b.items, b.bytesTotal);
            && (b.runner.Waiting? || b.runner.Finishing? || b.runner.Returned? ==> b.published == Some(s))
            && s.bytesDone == Sum(b.items, Acked) <= Sum(b.items, Size) == s.bytesTotal == Sum(Fresh(sizes), Size)
            && 0 <= s.itemsFailed <= s.itemsDone <= |b.items| == |sizes|
            && (s.phase == Complete <==> forall i | 0 <= i < |b.items| :: b.items[i].state == Succeeded)
            && (s.phase == AllFailed <==> forall i | 0 <= i < |b.items| :: Bad(b.items[i].state))
            && (s.phase == Complete ==> s.bytesDone == s.bytesTotal)
  {
    hide Exec, Sum, HandlesInv, OpenHeld, EndInv;
    InitInv(sizes);
    ExecKeeps(Init(sizes), ops);
    var b := Exec(Init(sizes), ops);
    EvolvingSums(Init(sizes).items, b.items);
    SummaryBounds(b.items, b.bytesTotal);
  }

  lemma SummaryBounds(items: seq<Item>, bytesTotal: int)
    requires |items| > 0 && ItemsInv(items) && bytesTotal == Sum(items, Size)
    ensures var s := Summary(items, bytesTotal);
            && s.bytesDone <= bytesTotal
            && 0 <= s.itemsFailed <= s.itemsDone <= |items|
            && (s.phase == Complete <==> forall i | 0 <= i < |items| :: items[i].state == Succeeded)
            && (s.phase == AllFailed <==> forall i | 0 <= i < |items| :: Bad(items[i].state))
            && (s.phase == Complete ==> s.bytesDone == bytesTotal)
  {
    hide Sum;
    SumBelow(items, Acked, Size);
    SumBelow(items, Lost, Ended);
    SumOfFlag(items, Ended);
    SumOfFlag(items, Lost);
    if Summary(items, bytesTotal).phase == Complete {
      forall i | 0 <= i < |items| ensures items[i].state == Succeeded {
        assert Ended(items[i]) == 1 && Lost(items[i]) == 0;
      }
      SumBelow(items, Size, Acked);
    }
    if forall i | 0 <= i < |items| :: items[i].state == Succeeded {
      assert forall i | 0 <= i < |items| :: Ended(items[i]) == 1 && Lost(items[i]) == 0;
    }
    if forall i | 0 <= i < |items| :: Bad(items[i].state) {
      assert forall i | 0 <= i < |items| :: Ended(items[i]) == 1 && Lost(items[i]) == 1;
    }
    if Summary(items, bytesTotal).phase == AllFailed {
      assert forall i | 0 <= i < |items| :: Lost(items[i]) == 1;
    }
  }

  /** Whatever happens later, no published or current counter goes back. */
  lemma ProgressNeverDecreases(sizes: seq<nat>, ops: seq<Op>, more: seq<Op>)
    requires |sizes| > 0
    ensures var b, c := Exec(Init(sizes), ops), Exec(Init(sizes), ops + more);
            && Below(Summary(b.items, b.bytesTotal), Summary(c.items, c.bytesTotal))
            && (b.published.Some? ==> c.published.Some? && Below(b.published.value, c.published.value))
  {
    hide Inv, Exec;
    InitInv(sizes);
    ExecKeeps(Init(sizes), ops);
    ExecAppend(Init(sizes), ops, more);
    RunPublishes(Exec(Init(sizes), ops), more);
  }

  lemma {:induction false} RunPublishes(b: Batch, ops: seq<Op>)
    requires Inv(b)
    ensures var c := Exec(b, ops);
            && Inv(c)
            && Below(Summary(b.items, b.bytesTotal), Summary(c.items, c.bytesTotal))
            && (b.published.Some? ==> c.published.Some? && Below(b.published.value, c.published.value))
  {
    hide Inv, Step, Summary;
    if ops == [] {
      assert Exec(b, ops) == b;
    } else {
      RunPublishes(b, ops[..|ops| - 1]);
      StepPublishes(Exec(b, ops[..|ops| - 1]), ops[|ops| - 1]);
    }
  }

  lemma StepPublishes(b: Batch, op: Op)
    requires Inv(b)
    ensures var c := Step(b, op);
            && Inv(c)
            && Below(Summary(b.items, b.bytesTotal), Summary(c.items, c.bytesTotal))
            && (b.published.Some? ==> c.published.Some? && Below(b.published.value, c.published.value))
  {
    hide Sum, HandlesInv, OpenHeld, ItemsInv;
    StepKeeps(b, op);
    EvolvingSums(b.items, Step(b, op).items);
    StepPublished(b, op);
  }

  /** A step either leaves the published snapshot alone, or it publishes the current summary, or it is
      the last update of finishTask. */
  lemma StepPublished(b: Batch, op: Op)
    ensures var c := Step(b, op);
            && c.bytesTotal == b.bytesTotal
            && (c.published == b.published || c.published == Some(Summary(c.items, c.bytesTotal)) ||
                (op.RunnerPublish? && b.runner.Finishing?))
  {
    hide Sum, Summary, AllTerminal, Interrupt, Abandon, AbandonAll, Close, CancelItem, MarkCanceled;
    match op
    case DoClose(_) => CloserPublished(b, op);
    case DoCancelItem(_) => CloserPublished(b, op);
    case RunnerInterrupt => CloserPublished(b, op);
    case _ =>
  }

  lemma CloserPublished(b: Batch, op: Op)
    requires op.DoClose? || op.DoCancelItem? || op.RunnerInterrupt?
    ensures var c := Step(b, op);
            c.bytesTotal == b.bytesTotal &&
                (c.published == b.published || c.published == Some(Summary(c.items, c.bytesTotal)))
  {
    hide Sum, Summary, AllTerminal, Interrupt;
  }

  /** `done` closed means every item has ended, now and for ever, with the same
      numbers; and a batch whose items have all ended is closed or was canceled. */
  lemma BatchEnd(sizes: seq<nat>, ops: seq<Op>, more: seq<Op>)
    requires |sizes| > 0
    ensures var b, c := Exec(Init(sizes), ops), Exec(Init(sizes), ops + more);
            && (AllTerminal(b.items) <==> b.done || b.canceled)
            && (b.done ==>
                 && AllTerminal(c.items)
                 && AbandonAll(c.items) == c.items
                 && Summary(c.items, c.bytesTotal) == Summary(b.items, b.bytesTotal)
                 && |c.items| == |b.items|
                 && forall i | 0 <= i < |b.items| :: c.items[i].acked == b.items[i].acked &&
                     Bad(c.items[i].state) == Bad(b.items[i].state))
  {
    hide Exec, Sum, HandlesInv, OpenHeld;
    InitInv(sizes);
    ExecKeeps(Init(sizes), ops);
    ExecAppend(Init(sizes), ops, more);
    var b, c := Exec(Init(sizes), ops), Exec(Init(sizes), ops + more);
    ExecKeeps(b, more);
    if b.done {
      EndedSums(b.items, c.items);
      EvolvingSums(b.items, c.items);
      assert forall i | 0 <= i < |b.items| :: Evolves(b.items[i], c.items[i]);
      NothingToAbandon(c.items);
    }
  }

  /** How a finished task ends: complete, partial or failed exactly as none, some
      or all of its items failed or were canceled. */
  lemma OutcomeIsExact(sizes: seq<nat>, ops: seq<Op>)
    requires |sizes| > 0
    ensures var b := Exec(Init(sizes), ops);
            b.runner.Returned? && b.runner.outcome != Interruption ==>
              && (b.runner.outcome == Completion <==> forall i | 0 <= i < |b.items| :: b.items[i].state == Succeeded)
              && (b.runner.outcome == Failure <==> forall i | 0 <= i < |b.items| :: Bad(b.items[i].state))
              && (b.runner.outcome == PartialFailure <==>
                   (exists i | 0 <= i < |b.items| :: Bad(b.items[i].state)) &&
                       exists i | 0 <= i < |b.items| :: b.items[i].state == Succeeded)
  {
    hide Exec, Sum, HandlesInv, OpenHeld;
    InitInv(sizes);
    ExecKeeps(Init(sizes), ops);
    var b := Exec(Init(sizes), ops);
    if b.runner.Returned? && b.runner.outcome != Interruption {
      SumOfFlag(b.items, Ended);
      SummaryBounds(b.items, b.bytesTotal);
      SumOfFlag(b.items, Lost);
      assert forall i | 0 <= i < |b.items| :: Ended(b.items[i]) == 1;
    }
  }

  // ------------------------------------------------------ the batch as an object

  lemma ExecNext(b: Batch, ops: seq<Op>, op: Op)
    ensures Exec(b, ops + [op]) == Step(Exec(b, ops), op)
  {
    hide Step;
    assert (ops + [op])[..|ops|] == ops;
  }

  /** The batch of download_stream_task.go and the handles it has given out, updated in place; every method is one
      critical section of the source.  Whatever its callers and its runner do, it is what `Exec` makes of the
      operations so far, so everything that is proved of `Exec` holds of it. */
  class DownloadStreamBatch {
    ghost const sizes: seq<nat>
    ghost var ops: seq<Op>
    var items: seq<Item>
    var handles: seq<Handle>
    const bytesTotal: int
    var canceled: bool
    var done: bool
    var runner: Runner
    var published: Option<Progress>

    ghost function Value(): Batch
      reads this
    {
      Batch(items, handles, bytesTotal, canceled, done, runner, published)
    }

    ghost predicate Valid()
      reads this
    {
      Value() == Exec(Init(sizes), ops)
    }

    /** The invariant of the batch holds at every moment. */
    lemma Sound()
      requires Valid() && |sizes| > 0
      ensures Inv(Value())
    {
      InitInv(sizes);
      ExecKeeps(Init(sizes), ops);
    }

    /** The operation `op` is over, and it did to the batch what `Step` says. */
    ghost method Did(was: Batch, op: Op)
      requires was == Exec(Init(sizes), ops) && Value() == Step(was, op)
      modifies `ops
      ensures Valid() && ops == old(ops) + [op]
    {
      hide Exec, Step;
      ExecNext(Init(sizes), ops, op);
      ops := ops + [op];
    }

    constructor (sizes: seq<nat>)
      ensures Valid() && this.sizes == sizes && ops == [] && Value() == Init(sizes)
    {
      this.sizes, ops := sizes, [];
      var queued: seq<Item> := [];
      var total := 0;
      for i := 0 to |sizes|
        invariant queued == Fresh(sizes[..i])
        invariant total == Sum(queued, Size)
      {
        var item := Item(sizes[i], 0, 0, false, Queued);
        assert (queued + [item])[..i] == queued;
        queued := queued + [item];
        total := total + sizes[i];
      }
      assert sizes[..|sizes|] == sizes;
      items, handles, bytesTotal := queued, [], total;
      canceled, done, runner, published := false, false, NotStarted, None;
    }

    /** summaryLocked. */
    method Summarize() returns (p: Progress)
      ensures p == Summary(items, bytesTotal)
    {
      var itemsDone, itemsFailed, bytesDone, waiting := 0, 0, 0, false;
      for i := 0 to |items|
        invariant itemsDone == Sum(items[..i], Ended)
        invariant itemsFailed == Sum(items[..i], Lost)
        invariant bytesDone == Sum(items[..i], Acked)
        invariant waiting == exists k | 0 <= k < i :: items[k].state == WaitingOutput
      {
        assert items[..i + 1][..i] == items[..i];
        bytesDone := bytesDone + items[i].acked;
        match items[i].state
        case Succeeded => itemsDone := itemsDone + 1;
        case Failed => itemsDone, itemsFailed := itemsDone + 1, itemsFailed + 1;
        case Canceled => itemsDone, itemsFailed := itemsDone + 1, itemsFailed + 1;
        case WaitingOutput => waiting := true;
        case Running =>
        case Queued =>
      }
      assert items[..|items|] == items;
      var phase := Download;
      if waiting {
        phase := Ready;
      }
      if itemsDone == |items| && itemsFailed == 0 {
        phase := Complete;
      }
      if itemsDone == |items| && itemsFailed > 0 {
        phase := if itemsFailed == |items| then AllFailed else PartialFailed;
      }
      p := Progress(itemsDone, itemsFailed, bytesDone, bytesTotal, phase);
    }

    method UpdateSnapshot()
      modifies `published
      ensures Value() == Publish(old(Value()))
    {
      if runner.NotStarted? {
        return;
      }
      var p := Summarize();
      published := Some(p);
    }

    method CloseDoneIfTerminal()
      modifies `done
      ensures Value() == CloseDone(old(Value()))
    {
      for i := 0 to |items|
        invariant Value() == old(Value())
        invariant forall k | 0 <= k < i :: Terminal(items[k].state)
      {
        if !Terminal(items[i].state) {
          return;
        }
      }
      done := true;
    }

    method OpenItem(i: nat) returns (h: nat, r: Result)
      requires Valid()
      modifies this
      ensures Valid() && ops == old(ops) + [DoOpen(i)]
      ensures Value() == Open(old(Value()), i).0 && r == Open(old(Value()), i).1
      ensures r.Ok? ==> h == |old(handles)|
    {
      hide Exec;
      h := 0;
      if runner.NotStarted? {
        Did(old(Value()), DoOpen(i));
        return h, Err(NotReady);
      }
      if canceled {
        Did(old(Value()), DoOpen(i));
        return h, Err(TaskCanceled);
      }
      if i >= |items| {
        Did(old(Value()), DoOpen(i));
        return h, Err(NotFound);
      }
      if items[i].open {
        Did(old(Value()), DoOpen(i));
        return h, Err(AlreadyOpen);
      }
      if Terminal(items[i].state) {
        Did(old(Value()), DoOpen(i));
        return h, Err(ItemEnded);
      }
      items := items[i := items[i].(open := true, state := Running, readOffset := items[i].acked)];
      UpdateSnapshot();
      h := |handles|;
      handles := handles + [Handle(i, false, None)];
      r := Ok;
      Did(old(Value()), DoOpen(i));
    }

    method BeginRead(h: nat, length: nat) returns (r: Result)
      requires Valid()
      requires Free(Value(), h)
      modifies this
      ensures Valid() && ops == old(ops) + [DoReadBegin(h, length)]
      ensures Value() == ReadBegin(old(Value()), h, length).0 && r == ReadBegin(old(Value()), h, length).1
    {
      hide Exec;
      if length == 0 {
        Did(old(Value()), DoReadBegin(h, length));
        return Ok;
      }
      var e := ItemError(Batch(items, handles, bytesTotal, canceled, done, runner, published), h);
      if e.Some? {
        Did(old(Value()), DoReadBegin(h, length));
        return Err(e.value);
      }
      var item := items[handles[h].item];
      if item.readOffset >= item.size {
        Did(old(Value()), DoReadBegin(h, length));
        return Ok;
      }
      var most := length;
      if most > item.size - item.readOffset {
        most := item.size - item.readOffset;
      }
      handles := handles[h := handles[h].(reading := Some(most))];
      r := Ok;
      Did(old(Value()), DoReadBegin(h, length));
    }

    method EndRead(h: nat, n: int)
      requires Valid()
      requires h < |handles| && handles[h].reading.Some? && 0 <= n <= handles[h].reading.value
      modifies this
      ensures Valid() && ops == old(ops) + [DoReadEnd(h, n)]
      ensures Value() == ReadEnd(old(Value()), h, n)
    {
      hide Exec;
      var i := handles[h].item;
      if i < |items| && !handles[h].closed && n > 0 {
        items := items[i := items[i].(readOffset := items[i].readOffset + n)];
      }
      handles := handles[h := handles[h].(reading := None)];
      Did(old(Value()), DoReadEnd(h, n));
    }

    method AckBytes(h: nat, bytes: int) returns (r: Result)
      requires Valid()
      requires Free(Value(), h)
      modifies this
      ensures Valid() && ops == old(ops) + [DoAck(h, bytes)]
      ensures Value() == Ack(old(Value()), h, bytes).0 && r == Ack(old(Value()), h, bytes).1
    {
      hide Exec;
      if bytes < 0 {
        Did(old(Value()), DoAck(h, bytes));
        return Err(NegativeAck);
      }
      var e := ItemError(Batch(items, handles, bytesTotal, canceled, done, runner, published), h);
      if e.Some? {
        Did(old(Value()), DoAck(h, bytes));
        return Err(e.value);
      }
      var i := handles[h].item;
      if items[i].acked + bytes > items[i].readOffset {
        Did(old(Value()), DoAck(h, bytes));
        return Err(AckExceedsRead);
      }
      items := items[i := items[i].(acked := items[i].acked + bytes, state := Running)];
      UpdateSnapshot();
      r := Ok;
      Did(old(Value()), DoAck(h, bytes));
    }

    method CommitItem(h: nat) returns (r: Result)
      requires Valid()
      requires Free(Value(), h)
      modifies this
      ensures Valid() && ops == old(ops) + [DoCommit(h)]
      ensures Value() == Commit(old(Value()), h).0 && r == Commit(old(Value()), h).1
    {
      hide Exec;
      var e := ItemError(Batch(items, handles, bytesTotal, canceled, done, runner, published), h);
      if e.Some? {
        Did(old(Value()), DoCommit(h));
        return Err(e.value);
      }
      var i := handles[h].item;
      if items[i].acked != items[i].size {
        Did(old(Value()), DoCommit(h));
        return Err(NotAllAcked);
      }
      items := items[i := items[i].(open := false, state := Succeeded)];
      handles := handles[h := handles[h].(closed := true)];
      UpdateSnapshot();
      CloseDoneIfTerminal();
      r := Ok;
      Did(old(Value()), DoCommit(h));
    }

    method FailItem(h: nat) returns (r: Result)
      requires Valid()
      requires Free(Value(), h)
      modifies this
      ensures Valid() && ops == old(ops) + [DoFail(h)]
      ensures Value() == Fail(old(Value()), h).0 && r == Fail(old(Value()), h).1
    {
      hide Exec;
      var e := ItemError(Batch(items, handles, bytesTotal, canceled, done, runner, published), h);
      if e.Some? {
        Did(old(Value()), DoFail(h));
        return Err(e.value);
      }
      var i := handles[h].item;
      items := items[i := items[i].(open := false, state := WaitingOutput, readOffset := items[i].acked)];
      handles := handles[h := handles[h].(closed := true)];
      UpdateSnapshot();
      r := Ok;
      Did(old(Value()), DoFail(h));
    }

    method CloseHandle(h: nat)
      requires Valid()
      requires Free(Value(), h)
      modifies this
      ensures Valid() && ops == old(ops) + [DoClose(h)]
      ensures Value() == Close(old(Value()), h)
    {
      hide Exec, Sum, Summary, Publish;
      if handles[h].closed {
        Did(old(Value()), DoClose(h));
        return;
      }
      var i := handles[h].item;
      if i < |items| {
        items := items[i := items[i].(open := false)];
        if items[i].state == Running {
          items := items[i := items[i].(state := WaitingOutput, readOffset := items[i].acked)];
          assert items == old(items)[i := old(items)[i].(open := false, state := WaitingOutput,
              readOffset := items[i].acked)];
        }
      }
      handles := handles[h := handles[h].(closed := true)];
      UpdateSnapshot();
      Did(old(Value()), DoClose(h));
    }

    method CancelOne(i: nat) returns (r: Result)
      requires Valid()
      modifies this
      ensures Valid() && ops == old(ops) + [DoCancelItem(i)]
      ensures Value() == CancelItem(old(Value()), i).0 && r == CancelItem(old(Value()), i).1
    {
      hide Exec;
      if canceled {
        Did(old(Value()), DoCancelItem(i));
        return Err(TaskCanceled);
      }
      if i >= |items| {
        Did(old(Value()), DoCancelItem(i));
        return Err(NotFound);
      }
      if items[i].state == Succeeded || items[i].state == Canceled {
        Did(old(Value()), DoCancelItem(i));
        return Ok;
      }
      items := items[i := items[i].(open := false, readOffset := items[i].acked, state := Canceled)];
      UpdateSnapshot();
      CloseDoneIfTerminal();
      r := Ok;
      Did(old(Value()), DoCancelItem(i));
    }

    /** The runner is started with the update function. */
    method Start()
      requires Valid() && runner.NotStarted?
      modifies `runner, `ops
      ensures Valid() && ops == old(ops) + [RunnerStart]
    {
      hide Exec;
      runner := Starting;
      Did(old(Value()), RunnerStart);
    }

    /** The runner publishes a snapshot, before it waits or after it was interrupted. */
    method RunnerUpdates()
      requires Valid() && (runner.Starting? || runner.Waiting? || runner.Interrupted?)
      modifies `published, `runner, `ops
      ensures Valid() && ops == old(ops) + [RunnerSnapshot]
    {
      hide Exec;
      UpdateSnapshot();
      runner := if runner.Interrupted? then Returned(Interruption) else Waiting;
      Did(old(Value()), RunnerSnapshot);
    }

    /** The context of the runner ends while it waits. */
    method Interrupts()
      requires Valid() && runner.Waiting?
      modifies `canceled, `items, `runner, `ops
      ensures Valid() && ops == old(ops) + [RunnerInterrupt]
    {
      hide Exec;
      MarkAllCanceled();
      runner := Interrupted;
      Did(old(Value()), RunnerInterrupt);
    }

    method MarkAllCanceled()
      modifies `canceled, `items
      ensures Value() == MarkCanceled(old(Value()))
    {
      canceled := true;
      ghost var was := items;
      for i := 0 to |items|
        invariant |items| == |was|
        invariant forall k | 0 <= k < i :: items[k] == Interrupt(was[k])
        invariant forall k | i <= k < |was| :: items[k] == was[k]
        invariant Value() == old(Value()).(canceled := true, items := items)
      {
        if items[i].state == Succeeded || items[i].state == Failed {
          continue;
        }
        items := items[i := items[i].(open := false, state := Failed)];
      }
    }

    /** finishTask up to the point where it leaves the lock. */
    method Finish()
      requires Valid() && runner.Waiting? && done
      modifies `items, `runner, `ops
      ensures Valid() && ops == old(ops) + [RunnerFinish]
      ensures Value() == FinishCollect(old(Value()))
    {
      hide Exec;
      ghost var was := items;
      for i := 0 to |items|
        invariant |items| == |was|
        invariant forall k | 0 <= k < i :: items[k] == Abandon(was[k])
        invariant forall k | i <= k < |was| :: items[k] == was[k]
        invariant Value() == old(Value()).(items := items) && ops == old(ops)
      {
        if Terminal(items[i].state) {
          continue;
        }
        items := items[i := items[i].(open := false, state := Failed)];
      }
      assert items == AbandonAll(was);
      var p := Summarize();
      runner := Finishing(p.itemsDone, p.itemsFailed);
      Did(old(Value()), RunnerFinish);
    }

    /** The rest of finishTask: the last update and the result of the run. */
    method PublishFinish() returns (o: Outcome)
      requires Valid() && runner.Finishing?
      modifies `published, `runner, `ops
      ensures Valid() && ops == old(ops) + [RunnerPublish]
      ensures Value() == FinishPublish(old(Value())) && runner == Returned(o)
    {
      hide Exec;
      var itemsDone, itemsFailed := runner.itemsDone, runner.itemsFailed;
      var p := Progress(0, 0, 0, bytesTotal, Download);
      if published.Some? {
        p := published.value;
      }
      if itemsDone == |items| && itemsFailed == 0 {
        o := Completion;
        p := p.(phase := Complete);
      } else if itemsFailed < |items| {
        o := PartialFailure;
        p := p.(phase := PartialFailed);
      } else {
        o := Failure;
        p := p.(phase := AllFailed);
      }
      published := Some(p.(itemsDone := itemsDone, itemsFailed := itemsFailed));
      runner := Returned(o);
      Did(old(Value()), RunnerPublish);
    }
  }
}
