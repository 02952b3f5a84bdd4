/** The share runner as a program: at each point, which event it can produce next.

`Step(p, e)` is the program after the event `e`, or nothing if the runner at `p` does not
produce `e`; given the answers that the events carry it leaves no choice.  The methods of
`ShareReceive` are proved to produce logs of this program, and such logs are proved safe here. */
module ShareProgram {
  import opened Wrappers
  import opened ShareOutcome
  import opened ShareLog
  import UrlFetch

  const URL_ATTEMPTS := 3

  /** A save: `entries` is the selection, and `anew` says that it was submitted in this run. */
  datatype SavePc =
    | Selecting
    | Noting(entries: seq<Entry>)
    | Attaching(entries: seq<Entry>)
    | Asking(entries: seq<Entry>)
    | Dropping(entries: seq<Entry>)
    | Reopening(entries: seq<Entry>)
    | Opening
    | Starting
    | Listing
    | Choosing(entries: seq<Entry>)
    | Submitting(entries: seq<Entry>)
    | Accepted(entries: seq<Entry>, o: Outcome)
    | Polling(entries: seq<Entry>, anew: bool)
    | Polled(entries: seq<Entry>, o: Outcome, anew: bool)
    | Concluding(o: Outcome)
    | Settling(o: Outcome)
    | Hopeless
    | Verifying
    | Rechecking
    | Unverified

  /** A download: the targets, where the earlier transfers stood when it began, and its results so far. */
  datatype Job = Job(targets: seq<Saved>, single: bool, earlier: seq<Saved>, results: seq<Saved>)

  datatype FilePc =
    | ToOpen
    | Reading
    | Fetching(attempt: nat, offset: nat, size: int)
    | Closing(bytes: nat)
    | Discarding(bytes: nat)
    | Noted(ok: bool)

  datatype FetchPc =
    | Entering
    | Planning
    | Filing(job: Job, file: FilePc)
    | Finished
    | Removing(i: nat)

  datatype Pc =
    | Off
    | Saving(save: SavePc)
    | Loading(load: FetchPc)
    | Reporting(result: TaskState, ok: bool)
    | Leaving(ok: bool)

  /** The record on disk and the one in memory, and the point of the program. */
  datatype Prog = Prog(durable: Detail, d: Detail, pc: Pc)

  // --------------------------------------------------------------------------- values

  function SavedOf(item: Item): Saved {
    var name := if item.saved.Some? && item.saved.value.name != "" then item.saved.value.name else item.savedName;
    var id := if item.saved.Some? && item.saved.value.id != "" then item.saved.value.id else item.savedId;
    var size := if item.saved.Some? && item.saved.value.size > 0 then item.saved.value.size else item.sourceSize;
    Saved(item.sourceId, if name != "" then name else item.sourceName, size, id, item.error.Some?)
  }

  function AllSavedOf(items: seq<Item>): seq<Saved> {
    seq(|items|, i requires 0 <= i < |items| => SavedOf(items[i]))
  }

  /** recordOutcome. */
  function Record(d: Detail, o: Outcome): Detail {
    d.(state := Some(o.state), saved := AllSavedOf(o.items))
  }

  /** shareTransferKey. */
  function Key(x: Saved): string {
    if x.remoteId != "" then "id:" + x.remoteId else "name:" + x.name
  }

  /** The earlier transfer that a target need not repeat. */
  function Earlier(earlier: seq<Saved>, x: Saved): Option<Saved> {
    if earlier == [] then None
    else
      var last := earlier[|earlier| - 1];
      if !last.failed && Key(last) == Key(x) then Some(last) else Earlier(earlier[..|earlier| - 1], x)
  }

  /** What finishFromDetail and finishSave make of the saved entries. */
  function SaveResult(saved: seq<Saved>): TaskState {
    StateOf(|saved| - Failures(saved), Failures(saved))
  }

  /** fetchTargets of a fetch from a save: an entry without an id is an error, and so is an empty list. */
  function TargetsOf(saved: seq<Saved>): Option<seq<Saved>> {
    var wanted := Wanted(saved);
    if wanted != [] && forall k | 0 <= k < |wanted| :: wanted[k].remoteId != "" then Some(wanted) else None
  }

  /** The first saved entry from `i` on that has a copy to remove. */
  function NextSaved(saved: seq<Saved>, i: nat): (j: nat)
    requires i <= |saved|
    ensures i <= j <= |saved| && (j < |saved| ==> !saved[j].failed && saved[j].remoteId != "")
    decreases |saved| - i
  {
    if i == |saved| || (!saved[i].failed && saved[i].remoteId != "") then i else NextSaved(saved, i + 1)
  }

  // ------------------------------------------------------------------- where it goes on

  function Leave(p: Prog, ok: bool): Prog {
    p.(pc := Leaving(ok))
  }

  function AtReport(p: Prog): Prog {
    var d := p.d.(phase := Complete);
    p.(d := d, pc := Reporting(FetchResult(d), FetchResult(d) != TaskFailed))
  }

  function AtRemove(p: Prog, i: nat): Prog {
    if !FromSave(p.d) || p.d.order.keepCloud || i > |p.d.saved| ||
        NextSaved(p.d.saved, i) == |p.d.saved| then AtReport(p)
    else p.(pc := Loading(Removing(NextSaved(p.d.saved, i))))
  }

  function AtFetch(p: Prog): Prog {
    match p.d.phase
    case Download => p.(pc := Loading(Planning))
    case Cleanup => AtRemove(p, 0)
    case Complete => AtReport(p)
    case _ => p.(d := p.d.(phase := Download), pc := Loading(Entering))
  }

  function AfterSelection(p: Prog, entries: seq<Entry>): Prog {
    if p.d.order.fetch then p.(pc := Saving(Asking(entries)))
    else p.(d := p.d.(phase := Save), pc := Saving(Attaching(entries)))
  }

  function AtResume(p: Prog): Prog {
    if p.d.selected != [] then AfterSelection(p, p.d.selected) else p.(pc := Saving(Selecting))
  }

  function AtSave(p: Prog): Prog {
    if p.d.handle != "" then AtResume(p)
    else p.(pc := Saving(if p.d.order.fetch then Listing else Opening))
  }

  function AtBegin(durable: Detail): Prog {
    var d := if durable.phase == NoPhase then durable.(phase := Open) else durable;
    var p := Prog(durable, d, Off);
    if d.order.fetch then (if d.order.toRequested && !SaveDone(d) then AtSave(p) else AtFetch(p))
    else if CanResume(d) then p.(pc := Saving(Rechecking))
    else AtSave(p)
  }

  function AtChoose(p: Prog, entries: seq<Entry>): Prog {
    p.(d := p.d.(selected := entries), pc := Saving(Choosing(entries)))
  }

  function AtSettle(p: Prog, o: Outcome): Prog {
    var phase := if !p.d.order.fetch && ResultState(o) == TaskFailed then Complete else Verify;
    p.(d := Record(p.d, o).(phase := phase), pc := Saving(Settling(o)))
  }

  /** The save is over, with `o`, or still goes on. */
  function AfterOutcome(p: Prog, o: Outcome, entries: seq<Entry>, anew: bool): Prog {
    if !o.Complete() then p.(pc := Saving(Polling(entries, anew)))
    else
      var r := Reconcile(o, entries);
      if anew then p.(d := Record(p.d, r).(phase := Verify), pc := Saving(Concluding(r))) else AtSettle(p, r)
  }

  function AfterSettled(p: Prog, o: Outcome): Prog {
    if ResultState(o) != TaskFailed then p.(pc := Saving(Verifying))
    else if p.d.order.fetch then p.(d := p.d.(phase := Complete), pc := Saving(Hopeless))
    else Leave(p, false)
  }

  function AtFile(p: Prog, job: Job): (q: Prog)
    ensures q.durable == p.durable
    decreases |job.targets| - |job.results|
  {
    if |job.results| >= |job.targets| then p.(d := p.d.(phase := Cleanup), pc := Loading(Finished))
    else
      match Earlier(job.earlier, job.targets[|job.results|])
      case None => p.(pc := Loading(Filing(job, ToOpen)))
      case Some(x) =>
        var results := job.results + [x];
        AtFile(p.(d := p.d.(transferred := results)), job.(results := results))
  }

  /** The target `x` ended with `bytes` bytes. */
  function AtNoted(p: Prog, job: Job, x: Saved, bytes: nat, ok: bool): Prog {
    var results := job.results + [Saved("", x.name, bytes, x.remoteId, !ok)];
    p.(d := p.d.(transferred := results), pc := Loading(Filing(job.(results := results), Noted(ok))))
  }

  // -------------------------------------------------------------------------- the events

  /** persist. */
  function Write(p: Prog, e: Event, written: Prog): Option<Prog> {
    if e == Persist(p.d) then Some(written.(durable := p.d)) else None
  }

  function StepAsk(p: Prog, e: Event, entries: seq<Entry>): Option<Prog> {
    if !(e.Asked? && e.handle == p.d.handle) then None
    else
      match e.answer
      case Unknown => Some(p.(d := p.d.(handle := ""), pc := Saving(Dropping(entries))))
      case Unavailable => Some(Leave(p, false))
      case Reported(o) => Some(AfterOutcome(p, o, entries, false))
  }

  function StepPoll(p: Prog, e: Event, entries: seq<Entry>, anew: bool): Option<Prog> {
    if e.Stopped? then Some(Leave(p, false))
    else if !(e.Asked? && e.handle == p.d.handle) then None
    else
      match e.answer
      case Reported(o) => Some(p.(d := Record(p.d, o), pc := Saving(Polled(entries, o, anew))))
      case _ => Some(Leave(p, false))
  }

  function StepSubmit(p: Prog, e: Event, entries: seq<Entry>): Option<Prog> {
    if !e.Submit? then None
    else
      match e.accepted
      case None => Some(Leave(p, false))
      case Some(o) => Some(p.(d := Record(p.d, o).(handle := o.handle), pc := Saving(Accepted(entries, o))))
  }

  function StepSelect(p: Prog, e: Event): Option<Prog> {
    if !e.Listed? then None
    else if e.entries == [] then Some(Leave(p, false))
    else Some(p.(d := p.d.(selected := e.entries), pc := Saving(Noting(e.entries))))
  }

  function StepList(p: Prog, e: Event): Option<Prog> {
    if !e.Listed? then None else Some(if e.entries == [] then Leave(p, false) else AtChoose(p, e.entries))
  }

  function StepOpening(p: Prog, e: Event): Option<Prog> {
    if !e.Opened? then None
    else Some(if e.ok then p.(d := p.d.(phase := Save), pc := Saving(Starting)) else Leave(p, false))
  }

  function StepReopen(p: Prog, e: Event, entries: seq<Entry>): Option<Prog> {
    if !e.Opened? then None else Some(if e.ok then AtChoose(p, entries) else Leave(p, false))
  }

  function AtSaveReport(p: Prog, ok: bool): Prog {
    p.(d := p.d.(phase := Complete), pc := Reporting(SaveResult(p.d.saved), ok))
  }

  function StepVerify(p: Prog, e: Event): Option<Prog> {
    if !e.Verified? then None
    else if !p.d.order.fetch then Some(AtSaveReport(p, e.ok))
    else Some(if e.ok then AtFetch(p) else Leave(p, false))
  }

  function StepRecheck(p: Prog, e: Event): Option<Prog> {
    if !e.Verified? then None else Some(if e.ok then AtSaveReport(p, true) else p.(pc := Saving(Unverified)))
  }

  function StepSave(p: Prog, e: Event, save: SavePc): Option<Prog> {
    match save
    case Selecting => StepSelect(p, e)
    case Noting(entries) => Write(p, e, AfterSelection(p, entries))
    case Attaching(entries) => Write(p, e, p.(pc := Saving(Asking(entries))))
    case Asking(entries) => StepAsk(p, e, entries)
    case Dropping(entries) => Write(p, e, p.(pc := Saving(Reopening(entries))))
    case Reopening(entries) => StepReopen(p, e, entries)
    case Opening => StepOpening(p, e)
    case Starting => Write(p, e, p.(pc := Saving(Listing)))
    case Listing => StepList(p, e)
    case Choosing(entries) => Write(p, e, p.(pc := Saving(Submitting(entries))))
    case Submitting(entries) => StepSubmit(p, e, entries)
    case Accepted(entries, o) => Write(p, e, AfterOutcome(p, o, entries, true))
    case Polling(entries, anew) => StepPoll(p, e, entries, anew)
    case Polled(entries, o, anew) => Write(p, e, AfterOutcome(p, o, entries, anew))
    case Concluding(o) => Write(p, e, AtSettle(p, o))
    case Settling(o) => Write(p, e, AfterSettled(p, o))
    case Hopeless => Write(p, e, Leave(p, false))
    case Verifying => StepVerify(p, e)
    case Rechecking => StepRecheck(p, e)
    case Unverified => Write(p, e, Leave(p, false))
  }

  function PathOf(d: Detail, job: Job, x: Saved): string {
    if job.single then d.order.to.to else DirPath(d.order.to, x.name)
  }


  function StepOpen(p: Prog, e: Event, job: Job, x: Saved): Option<Prog> {
    if !(e.OpenTarget? && e.entry == x && e.path == PathOf(p.d, job, x)) then None
    else if !e.ok then Some(AtNoted(p, job, x, 0, false))
    else Some(p.(pc := Loading(Filing(job, if FromSave(p.d) then Reading else Fetching(0, 0, x.size)))))
  }

  /** The destination is closed, or discarded. */
  function StepClose(p: Prog, e: Event, job: Job, x: Saved): Option<Prog> {
    if (e.FinishTarget? || e.DiscardTarget?) && e.entry == x && e.path == PathOf(p.d, job, x)
    then Some(AtNoted(p, job, x, e.bytes, e.FinishTarget?)) else None
  }

  /** One attempt at a URL: what it wrote counts, and so does the total it settled on. */
  function AfterUrl(attempt: nat, offset: nat, size: int, u: UrlFetch.Url): (file: FilePc)
    requires UrlFetch.Possible(offset, size, u)
    ensures !file.Noted?
  {
    var r := UrlFetch.Run(offset, size, u);
    if r.done && !r.failed then Closing(offset + r.written)
    else if attempt + 1 < URL_ATTEMPTS then
      Fetching(attempt + 1, offset + r.written, if r.size > 0 then r.size else size)
    else Discarding(offset + r.written)
  }

  function StepStream(p: Prog, e: Event, job: Job, attempt: nat, offset: nat, size: int): Option<Prog> {
    if e.Streamed? && UrlFetch.Possible(offset, size, e.url)
    then Some(p.(pc := Loading(Filing(job, AfterUrl(attempt, offset, size, e.url))))) else None
  }

  function StepFile(p: Prog, e: Event, job: Job, file: FilePc): Option<Prog> {
    if file.Noted? then Write(p, e, if file.ok then AtFile(p, job) else Leave(p, false))
    else if |job.results| >= |job.targets| then None
    else
      var x := job.targets[|job.results|];
      match file
      case ToOpen => StepOpen(p, e, job, x)
      case Reading => StepClose(p, e, job, x)
      case Fetching(attempt, offset, size) => StepStream(p, e, job, attempt, offset, size)
      case Closing(bytes) => if (e.FinishTarget? || e.DiscardTarget?) &&
          e.bytes == bytes then StepClose(p, e, job, x) else None
      case Discarding(bytes) => if e.DiscardTarget? && e.bytes == bytes then StepClose(p, e, job, x) else None
      case _ => None
  }

  /** The targets and the destination, unless the download cannot begin. */
  function JobOf(d: Detail, direct: seq<Saved>, prepared: bool, single: bool): Option<Job> {
    var targets := if FromSave(d) then TargetsOf(d.saved) else if direct == [] then None else Some(direct);
    match targets
    case None => None
    case Some(targets) =>
      if !prepared || (single && |targets| != 1) then None else Some(Job(targets, single, d.transferred, []))
  }

  function StepPlan(p: Prog, e: Event): Option<Prog> {
    if !e.Planned? then None
    else
      match JobOf(p.d, e.direct, e.prepared, e.single)
      case None => Some(Leave(p, false))
      case Some(job) => Some(AtFile(p, job))
  }

  function StepRemove(p: Prog, e: Event, i: nat): Option<Prog> {
    if !(e.RemoveSaved? && i < |p.d.saved| && e.id == p.d.saved[i].remoteId) then None
    else Some(if e.gone then AtRemove(p, i + 1) else Leave(p, false))
  }

  function StepLoad(p: Prog, e: Event, load: FetchPc): Option<Prog> {
    match load
    case Entering => Write(p, e, p.(pc := Loading(Planning)))
    case Planning => StepPlan(p, e)
    case Filing(job, file) => StepFile(p, e, job, file)
    case Finished => Write(p, e, AtRemove(p, 0))
    case Removing(i) => StepRemove(p, e, i)
  }

  function StepOut(p: Prog, e: Event): Option<Prog> {
    match p.pc
    case Reporting(result, ok) => if e == Report(p.d, result) then Some(Leave(p, ok).(durable := p.d)) else None
    case Leaving(ok) => if e == Return(ok) then Some(p.(pc := Off)) else None
    case _ => None
  }

  function StepRun(p: Prog, e: Event): Option<Prog> {
    match p.pc
    case Saving(save) => StepSave(p, e, save)
    case Loading(load) => StepLoad(p, e, load)
    case _ => StepOut(p, e)
  }

  /** A run can start at any time: after one that returned, and after one whose process died. */
  function Started(durable: Detail, able: bool): Prog {
    if able then AtBegin(durable) else Prog(durable, durable, Leaving(false))
  }

  function Step(p: Prog, e: Event): Option<Prog> {
    match e
    case Resume(able) => Some(Started(p.durable, able))
    case _ => StepRun(p, e)
  }

  /** The program after a log, if the log is one of the task. */
  function Trace(init: Detail, log: seq<Event>): Option<Prog> {
    if log == [] then Some(Prog(init, init, Off))
    else
      match Trace(init, log[..|log| - 1])
      case None => None
      case Some(p) => Step(p, log[|log| - 1])
  }

  /** The log is one that the task can produce. */
  predicate History(init: Detail, log: seq<Event>) {
    Fresh(init) && Trace(init, log).Some?
  }

  lemma StartIs(p: Prog, able: bool)
    ensures Step(p, Resume(able)) == Some(Started(p.durable, able))
  {
    hide StepRun, Started;
  }

  lemma ReturnIs(p: Prog, ok: bool)
    requires p.pc == Leaving(ok)
    ensures Step(p, Return(ok)) == Some(p.(pc := Off))
  {
    hide Started;
  }

  lemma TraceNext(init: Detail, log: seq<Event>, e: Event)
    requires Trace(init, log).Some?
    ensures Trace(init, log + [e]) == Step(Trace(init, log).value, e)
  {
    hide Step;
    assert (log + [e])[..|log|] == log;
  }

  // ----------------------------------------------------------------------------- targets

  lemma SameKey(x: Saved, y: Saved)
    requires Key(x) == Key(y)
    ensures x.remoteId == y.remoteId
  {
    KeyParts(x);
    KeyParts(y);
  }

  lemma KeyParts(x: Saved)
    ensures |Key(x)| >= 3 && Key(x)[0] == if x.remoteId != "" then 'i' else 'n'
    ensures x.remoteId != "" ==> Key(x)[3..] == x.remoteId
  {
  }

  /** An entry with an id is repeated unless its id was written down as transferred. */
  lemma {:induction false} EarlierIs(earlier: seq<Saved>, x: Saved)
    requires x.remoteId != ""
    ensures var r := Earlier(earlier, x);
            && (r.Some? <==> x.remoteId in OkIds(earlier))
            && (r.Some? ==> r.value in earlier && !r.value.failed && r.value.remoteId == x.remoteId)
  {
    if earlier != [] {
      var n := |earlier| - 1;
      var last := earlier[n];
      EarlierIs(earlier[..n], x);
      assert earlier[..n] + [last] == earlier;
      OneMoreId(earlier[..n], last);
      if !last.failed && Key(last) == Key(x) {
        SameKey(last, x);
      }
    }
  }

  lemma OneMoreId(results: seq<Saved>, x: Saved)
    ensures OkIds(results + [x]) == OkIds(results) + (if x.failed then {} else {x.remoteId})
  {
    OkIdsSplit(results, [x]);
    if !x.failed {
      assert [x][0].remoteId in OkIds([x]);
    }
  }

  /** The results of the first targets, in order. */
  predicate Follows(results: seq<Saved>, targets: seq<Saved>) {
    && |results| <= |targets|
    && (forall k | 0 <= k < |results| :: results[k].remoteId == targets[k].remoteId && !results[k].failed)
    && (DistinctIds(targets) ==> forall k | 0 <= k < |results| :: results[k].name == targets[k].name)
  }

  /** A transfer recorded before this run is among the first targets, so it has been passed once an
      unrecorded target is reached. */
  lemma {:induction false} Passed(d: Detail, results: seq<Saved>)
    requires Aligned(d) && Follows(results, Wanted(d.saved))
    requires |results| < |Wanted(d.saved)| ==> Wanted(d.saved)[|results|].remoteId !in OkIds(d.transferred)
    ensures OkIds(d.transferred) <= OkIds(results)
  {
    forall x | x in OkIds(d.transferred) ensures x in OkIds(results) {
      var k :| 0 <= k < |d.transferred| && !d.transferred[k].failed && d.transferred[k].remoteId == x;
      assert results[k].remoteId == x;
    }
  }

  /** With distinct ids an earlier record carries the name of its target. */
  lemma RecordedName(d: Detail, x: Saved, i: nat)
    requires Aligned(d) && i < |Wanted(d.saved)| && DistinctIds(Wanted(d.saved)) && x in d.transferred
    requires x.remoteId == Wanted(d.saved)[i].remoteId
    ensures x.name == Wanted(d.saved)[i].name
  {
    var wanted := Wanted(d.saved);
    var k :| 0 <= k < |d.transferred| && d.transferred[k] == x;
    assert wanted[k].remoteId == wanted[i].remoteId;
  }

  lemma AllFollow(results: seq<Saved>, targets: seq<Saved>)
    requires Follows(results, targets) && |results| == |targets| && forall k | 0 <= k < |targets| :: !targets[k].failed
    ensures OkIds(results) == OkIds(targets)
  {
    forall x | x in OkIds(targets) ensures x in OkIds(results) {
      var k :| 0 <= k < |targets| && !targets[k].failed && targets[k].remoteId == x;
      assert results[k].remoteId == x;
    }
    forall x | x in OkIds(results) ensures x in OkIds(targets) {
      var k :| 0 <= k < |results| && !results[k].failed && results[k].remoteId == x;
      assert targets[k].remoteId == x;
    }
  }

  lemma {:induction false} SomeSucceeded(items: seq<Item>)
    requires FailedCount(items) < |items|
    ensures exists i :: 0 <= i < |items| && items[i].error.None?
  {
    var n := |items| - 1;
    if items[n].error.Some? {
      SomeSucceeded(items[..n]);
      var i :| 0 <= i < n && items[..n][i].error.None?;
      assert items[i].error.None?;
    }
  }

  /** A save that is over and not failed has saved something. */
  lemma NotFailedIsSaved(o: Outcome)
    requires o.Complete() && ResultState(o) != TaskFailed
    ensures AnySaved(AllSavedOf(o.items))
  {
    SomeSucceeded(o.items);
    var i :| 0 <= i < |o.items| && o.items[i].error.None?;
    assert !AllSavedOf(o.items)[i].failed;
  }

  lemma ReconciledIsComplete(o: Outcome, entries: seq<Entry>)
    requires o.Complete()
    ensures Reconcile(o, entries).Complete()
  {
  }

  // -------------------------------------------------------------------------- it is safe

  /** Nothing was transferred yet. */
  predicate Early(p: Prog) {
    && p.durable.transferred == [] && p.d.transferred == [] && !Later(p.durable.phase) && !Later(p.d.phase)
    && (p.d.order.fetch ==> p.d.order.toRequested)
  }

  /** The save is open, and the record on disk carries its handle. */
  predicate Unsettled(p: Prog, v: View) {
    !v.settled && Early(p) && p.d.handle == p.durable.handle && (p.d.order.fetch || !CanResume(p.d))
  }

  /** A run that is saving. */
  predicate Saves(p: Prog) {
    p.d.order.fetch || p.d.phase == Save
  }

  predicate Recorded(d: Detail, o: Outcome) {
    o.Complete() && d.state == Some(o.state) && d.saved == AllSavedOf(o.items)
  }

  predicate SaveInv(p: Prog, v: View, save: SavePc) {
    match save
    case Selecting => Unsettled(p, v)
    case Noting(_) => Unsettled(p, v)
    case Opening => Unsettled(p, v) && p.d.handle == ""
    case Starting => Unsettled(p, v) && p.d.handle == "" && Saves(p)
    case Listing => Unsettled(p, v) && p.d.handle == "" && Saves(p)
    case Choosing(_) => Unsettled(p, v) && p.d.handle == "" && Saves(p)
    case Reopening(_) => Unsettled(p, v) && p.d.handle == "" && Saves(p)
    case Submitting(_) => Unsettled(p, v) && p.d.handle == "" && Saves(p)
    case Attaching(_) => Unsettled(p, v) && Saves(p)
    case Asking(_) => Unsettled(p, v) && Saves(p)
    case Polling(_, _) => Unsettled(p, v) && Saves(p)
    case Polled(_, _, _) => Unsettled(p, v) && Saves(p)
    case Dropping(_) => !v.settled && Early(p) && Saves(p) && p.d.handle == "" && p.durable.handle in v.lost
    case Accepted(_, _) => !v.settled && Early(p) && Saves(p) && p.durable.handle == ""
    case Concluding(o) => !v.settled && Early(p) && p.d.handle == p.durable.handle && p.d.phase == Verify &&
        Recorded(p.d, o)
    case Settling(o) =>
      && Early(p) && p.d.handle == p.durable.handle && Recorded(p.d, o)
      && p.d.phase == (if !p.d.order.fetch && ResultState(o) == TaskFailed then Complete else Verify)
      && (v.settled ==> !p.d.order.fetch && p.durable.saved == p.d.saved && p.durable.state == p.d.state)
    case Hopeless => !v.settled && Early(p) && p.d.handle == p.durable.handle && p.d.order.fetch
    case Verifying =>
      && Early(p) && p.durable == p.d && p.d.phase == Verify && AnySaved(p.d.saved)
      && (p.d.order.fetch ==> !v.settled && SaveDone(p.d))
    case Rechecking => Early(p) && p.durable == p.d && !p.d.order.fetch && CanResume(p.d)
    case Unverified => Early(p) && p.durable == p.d && !p.d.order.fetch && CanResume(p.d)
  }

  /** The job is that of the record: its targets are the wanted entries, all with ids. */
  predicate JobIs(durable: Detail, d: Detail, job: Job) {
    && durable == d.(transferred := durable.transferred) && d.phase == Download && d.order.fetch
    && (FromSave(d) ==>
          && Consistent(d.(transferred := job.earlier))
          && job.targets == Wanted(d.saved) && (job.single ==> |job.targets| == 1)
          && (forall k | 0 <= k < |job.targets| :: job.targets[k].remoteId != ""))
  }

  /** The first `results` are on disk, besides the earlier ones. */
  predicate Kept(v: View, job: Job, results: seq<Saved>) {
    && Follows(results, job.targets) && v.recorded == OkIds(v.durable.transferred)
    && OkIds(v.durable.transferred) == OkIds(job.earlier) + OkIds(results)
  }

  /** The next target is one that was not transferred before. */
  predicate Next(job: Job, n: nat) {
    n < |job.targets| && job.targets[n].remoteId !in OkIds(job.earlier)
  }

  predicate NotedIs(p: Prog, v: View, job: Job, ok: bool) {
    && job.results != [] && p.d.transferred == job.results
    && var n := |job.results| - 1;
       var last, results := job.results[n], job.results[..n];
       && Kept(v, job, results) && Next(job, n)
       && last.remoteId == job.targets[n].remoteId && last.name == job.targets[n].name && last.failed == !ok
       && (ok ==> var path := PathOf(p.d, job, last); path in v.finished && v.finished[path] == last.remoteId)
  }

  predicate LoadInv(p: Prog, v: View, load: FetchPc) {
    match load
    case Entering =>
      p.d == p.durable.(phase := Download) && p.d.order.fetch && !Later(p.durable.phase) &&
          (FromSave(p.d) ==> SaveDone(p.d))
    case Planning => p.d == p.durable && p.d.phase == Download && p.d.order.fetch
    case Filing(job, file) =>
      && JobIs(p.durable, p.d, job)
      && (FromSave(p.d) ==>
            if file.Noted? then NotedIs(p, v, job, file.ok)
            else Kept(v, job, job.results) && Next(job, |job.results|))
    case Finished =>
      && p.d.phase == Cleanup && p.durable == p.d.(phase := Download, transferred := p.durable.transferred) &&
          p.d.order.fetch
      && (FromSave(p.d) ==> Consistent(p.d) && OkIds(p.d.transferred) == OkIds(p.durable.transferred))
    case Removing(i) =>
      && p.d == p.durable && p.d.phase == Cleanup && FromSave(p.d) && !p.d.order.keepCloud
      && i < |p.d.saved| && !p.d.saved[i].failed && p.d.saved[i].remoteId != ""
  }

  ghost predicate ReportInv(p: Prog, v: View, result: TaskState) {
    && p.d.phase == Complete && p.durable == p.d.(phase := p.durable.phase)
    && (FromSave(p.d) ==> Consistent(p.d) && MayReport(v, p.d, result))
    && (!p.d.order.fetch ==> CanResume(p.d) && p.d.transferred == [])
  }

  ghost predicate PcInv(p: Prog, v: View) {
    match p.pc
    case Off => true
    case Saving(save) => SaveInv(p, v, save)
    case Loading(load) => LoadInv(p, v, load)
    case Reporting(result, _) => ReportInv(p, v, result)
    case Leaving(_) => true
  }

  ghost predicate Inv(p: Prog, v: View) {
    p.durable == v.durable && (!p.pc.Off? ==> p.d.order == p.durable.order) && PcInv(p, v)
  }

  // Records that may be written.

  lemma EarlyPersist(p: Prog, v: View)
    requires Early(p) && p.durable == v.durable && p.d.order == p.durable.order
    requires p.durable.handle != "" && p.d.handle != p.durable.handle ==> p.d.handle == "" && p.durable.handle in v.lost
    requires v.settled ==> p.d.saved == p.durable.saved && p.d.state == p.durable.state
    requires v.settled ==> p.d.phase == Verify || p.d.phase == Complete
    ensures MayPersist(v, p.d)
  {
  }

  /** The points at which a save writes its record. */
  predicate Writes(save: SavePc) {
    save.Noting? || save.Attaching? || save.Dropping? || save.Starting? || save.Choosing? || save.Accepted? ||
    save.Polled?
    || save.Concluding? || save.Settling? || save.Hopeless? || save.Unverified?
  }

  lemma SaveMayWrite(p: Prog, v: View, save: SavePc)
    requires Inv(p, v) && p.pc == Saving(save) && Writes(save)
    ensures MayPersist(v, p.d)
  {
    hide AnySaved, LoadInv, ReportInv, Consistent, AllSavedOf, MayPersist;
    EarlyPersist(p, v);
  }

  lemma AfterOutcomeKeeps(p: Prog, v: View, o: Outcome, entries: seq<Entry>, anew: bool)
    requires p.durable == v.durable && p.d.order == p.durable.order && Unsettled(p, v) && Saves(p)
    ensures Inv(AfterOutcome(p, o, entries, anew), v)
  {
    hide AnySaved, LoadInv, ReportInv, AllSavedOf, Reconcile;
    if o.Complete() {
      ReconciledIsComplete(o, entries);
    }
  }

  lemma SettledKeeps(p: Prog, v: View, o: Outcome)
    requires Inv(p, v) && p.pc == Saving(Settling(o))
    ensures Inv(AfterSettled(p, o).(durable := p.d), Written(v, p.d))
  {
    hide LoadInv, ReportInv, AllSavedOf, OkIds;
    if ResultState(o) != TaskFailed {
      NotFailedIsSaved(o);
    }
  }

  lemma SaveWrites(p: Prog, v: View, e: Event, save: SavePc)
    requires Inv(p, v) && p.pc == Saving(save) && Writes(save) && StepSave(p, e, save).Some?
    ensures e == Persist(p.d) && Inv(StepSave(p, e, save).value, Written(v, p.d))
  {
    hide AnySaved, LoadInv, ReportInv, AllSavedOf, OkIds, AfterOutcome, AfterSettled, AfterSelection, AtSettle;
    match save
    case Noting(entries) => SelectionKeeps(p, v, entries);
    case Concluding(o) => ConcludeKeeps(p, v, o);
    case Accepted(entries, o) => AfterOutcomeKeeps(p.(durable := p.d), Written(v, p.d), o, entries, true);
      SameAfter(p, o, entries, true);
    case Polled(entries, o, anew) => AfterOutcomeKeeps(p.(durable := p.d), Written(v, p.d), o, entries, anew);
      SameAfter(p, o, entries, anew);
    case Settling(o) => SettledKeeps(p, v, o);
    case _ =>
  }

  lemma SelectionKeeps(p: Prog, v: View, entries: seq<Entry>)
    requires Inv(p, v) && p.pc == Saving(Noting(entries))
    ensures Inv(AfterSelection(p, entries).(durable := p.d), Written(v, p.d))
  {
    hide AnySaved, LoadInv, ReportInv, OkIds;
  }

  lemma ConcludeKeeps(p: Prog, v: View, o: Outcome)
    requires Inv(p, v) && p.pc == Saving(Concluding(o))
    ensures Inv(AtSettle(p, o).(durable := p.d), Written(v, p.d))
  {
    hide AnySaved, LoadInv, ReportInv, AllSavedOf, OkIds;
  }

  lemma SameAfter(p: Prog, o: Outcome, entries: seq<Entry>, anew: bool)
    ensures AfterOutcome(p.(durable := p.d), o, entries, anew) == AfterOutcome(p, o, entries, anew).(durable := p.d)
  {
    hide Reconcile, Record;
  }

  lemma AskStep(p: Prog, v: View, e: Event, entries: seq<Entry>)
    requires Inv(p, v) && p.pc == Saving(Asking(entries)) && StepAsk(p, e, entries).Some?
    ensures Inv(StepAsk(p, e, entries).value, Apply(v, e))
  {
    hide AnySaved, LoadInv, ReportInv, AllSavedOf, OkIds, AfterOutcome;
    if e.answer.Reported? {
      AfterOutcomeKeeps(p, v, e.answer.outcome, entries, false);
    }
  }

  lemma SaveAsks(p: Prog, v: View, e: Event, save: SavePc)
    requires Inv(p, v) && p.pc == Saving(save) && !Writes(save) && StepSave(p, e, save).Some?
    ensures Allowed(v, e) && Inv(StepSave(p, e, save).value, Apply(v, e))
  {
    hide AnySaved, ReportInv, LoadInv, AllSavedOf, OkIds, StepAsk, AfterOutcome, MayPersist, MayTouch, MayReport,
    StepVerify,
         StepRecheck;
    match save {
      case Asking(entries) =>
        AskStep(p, v, e, entries);
        AskIs(p, e, entries);
      case Verifying => VerifyIs(p, e); VerifyStep(p, v, e);
      case Rechecking => VerifyIs(p, e); VerifyStep(p, v, e);
      case _ =>
    }
  }

  lemma VerifyIs(p: Prog, e: Event)
    requires StepVerify(p, e).Some? || StepRecheck(p, e).Some?
    ensures e.Verified?
  {
  }

  lemma VerifyStep(p: Prog, v: View, e: Event)
    requires Inv(p, v) && (p.pc == Saving(Verifying) || p.pc == Saving(Rechecking)) && e.Verified?
    ensures p.pc == Saving(Verifying) ==> Inv(StepVerify(p, e).value, v)
    ensures p.pc == Saving(Rechecking) ==> Inv(StepRecheck(p, e).value, v)
  {
    hide AnySaved, MayReport, AllSavedOf, Consistent, JobIs, Kept, SaveResult;
  }

  lemma AskIs(p: Prog, e: Event, entries: seq<Entry>)
    requires StepAsk(p, e, entries).Some?
    ensures e.Asked?
  {
  }

  lemma SaveStep(p: Prog, v: View, e: Event, save: SavePc)
    requires Inv(p, v) && p.pc == Saving(save) && StepSave(p, e, save).Some?
    ensures Allowed(v, e) && Inv(StepSave(p, e, save).value, Apply(v, e))
  {
    hide Inv, StepSave, Writes, MayPersist;
    if Writes(save) {
      SaveMayWrite(p, v, save);
      SaveWrites(p, v, e, save);
    } else {
      SaveAsks(p, v, e, save);
    }
  }

  // The download.

  lemma ReportKeeps(p: Prog, v: View)
    requires p.durable == v.durable && p.d == p.durable && p.d.order.fetch
    requires FromSave(p.d) ==> Consistent(p.d) && (p.d.phase == Cleanup || (Late(v.start) && v.durable == v.start))
    ensures Inv(AtReport(p), v)
  {
    hide OkIds, Wanted, AnySaved, FetchResult, SaveInv, LoadInv;
  }

  lemma RemoveKeeps(p: Prog, v: View, i: nat)
    requires p.durable == v.durable && p.d == p.durable && p.d.order.fetch && p.d.phase == Cleanup
    requires FromSave(p.d) ==> Consistent(p.d)
    ensures Inv(AtRemove(p, i), v)
  {
    hide Consistent, NextSaved, SaveInv, AtReport;
    ReportKeeps(p, v);
  }

  /** With all targets passed the record is that of a finished download. */
  lemma AllDone(p: Prog, v: View, job: Job)
    requires JobIs(p.durable, p.d, job) && Kept(v, job, job.results) && |job.results| == |job.targets| && FromSave(p.d)
    requires p.durable == v.durable
    requires p.d.transferred == job.results
    ensures Consistent(p.d.(phase := Cleanup)) && OkIds(p.d.transferred) == OkIds(p.durable.transferred)
  {
    Passed(p.d.(transferred := job.earlier), job.results);
    WantedIds(p.d.saved);
    AllFollow(job.results, job.targets);
  }

  lemma Skipped(d: Detail, v: View, job: Job, x: Saved)
    requires Aligned(d.(transferred := job.earlier)) && job.targets == Wanted(d.saved) && |job.results| < |job.targets|
    requires Kept(v, job, job.results)
    requires x in job.earlier && !x.failed && x.remoteId == job.targets[|job.results|].remoteId
    ensures Kept(v, job, job.results + [x])
  {
    hide Wanted, Aligned;
    var n := |job.results|;
    OneMoreId(job.results, x);
    assert x.remoteId in OkIds(job.earlier) by {
      var k :| 0 <= k < |job.earlier| && job.earlier[k] == x;
    }
    if DistinctIds(job.targets) {
      RecordedName(d.(transferred := job.earlier), x, n);
    }
  }

  lemma ConsistentIsAligned(d: Detail)
    requires Consistent(d)
    ensures Aligned(d)
  {
  }

  predicate Passing(p: Prog, v: View, job: Job) {
    && JobIs(p.durable, p.d, job)
    && (FromSave(p.d) ==>
          && Kept(v, job, job.results) && job.targets != []
          && (job.results != [] ==> p.d.transferred == job.results))
  }

  lemma {:induction false} FileKeeps(p: Prog, v: View, job: Job)
    requires p.durable == v.durable && p.d.order == p.durable.order && Passing(p, v, job)
    ensures Inv(AtFile(p, job), v)
    decreases |job.targets| - |job.results|
  {
    hide Consistent, Wanted, OkIds, Earlier, SaveInv, ReportInv, Follows;
    if |job.results| >= |job.targets| {
      if FromSave(p.d) {
        KeptLength(v, job);
        AllDone(p, v, job);
      }
    } else {
      var target := job.targets[|job.results|];
      if FromSave(p.d) {
        EarlierIs(job.earlier, target);
      }
      match Earlier(job.earlier, target)
      case None =>
      case Some(x) =>
        var results := job.results + [x];
        var q, more := p.(d := p.d.(transferred := results)), job.(results := results);
        if FromSave(p.d) {
          ConsistentIsAligned(p.d.(transferred := job.earlier));
          Skipped(p.d, v, job, x);
          assert Kept(v, more, results);
        }
        FileKeeps(q, v, more);
    }
  }

  lemma KeptLength(v: View, job: Job)
    requires Kept(v, job, job.results)
    ensures |job.results| <= |job.targets|
  {
  }

  lemma FollowsNothing(targets: seq<Saved>)
    ensures Follows([], targets) && OkIds([]) == {}
  {
  }

  lemma JobKeeps(p: Prog, v: View, direct: seq<Saved>, prepared: bool, single: bool)
    requires LoadInv(p, v, Planning) && p.durable == v.durable && Sound(v)
    requires JobOf(p.d, direct, prepared, single).Some?
    ensures Passing(p, v, JobOf(p.d, direct, prepared, single).value)
  {
    hide Consistent, Wanted, OkIds, Clear, AllStand, Follows;
    FollowsNothing(JobOf(p.d, direct, prepared, single).value.targets);
  }

  lemma PlanStep(p: Prog, v: View, e: Event)
    requires Inv(p, v) && Sound(v) && p.pc == Loading(Planning) && StepPlan(p, e).Some?
    ensures Allowed(v, e) && Inv(StepPlan(p, e).value, Apply(v, e))
  {
    hide SaveInv, ReportInv, AtFile, MayPersist, MayTouch, MayReport, JobOf, Passing, OkIds, Sound;
    match JobOf(p.d, e.direct, e.prepared, e.single)
    case None =>
    case Some(job) =>
      JobKeeps(p, v, e.direct, e.prepared, e.single);
      FileKeeps(p, v, job);
  }

  lemma NotRecorded(job: Job)
    requires Follows(job.results, job.targets) && Next(job, |job.results|)
    ensures DistinctIds(job.targets) ==> job.targets[|job.results|].remoteId !in OkIds(job.earlier) + OkIds(job.results)
  {
  }

  /** The place of the next target may be touched. */
  lemma TouchIsAllowed(p: Prog, v: View, job: Job)
    requires JobIs(p.durable, p.d, job) && p.durable == v.durable && |job.results| < |job.targets|
    requires FromSave(p.d) ==> Kept(v, job, job.results) && Next(job, |job.results|)
    ensures var x := job.targets[|job.results|]; MayTouch(v, PathOf(p.d, job, x), x)
  {
    hide Consistent, Wanted, OkIds;
    if FromSave(p.d) {
      NotRecorded(job);
    }
  }

  /** The target ended: well, if it stands finished at its place. */
  lemma NotedKeeps(p: Prog, v: View, job: Job, bytes: nat, ok: bool, w: View)
    requires JobIs(p.durable, p.d, job) && p.durable == v.durable && p.d.order == p.durable.order &&
        |job.results| < |job.targets|
    requires FromSave(p.d) ==> Kept(v, job, job.results) && Next(job, |job.results|)
    requires w.durable == v.durable && w.recorded == v.recorded
    requires ok ==> var x := job.targets[|job.results|]; var path := PathOf(p.d, job, x);
                    path in w.finished && w.finished[path] == x.remoteId
    ensures Inv(AtNoted(p, job, job.targets[|job.results|], bytes, ok), w)
  {
    hide Consistent, Wanted, OkIds, SaveInv, ReportInv, DirPath, Follows;
    var x := job.targets[|job.results|];
    var q := AtNoted(p, job, x, bytes, ok);
    var last := Saved("", x.name, bytes, x.remoteId, !ok);
    assert (job.results + [last])[..|job.results|] == job.results;
    assert PathOf(q.d, job.(results := job.results + [last]), last) == PathOf(p.d, job, x);
  }

  lemma OpenStep(p: Prog, v: View, e: Event, job: Job, file: FilePc)
    requires Inv(p, v) && p.pc == Loading(Filing(job, file)) && !file.Noted? && StepFile(p, e, job, file).Some?
    ensures Allowed(v, e) && Inv(StepFile(p, e, job, file).value, Apply(v, e))
  {
    hide JobIs, Follows, Next, SaveInv, ReportInv, PathOf, MayTouch, MayPersist, MayReport, OkIds, AtNoted, AfterUrl,
         UrlFetch.Possible;
    FilingIs(p, v, job, file);
    TouchIsAllowed(p, v, job);
    match e
    case OpenTarget(_, _, ok) => NotedKeeps(p, v, job, 0, false, Apply(v, e));
    case FinishTarget(_, _, bytes) => NotedKeeps(p, v, job, bytes, true, Apply(v, e));
    case DiscardTarget(_, _, bytes) => NotedKeeps(p, v, job, bytes, false, Apply(v, e));
    case _ =>
  }

  lemma FilingIs(p: Prog, v: View, job: Job, file: FilePc)
    requires Inv(p, v) && p.pc == Loading(Filing(job, file)) && !file.Noted?
    ensures JobIs(p.durable, p.d, job) && (FromSave(p.d) ==> Kept(v, job, job.results) && Next(job, |job.results|))
  {
  }

  /** The result of a target may be written down. */
  lemma MayNote(p: Prog, v: View, job: Job, ok: bool)
    requires Inv(p, v) && p.pc == Loading(Filing(job, Noted(ok))) && FromSave(p.d)
    ensures MayPersistFetch(v, p.d)
  {
    hide Wanted, OkIds, SaveInv, ReportInv, DirPath, Follows, Consistent, Backed;
    var n := |job.results| - 1;
    var last, results, before := job.results[n], job.results[..n], p.d.(transferred := job.earlier);
    assert job.results == results + [last];
    OneMoreId(results, last);
    ConsistentIsAligned(before);
    Passed(before, results);
    StillAligned(before, results, job.results);
    NowBacked(v, p.d, results, job.results, PathOf(p.d, job, last));
  }

  lemma NotedIsKept(p: Prog, v: View, job: Job)
    requires Inv(p, v) && p.pc == Loading(Filing(job, Noted(true))) && FromSave(p.d)
    ensures Kept(Written(v, p.d), job, job.results)
  {
    hide Wanted, OkIds, SaveInv, ReportInv, DirPath, Consistent, Aligned, Follows;
    var n := |job.results| - 1;
    var last, results, before := job.results[n], job.results[..n], p.d.(transferred := job.earlier);
    assert job.results == results + [last];
    OneMoreId(results, last);
    ConsistentIsAligned(before);
    Passed(before, results);
    FollowsOn(job.targets, results, last);
  }

  lemma FollowsOn(targets: seq<Saved>, results: seq<Saved>, x: Saved)
    requires Follows(results, targets) && |results| < |targets| && !x.failed
    requires x.remoteId == targets[|results|].remoteId && x.name == targets[|results|].name
    ensures Follows(results + [x], targets)
  {
  }

  lemma StillAligned(d: Detail, results: seq<Saved>, more: seq<Saved>)
    requires Consistent(d) && d.phase == Download && Follows(results, Wanted(d.saved)) && |results| < |Wanted(d.saved)|
    requires |more| == |results| + 1 && more[..|results|] == results
    requires more[|results|].remoteId == Wanted(d.saved)[|results|].remoteId
    requires more[|results|].name == Wanted(d.saved)[|results|].name
    ensures Consistent(d.(transferred := more))
  {
    hide Wanted, OkIds;
    var e := d.(transferred := more);
    forall k | 0 <= k < |results| ensures more[k] == results[k] {
      assert more[..|results|][k] == results[k];
    }
    assert Aligned(e);
  }

  lemma NowBacked(v: View, d: Detail, results: seq<Saved>, more: seq<Saved>, path: string)
    requires more == d.transferred && |more| == |results| + 1 && more == results + [more[|results|]]
    requires OkIds(results) <= OkIds(v.durable.transferred)
    requires !more[|results|].failed ==> path in v.finished && v.finished[path] == more[|results|].remoteId
    requires |Wanted(d.saved)| > 1 ==> path == DirPath(d.order.to, more[|results|].name)
    ensures Backed(v, d)
  {
    hide DirPath, Wanted;
    forall k | 0 <= k < |more| && !more[k].failed
      ensures more[k].remoteId in OkIds(v.durable.transferred) || Stands(v, d, more[k])
    {
      if k < |results| {
        assert results[k].remoteId in OkIds(results);
      } else {
        assert StandsAt(v, d, more[k], path);
      }
    }
  }

  lemma {:induction false} FileOnDisk(p: Prog, job: Job, durable: Detail)
    ensures AtFile(p.(durable := durable), job) == AtFile(p, job).(durable := durable)
    decreases |job.targets| - |job.results|
  {
    hide Earlier;
    if |job.results| < |job.targets| {
      match Earlier(job.earlier, job.targets[|job.results|])
      case None =>
      case Some(x) =>
        var results := job.results + [x];
        FileOnDisk(p.(d := p.d.(transferred := results)), job.(results := results), durable);
    }
  }

  lemma {:induction false} FileFromAnywhere(p: Prog, job: Job, pc: Pc)
    ensures AtFile(p.(pc := pc), job) == AtFile(p, job)
    decreases |job.targets| - |job.results|
  {
    hide Earlier;
    if |job.results| < |job.targets| {
      match Earlier(job.earlier, job.targets[|job.results|])
      case None =>
      case Some(x) =>
        var results := job.results + [x];
        FileFromAnywhere(p.(d := p.d.(transferred := results)), job.(results := results), pc);
    }
  }

  lemma NotedStep(p: Prog, v: View, e: Event, job: Job, ok: bool)
    requires Inv(p, v) && Sound(v) && p.pc == Loading(Filing(job, Noted(ok))) && e == Persist(p.d)
    ensures Allowed(v, e) && Inv(StepFile(p, e, job, Noted(ok)).value, Apply(v, e))
  {
    hide Consistent, Wanted, OkIds, SaveInv, ReportInv, AtFile, MayPersistFetch, Kept, NotedIs, MayTouch, MayReport,
        FetchSound;
    if FromSave(p.d) {
      MayNote(p, v, job, ok);
      if ok {
        NotedIsKept(p, v, job);
      }
    }
    if ok {
      FileOnDisk(p, job, p.d);
      PassesOn(p, v, job);
      FileKeeps(p.(durable := p.d), Written(v, p.d), job);
    }
  }

  lemma PassesOn(p: Prog, v: View, job: Job)
    requires Inv(p, v) && p.pc == Loading(Filing(job, Noted(true)))
    requires FromSave(p.d) ==> Kept(Written(v, p.d), job, job.results)
    ensures Passing(p.(durable := p.d), Written(v, p.d), job)
  {
    hide Consistent, Wanted, OkIds, Kept, SaveInv, ReportInv;
  }

  lemma FileStep(p: Prog, v: View, e: Event, job: Job, file: FilePc)
    requires Inv(p, v) && Sound(v) && p.pc == Loading(Filing(job, file)) && StepFile(p, e, job, file).Some?
    ensures Allowed(v, e) && Inv(StepFile(p, e, job, file).value, Apply(v, e))
  {
    hide Inv, Sound, Allowed, Apply, AtFile, AtNoted, StepOpen, StepClose, StepStream;
    if file.Noted? {
      NotedStep(p, v, e, job, file.ok);
    } else {
      OpenStep(p, v, e, job, file);
    }
  }

  /** Moving on without a new transfer keeps every transfer backed. */
  lemma KeptBacking(v: View, d: Detail)
    requires OkIds(d.transferred) == OkIds(v.durable.transferred)
    ensures Backed(v, d)
  {
    forall k | 0 <= k < |d.transferred| && !d.transferred[k].failed
      ensures d.transferred[k].remoteId in OkIds(v.durable.transferred)
    {
      assert d.transferred[k].remoteId in OkIds(d.transferred);
    }
  }

  /** A record that differs in its phase only, or lists the same transfers, may be written. */
  lemma MayMoveOn(v: View, d: Detail)
    requires d == v.durable.(phase := d.phase, transferred := d.transferred) && d.order.fetch
    requires FromSave(d) ==> Consistent(d) && OkIds(d.transferred) == OkIds(v.durable.transferred)
    ensures MayPersist(v, d)
  {
    hide Consistent, OkIds;
    if FromSave(d) {
      KeptBacking(v, d);
    }
  }

  lemma EnteringStep(p: Prog, v: View)
    requires Inv(p, v) && Sound(v) && p.pc == Loading(Entering)
    ensures MayPersist(v, p.d) && Inv(p.(durable := p.d, pc := Loading(Planning)), Written(v, p.d))
  {
    hide OkIds, Wanted, Clear, AllStand, MayPersist, SaveInv, ReportInv, AnySaved;
    MayMoveOn(v, p.d);
  }

  lemma FinishedStep(p: Prog, v: View)
    requires Inv(p, v) && p.pc == Loading(Finished)
    ensures MayPersist(v, p.d) && Inv(AtRemove(p, 0).(durable := p.d), Written(v, p.d))
  {
    hide OkIds, Consistent, MayPersist, SaveInv, ReportInv, AtRemove;
    MayMoveOn(v, p.d);
    RemoveKeeps(p.(durable := p.d), Written(v, p.d), 0);
    RemoveOnDisk(p, 0, p.d);
  }

  lemma RemoveOnDisk(p: Prog, i: nat, durable: Detail)
    ensures AtRemove(p.(durable := durable), i) == AtRemove(p, i).(durable := durable)
  {
    hide NextSaved, FetchResult;
  }

  lemma RemoveStep(p: Prog, v: View, e: Event, i: nat)
    requires Inv(p, v) && Sound(v) && p.pc == Loading(Removing(i)) && StepRemove(p, e, i).Some?
    ensures Allowed(v, e) && Inv(StepRemove(p, e, i).value, Apply(v, e))
  {
    hide Consistent, SaveInv, ReportInv, AtRemove, MayPersist, MayTouch, MayReport, Clear, AllStand;
    RemoveKeeps(p, v, i + 1);
  }

  lemma LoadStep(p: Prog, v: View, e: Event, load: FetchPc)
    requires Inv(p, v) && Sound(v) && p.pc == Loading(load) && StepLoad(p, e, load).Some?
    ensures Allowed(v, e) && Inv(StepLoad(p, e, load).value, Apply(v, e))
  {
    hide Inv, Sound, StepPlan, StepFile, StepRemove, MayPersist, MayTouch, MayReport, AtRemove, OkIds;
    match load
    case Entering => EnteringStep(p, v);
    case Planning => PlanStep(p, v, e);
    case Filing(job, file) => FileStep(p, v, e, job, file);
    case Finished => FinishedStep(p, v);
    case Removing(i) => RemoveStep(p, v, e, i);
  }

  lemma OutStep(p: Prog, v: View, e: Event)
    requires Inv(p, v) && Sound(v) && StepOut(p, e).Some?
    ensures Allowed(v, e) && Inv(StepOut(p, e).value, Apply(v, e))
  {
    hide OkIds, Consistent, MayPersist, MayReport, SaveInv, LoadInv, AnySaved, FetchSound, MayTouch;
    if p.pc.Reporting? {
      if p.d.order.fetch {
        MayMoveOn(v, p.d);
        if !FromSave(p.d) {
          NoSave(v, p.d, p.pc.result);
        }
      } else {
        MayReportSave(p, v);
      }
    }
  }

  lemma NoSave(v: View, d: Detail, result: TaskState)
    requires !FromSave(d)
    ensures MayReport(v, d, result)
  {
  }

  lemma MayReportSave(p: Prog, v: View)
    requires Inv(p, v) && Sound(v) && p.pc.Reporting? && !p.d.order.fetch
    ensures MayPersist(v, p.d) && MayReport(v, p.d, p.pc.result)
  {
    hide OkIds, Consistent, AnySaved, FetchSound, MayPersistFetch;
  }

  // The start of a run.

  lemma SaveKeeps(p: Prog, v: View)
    requires p.durable == v.durable && p.d.order == p.durable.order && Unsettled(p, v)
    ensures Inv(AtSave(p), v)
  {
    hide AnySaved, LoadInv, ReportInv;
  }

  lemma FetchKeeps(p: Prog, v: View)
    requires p.durable == v.durable && p.d == p.durable.(phase := p.d.phase) && p.d.order.fetch
    requires p.d.phase == if p.durable.phase == NoPhase then Open else p.durable.phase
    requires FromSave(p.d) ==> SaveDone(p.d) && Consistent(p.durable)
    requires FromSave(p.d) && p.d.phase == Complete ==> Late(v.start) && v.durable == v.start
    ensures Inv(AtFetch(p), v)
  {
    hide Consistent, SaveInv, ReportInv, AtRemove, AtReport;
    if p.d.phase == Cleanup {
      RemoveKeeps(p, v, 0);
    } else if p.d.phase == Complete {
      ReportKeeps(p, v);
    }
  }

  lemma BeginKeeps(durable: Detail, v: View)
    requires durable == v.durable == v.start && Sound(v) && v.settled == Settled(durable)
    ensures Inv(AtBegin(durable), v)
  {
    hide Consistent, AtSave, AtFetch, Clear, AllStand, AnySaved, LoadInv, ReportInv, OkIds;
    var d := if durable.phase == NoPhase then durable.(phase := Open) else durable;
    var p := Prog(durable, d, Off);
    if d.order.fetch {
      if d.order.toRequested && !SaveDone(d) {
        NothingYet(durable);
        SaveKeeps(p, v);
      } else {
        FetchKeeps(p, v);
      }
    } else if !CanResume(d) {
      SaveKeeps(p, v);
    }
  }

  lemma NothingYet(d: Detail)
    requires FromSave(d) && Consistent(d) && !SaveDone(d)
    ensures d.transferred == [] && !Later(d.phase)
  {
  }

  lemma ResumeStep(p: Prog, v: View, able: bool)
    requires Inv(p, v) && Sound(v)
    ensures Inv(Started(p.durable, able), Apply(v, Resume(able)))
  {
    hide Sound, AtBegin, SaveInv, LoadInv, ReportInv;
    var w := Apply(v, Resume(able));
    SoundStep(v, Resume(able));
    SettledNow(v);
    BeginKeeps(p.durable, w);
  }

  lemma SettledNow(v: View)
    requires Sound(v)
    ensures v.settled ==> Settled(v.durable)
  {
  }

  lemma SafeStep(p: Prog, v: View, e: Event)
    requires Inv(p, v) && Sound(v) && Step(p, e).Some?
    ensures Allowed(v, e) && Inv(Step(p, e).value, Apply(v, e))
  {
    hide Inv, Sound, Apply, Started, StepSave, StepLoad, StepOut, MayPersist, MayTouch, MayReport;
    match e
    case Resume(able) => ResumeStep(p, v, able);
    case _ =>
      match p.pc {
        case Saving(save) => SaveStep(p, v, e, save);
        case Loading(load) => LoadStep(p, v, e, load);
        case _ => OutStep(p, v, e);
      }
  }

  /** Every log of the task is safe, so what is proved of safe logs holds of the task. */
  lemma {:induction false} HistoryIsSafe(init: Detail, log: seq<Event>)
    requires History(init, log)
    ensures Safe(init, log) && Sound(See(init, log)) && Inv(Trace(init, log).value, See(init, log))
  {
    hide Inv, Sound, Allowed, Apply, Step, Safe, See, Fresh;
    if log == [] {
      StartInv(init);
    } else {
      var n := |log| - 1;
      var e := log[n];
      HistoryIsSafe(init, log[..n]);
      SafeStep(Trace(init, log[..n]).value, See(init, log[..n]), e);
      SoundStep(See(init, log[..n]), e);
      SeeNext(init, log[..n], e);
      assert log[..n] + [e] == log;
    }
  }

  lemma StartInv(init: Detail)
    requires Fresh(init)
    ensures Safe(init, []) && Sound(See(init, [])) && Inv(Trace(init, []).value, See(init, []))
  {
    FreshIsSound(init);
  }
}
