/** The offline runner as a program: at each point, which event it can produce next.

`Step(p, e)` is the program after the event `e`, or nothing if the runner at `p` does
not produce `e`; given the answers that the events carry it leaves no choice.  A log of
the task is a list of events that follow one another, `Trace`.  The methods of
`OfflineFetch` are proved to produce such logs, and such logs are proved safe here. */
module OfflineProgram {
  import opened Wrappers
  import opened ResultFiles
  import opened StagedTree
  import opened OfflineLog
  import Paths
  import ChunkFetch
  import UrlFetch

  const TRANSIENT_LIMIT := 5
  const URL_REFRESHES := 5
  const VERIFY_ATTEMPTS := 3

  /** How the last run ended: a task that succeeded is over, one that failed or was canceled waits for a
      retry, one whose process died or was shut down is taken up again. */
  datatype Ended = Done | Broke | Interrupted

  /** Where the transfer of one file stands.  `filled` are the positions written through URLs. */
  datatype FilePc =
    | Opening
    | Looking
    | OpenStaged
    | OpenUrl
    | Copying
    | CopyEnded(bytes: nat, ok: bool)
    | Fetching(attempt: nat, offset: nat, size: int, filled: set<int>)
    | Closing(way: Way, bytes: nat, disclosed: int, filled: set<int>)
    | Dropping(way: Way, err: Error)
    | UrlFailed(err: Error)

  datatype StagePc =
    | Submitting
    | CreateFailed
    | Adopted
    | Submitted
    | Observing
    | AskFailed
    | Polling
    | PollFailed(answer: Answer)
    | Folded(o: Download)
    | Recorded(o: Download)
    | Relisting
    | Unfound
    | Found
    | Reconciled
    | Verifying
    | Checked
    | Completed
    | Moving

  datatype MovePc =
    | Planning
    | Filing(targets: seq<Paths.Target>, i: nat, file: FilePc)
    | FileFailed(err: Error)
    | Finished

  datatype CleanPc =
    | CleanStep(i: nat, count: nat, ids: set<string>)
    | Cleaning(i: nat, count: nat, ids: set<string>)
    | FolderStep(attempt: nat, ids: set<string>)
    | Foldering(attempt: nat, ids: set<string>)
    | FolderShown(attempt: nat, ids: set<string>, shown: seq<Node>)
    | Completing

  datatype Pc =
    | Off(ended: Ended)
    | Begin
    | Stage(stage: StagePc)
    | Move(move: MovePc)
    | Clean(clean: CleanPc)
    | Canceling(err: Error)
    | Leaving(err: Error)

  /** The record on disk and the one in memory, the point of the program, the transient errors in a row,
      whether the context has ended and whether the user canceled, and whether the driver serves URLs. */
  datatype Prog = Prog(durable: Detail, d: Detail, pc: Pc, errors: nat, stopped: bool, canceling: bool, urls: bool)

  // ------------------------------------------------------------------- record updates

  /** What the answer to a submission adds to the record. */
  function AdoptInto(d: Detail, created: Download): Detail {
    d.(providerId := created.id,
       rootId := if created.remoteId != "" then created.remoteId else d.rootId,
       available := d.available || created.available,
       files := Merge(d.files, created.files))
  }

  /** What an observation adds to the record. */
  function FoldInto(d: Detail, o: Download): Detail {
    d.(available := d.available || o.available,
       rootId := if d.rootId == "" then o.remoteId else d.rootId,
       files := Merge(d.files, o.files))
  }

  /** fetchReady. */
  predicate Ready(d: Detail) {
    d.available && d.files != []
  }

  /** The first file from `i` on that has an id. */
  function SkipBlank(files: seq<File>, i: nat): (j: nat)
    requires i <= |files|
    ensures i <= j <= |files| && (j < |files| ==> files[j].remoteId != "")
    decreases |files| - i
  {
    if i == |files| || files[i].remoteId != "" then i else SkipBlank(files, i + 1)
  }

  // --------------------------------------------------------------------- silent moves

  /** A silent move touches neither the disk nor the flags. */
  predicate Stays(p: Prog, q: Prog) {
    q.durable == p.durable && q.stopped == p.stopped && q.canceling == p.canceling
  }

  function Leave(p: Prog, err: Error): (q: Prog)
    ensures Stays(p, q)
  {
    p.(pc := Leaving(err))
  }

  /** cancelOnInterrupt, on the way out. */
  function Interrupt(p: Prog): (q: Prog)
    ensures Stays(p, q)
  {
    if p.canceling && p.d.providerId != "" then p.(pc := Canceling(Stopped)) else Leave(p, Stopped)
  }

  function AtPoll(p: Prog): (q: Prog)
    ensures Stays(p, q)
  {
    if p.stopped then Interrupt(p) else p.(pc := Stage(Polling))
  }

  function AfterEnsure(p: Prog): (q: Prog)
    ensures Stays(p, q)
  {
    if p.d.order.fetch then p.(pc := Stage(Observing)) else AtPoll(p)
  }

  function AtEnsure(p: Prog): (q: Prog)
    ensures Stays(p, q)
  {
    if p.d.providerId != "" then AfterEnsure(p)
    else if p.stopped then Leave(p, Stopped)
    else p.(pc := Stage(Submitting))
  }

  function AtMove(p: Prog): (q: Prog)
    ensures Stays(p, q)
  {
    p.(d := p.d.(phase := Transfer), pc := Stage(Moving))
  }

  /** The observation decides: canceled, failed, or on to completing the staging or to the transfer. */
  function Settle(p: Prog, o: Download): (q: Prog)
    ensures Stays(p, q)
  {
    match o.state
    case Canceled => if p.d.providerId != "" then p.(pc := Canceling(Aborted)) else Leave(p, Aborted)
    case Failed => Leave(p, Other)
    case Pending => if p.d.order.fetch && Ready(p.d) then AtMove(p) else Leave(p, Other)
    case Succeeded =>
      var files := Merge(p.d.files, o.files);
      p.(d := p.d.(files := files), pc := Stage(if files == [] then Checked else Verifying))
  }

  predicate Settles(d: Detail, o: Download) {
    o.state != Pending || (d.order.fetch && Ready(d))
  }

  function AfterRecord(p: Prog, o: Download): (q: Prog)
    ensures Stays(p, q)
  {
    if Settles(p.d, o) then Settle(p, o) else AtPoll(p)
  }

  function AtDone(p: Prog): (q: Prog)
    ensures Stays(p, q)
  {
    p.(d := p.d.(phase := Complete), pc := Clean(Completing))
  }

  /** There is a folder to remove: the provider named it, and all result files lie in one. */
  predicate HasFolder(d: Detail) {
    d.rootId != "" && RootFolder(d.files) != ""
  }

  function AtFolder(p: Prog, attempt: nat, ids: set<string>): (q: Prog)
    ensures Stays(p, q)
  {
    if !HasFolder(p.d) || attempt >= VERIFY_ATTEMPTS || (attempt > 0 && p.stopped) then AtDone(p)
    else p.(pc := Clean(Foldering(attempt, ids)))
  }

  function AtClean(p: Prog, i: nat, count: nat, ids: set<string>): (q: Prog)
    ensures Stays(p, q)
  {
    if p.d.order.keepCloud || |p.d.files| == 0 || i > |p.d.files| then AtDone(p)
    else
      var j, n := SkipBlank(p.d.files, i), |p.d.files|;
      if j < n then p.(pc := Clean(Cleaning(j, count, ids)))
      else
        var q := p.(d := p.d.(cleanupDone := count == n));
        if count == n then AtFolder(q, 0, ids) else AtDone(q)
  }

  function OnFile(p: Prog, targets: seq<Paths.Target>, i: nat, file: FilePc): (q: Prog)
    ensures Stays(p, q)
  {
    p.(pc := Move(Filing(targets, i, file)))
  }

  function FailFile(p: Prog, err: Error): (q: Prog)
    ensures Stays(p, q)
  {
    p.(pc := Move(FileFailed(err)))
  }

  /** prefersURLTransfer. */
  predicate UrlFirst(p: Prog) {
    p.d.order.accelerated && p.urls
  }

  function ResolveFile(p: Prog, targets: seq<Paths.Target>, i: nat, file: FilePc): (q: Prog)
    ensures Stays(p, q)
  {
    if i >= |targets| then p.(d := p.d.(phase := Cleanup, transferDone := true), pc := Move(Finished))
    else
      var t := targets[i];
      match file
      case Opening => OnFile(p, targets, i, if UrlFirst(p) then OpenUrl else Looking)
      case CopyEnded(bytes, ok) =>
        if p.stopped then OnFile(p, targets, i, Dropping(Staged, Stopped))
        else if !ok || (t.size > 0 && bytes < t.size) then OnFile(p, targets, i, Dropping(Staged, Other))
        else OnFile(p, targets, i, Closing(Staged, bytes, 0, {}))
      case Fetching(attempt, _, _, _) =>
        if p.stopped then OnFile(p, targets, i, Dropping(Url, Stopped))
        else if attempt >= URL_REFRESHES then OnFile(p, targets, i, Dropping(Url, Other))
        else p
      case _ => p
  }

  function ResolveBegin(p: Prog): (q: Prog)
    ensures Stays(p, q)
  {
    if !p.d.order.fetch then AtEnsure(p)
    else
      match p.d.phase
      case NoPhase => AtEnsure(p.(d := p.d.(phase := Staging)))
      case Staging => AtEnsure(p)
      case Transfer => p.(pc := Move(Planning))
      case Cleanup => AtClean(p, 0, 0, {})
      case Complete => Leave(p, Nil)
  }

  function AfterFailedPoll(p: Prog, answer: Answer): (q: Prog)
    ensures Stays(p, q)
  {
    if p.stopped then Interrupt(p)
    else if answer.Missing? then p.(pc := Stage(if p.d.files == [] then Unfound else Relisting))
    else if answer.Refused? || p.errors + 1 > TRANSIENT_LIMIT then Leave(p, Other)
    else AtPoll(p.(errors := p.errors + 1))
  }

  function AfterStaging(p: Prog): (q: Prog)
    ensures Stays(p, q)
  {
    if p.d.order.fetch then AtMove(p) else Leave(p, Nil)
  }

  function AfterFailedFile(p: Prog, err: Error): (q: Prog)
    ensures Stays(p, q)
  {
    if err == Stopped then Interrupt(p) else Leave(p, err)
  }

  function ResolveStage(p: Prog, stage: StagePc): (q: Prog)
    ensures Stays(p, q)
  {
    match stage
    case CreateFailed => Leave(p, if p.stopped then Stopped else Other)
    case Submitted => if p.stopped then Interrupt(p) else AfterEnsure(p)
    case AskFailed => AtPoll(p)
    case Recorded(o) => AfterRecord(p, o)
    case PollFailed(answer) => AfterFailedPoll(p, answer)
    case Reconciled => Settle(p, Download("", "", Succeeded, false, p.d.files))
    case Completed => AfterStaging(p)
    case _ => p
  }

  function ResolveMove(p: Prog, move: MovePc): (q: Prog)
    ensures Stays(p, q)
  {
    match move
    case Filing(targets, i, file) => ResolveFile(p, targets, i, file)
    case FileFailed(err) => AfterFailedFile(p, err)
    case _ => p
  }

  function ResolveClean(p: Prog, clean: CleanPc): (q: Prog)
    ensures Stays(p, q)
  {
    match clean
    case CleanStep(i, count, ids) => AtClean(p, i, count, ids)
    case FolderStep(attempt, ids) => AtFolder(p, attempt, ids)
    case _ => p
  }

  /** Where the program stands when it is about to produce its next event. */
  function Resolve(p: Prog): (q: Prog)
    ensures Stays(p, q)
  {
    match p.pc
    case Begin => ResolveBegin(p)
    case Stage(stage) => ResolveStage(p, stage)
    case Move(move) => ResolveMove(p, move)
    case Clean(clean) => ResolveClean(p, clean)
    case _ => p
  }

  // ------------------------------------------------------------------------- the events

  /** persist. */
  function Write(p: Prog, e: Event, pc: Pc): Option<Prog> {
    if e == Persist(p.d) then Some(p.(durable := p.d, pc := pc)) else None
  }

  function EndOf(err: Error, canceling: bool): Ended {
    if err == Nil then Done else if err == Stopped && !canceling then Interrupted else Broke
  }

  /** The last steps of a run: cancel the provider task if that is due, and return. */
  function StepOut(p: Prog, e: Event): Option<Prog> {
    match p.pc
    case Canceling(err) => if e == CancelProvider(p.d.providerId) then Some(Leave(p, err)) else None
    case Leaving(err) => if e == Return(err) then Some(p.(pc := Off(EndOf(err, p.canceling)))) else None
    case _ => None
  }

  function StepPoll(p: Prog, e: Event): Option<Prog> {
    if !(e.Asked? && e.id == p.d.providerId) then None
    else if e.answer.Answered? then
      Some(p.(d := FoldInto(p.d, e.answer.download), errors := 0, pc := Stage(Folded(e.answer.download))))
    else Some(p.(pc := Stage(PollFailed(e.answer))))
  }

  function StepObserve(p: Prog, e: Event): Option<Prog> {
    if !(e.Asked? && e.id == p.d.providerId) then None
    else if e.answer.Answered? then
      Some(p.(d := FoldInto(p.d, e.answer.download), pc := Stage(Folded(e.answer.download))))
    else Some(p.(pc := Stage(AskFailed)))
  }

  function StepSubmit(p: Prog, e: Event): Option<Prog> {
    if !e.Create? then None
    else if e.created.None? then Some(p.(pc := Stage(CreateFailed)))
    else if e.created.value.id == "" then Some(Leave(p, Other))
    else Some(p.(d := AdoptInto(p.d, e.created.value), pc := Stage(Adopted)))
  }

  /** The destination is listed for a provider task that is missing. */
  function StepRelist(p: Prog, e: Event): Option<Prog> {
    if !(e.Verified? && e.files == p.d.files) then None
    else Some(p.(pc := Stage(if ShowsAll(e.listing, e.files) then Found else Unfound)))
  }

  /** The task has been missing for too long, or is asked for once more. */
  function StepUnfound(p: Prog, e: Event): Option<Prog> {
    if !e.Waited? then None else Some(if e.overdue then Leave(p, Other) else p.(pc := Stage(AskFailed)))
  }

  function StepVerify(p: Prog, e: Event): Option<Prog> {
    if e.Verified? && e.files == p.d.files then Some(p.(pc := Stage(Checked))) else None
  }

  /** Submitting, observing and completing the staging. */
  function StepStage(p: Prog, e: Event, stage: StagePc): Option<Prog> {
    match stage
    case Submitting => StepSubmit(p, e)
    case Adopted => Write(p, e, Stage(Submitted))
    case Observing => StepObserve(p, e)
    case Polling => StepPoll(p, e)
    case Folded(o) => Write(p, e, Stage(Recorded(o)))
    case Relisting => StepRelist(p, e)
    case Unfound => StepUnfound(p, e)
    case Found => Write(p, e, Stage(Reconciled))
    case Verifying => StepVerify(p, e)
    case Checked => Write(p, e, Stage(Completed))
    case Moving => Write(p, e, Move(Planning))
    case _ => None
  }

  function StepOpen(p: Prog, e: Event, targets: seq<Paths.Target>, i: nat, way: Way): Option<Prog>
    requires i < |targets|
  {
    if !(e.OpenTarget? && e.path == targets[i].target && e.way == way) then None
    else if e.ok then Some(OnFile(p, targets, i, if way == Staged then Copying
        else Fetching(0, 0, targets[i].size, {})))
    else if way == Url && UrlFirst(p) then Some(OnFile(p, targets, i, UrlFailed(Other)))
    else Some(FailFile(p, Other))
  }

  function StepLook(p: Prog, e: Event, targets: seq<Paths.Target>, i: nat, otherwise: Prog): Option<Prog> {
    if !e.Looked? then None else Some(if e.readable then OnFile(p, targets, i, OpenStaged) else otherwise)
  }

  /** One attempt at a URL: what it wrote counts, and so does the total it settled on. */
  function AfterUrl(attempt: nat, offset: nat, size: int, filled: set<int>, u: UrlFetch.Url): FilePc
    requires UrlFetch.Possible(offset, size, u)
  {
    var r := UrlFetch.Run(offset, size, u);
    var total := if r.size > 0 then r.size else size;
    var all := filled + UrlFetch.Written(offset, size, u);
    if r.done && !r.failed then Closing(Url, offset + r.written, total, all)
    else Fetching(attempt + 1, offset + r.written, total, all)
  }

  function StepCopy(p: Prog, e: Event, targets: seq<Paths.Target>, i: nat): Option<Prog> {
    if e.Copied? then Some(OnFile(p, targets, i, CopyEnded(e.bytes, e.ok))) else None
  }

  function StepFetch(p: Prog, e: Event, targets: seq<Paths.Target>, i: nat, attempt: nat, offset: nat, size: int,
      filled: set<int>)
    : Option<Prog>
  {
    if !e.Streamed? then None
    else if e.url.None? then Some(OnFile(p, targets, i, Fetching(attempt + 1, offset, size, filled)))
    else if !UrlFetch.Possible(offset, size, e.url.value) then None
    else Some(OnFile(p, targets, i, AfterUrl(attempt, offset, size, filled, e.url.value)))
  }

  function StepClose(p: Prog, e: Event, targets: seq<Paths.Target>, i: nat, way: Way, bytes: nat,
      disclosed: int): Option<Prog>
    requires i < |targets|
  {
    if e == FinishTarget(targets[i].target, targets[i].file, bytes, disclosed)
        then Some(OnFile(p, targets, i + 1, Opening))
    else if e == CloseFailed then Some(OnFile(p, targets, i, Dropping(way, Other)))
    else None
  }

  function StepDrop(p: Prog, e: Event, targets: seq<Paths.Target>, i: nat, way: Way, err: Error): Option<Prog>
    requires i < |targets|
  {
    if e != DiscardTarget(targets[i].target) then None
    else if way == Url && UrlFirst(p) then Some(OnFile(p, targets, i, UrlFailed(err)))
    else Some(FailFile(p, err))
  }

  /** One file: open, fill, finish or discard. */
  function StepFile(p: Prog, e: Event, targets: seq<Paths.Target>, i: nat, file: FilePc): Option<Prog>
    requires i < |targets|
  {
    match file
    case Opening => None
    case Looking => StepLook(p, e, targets, i, OnFile(p, targets, i, OpenUrl))
    case UrlFailed(err) => StepLook(p, e, targets, i, FailFile(p, err))
    case OpenStaged => StepOpen(p, e, targets, i, Staged)
    case OpenUrl => StepOpen(p, e, targets, i, Url)
    case Copying => StepCopy(p, e, targets, i)
    case CopyEnded(_, _) => None
    case Fetching(attempt, offset, size, filled) => StepFetch(p, e, targets, i, attempt, offset, size, filled)
    case Closing(way, bytes, disclosed, _) => StepClose(p, e, targets, i, way, bytes, disclosed)
    case Dropping(way, err) => StepDrop(p, e, targets, i, way, err)
  }

  ghost function StepPlan(p: Prog, e: Event): Option<Prog> {
    if !e.Planned? then None
    else
      var r := Paths.TargetsOf(p.d.files, p.d.order.flat, p.d.order.to, e.isDirectory);
      if r.Ok? && r.value.targets != [] && e.prepared
      then Some(OnFile(p, r.value.targets, 0, Opening).(urls := e.urls)) else Some(Leave(p, Other))
  }

  ghost function StepMove(p: Prog, e: Event, move: MovePc): Option<Prog> {
    match move
    case Planning => StepPlan(p, e)
    case Filing(targets, i, file) => if i < |targets| then StepFile(p, e, targets, i, file) else None
    case Finished => Write(p, e, Clean(CleanStep(0, 0, {})))
    case FileFailed(_) => None
  }

  function StepRemove(p: Prog, e: Event, i: nat, count: nat, ids: set<string>): Option<Prog> {
    if !(e.RemoveFile? && i < |p.d.files| && e.file == p.d.files[i]) then None
    else if e.gone then Some(p.(pc := Clean(CleanStep(i + 1, count + 1, ids + {e.file.remoteId}))))
    else Some(p.(pc := Clean(CleanStep(i + 1, count, ids))))
  }

  function StepFolder(p: Prog, e: Event, attempt: nat, ids: set<string>): Option<Prog> {
    if !e.ListedFolder? then None
    else if e.listing.Some? && Owned(e.listing.value, ids)
    then Some(p.(pc := Clean(FolderShown(attempt, ids, e.listing.value))))
    else Some(AtDone(p))
  }

  function StepRemoveFolder(p: Prog, e: Event, attempt: nat, ids: set<string>, shown: seq<Node>): Option<Prog> {
    if !(e.RemoveFolder? && e.root == p.d.rootId && e.folder == RootFolder(p.d.files) && e.shown == shown) then None
    else if e.gone then Some(AtDone(p))
    else Some(p.(pc := Clean(FolderStep(attempt + 1, ids))))
  }

  function StepClean(p: Prog, e: Event, clean: CleanPc): Option<Prog> {
    match clean
    case Cleaning(i, count, ids) => StepRemove(p, e, i, count, ids)
    case Foldering(attempt, ids) => StepFolder(p, e, attempt, ids)
    case FolderShown(attempt, ids, shown) => StepRemoveFolder(p, e, attempt, ids, shown)
    case Completing => Write(p, e, Leaving(Nil))
    case _ => None
  }

  predicate Running(p: Prog) {
    !p.pc.Off?
  }

  /** A run may start unless the last one succeeded, or failed and was not retried.  A process that died
      leaves its run where it was. */
  predicate MayStart(p: Prog) {
    p.pc != Off(Done) && p.pc != Off(Broke)
  }

  predicate Outside(e: Event) {
    e.Retry? || e.Resume? || e.Refuse? || e.UserCancel? || e.Shutdown?
  }

  function Started(durable: Detail): Prog {
    Prog(durable, durable, Begin, 0, false, false, false)
  }

  function StepOutside(p: Prog, e: Event): Option<Prog>
    requires Outside(e)
  {
    match e
    case Retry(inPlace) =>
      if p.pc == Off(Done) then None
      else Some(p.(durable := RetryDetail(p.durable, inPlace), pc := Off(Interrupted)))
    case Resume => if MayStart(p) then Some(Started(p.durable)) else None
    case Refuse => if MayStart(p) then Some(p.(pc := Off(Broke))) else None
    case UserCancel => if Running(p) then Some(p.(stopped := true, canceling := true)) else None
    case Shutdown => if Running(p) then Some(p.(stopped := true)) else None
  }

  /** One event of the run, from a point where it is about to produce one. */
  ghost function StepRun(p: Prog, e: Event): Option<Prog> {
    match p.pc
    case Stage(stage) => StepStage(p, e, stage)
    case Move(move) => StepMove(p, e, move)
    case Clean(clean) => StepClean(p, e, clean)
    case _ => StepOut(p, e)
  }

  ghost function Step(p: Prog, e: Event): Option<Prog> {
    if Outside(e) then StepOutside(p, e) else StepRun(Resolve(p), e)
  }

  /** The program after a log, if the log is one of the task. */
  ghost function Trace(init: Detail, log: seq<Event>): Option<Prog> {
    if log == [] then Some(Prog(init, init, Off(Interrupted), 0, false, false, false))
    else
      match Trace(init, log[..|log| - 1])
      case None => None
      case Some(p) => Step(p, log[|log| - 1])
  }

  /** The log is one that the task can produce. */
  ghost predicate History(init: Detail, log: seq<Event>) {
    Fresh(init) && Trace(init, log).Some?
  }

  lemma TraceNext(init: Detail, log: seq<Event>, e: Event)
    requires Trace(init, log).Some?
    ensures Trace(init, log + [e]) == Step(Trace(init, log).value, e)
  {
    hide Step;
    assert (log + [e])[..|log|] == log;
  }

  // Which part of the program an event is for, point by point.

  lemma RunsStage(q: Prog, e: Event)
    requires q.pc.Stage?
    ensures q.pc.stage == Submitting ==> StepRun(q, e) == StepSubmit(q, e)
    ensures q.pc.stage == Adopted ==> StepRun(q, e) == Write(q, e, Stage(Submitted))
    ensures q.pc.stage == Observing ==> StepRun(q, e) == StepObserve(q, e)
    ensures q.pc.stage == Polling ==> StepRun(q, e) == StepPoll(q, e)
    ensures q.pc.stage.Folded? ==> StepRun(q, e) == Write(q, e, Stage(Recorded(q.pc.stage.o)))
    ensures q.pc.stage == Relisting ==> StepRun(q, e) == StepRelist(q, e)
    ensures q.pc.stage == Unfound ==> StepRun(q, e) == StepUnfound(q, e)
    ensures q.pc.stage == Found ==> StepRun(q, e) == Write(q, e, Stage(Reconciled))
    ensures q.pc.stage == Verifying ==> StepRun(q, e) == StepVerify(q, e)
    ensures q.pc.stage == Checked ==> StepRun(q, e) == Write(q, e, Stage(Completed))
    ensures q.pc.stage == Moving ==> StepRun(q, e) == Write(q, e, Move(Planning))
  {
    hide StepSubmit, StepObserve, StepPoll, StepRelist, StepUnfound, StepVerify, Write;
  }

  lemma RunsFile(q: Prog, e: Event, targets: seq<Paths.Target>, i: nat, file: FilePc)
    requires q.pc == Move(Filing(targets, i, file)) && i < |targets|
    ensures file.Looking? ==> StepRun(q, e) == StepLook(q, e, targets, i, OnFile(q, targets, i, OpenUrl))
    ensures file.UrlFailed? ==> StepRun(q, e) == StepLook(q, e, targets, i, FailFile(q, file.err))
    ensures file.OpenStaged? ==> StepRun(q, e) == StepOpen(q, e, targets, i, Staged)
    ensures file.OpenUrl? ==> StepRun(q, e) == StepOpen(q, e, targets, i, Url)
    ensures file.Copying? ==> StepRun(q, e) == StepCopy(q, e, targets, i)
    ensures file.Fetching? ==>
              StepRun(q, e) == StepFetch(q, e, targets, i, file.attempt, file.offset, file.size, file.filled)
    ensures file.Closing? ==> StepRun(q, e) == StepClose(q, e, targets, i, file.way, file.bytes, file.disclosed)
    ensures file.Dropping? ==> StepRun(q, e) == StepDrop(q, e, targets, i, file.way, file.err)
  {
    hide StepLook, StepOpen, StepCopy, StepFetch, StepClose, StepDrop;
  }

  lemma RunsMove(q: Prog, e: Event)
    requires q.pc.Move?
    ensures q.pc.move == Planning ==> StepRun(q, e) == StepPlan(q, e)
    ensures q.pc.move == Finished ==> StepRun(q, e) == Write(q, e, Clean(CleanStep(0, 0, {})))
  {
    hide StepPlan, StepFile, Write;
  }

  lemma RunsClean(q: Prog, e: Event)
    requires q.pc.Clean?
    ensures var c := q.pc.clean; c.Cleaning? ==> StepRun(q, e) == StepRemove(q, e, c.i, c.count, c.ids)
    ensures var c := q.pc.clean; c.Foldering? ==> StepRun(q, e) == StepFolder(q, e, c.attempt, c.ids)
    ensures var c := q.pc.clean; c.FolderShown? ==> StepRun(q, e) == StepRemoveFolder(q, e, c.attempt, c.ids, c.shown)
    ensures q.pc.clean == Completing ==> StepRun(q, e) == Write(q, e, Leaving(Nil))
  {
    hide StepRemove, StepFolder, StepRemoveFolder, Write;
  }

  lemma RunsOut(q: Prog, e: Event)
    requires q.pc.Canceling? || q.pc.Leaving?
    ensures StepRun(q, e) == StepOut(q, e)
  {
    hide StepOut;
  }

  /** Where the silent moves lead from a point within the run. */
  function Settled(p: Prog): Prog {
    match p.pc
    case Stage(stage) => ResolveStage(p, stage)
    case Move(move) => ResolveMove(p, move)
    case Clean(clean) => ResolveClean(p, clean)
    case _ => p
  }

  lemma OutsideIs(p: Prog, e: Event)
    requires Outside(e)
    ensures Step(p, e) == StepOutside(p, e)
  {
    hide StepRun, Resolve, StepOutside;
  }

  lemma ResumeIs(p: Prog)
    requires MayStart(p)
    ensures Step(p, Resume) == Some(Started(p.durable))
  {
    hide StepRun, Resolve;
  }

  lemma StopIs(p: Prog)
    requires Running(p)
    ensures Step(p, UserCancel) == Some(p.(stopped := true, canceling := true))
    ensures Step(p, Shutdown) == Some(p.(stopped := true))
  {
    hide StepRun, Resolve;
  }

  lemma ReturnIs(p: Prog, err: Error)
    requires Resolve(p).pc == Leaving(err)
    ensures Step(p, Return(err)) == Some(Resolve(p).(pc := Off(EndOf(err, p.canceling))))
  {
    hide Resolve;
  }

  lemma BeginIs(p: Prog)
    requires p.pc.Begin?
    ensures Resolve(p) == ResolveBegin(p)
  {
    hide ResolveBegin;
  }

  lemma SettledIs(p: Prog)
    requires !p.pc.Begin?
    ensures Resolve(p) == Settled(p)
  {
    hide ResolveStage, ResolveMove, ResolveClean;
  }

  lemma SettlesStage(p: Prog)
    requires p.pc.Stage?
    ensures var s := p.pc.stage;
            && (s == CreateFailed ==> Settled(p) == Leave(p, if p.stopped then Stopped else Other))
            && (s == Submitted ==> Settled(p) == if p.stopped then Interrupt(p) else AfterEnsure(p))
            && (s == AskFailed ==> Settled(p) == AtPoll(p))
            && (s.Recorded? ==> Settled(p) == AfterRecord(p, s.o))
            && (s.PollFailed? ==> Settled(p) == AfterFailedPoll(p, s.answer))
            && (s == Reconciled ==> Settled(p) == Settle(p, Download("", "", Succeeded, false, p.d.files)))
            && (s == Completed ==> Settled(p) == AfterStaging(p))
            && (s == Adopted || s.Folded? || s == Unfound || s == Found || s == Checked ==> Settled(p) == p)
  {
    hide AfterEnsure, AtPoll, AfterRecord, AfterFailedPoll, Settle, AfterStaging, Interrupt;
  }

  lemma SettlesOut(p: Prog)
    requires p.pc.Canceling? || p.pc.Leaving?
    ensures Settled(p) == p
  {
  }

  /** Where the program is after it has written its record in the staging part. */
  function AfterWrite(stage: StagePc): Option<Pc> {
    match stage
    case Adopted => Some(Stage(Submitted))
    case Folded(o) => Some(Stage(Recorded(o)))
    case Found => Some(Stage(Reconciled))
    case Checked => Some(Stage(Completed))
    case Moving => Some(Move(Planning))
    case _ => None
  }

  lemma RunsWrite(q: Prog, stage: StagePc)
    requires q.pc == Stage(stage) && AfterWrite(stage).Some?
    ensures StepRun(q, Persist(q.d)) == Some(q.(durable := q.d, pc := AfterWrite(stage).value))
  {
  }

  lemma SettlesMove(p: Prog)
    requires p.pc.Move?
    ensures var m := p.pc.move;
            && (m == Planning ==> Settled(p) == p)
            && (m.FileFailed? ==> Settled(p) == AfterFailedFile(p, m.err))
            && (m.Filing? ==> Settled(p) == ResolveFile(p, m.targets, m.i, m.file))
  {
    hide AfterFailedFile, ResolveFile;
  }

  lemma SettlesFile(p: Prog, targets: seq<Paths.Target>, i: nat, file: FilePc)
    requires i < |targets| && p.pc == Move(Filing(targets, i, file))
    ensures !file.Opening? && !file.CopyEnded? && !file.Fetching? ==> Settled(p) == p
    ensures file.Fetching? && file.attempt < URL_REFRESHES && !p.stopped ==> Settled(p) == p
    ensures file.Fetching? && file.attempt >= URL_REFRESHES && !p.stopped ==>
        Settled(p) == OnFile(p, targets, i, Dropping(Url, Other))
    ensures file.Fetching? && p.stopped ==>
              Settled(p) == OnFile(p, targets, i, Dropping(Url, Stopped))
  {
  }

  lemma SettlesClean(p: Prog)
    requires p.pc.Clean?
    ensures var c := p.pc.clean;
            && (c.CleanStep? ==> Settled(p) == AtClean(p, c.i, c.count, c.ids))
            && (c.FolderStep? ==> Settled(p) == AtFolder(p, c.attempt, c.ids))
            && (c.Foldering? || c.FolderShown? || c.Completing? ==> Settled(p) == p)
  {
    hide AtClean, AtFolder;
  }

  // ------------------------------------------------------------------ the record on disk

  /** What becomes of the record on disk. */
  function Kept(d: Detail, e: Event): Detail {
    match e case Persist(detail) => detail case Retry(inPlace) => RetryDetail(d, inPlace) case _ => d
  }

  predicate Keeps(p: Prog, e: Event, q: Prog) {
    && q.durable == Kept(p.durable, e) && q.stopped == p.stopped && q.canceling == p.canceling
    && !q.pc.Begin? && (!e.Return? ==> Running(q))
  }

  lemma StageDurable(p: Prog, e: Event, stage: StagePc)
    requires StepStage(p, e, stage).Some? && Running(p)
    ensures Keeps(p, e, StepStage(p, e, stage).value) && Running(StepStage(p, e, stage).value)
  {
    hide AdoptInto, FoldInto, ShowsAll;
  }

  lemma MoveDurable(p: Prog, e: Event, move: MovePc)
    requires StepMove(p, e, move).Some? && Running(p)
    ensures Keeps(p, e, StepMove(p, e, move).value) && Running(StepMove(p, e, move).value)
  {
    hide StepFile, Paths.TargetsOf;
    if move.Filing? {
      FileDurable(p, e, move.targets, move.i, move.file);
    }
  }

  lemma FileDurable(p: Prog, e: Event, targets: seq<Paths.Target>, i: nat, file: FilePc)
    requires i < |targets| && StepFile(p, e, targets, i, file).Some? && Running(p)
    ensures Keeps(p, e, StepFile(p, e, targets, i, file).value) && Running(StepFile(p, e, targets, i, file).value)
  {
    hide AfterUrl, UrlFetch.Possible;
  }

  lemma CleanDurable(p: Prog, e: Event, clean: CleanPc)
    requires StepClean(p, e, clean).Some? && Running(p)
    ensures Keeps(p, e, StepClean(p, e, clean).value) && Running(StepClean(p, e, clean).value)
  {
    hide Owned, RootFolder;
  }

  lemma OutDurable(p: Prog, e: Event)
    requires StepOut(p, e).Some?
    ensures Keeps(p, e, StepOut(p, e).value)
  {
  }

  /** Only a written record, or a retry, changes the one on disk. */
  lemma StepDurable(p: Prog, e: Event)
    requires Step(p, e).Some? && !Outside(e)
    ensures Keeps(p, e, Step(p, e).value)
  {
    hide Resolve, StepStage, StepMove, StepClean, StepOut, Keeps;
    var q := Resolve(p);
    match q.pc {
      case Stage(stage) => StageDurable(q, e, stage);
      case Move(move) => MoveDurable(q, e, move);
      case Clean(clean) => CleanDurable(q, e, clean);
      case _ => OutDurable(q, e);
    }
    SameKept(p, q, e, Step(p, e).value);
  }

  lemma SameKept(p: Prog, q: Prog, e: Event, r: Prog)
    requires Keeps(q, e, r) && Stays(p, q)
    ensures Keeps(p, e, r)
  {
  }

  // ------------------------------------------------------------------------ it is safe

  /** The first `n` targets stand finished. */
  ghost predicate Landed(finished: map<string, File>, targets: seq<Paths.Target>, n: nat) {
    && n <= |targets|
    && forall k | 0 <= k < n :: targets[k].target in finished && finished[targets[k].target] == targets[k].file
  }

  predicate Said(v: View, state: ProviderState) {
    v.observed == Some(state) && (state == Canceled ==> v.saidCanceled)
  }

  /** Staging: the record on disk carries the same ids as the one in memory. */
  predicate Stages(p: Prog) {
    BeforeTransfer(p.durable.phase) && BeforeTransfer(p.d.phase)
    && p.d.providerId == p.durable.providerId && p.d.previous == p.durable.previous
  }

  predicate At(p: Prog, phase: Phase) {
    p.durable == p.d && p.d.phase == phase
  }

  predicate SameWork(o: Detail, d: Detail) {
    d.files == o.files && d.providerId == o.providerId && d.previous == o.previous && d.rootId == o.rootId
  }

  ghost predicate StageInv(p: Prog, v: View, stage: StagePc) {
    match stage
    case Submitting => Stages(p) && p.d.providerId == ""
    case CreateFailed => Stages(p)
    case Adopted =>
      && BeforeTransfer(p.durable.phase) && BeforeTransfer(p.d.phase) && p.d.previous == p.durable.previous
      && p.durable.providerId == "" && p.d.providerId != ""
    case Moving =>
      && BeforeTransfer(p.durable.phase) && p.d.phase == Transfer && p.d.order.fetch
      && KeepsIds(p.durable, p.d) && ResultsKnown(v, p.d)
    case _ =>
      && Stages(p) && p.d.providerId != ""
      && (stage.Folded? || stage.Recorded? ==> Said(v, stage.o.state))
      && (stage.Found? || stage.Reconciled? || stage.Verifying? || stage.Checked? || stage.Completed? ==>
            v.observed == Some(Succeeded))
  }

  ghost predicate FileInv(t: Paths.Target, file: FilePc) {
    match file
    case Fetching(_, offset, size, filled) => (t.size > 0 ==> size > 0) && ChunkFetch.Covers(filled, 0, offset)
    case Closing(way, bytes, disclosed, filled) =>
      bytes >= Expected(t.file, disclosed) && (way == Url ==> ChunkFetch.Covers(filled, 0, bytes))
    case Dropping(_, err) => err != Nil
    case UrlFailed(err) => err != Nil
    case _ => true
  }

  ghost predicate MoveInv(p: Prog, v: View, move: MovePc) {
    match move
    case Planning => At(p, Transfer)
    case Filing(targets, i, file) =>
      && At(p, Transfer) && Paths.Lined(p.d.files, targets) && Landed(v.finished, targets, i)
      && (i < |targets| ==> FileInv(targets[i], file))
    case FileFailed(err) => At(p, Transfer) && err != Nil
    case Finished =>
      && p.durable.phase == Transfer && p.d.phase == Cleanup && SameWork(p.durable, p.d)
      && AllFinished(v.finished, p.d.files)
  }

  ghost predicate FilesInv(p: Prog, v: View, i: nat, count: nat, ids: set<string>) {
    && At(p, Cleanup) && i <= |p.d.files| && count <= i && ids <= Ids(v.confirmed)
    && (count == i ==> forall k | 0 <= k < i :: p.d.files[k] in v.confirmed)
  }

  ghost predicate FolderInv(p: Prog, v: View, ids: set<string>) {
    && p.durable.phase == Cleanup && p.d.phase == Cleanup && SameWork(p.durable, p.d)
    && !p.d.order.keepCloud && ids <= Ids(v.confirmed) && forall f | f in p.d.files :: f in v.confirmed
  }

  ghost predicate CleanInv(p: Prog, v: View, clean: CleanPc) {
    match clean
    case CleanStep(i, count, ids) => FilesInv(p, v, i, count, ids)
    case Cleaning(i, count, ids) =>
      FilesInv(p, v, i, count, ids) && !p.d.order.keepCloud && i < |p.d.files| && p.d.files[i].remoteId != ""
    case FolderStep(_, ids) => FolderInv(p, v, ids)
    case Foldering(_, ids) => FolderInv(p, v, ids) && HasFolder(p.d)
    case FolderShown(_, ids, shown) =>
      FolderInv(p, v, ids) && HasFolder(p.d) && Owned(shown, ids)
    case Completing =>
      p.durable.phase == Cleanup && p.d.phase == Complete && SameWork(p.durable, p.d)
  }

  ghost predicate PcInv(p: Prog, v: View) {
    match p.pc
    case Off(_) => true
    case Begin => p.d == p.durable
    case Stage(stage) => StageInv(p, v, stage)
    case Move(move) => MoveInv(p, v, move) && p.d.order.fetch
    case Clean(clean) => CleanInv(p, v, clean) && p.d.order.fetch
    case Canceling(err) => err != Nil && (v.cancelAsked || v.saidCanceled)
    case Leaving(err) =>
      err == Nil ==> if p.durable.order.fetch then p.durable.phase == Complete else v.observed == Some(Succeeded)
  }

  ghost predicate Base(p: Prog, v: View) {
    && p.durable == v.durable && (!p.durable.order.fetch ==> BeforeTransfer(p.durable.phase))
    && (Running(p) ==> p.d.order == p.durable.order && (p.canceling ==> v.cancelAsked))
  }

  ghost predicate Inv(p: Prog, v: View) {
    Base(p, v) && PcInv(p, v)
  }

  lemma LandedIsFinished(finished: map<string, File>, targets: seq<Paths.Target>, files: seq<File>)
    requires Paths.Lined(files, targets) && Landed(finished, targets, |targets|)
    ensures AllFinished(finished, files)
  {
    assert Holds(finished, files, seq(|targets|, i requires 0 <= i < |targets| => targets[i].target));
  }

  lemma ResolveKeepsMove(p: Prog, v: View)
    requires Inv(p, v) && p.pc.Move?
    ensures Inv(Resolve(p), v)
  {
    hide AllFinished, StageInv, CleanInv, Paths.Lined;
    match p.pc.move
    case Filing(targets, i, _) =>
      if i >= |targets| {
        LandedIsFinished(v.finished, targets, p.d.files);
      } else {
        LinedAt(p.d.files, targets, i);
      }
    case _ =>
  }

  lemma LinedAt(files: seq<File>, targets: seq<Paths.Target>, i: nat)
    requires Paths.Lined(files, targets) && i < |targets|
    ensures targets[i].size == targets[i].file.size && targets[i].file in files
  {
  }

  lemma DoneKeeps(p: Prog, v: View)
    requires Base(p, v) && p.d.order.fetch && Running(p)
    requires p.durable.phase == Cleanup && p.d.phase == Cleanup && SameWork(p.durable, p.d)
    ensures Inv(AtDone(p), v)
  {
    hide StageInv, MoveInv, FilesInv, FolderInv, HasFolder;
  }

  lemma FolderKeeps(p: Prog, v: View, attempt: nat, ids: set<string>)
    requires FolderInv(p, v, ids) && Base(p, v) && p.d.order.fetch && Running(p)
    ensures Inv(AtFolder(p, attempt, ids), v)
  {
    hide Ids, HasFolder, StageInv, MoveInv, FilesInv, AtDone;
    DoneKeeps(p, v);
  }

  lemma CleanKeeps(p: Prog, v: View, i: nat, count: nat, ids: set<string>)
    requires FilesInv(p, v, i, count, ids) && Base(p, v) && p.d.order.fetch && Running(p)
    ensures Inv(AtClean(p, i, count, ids), v)
  {
    hide Ids, HasFolder, AtFolder, StageInv, MoveInv, AtDone, SkipBlank;
    var n := |p.d.files|;
    DoneKeeps(p, v);
    if !p.d.order.keepCloud && n > 0 && i <= n {
      var q := p.(d := p.d.(cleanupDone := count == n));
      if SkipBlank(p.d.files, i) == n {
        DoneKeeps(q, v);
        if count == n {
          FolderKeeps(q, v, 0, ids);
        }
      }
    }
  }

  lemma ResolveKeepsClean(p: Prog, v: View)
    requires Inv(p, v) && p.pc.Clean?
    ensures Inv(Resolve(p), v)
  {
    hide Ids, RootFolder, AtClean, AtFolder, StageInv, MoveInv;
    match p.pc.clean
    case CleanStep(i, count, ids) => CleanKeeps(p, v, i, count, ids);
    case FolderStep(attempt, ids) => FolderKeeps(p, v, attempt, ids);
    case _ =>
  }

  lemma EnsureKeeps(p: Prog, v: View)
    requires Base(p, v) && Stages(p) && Running(p)
    ensures Inv(AtEnsure(p), v)
  {
    hide MoveInv, CleanInv;
  }

  lemma ResolveKeepsBegin(p: Prog, v: View)
    requires Inv(p, v) && p.pc.Begin?
    ensures Inv(Resolve(p), v)
  {
    hide AtEnsure, AtClean, StageInv, CleanInv, FilesInv;
    if !p.d.order.fetch || p.d.phase == Staging {
      EnsureKeeps(p, v);
    } else if p.d.phase == NoPhase {
      EnsureKeeps(p.(d := p.d.(phase := Staging)), v);
    } else if p.d.phase == Cleanup {
      NothingCleaned(p, v);
      CleanKeeps(p, v, 0, 0, {});
    }
  }

  lemma NothingCleaned(p: Prog, v: View)
    requires At(p, Cleanup)
    ensures FilesInv(p, v, 0, 0, {})
  {
  }

  lemma ResolveKeepsStage(p: Prog, v: View)
    requires Inv(p, v) && p.pc.Stage?
    ensures Inv(Resolve(p), v)
  {
    hide MoveInv, CleanInv, Merge, Settle, AtPoll;
    match p.pc.stage
    case Recorded(o) => SettleKeeps(p, v, o); PollKeeps(p, v);
    case Reconciled => SettleKeeps(p, v, Download("", "", Succeeded, false, p.d.files));
    case AskFailed => PollKeeps(p, v);
    case PollFailed(_) => PollKeeps(p.(errors := p.errors + 1), v);
    case Submitted => PollKeeps(p, v);
    case _ =>
  }

  lemma PollKeeps(p: Prog, v: View)
    requires Base(p, v) && Stages(p) && p.d.providerId != "" && Running(p)
    ensures Inv(AtPoll(p), v)
  {
    hide MoveInv, CleanInv;
  }

  lemma SettleKeeps(p: Prog, v: View, o: Download)
    requires Base(p, v) && Stages(p) && p.d.providerId != "" && Running(p) && (o.state == Succeeded || Said(v, o.state))
    requires o.state == Succeeded ==> v.observed == Some(Succeeded)
    ensures Inv(Settle(p, o), v)
  {
    hide MoveInv, CleanInv, Merge;
  }

  lemma ResolveKeeps(p: Prog, v: View)
    requires Inv(p, v)
    ensures Inv(Resolve(p), v)
  {
    hide Inv, ResolveBegin, ResolveStage, ResolveMove, ResolveClean;
    match p.pc
    case Begin => ResolveKeepsBegin(p, v);
    case Stage(_) => ResolveKeepsStage(p, v);
    case Move(_) => ResolveKeepsMove(p, v);
    case Clean(_) => ResolveKeepsClean(p, v);
    case _ =>
  }

  lemma OutStep(p: Prog, v: View, e: Event)
    requires Inv(p, v) && StepOut(p, e).Some?
    ensures Allowed(v, e) && Inv(StepOut(p, e).value, Apply(v, e))
  {
    hide StageInv, MoveInv, CleanInv, Ids, RootFolder, AllFinished, ShowsAll, Owned;
  }

  /** A record of the staging part may be written. */
  lemma StageWrite(p: Prog, v: View, e: Event, next: StagePc)
    requires Base(p, v) && Running(p) && Write(p, e, Stage(next)).Some?
    requires BeforeTransfer(p.durable.phase) && BeforeTransfer(p.d.phase) && KeepsIds(p.durable, p.d)
    requires StageInv(p.(durable := p.d), Apply(v, e), next)
    ensures Allowed(v, e) && Inv(p.(durable := p.d, pc := Stage(next)), Apply(v, e))
  {
    hide MoveInv, CleanInv, Ids, RootFolder, AllFinished, ShowsAll, Owned;
  }

  lemma AskStep(p: Prog, v: View, e: Event)
    requires Inv(p, v) && p.pc.Stage? && (p.pc.stage.Observing? || p.pc.stage.Polling?) && e.Asked?
    requires StepObserve(p, e).Some?
    ensures Allowed(v, e) && Inv(StepObserve(p, e).value, Apply(v, e)) && Inv(StepPoll(p, e).value, Apply(v, e))
  {
    hide MoveInv, CleanInv, Ids, RootFolder, AllFinished, ShowsAll, Owned, Merge, FoldInto;
    if e.answer.Answered? {
      FoldKeeps(p.d, e.answer.download);
    }
  }

  lemma FoldKeeps(d: Detail, o: Download)
    ensures FoldInto(d, o).order == d.order && FoldInto(d, o).phase == d.phase
    ensures FoldInto(d, o).previous == d.previous && FoldInto(d, o).providerId == d.providerId
  {
  }

  lemma CreateStep(p: Prog, v: View, e: Event)
    requires Inv(p, v) && p.pc == Stage(Submitting) && StepSubmit(p, e).Some?
    ensures Allowed(v, e) && Inv(StepSubmit(p, e).value, Apply(v, e))
  {
    hide MoveInv, CleanInv, Ids, RootFolder, AllFinished, ShowsAll, Owned, Merge, AdoptInto;
    if e.created.Some? {
      AdoptKeeps(p.d, e.created.value);
    }
  }

  lemma AdoptKeeps(d: Detail, created: Download)
    ensures AdoptInto(d, created).order == d.order && AdoptInto(d, created).phase == d.phase
    ensures AdoptInto(d, created).previous == d.previous && AdoptInto(d, created).providerId == created.id
  {
  }

  lemma ListStep(p: Prog, v: View, e: Event)
    requires Inv(p, v) && p.pc.Stage? && e.Verified?
    requires (p.pc.stage.Relisting? && StepRelist(p, e).Some?) || (p.pc.stage.Verifying? && StepVerify(p, e).Some?)
    ensures Allowed(v, e) && Inv(StepStage(p, e, p.pc.stage).value, Apply(v, e))
  {
    hide MoveInv, CleanInv, Ids, RootFolder, AllFinished, ShowsAll, Owned, Merge;
  }

  lemma UnfoundStep(p: Prog, v: View, e: Event)
    requires Inv(p, v) && p.pc == Stage(Unfound) && StepUnfound(p, e).Some?
    ensures Allowed(v, e) && Inv(StepUnfound(p, e).value, Apply(v, e))
  {
    hide MoveInv, CleanInv, Ids, RootFolder, AllFinished, ShowsAll, Owned, Merge;
  }

  lemma PollIsAsked(p: Prog, e: Event)
    requires StepPoll(p, e).Some?
    ensures e.Asked? && StepObserve(p, e).Some?
  {
  }

  lemma ObserveIsAsked(p: Prog, e: Event)
    requires StepObserve(p, e).Some?
    ensures e.Asked?
  {
  }

  lemma MoveWrite(p: Prog, v: View, e: Event)
    requires Inv(p, v) && p.pc == Stage(Moving) && Write(p, e, Move(Planning)).Some?
    ensures Allowed(v, e) && Inv(Write(p, e, Move(Planning)).value, Apply(v, e))
  {
    hide CleanInv, Ids, RootFolder, AllFinished, ShowsAll, Owned;
  }

  lemma VerifyIsVerified(p: Prog, e: Event)
    requires StepVerify(p, e).Some? || StepRelist(p, e).Some?
    ensures e.Verified?
  {
  }

  lemma StageStep(p: Prog, v: View, e: Event)
    requires Inv(p, v) && p.pc.Stage? && StepStage(p, e, p.pc.stage).Some?
    ensures Allowed(v, e) && Inv(StepStage(p, e, p.pc.stage).value, Apply(v, e))
  {
    hide Allowed, MoveInv, CleanInv, StepSubmit, StepObserve, StepPoll, StepRelist, StepVerify, StepUnfound, Write;
    match p.pc.stage {
      case Submitting => CreateStep(p, v, e);
      case Observing => ObserveIsAsked(p, e); AskStep(p, v, e);
      case Polling => PollIsAsked(p, e); AskStep(p, v, e);
      case Relisting => VerifyIsVerified(p, e); ListStep(p, v, e);
      case Verifying => VerifyIsVerified(p, e); ListStep(p, v, e);
      case Unfound => UnfoundStep(p, v, e);
      case Moving => MoveWrite(p, v, e);
      case Adopted => WriteIs(p, e, Stage(Submitted)); StageWrite(p, v, e, Submitted);
      case Folded(o) => WriteIs(p, e, Stage(Recorded(o))); StageWrite(p, v, e, Recorded(o));
      case Found => WriteIs(p, e, Stage(Reconciled)); StageWrite(p, v, e, Reconciled);
      case Checked => WriteIs(p, e, Stage(Completed)); StageWrite(p, v, e, Completed);
      case _ =>
    }
  }

  lemma WriteIs(p: Prog, e: Event, pc: Pc)
    requires Write(p, e, pc).Some?
    ensures e == Persist(p.d) && Write(p, e, pc).value == p.(durable := p.d, pc := pc)
  {
  }

  lemma UrlKeeps(t: Paths.Target, attempt: nat, offset: nat, size: int, filled: set<int>, u: UrlFetch.Url)
    requires FileInv(t, Fetching(attempt, offset, size, filled)) && UrlFetch.Possible(offset, size, u)
    requires t.size == t.file.size
    ensures FileInv(t, AfterUrl(attempt, offset, size, filled, u))
  {
    hide UrlFetch.Run, UrlFetch.Written, UrlFetch.Possible;
    UrlFetch.DoneIsWhole(offset, size, u);
  }

  /** Touching the destination of target `n` leaves the ones before it as they are. */
  lemma StillLanded(was: map<string, File>, now: map<string, File>, files: seq<File>, targets: seq<Paths.Target>,
      n: nat)
    requires n < |targets| && Paths.Lined(files, targets) && Landed(was, targets, n)
    requires now == was - {targets[n].target} || now == was[targets[n].target := targets[n].file]
    ensures Landed(now, targets, n)
    ensures now == was[targets[n].target := targets[n].file] ==> Landed(now, targets, n + 1)
  {
  }

  /** The transfer goes on at another point of the same file, or fails. */
  lemma FileGoesOn(p: Prog, v: View, w: View, file: FilePc)
    requires Inv(p, v) && p.pc.Move? && p.pc.move.Filing? && p.pc.move.i < |p.pc.move.targets|
    requires w == v.(finished := w.finished) && Landed(w.finished, p.pc.move.targets, p.pc.move.i)
    requires FileInv(p.pc.move.targets[p.pc.move.i], file)
    ensures Inv(OnFile(p, p.pc.move.targets, p.pc.move.i, file), w) && Inv(FailFile(p, Other), w)
    ensures forall err | err != Nil :: Inv(FailFile(p, err), w)
  {
    hide StageInv, CleanInv, AllFinished, Landed, FileInv, Paths.Lined;
  }

  predicate AtFile(p: Prog) {
    p.pc.Move? && p.pc.move.Filing? && p.pc.move.i < |p.pc.move.targets|
  }

  lemma OpenStep(p: Prog, v: View, e: Event)
    requires Inv(p, v) && AtFile(p) && e.OpenTarget? && e.path == p.pc.move.targets[p.pc.move.i].target
    ensures Allowed(v, e) && Landed(Apply(v, e).finished, p.pc.move.targets, p.pc.move.i)
    ensures Apply(v, e) == v.(finished := Apply(v, e).finished)
  {
    hide StageInv, CleanInv, AllFinished, Landed, FileInv, ShowsAll, Owned, RootFolder, Ids;
    StillLanded(v.finished, Apply(v, e).finished, p.d.files, p.pc.move.targets, p.pc.move.i);
  }

  lemma CloseStep(p: Prog, v: View, e: Event)
    requires Inv(p, v) && AtFile(p) && p.pc.move.file.Closing? && StepMove(p, e, p.pc.move).Some?
    ensures Allowed(v, e) && Inv(StepMove(p, e, p.pc.move).value, Apply(v, e))
  {
    hide StageInv, CleanInv, AllFinished, Landed, ShowsAll, Owned, RootFolder, Ids;
    if e.FinishTarget? {
      StillLanded(v.finished, Apply(v, e).finished, p.d.files, p.pc.move.targets, p.pc.move.i);
    }
  }

  lemma DropStep(p: Prog, v: View, e: Event)
    requires Inv(p, v) && AtFile(p) && p.pc.move.file.Dropping? && StepMove(p, e, p.pc.move).Some?
    ensures Allowed(v, e) && Inv(StepMove(p, e, p.pc.move).value, Apply(v, e))
  {
    hide StageInv, CleanInv, AllFinished, Landed, ShowsAll, Owned, RootFolder, Ids;
    StillLanded(v.finished, Apply(v, e).finished, p.d.files, p.pc.move.targets, p.pc.move.i);
    FileGoesOn(p, v, Apply(v, e), UrlFailed(p.pc.move.file.err));
  }

  lemma FillStep(p: Prog, v: View, e: Event)
    requires Inv(p, v) && AtFile(p) && (p.pc.move.file.Copying? || p.pc.move.file.Fetching?) &&
        StepMove(p, e, p.pc.move).Some?
    ensures Allowed(v, e) && Inv(StepMove(p, e, p.pc.move).value, Apply(v, e))
  {
    hide StageInv, CleanInv, AllFinished, Landed, ShowsAll, Owned, RootFolder, Ids, AfterUrl, UrlFetch.Possible;
    var t := p.pc.move.targets[p.pc.move.i];
    match p.pc.move.file
    case Fetching(attempt, offset, size, filled) =>
      if e.url.Some? {
        UrlKeeps(t, attempt, offset, size, filled, e.url.value);
      }
    case _ =>
  }

  lemma LookStep(p: Prog, v: View, e: Event)
    requires Inv(p, v) && AtFile(p) && (p.pc.move.file.Looking? || p.pc.move.file.UrlFailed?)
    requires StepMove(p, e, p.pc.move).Some?
    ensures Allowed(v, e) && Inv(StepMove(p, e, p.pc.move).value, Apply(v, e))
  {
    hide StageInv, CleanInv, AllFinished, ShowsAll, Owned, RootFolder, Ids, Landed;
    FileGoesOn(p, v, v, OpenStaged);
    FileGoesOn(p, v, v, OpenUrl);
  }

  lemma BeginFile(p: Prog, v: View, e: Event)
    requires Inv(p, v) && AtFile(p) && (p.pc.move.file.OpenStaged? || p.pc.move.file.OpenUrl?)
    requires StepMove(p, e, p.pc.move).Some?
    ensures Allowed(v, e) && Inv(StepMove(p, e, p.pc.move).value, Apply(v, e))
  {
    hide StageInv, CleanInv, AllFinished, Landed, ShowsAll, Owned, RootFolder, Ids, Allowed, Apply, Inv;
    var t := p.pc.move.targets[p.pc.move.i];
    OpenStep(p, v, e);
    FileGoesOn(p, v, Apply(v, e), Copying);
    FileGoesOn(p, v, Apply(v, e), UrlFailed(Other));
    NothingFilled(t);
    FileGoesOn(p, v, Apply(v, e), Fetching(0, 0, t.size, {}));
  }

  lemma NothingFilled(t: Paths.Target)
    ensures FileInv(t, Fetching(0, 0, t.size, {}))
  {
  }

  lemma PlanStep(p: Prog, v: View, e: Event)
    requires Inv(p, v) && p.pc == Move(Planning) && StepPlan(p, e).Some?
    ensures Allowed(v, e) && Inv(StepPlan(p, e).value, Apply(v, e))
  {
    hide StageInv, CleanInv, AllFinished, ShowsAll, Owned, RootFolder, Ids, Paths.TargetsOf, Paths.Lined;
    if Paths.TargetsOf(p.d.files, p.d.order.flat, p.d.order.to, e.isDirectory).Ok? {
      Paths.TargetsAreLined(p.d.files, p.d.order.flat, p.d.order.to, e.isDirectory);
    }
  }

  lemma FinishedStep(p: Prog, v: View, e: Event)
    requires Inv(p, v) && p.pc == Move(Finished) && Write(p, e, Clean(CleanStep(0, 0, {}))).Some?
    ensures Allowed(v, e) && Inv(Write(p, e, Clean(CleanStep(0, 0, {}))).value, Apply(v, e))
  {
    hide StageInv, AllFinished, ShowsAll, Owned, RootFolder, Ids;
  }

  lemma TransferStep(p: Prog, v: View, e: Event)
    requires Inv(p, v) && p.pc.Move? && StepMove(p, e, p.pc.move).Some?
    ensures Allowed(v, e) && Inv(StepMove(p, e, p.pc.move).value, Apply(v, e))
  {
    hide Inv, Allowed, Apply, StepFile, StepPlan, Write;
    match p.pc.move
    case Planning => PlanStep(p, v, e);
    case Finished => FinishedStep(p, v, e);
    case FileFailed(_) =>
    case Filing(targets, i, file) =>
      match file {
        case Opening => NoStep(p, e);
        case Looking => LookStep(p, v, e);
        case UrlFailed(_) => LookStep(p, v, e);
        case OpenStaged => BeginFile(p, v, e);
        case OpenUrl => BeginFile(p, v, e);
        case Copying => FillStep(p, v, e);
        case Fetching(_, _, _, _) => FillStep(p, v, e);
        case Closing(_, _, _, _) => CloseStep(p, v, e);
        case Dropping(_, _) => DropStep(p, v, e);
        case CopyEnded(_, _) => NoStep(p, e);
      }
  }

  lemma NoStep(p: Prog, e: Event)
    requires AtFile(p) && (p.pc.move.file.CopyEnded? || p.pc.move.file.Opening?)
    ensures StepMove(p, e, p.pc.move).None?
  {
  }

  lemma MoreIds(before: set<File>, file: File)
    ensures Ids(before + {file}) == Ids(before) + {file.remoteId}
  {
    assert file in before + {file};
  }

  lemma RemoveStep(p: Prog, v: View, e: Event)
    requires Inv(p, v) && p.pc.Clean? && p.pc.clean.Cleaning? && StepClean(p, e, p.pc.clean).Some?
    ensures Allowed(v, e) && Inv(StepClean(p, e, p.pc.clean).value, Apply(v, e))
  {
    hide StageInv, MoveInv, AllFinished, ShowsAll, Owned, RootFolder, Ids;
    MoreIds(v.confirmed, e.file);
  }

  lemma OwnedByMore(nodes: seq<Node>, ids: set<string>, more: set<string>)
    requires Owned(nodes, ids) && ids <= more
    ensures Owned(nodes, more)
  {
  }

  lemma RemoveFolderStep(p: Prog, v: View, e: Event)
    requires Inv(p, v) && p.pc.Clean? && !p.pc.clean.Cleaning? && StepClean(p, e, p.pc.clean).Some?
    ensures Allowed(v, e) && Inv(StepClean(p, e, p.pc.clean).value, Apply(v, e))
  {
    hide StageInv, MoveInv, AllFinished, ShowsAll, Owned, HasFolder, RootFolder, Ids, FilesInv;
    if p.pc.clean.FolderShown? {
      OwnedByMore(p.pc.clean.shown, p.pc.clean.ids, Ids(v.confirmed));
      FolderIs(p.d);
    }
  }

  lemma FolderIs(d: Detail)
    requires HasFolder(d)
    ensures d.rootId != "" && RootFolder(d.files) != ""
  {
  }

  lemma OutsideStep(p: Prog, v: View, e: Event)
    requires Inv(p, v) && Outside(e) && StepOutside(p, e).Some?
    ensures Allowed(v, e) && Inv(StepOutside(p, e).value, Apply(v, e))
  {
    hide StageInv, MoveInv, CleanInv, Ids, RootFolder, AllFinished, ShowsAll, Owned;
    if e.UserCancel? || e.Shutdown? {
      FlagsKeep(p, v, StepOutside(p, e).value, Apply(v, e));
    }
  }

  /** The promises at a point do not speak of the flags. */
  lemma FlagsKeep(p: Prog, v: View, q: Prog, w: View)
    requires PcInv(p, v) && q == p.(stopped := q.stopped, canceling := q.canceling)
    requires w == v.(cancelAsked := w.cancelAsked) && (v.cancelAsked ==> w.cancelAsked)
    ensures PcInv(q, w)
  {
    hide Ids, RootFolder, AllFinished, Owned, Paths.Lined;
  }

  lemma SafeStep(p: Prog, v: View, e: Event)
    requires Inv(p, v) && Step(p, e).Some?
    ensures Allowed(v, e) && Inv(Step(p, e).value, Apply(v, e))
  {
    hide Inv, Allowed, Apply, Resolve, StepOutside, StepStage, StepMove, StepClean, StepOut;
    if Outside(e) {
      OutsideStep(p, v, e);
    } else {
      ResolveKeeps(p, v);
      var q := Resolve(p);
      match q.pc {
        case Stage(_) => StageStep(q, v, e);
        case Move(_) => TransferStep(q, v, e);
        case Clean(clean) =>
          if clean.Cleaning? {
            RemoveStep(q, v, e);
          } else {
            RemoveFolderStep(q, v, e);
          }
        case _ => OutStep(q, v, e);
      }
    }
  }

  /** Every log of the task is safe, so what is proved of safe logs holds of the task. */
  lemma {:induction false} HistoryIsSafe(init: Detail, log: seq<Event>)
    requires History(init, log)
    ensures Safe(init, log) && Inv(Trace(init, log).value, See(init, log))
  {
    hide Inv, Allowed, Apply, Step, Safe, See;
    if log == [] {
      StartInv(init);
    } else {
      var n := |log| - 1;
      var e := log[n];
      HistoryIsSafe(init, log[..n]);
      SafeStep(Trace(init, log[..n]).value, See(init, log[..n]), e);
      SeeNext(init, log[..n], e);
      assert log[..n] + [e] == log;
    }
  }

  /** A task is over only after a run that returned without an error, and nothing happens to it then. */
  lemma OverIsSuccess(init: Detail, log: seq<Event>)
    requires Trace(init, log).Some? && Trace(init, log).value.pc == Off(Done)
    ensures log != [] && log[|log| - 1] == Return(Nil)
    ensures forall e :: Trace(init, log + [e]).None?
  {
    hide Step;
    var p := Trace(init, log[..|log| - 1]).value;
    OverStep(p, log[|log| - 1]);
    forall e ensures Trace(init, log + [e]).None? {
      TraceNext(init, log, e);
      NothingAfter(Trace(init, log).value, e);
    }
  }

  lemma OverStep(p: Prog, e: Event)
    requires Step(p, e).Some? && Step(p, e).value.pc == Off(Done)
    ensures e == Return(Nil)
  {
    hide Resolve, StepRun;
    if !Outside(e) {
      StepDurable(p, e);
      ReturnStep(Resolve(p), e);
    }
  }

  lemma ReturnStep(q: Prog, e: Event)
    requires e.Return? && StepRun(q, e).Some? && StepRun(q, e).value.pc == Off(Done)
    ensures e == Return(Nil)
  {
    hide StepStage, StepMove, StepClean;
    match q.pc
    case Stage(stage) => StageDurable(q, e, stage);
    case Move(move) => MoveDurable(q, e, move);
    case Clean(clean) => CleanDurable(q, e, clean);
    case _ =>
  }

  lemma NothingAfter(p: Prog, e: Event)
    requires p.pc == Off(Done)
    ensures Step(p, e).None?
  {
  }

  lemma StartInv(init: Detail)
    requires Fresh(init)
    ensures Inv(Trace(init, []).value, See(init, [])) && Safe(init, [])
  {
    hide Step, StageInv, MoveInv, CleanInv;
  }
}
