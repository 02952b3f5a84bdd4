/** What an offline task does to the world, and what it may do next.

A task is judged by its log: the durable records it writes, the answers it gets,
the destination files it opens, finishes and discards, the provider work it
submits and cancels, and the cloud copies it removes.  `See` is the world after a
log.  `Allowed` says which events keep the promises of an offline task; the
theorems here hold of every log that is `Safe`, and `OfflineProgram` shows that the
logs of the runner are. */
module OfflineLog {
  import opened Wrappers
  import opened ResultFiles
  import opened StagedTree
  import Paths
  import UrlFetch

  datatype Phase = NoPhase | Staging | Transfer | Cleanup | Complete

  datatype ProviderState = Pending | Succeeded | Failed | Canceled

  /** What the user asked for; `fetch` is the type of the task. */
  datatype Order = Order(fetch: bool, keepCloud: bool, flat: bool, accelerated: bool, to: Paths.Destination)

  /** offlineDetail, the durable record of a task. */
  datatype Detail = Detail(
    order: Order,
    providerId: string,
    previous: seq<string>,
    rootId: string,
    phase: Phase,
    available: bool,
    files: seq<File>,
    transferDone: bool,
    cleanupDone: bool)

  datatype Download = Download(id: string, remoteId: string, state: ProviderState, available: bool, files: seq<File>)

  datatype Answer = Answered(download: Download) | Missing | Transient | Refused

  datatype Error = Nil | Stopped | Aborted | Other

  datatype Way = Staged | Url

  /** The events of a log, each with the answer it got.

      The outside retries the task, starts a run of it (`Resume`), cancels it before its run starts (`Refuse`) or
      while it runs, or shuts down.  A run returns, unless its process dies.  In between it writes its record,
      submits (`Create`) and asks for provider work, lists the staged files, waits for a task that is missing, plans
      its targets, looks whether a staged file is readable, opens, fills, finishes and discards destinations, and
      removes what it staged. */
  datatype Event =
    | Retry(inPlace: bool)
    | Resume
    | Refuse
    | UserCancel
    | Shutdown
    | Return(err: Error)
    | Persist(detail: Detail)
    | Create(created: Option<Download>)
    | Asked(id: string, answer: Answer)
    | Verified(files: seq<File>, listing: Option<seq<Node>>)
    | Waited(overdue: bool)
    | CancelProvider(id: string)
    | Planned(isDirectory: bool, prepared: bool, urls: bool)
    | Looked(readable: bool)
    | OpenTarget(path: string, way: Way, ok: bool)
    | Copied(bytes: nat, ok: bool)
    | Streamed(url: Option<UrlFetch.Url>)
    | FinishTarget(path: string, file: File, bytes: nat, disclosed: int)
    | CloseFailed
    | DiscardTarget(path: string)
    | RemoveFile(file: File, gone: bool)
    | ListedFolder(listing: Option<seq<Node>>)
    | RemoveFolder(root: string, folder: string, shown: seq<Node>, gone: bool)

  /** `finished` holds the destination files that were finished and not touched since; `removed` the staged files
      whose removal was ever asked for, and `restarted` says that the task was started over after that.  The others
      speak of the current run, `confirmed` being the files whose removal the provider confirmed. */
  datatype View = View(
    durable: Detail,
    finished: map<string, File>,
    removed: set<File>,
    restarted: bool,
    confirmed: set<File>,
    cancelAsked: bool,
    saidCanceled: bool,
    observed: Option<ProviderState>)

  predicate BeforeTransfer(p: Phase) {
    p == NoPhase || p == Staging
  }

  predicate Restarts(p: Phase) {
    p == NoPhase || p == Staging || p == Complete
  }

  /** retryOfflineTask: a staging or completed task starts over, anything else resumes as it is. */
  function RetryDetail(d: Detail, inPlace: bool): Detail {
    if !Restarts(d.phase) then d
    else
      var e :=
        if d.providerId != "" && !inPlace
        then d.(previous := d.previous + [d.providerId], providerId := "", rootId := "") else d;
      e.(phase := Staging, available := false, files := [], transferDone := false, cleanupDone := false)
  }

  function Apply(v: View, e: Event): View {
    match e
    case Persist(d) => v.(durable := d)
    case Retry(inPlace) =>
      v.(durable := RetryDetail(v.durable, inPlace), restarted := v.restarted ||
          (Restarts(v.durable.phase) && v.removed != {}))
    case Resume => v.(cancelAsked := false, saidCanceled := false, observed := None, confirmed := {})
    case UserCancel => v.(cancelAsked := true)
    case Asked(_, a) =>
      if !a.Answered? then v
      else v.(observed := Some(a.download.state), saidCanceled := v.saidCanceled || a.download.state == Canceled)
    case Verified(files, listing) => if ShowsAll(listing, files) then v.(observed := Some(Succeeded)) else v
    case OpenTarget(p, _, _) => v.(finished := v.finished - {p})
    case FinishTarget(p, f, _, _) => v.(finished := v.finished[p := f])
    case DiscardTarget(p) => v.(finished := v.finished - {p})
    case RemoveFile(f, gone) =>
      v.(removed := v.removed + {f}, confirmed := if gone then v.confirmed + {f} else v.confirmed)
    case _ => v
  }

  function See(init: Detail, log: seq<Event>): View {
    if log == [] then View(init, map[], {}, false, {}, false, false, None)
    else Apply(See(init, log[..|log| - 1]), log[|log| - 1])
  }

  // ----------------------------------------------------------------- what is allowed

  /** Every file stands finished at a destination of its own. */
  ghost predicate AllFinished(finished: map<string, File>, files: seq<File>) {
    exists paths: seq<string> :: Holds(finished, files, paths)
  }

  ghost predicate Holds(finished: map<string, File>, files: seq<File>, paths: seq<string>) {
    && |paths| == |files|
    && (forall i | 0 <= i < |paths| :: paths[i] in finished && finished[paths[i]] == files[i])
    && (forall i, j | 0 <= i < j < |paths| :: paths[i] != paths[j])
  }

  /** The staged results are known: the provider succeeded, or is still busy but
      has declared a non-empty result set complete. */
  predicate ResultsKnown(v: View, d: Detail) {
    v.observed == Some(Succeeded) || (v.observed == Some(Pending) && d.available && d.files != [])
  }

  predicate KeepsIds(o: Detail, d: Detail) {
    d.previous == o.previous && (o.providerId != "" ==> d.providerId == o.providerId)
  }

  /** Which record may follow which: phases go forward one at a time, the files are
      fixed once the transfer has begun, and cleanup begins only over finished files. */
  ghost predicate MayPersist(v: View, d: Detail) {
    var o := v.durable;
    && d.order == o.order && KeepsIds(o, d)
    && (BeforeTransfer(o.phase) ==> BeforeTransfer(d.phase) || (d.phase == Transfer && ResultsKnown(v, d)))
    && (!BeforeTransfer(o.phase) ==> d.files == o.files)
    && (o.phase == Transfer ==> d.phase == Transfer || (d.phase == Cleanup && AllFinished(v.finished, d.files)))
    && (o.phase == Cleanup ==> d.phase == Cleanup || d.phase == Complete)
    && (o.phase == Complete ==> d.phase == Complete)
  }

  /** The length a transfer is held to: the total its download URLs disclosed last, else what the provider reported. */
  function Expected(f: File, disclosed: int): int {
    if disclosed > 0 then disclosed else f.size
  }

  function Ids(files: set<File>): set<string> {
    set f | f in files :: f.remoteId
  }

  ghost predicate Allowed(v: View, e: Event) {
    match e
    case Persist(d) => MayPersist(v, d)
    case Create(_) => v.durable.providerId == ""
    case Asked(id, _) => id != "" && v.durable.providerId == id
    case CancelProvider(_) => v.cancelAsked || v.saidCanceled
    case Return(err) =>
      err == Nil ==> if v.durable.order.fetch then v.durable.phase == Complete else v.observed == Some(Succeeded)
    case OpenTarget(_, _, _) => v.durable.phase == Transfer
    case FinishTarget(_, f, bytes, disclosed) =>
      v.durable.phase == Transfer && f in v.durable.files && bytes >= Expected(f, disclosed)
    case DiscardTarget(_) => v.durable.phase == Transfer
    case RemoveFile(f, _) => v.durable.phase == Cleanup && !v.durable.order.keepCloud && f in v.durable.files &&
        f.remoteId != ""
    case RemoveFolder(root, folder, listing, _) =>
      && v.durable.phase == Cleanup && !v.durable.order.keepCloud
      && root == v.durable.rootId != "" && folder == RootFolder(v.durable.files) != ""
      && (forall f | f in v.durable.files :: f in v.confirmed)
      && Owned(listing, Ids(v.confirmed))
    case _ => true
  }

  ghost predicate Safe(init: Detail, log: seq<Event>) {
    forall i | 0 <= i < |log| :: Allowed(See(init, log[..i]), log[i])
  }

  // ------------------------------------------------------------------- whole histories

  lemma SeeNext(init: Detail, log: seq<Event>, e: Event)
    ensures See(init, log + [e]) == Apply(See(init, log), e)
    ensures Safe(init, log) && Allowed(See(init, log), e) ==> Safe(init, log + [e])
  {
    var more := log + [e];
    assert more[..|log|] == log;
    forall i | 0 <= i < |log| ensures more[..i] == log[..i] && more[i] == log[i] {
    }
  }

  lemma SafePrefix(init: Detail, log: seq<Event>, k: nat)
    requires Safe(init, log) && k <= |log|
    ensures Safe(init, log[..k])
  {
    forall i | 0 <= i < k ensures log[..k][..i] == log[..i] {
    }
  }

  lemma SafeLast(init: Detail, log: seq<Event>)
    requires Safe(init, log) && log != []
    ensures var n := |log| - 1; Safe(init, log[..n]) && Allowed(See(init, log[..n]), log[n])
    ensures See(init, log) == Apply(See(init, log[..|log| - 1]), log[|log| - 1])
  {
    SafePrefix(init, log, |log| - 1);
  }

  /** What holds of the world at every moment of a safe history. */
  ghost predicate Sound(v: View) {
    && (v.durable.phase == Cleanup || v.durable.phase == Complete ==> AllFinished(v.finished, v.durable.files))
    && v.confirmed <= v.removed
    && (!v.restarted && v.removed != {} ==>
          (v.durable.phase == Cleanup || v.durable.phase == Complete) && !v.durable.order.keepCloud)
    && (!v.restarted ==> forall f | f in v.removed :: f in v.durable.files)
    && (v.durable.order.keepCloud ==> v.removed == {})
  }

  /** A task that is just created. */
  predicate Fresh(d: Detail) {
    BeforeTransfer(d.phase) && d.providerId == "" && d.previous == [] && d.files == []
  }

  lemma SoundStep(v: View, e: Event)
    requires Sound(v) && Allowed(v, e)
    ensures Sound(Apply(v, e))
  {
    hide AllFinished, Ids, Owned, ShowsAll, RootFolder;
  }

  lemma {:induction false} SafeIsSound(init: Detail, log: seq<Event>)
    requires Fresh(init) && Safe(init, log)
    ensures Sound(See(init, log))
  {
    if log != [] {
      hide Allowed, Apply, Sound, Safe;
      var n := |log| - 1;
      SafeLast(init, log);
      SafeIsSound(init, log[..n]);
      SoundStep(See(init, log[..n]), log[n]);
    }
  }

  /** The cloud copy goes last: at the moment a staged file or its folder is
      removed, retention was not asked for and every result file of the task stands
      finished at its own destination, untouched since.  A folder goes only if all result
      files were confirmed removed in this run and lie in that folder, properly below the
      parse destination, where nothing else was listed. */
  lemma RemovalIsLast(init: Detail, log: seq<Event>, i: nat)
    requires Fresh(init) && Safe(init, log) && i < |log| && (log[i].RemoveFile? || log[i].RemoveFolder?)
    ensures var v := See(init, log[..i]);
            && v.durable.phase == Cleanup && !v.durable.order.keepCloud
            && AllFinished(v.finished, v.durable.files)
            && (log[i].RemoveFile? ==> log[i].file in v.durable.files)
            && (log[i].RemoveFolder? ==>
                  && LeavesUnder(log[i].shown) <= Ids(v.confirmed)
                  && (forall f | f in v.durable.files :: f in v.confirmed && Under(Trimmed(f), log[i].folder))
                  && log[i].root == v.durable.rootId)
  {
    SafePrefix(init, log, i);
    SafeIsSound(init, log[..i]);
    if log[i].RemoveFolder? {
      var v := See(init, log[..i]);
      forall f | f in v.durable.files ensures Under(Trimmed(f), log[i].folder) {
        var k :| 0 <= k < |v.durable.files| && v.durable.files[k] == f;
        AllInRootFolder(v.durable.files, k);
      }
    }
  }

  /** Nothing is lost: at every moment, crashes and restarts of the process included, a
      staged file that was ever removed stands finished at a destination, unless the task
      was started over after that removal; and with retention asked for nothing is removed. */
  lemma NothingIsLost(init: Detail, log: seq<Event>, f: File)
    requires Fresh(init) && Safe(init, log) && f in See(init, log).removed
    ensures !See(init, log).durable.order.keepCloud
    ensures !See(init, log).restarted ==> exists p :: p in See(init, log).finished && See(init, log).finished[p] == f
  {
    SafeIsSound(init, log);
    var v := See(init, log);
    if !v.restarted {
      var paths :| Holds(v.finished, v.durable.files, paths);
      var i :| 0 <= i < |v.durable.files| && v.durable.files[i] == f;
      assert paths[i] in v.finished;
    }
  }

  /** Starting over is a retry of a completed task with a removal behind it. */
  lemma {:induction false} RestartIsARetry(init: Detail, log: seq<Event>)
    requires Fresh(init) && Safe(init, log) && See(init, log).restarted
    ensures exists i, j ::
        0 <= i < j < |log| && log[i].RemoveFile? && log[j].Retry? && See(init, log[..j]).durable.phase == Complete
  {
    hide Allowed, Safe, Sound;
    var n := |log| - 1;
    RestartedSomewhere(init, log);
    SafeLast(init, log);
    if See(init, log[..n]).restarted {
      RestartIsARetry(init, log[..n]);
      var i, j :| 0 <= i < j < n && log[..n][i].RemoveFile? && log[..n][j].Retry? &&
        See(init, log[..n][..j]).durable.phase == Complete;
      assert log[..n][..j] == log[..j];
      assert log[i].RemoveFile? && log[j].Retry?;
    } else {
      SafeIsSound(init, log[..n]);
      var f := RestartStep(See(init, log[..n]), log[n]);
      RemovedWasAsked(init, log[..n], f);
      var i :| 0 <= i < n && log[..n][i].RemoveFile?;
      assert log[i].RemoveFile? && log[n].Retry?;
    }
  }

  lemma RestartedSomewhere(init: Detail, log: seq<Event>)
    requires See(init, log).restarted
    ensures log != []
  {
  }

  lemma RestartStep(v: View, e: Event) returns (f: File)
    requires Sound(v) && !v.restarted && Apply(v, e).restarted
    ensures e.Retry? && f in v.removed && v.durable.phase == Complete
  {
    f :| f in v.removed;
  }

  lemma {:induction false} RemovedWasAsked(init: Detail, log: seq<Event>, f: File)
    requires f in See(init, log).removed
    ensures exists i :: 0 <= i < |log| && log[i].RemoveFile?
  {
    var n := |log| - 1;
    if log[n].RemoveFile? {
    } else {
      RemovedWasAsked(init, log[..n], f);
      var i :| 0 <= i < n && log[..n][i].RemoveFile?;
      assert log[i].RemoveFile?;
    }
  }

  /** A fetch that reports success has every result file finished at a destination of its own, and a plain
      download was seen to succeed in that run. */
  lemma SuccessIsWhole(init: Detail, log: seq<Event>, i: nat)
    requires Fresh(init) && Safe(init, log) && i < |log| && log[i] == Return(Nil)
    ensures var v := See(init, log[..i]);
            if v.durable.order.fetch then AllFinished(v.finished, v.durable.files) else v.observed == Some(Succeeded)
  {
    SafePrefix(init, log, i);
    SafeIsSound(init, log[..i]);
  }

  /** Once a copy was removed no destination is opened or discarded, unless the task was started over. */
  lemma DestinationsAreLeftAlone(init: Detail, log: seq<Event>, i: nat)
    requires Fresh(init) && Safe(init, log) && i < |log| && (log[i].OpenTarget? || log[i].DiscardTarget?)
    ensures See(init, log[..i]).removed == {} || See(init, log[..i]).restarted
  {
    SafePrefix(init, log, i);
    SafeIsSound(init, log[..i]);
  }

  // --------------------------------------------------------------------- provider ids

  predicate Knows(d: Detail, id: string) {
    id == d.providerId || id in d.previous
  }

  lemma KnowsStep(v: View, e: Event, id: string)
    requires Allowed(v, e) && id != "" && Knows(v.durable, id)
    ensures Knows(Apply(v, e).durable, id)
  {
    hide AllFinished, Ids, Owned, ShowsAll, RootFolder;
  }

  /** A provider id once written down is never forgotten: it stays the current one or is among the previous. */
  lemma {:induction false} IdsAreConserved(init: Detail, log: seq<Event>, k: nat, id: string)
    requires Safe(init, log) && k <= |log| && id != "" && Knows(See(init, log[..k]).durable, id)
    ensures Knows(See(init, log).durable, id)
    decreases |log|
  {
    hide Allowed, Apply, Safe, See, Knows;
    if k == |log| {
      assert log[..k] == log;
    } else {
      var n := |log| - 1;
      assert log[..n][..k] == log[..k];
      SafeLast(init, log);
      IdsAreConserved(init, log[..n], k, id);
      KnowsStep(See(init, log[..n]), log[n], id);
    }
  }

  lemma {:induction false} IdStays(init: Detail, log: seq<Event>, k: nat)
    requires Safe(init, log) && k <= |log| && See(init, log[..k]).durable.providerId != ""
    requires forall i | k <= i < |log| :: !log[i].Retry?
    ensures See(init, log).durable.providerId == See(init, log[..k]).durable.providerId
    decreases |log|
  {
    if k == |log| {
      assert log[..k] == log;
    } else {
      hide Allowed, Apply, Safe, See;
      var n := |log| - 1;
      assert log[..n][..k] == log[..k];
      SafeLast(init, log);
      IdStays(init, log[..n], k);
      IdStep(See(init, log[..n]), log[n]);
    }
  }

  lemma IdStep(v: View, e: Event)
    requires Allowed(v, e) && !e.Retry? && v.durable.providerId != ""
    ensures Apply(v, e).durable.providerId == v.durable.providerId
  {
    hide AllFinished, Ids, Owned, ShowsAll, RootFolder;
  }

  /** The source is submitted once: after a provider id was written down, only a retry of the task can lead
      to another submission. */
  lemma SubmittedOnce(init: Detail, log: seq<Event>, i: nat, j: nat)
    requires Safe(init, log) && i < j < |log| && log[i].Persist? && log[i].detail.providerId != "" && log[j].Create?
    ensures exists k :: i < k < j && log[k].Retry?
  {
    hide AllFinished, Ids, Owned, ShowsAll, RootFolder;
    var was := log[..j];
    SafePrefix(init, log, j);
    assert was[..i + 1][..i] == log[..i];
    if forall k | i < k < j :: !log[k].Retry? {
      assert See(init, was[..i + 1]).durable == log[i].detail;
      IdStays(init, was, i + 1);
      assert false;
    }
  }

  /** A cancel by the user (or else one that the provider reported) happened at `i`, in what is still the current
      run. */
  ghost predicate HappenedInRun(log: seq<Event>, i: nat, byUser: bool) {
    && i < |log|
    && (if byUser then log[i].UserCancel?
        else log[i].Asked? && log[i].answer.Answered? && log[i].answer.download.state == Canceled)
    && forall k | i <= k < |log| :: !log[k].Resume?
  }

  lemma {:induction false} CancelHasAReason(init: Detail, log: seq<Event>)
    ensures See(init, log).cancelAsked ==> exists i :: HappenedInRun(log, i, true)
    ensures See(init, log).saidCanceled ==> exists i :: HappenedInRun(log, i, false)
  {
    if log != [] {
      var n := |log| - 1;
      CancelHasAReason(init, log[..n]);
      var v := See(init, log);
      if v.cancelAsked {
        if log[n].UserCancel? {
          assert HappenedInRun(log, n, true);
        } else {
          var i :| HappenedInRun(log[..n], i, true);
          assert HappenedInRun(log, i, true);
        }
      }
      if v.saidCanceled {
        if log[n].Asked? && log[n].answer.Answered? && log[n].answer.download.state == Canceled {
          assert HappenedInRun(log, n, false);
        } else {
          var i :| HappenedInRun(log[..n], i, false);
          assert HappenedInRun(log, i, false);
        }
      }
    }
  }

  /** A provider task is canceled only after, in the same run, the user asked for it or the provider
      reported it canceled; an interruption alone never does it. */
  lemma CancelsAreAsked(init: Detail, log: seq<Event>, i: nat)
    requires Safe(init, log) && i < |log| && log[i].CancelProvider?
    ensures exists j :: HappenedInRun(log[..i], j, true) || HappenedInRun(log[..i], j, false)
  {
    CancelHasAReason(init, log[..i]);
    if See(init, log[..i]).cancelAsked {
      var j :| HappenedInRun(log[..i], j, true);
    } else {
      var j :| HappenedInRun(log[..i], j, false);
    }
  }
}
