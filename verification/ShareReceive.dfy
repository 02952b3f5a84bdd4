/** The share runner (share_runner.go, share_fetch.go) as it changes its record
and the world.

The provider, the file systems and the task manager answer as they please, and
the process can die after every single event: then `alive` is false, and nothing
the run goes on to do reaches the world.  Whatever happens, the log is one of
`ShareProgram`. */
module ShareReceive {
  import opened Wrappers
  import opened ShareOutcome
  import opened ShareLog
  import opened ShareProgram
  import UrlFetch

  /** shareSavedEntries. */
  method ShareSavedEntries(items: seq<Item>) returns (out: seq<Saved>)
    ensures out == AllSavedOf(items)
  {
    out := [];
    for i := 0 to |items|
      invariant |out| == i && forall k | 0 <= k < i :: out[k] == SavedOf(items[k])
    {
      var item := items[i];
      var entry := Saved(item.sourceId, item.sourceName, item.sourceSize, "", false);
      var name, id := "", "";
      if item.saved.Some? {
        name, id := item.saved.value.name, item.saved.value.id;
      }
      if name == "" {
        name := item.savedName;
      }
      if id == "" {
        id := item.savedId;
      }
      if name != "" || id != "" {
        entry := entry.(remoteId := id);
        if name != "" {
          entry := entry.(name := name);
        }
      }
      if item.saved.Some? && item.saved.value.size > 0 {
        entry := entry.(size := item.saved.value.size);
      }
      if item.error.Some? {
        entry := entry.(failed := true);
      }
      out := out + [entry];
    }
  }

  /** `completed` looks up the recorded transfers that did not fail, the last one of each key. */
  ghost predicate Table(completed: map<string, Saved>, transferred: seq<Saved>) {
    forall x: Saved ::
      if Earlier(transferred, x).Some? then Key(x) in completed && completed[Key(x)] == Earlier(transferred, x).value
      else Key(x) !in completed
  }

  method Completed(transferred: seq<Saved>) returns (completed: map<string, Saved>)
    ensures Table(completed, transferred)
  {
    completed := map[];
    for i := 0 to |transferred|
      invariant Table(completed, transferred[..i])
    {
      hide Key;
      var entry := transferred[i];
      assert transferred[..i + 1][..i] == transferred[..i];
      if !entry.failed {
        completed := completed[Key(entry) := entry];
      }
    }
    assert transferred[..|transferred|] == transferred;
  }

  /** How many entries failed. */
  method CountFailed(entries: seq<Saved>) returns (failed: nat)
    ensures failed == Failures(entries) <= |entries|
  {
    failed := 0;
    for i := 0 to |entries|
      invariant failed == Failures(entries[..i]) <= i
    {
      assert entries[..i + 1][..i] == entries[..i];
      if entries[i].failed {
        failed := failed + 1;
      }
    }
    assert entries[..|entries|] == entries;
  }

  lemma {:induction false} WantedHas(saved: seq<Saved>, i: nat)
    requires i < |saved| && !saved[i].failed
    ensures saved[i] in Wanted(saved)
  {
    if i < |saved| - 1 {
      WantedHas(saved[..|saved| - 1], i);
    }
  }

  /** A URL that does not answer. */
  function Dead(size: int): UrlFetch.Url {
    UrlFetch.Url(0, if size > 0 then size else 1, 1, UrlFetch.Broken, UrlFetch.Broken, [], [])
  }

  lemma DeadIsPossible(offset: nat, size: int)
    ensures UrlFetch.Possible(offset, size, Dead(size))
  {
  }

  /** What becomes of the record on disk. */
  function OnDisk(d: Detail, e: Event): Detail {
    if e.Persist? || e.Report? then e.detail else d
  }

  class ShareTask {
    const init: Detail
    ghost var log: seq<Event>
    ghost var prog: Prog
    var durable: Detail
    var alive: bool
    var detail: Detail

    ghost predicate Valid()
      reads this
    {
      Fresh(init) && Trace(init, log) == Some(prog) && durable == prog.durable
    }

    /** The program with the record as it is in memory. */
    ghost function Here(): Prog
      reads this
    {
      Prog(durable, detail, Off)
    }

    ghost predicate At(pc: Pc)
      reads this
    {
      prog == Prog(durable, detail, pc)
    }

    constructor (init: Detail)
      requires Fresh(init)
      ensures Valid() && log == [] && !alive && this.init == init
    {
      this.init, durable, detail := init, init, init;
      log, prog, alive := [], Prog(init, init, Off), false;
      new;
      hide Step;
    }

    // ------------------------------------------------------------------ the world

    /** One event of a live run, on to `r`, and perhaps the end of the process right after it. */
    method Do(e: Event, ghost r: Prog)
      requires Valid()
      requires alive ==> Step(prog, e) == Some(r) && r.durable == OnDisk(durable, e)
      modifies `log, `prog, `durable, `alive
      ensures Valid()
      ensures alive ==> old(alive) && prog == r
    {
      hide Step, Trace;
      if alive {
        TraceNext(init, log, e);
        log, prog, durable := log + [e], r, OnDisk(durable, e);
        var crashes: bool := *;
        alive := !crashes;
      }
    }

    /** persist. */
    method Persist(ghost r: Prog)
      requires Valid()
      requires alive ==> prog.d == detail && StepRun(prog, Event.Persist(detail)) == Some(r) && r.durable == detail
      modifies `log, `prog, `durable, `alive
      ensures Valid()
      ensures alive ==> old(alive) && prog == r && durable == detail
    {
      hide Trace, StepRun;
      Do(Event.Persist(detail), r);
    }

    method RecordOutcome(o: Outcome)
      modifies `detail
      ensures detail == Record(old(detail), o)
    {
      var saved := ShareSavedEntries(o.items);
      detail := detail.(state := Some(o.state), saved := saved);
    }

    // ---------------------------------------------------------------------- saving

    /** pollSave.  The context may end while the run waits. */
    method PollSave(entries: seq<Entry>, ghost anew: bool) returns (o: Outcome, ok: bool)
      requires Valid()
      requires alive ==> At(Saving(Polling(entries, anew)))
      modifies `log, `prog, `durable, `alive, `detail
      ensures Valid() && detail.order == old(detail).order && (ok ==> o.Complete())
      ensures alive ==>
          old(alive) && prog == if ok then AfterOutcome(Here(), o, entries, anew) else Leave(Here(), false)
    {
      hide Trace, AfterOutcome;
      o := *;
      var rounds: nat := *;
      while rounds > 0
        invariant Valid() && detail.order == old(detail).order
        invariant alive ==> old(alive) && At(Saving(Polling(entries, anew)))
      {
        rounds := rounds - 1;
        o, ok := PollOnce(entries, anew);
        if !ok || o.Complete() {
          return;
        }
        StillPolling(Here(), o, entries, anew);
      }
      Do(Event.Stopped, Leave(prog, false));
      return o, false;
    }

    lemma StillPolling(p: Prog, o: Outcome, entries: seq<Entry>, anew: bool)
      requires !o.Complete()
      ensures AfterOutcome(p, o, entries, anew) == p.(pc := Saving(Polling(entries, anew)))
    {
    }

    /** The provider is asked for the save by its handle, and answers as it likes. */
    method PollOnce(entries: seq<Entry>, ghost anew: bool) returns (o: Outcome, ok: bool)
      requires Valid()
      requires alive ==> At(Saving(Polling(entries, anew)))
      modifies `log, `prog, `durable, `alive, `detail
      ensures Valid() && detail.order == old(detail).order
      ensures alive ==>
          old(alive) && prog == if ok then AfterOutcome(Here(), o, entries, anew) else Leave(Here(), false)
    {
      hide Trace, AllSavedOf, Reconcile, ResultState;
      o := *;
      var a: Answer := *;
      ghost var r := StepPoll(prog, Asked(detail.handle, a), entries, anew);
      Do(Asked(detail.handle, a), if r.Some? then r.value else prog);
      match a {
        case Reported(outcome) =>
          RecordOutcome(outcome);
          Persist(AfterOutcome(prog, outcome, entries, anew).(durable := detail));
          return outcome, true;
        case _ =>
          return o, false;
      }
    }

    /** resumeSave: only a handle that the provider explicitly does not know is dropped. */
    method ResumeSave(entries: seq<Entry>) returns (o: Outcome, resumed: bool, ok: bool)
      requires Valid()
      requires alive ==> At(Saving(Asking(entries)))
      modifies `log, `prog, `durable, `alive, `detail
      ensures Valid() && detail.order == old(detail).order && (ok && resumed ==> o.Complete())
      ensures alive ==> old(alive)
      ensures alive && !ok ==> prog == Leave(Here(), false)
      ensures alive && ok && resumed ==> prog == AfterOutcome(Here(), o, entries, false)
      ensures alive && ok && !resumed ==> At(Saving(Reopening(entries))) && detail.handle == ""
    {
      hide Trace, AllSavedOf, Reconcile, ResultState;
      o := *;
      var a: Answer := *;
      ghost var r := StepAsk(prog, Asked(detail.handle, a), entries);
      Do(Asked(detail.handle, a), if r.Some? then r.value else prog);
      match a {
        case Unknown =>
          detail := detail.(handle := "");
          Persist(prog.(durable := detail, pc := Saving(Reopening(entries))));
          return o, false, true;
        case Unavailable =>
          return o, false, false;
        case Reported(outcome) =>
          o := outcome;
          if !o.Complete() {
            o, ok := PollSave(entries, false);
            return o, ok, ok;
          }
          return o, true, true;
      }
    }

    /** resumeSelection. */
    method ResumeSelection() returns (entries: seq<Entry>, ok: bool)
      requires Valid()
      requires alive ==> prog == AtResume(Here())
      modifies `log, `prog, `durable, `alive, `detail
      ensures Valid() && detail.order == old(detail).order
      ensures alive ==> old(alive) && prog == if ok then AfterSelection(Here(), entries) else Leave(Here(), false)
    {
      hide Trace;
      if |detail.selected| > 0 {
        return detail.selected, true;
      }
      entries := *;
      ghost var r := StepSelect(prog, Listed(entries));
      Do(Listed(entries), if r.Some? then r.value else prog);
      if |entries| == 0 {
        return entries, false;
      }
      detail := detail.(selected := entries);
      Persist(AfterSelection(prog, entries).(durable := detail));
      return entries, true;
    }

    /** openSession and listSelected: an empty selection is an error. */
    method ListSelected() returns (entries: seq<Entry>, ok: bool)
      requires Valid()
      requires alive ==> At(Saving(Listing))
      modifies `log, `prog, `durable, `alive
      ensures Valid()
      ensures alive ==> old(alive) && prog == if ok then AtChoose(Here(), entries) else Leave(Here(), false)
    {
      hide Trace;
      entries := *;
      ok := |entries| > 0;
      Do(Listed(entries), if ok then AtChoose(prog, entries) else Leave(prog, false));
    }

    /** saveSelected: the selection is on disk before the save is submitted, the handle right after. */
    method SaveSelected(entries: seq<Entry>) returns (o: Outcome, ok: bool)
      requires Valid()
      requires alive ==> prog == AtChoose(Here(), entries)
      modifies `log, `prog, `durable, `alive, `detail
      ensures Valid() && detail.order == old(detail).order && (ok ==> o.Complete())
      ensures alive ==> old(alive) && prog == if ok then AtSettle(Here(), o) else Leave(Here(), false)
    {
      hide Trace, AllSavedOf, Reconcile, AtSettle;
      detail := detail.(selected := entries);
      Persist(prog.(durable := detail, pc := Saving(Submitting(entries))));
      o, ok := SubmitSave(entries);
      if !ok {
        return;
      }
      if !o.Complete() {
        o, ok := PollSave(entries, true);
        if !ok {
          return;
        }
      }
      o := Conclude(o, entries);
    }

    /** The save is submitted, and its handle written down. */
    method SubmitSave(entries: seq<Entry>) returns (o: Outcome, ok: bool)
      requires Valid()
      requires alive ==> At(Saving(Submitting(entries)))
      modifies `log, `prog, `durable, `alive, `detail
      ensures Valid() && detail.order == old(detail).order
      ensures alive ==>
          old(alive) && prog == if ok then AfterOutcome(Here(), o, entries, true) else Leave(Here(), false)
    {
      hide Trace, AllSavedOf, Reconcile, AtSettle;
      o := *;
      var accepted: Option<Outcome> := *;
      ghost var r := StepSubmit(prog, Submit(accepted), entries);
      Do(Submit(accepted), if r.Some? then r.value else prog);
      match accepted {
        case None =>
          return o, false;
        case Some(outcome) =>
          RecordOutcome(outcome);
          detail := detail.(handle := outcome.handle);
          Persist(AfterOutcome(prog, outcome, entries, true).(durable := detail));
          return outcome, true;
      }
    }

    /** The end of a save: its outcome is reconciled with the selection and written down for verification. */
    method Conclude(o: Outcome, entries: seq<Entry>) returns (r: Outcome)
      requires Valid() && o.Complete()
      requires alive ==> prog == AfterOutcome(Here(), o, entries, true)
      modifies `log, `prog, `durable, `alive, `detail
      ensures Valid() && detail.order == old(detail).order && r == Reconcile(o, entries) && r.Complete()
      ensures alive ==> old(alive) && prog == AtSettle(Here(), r)
    {
      hide Trace, AllSavedOf, ResultState;
      r := ReconcileShareOutcome(o, entries);
      ReconciledIsComplete(o, entries);
      hide Reconcile;
      RecordOutcome(r);
      detail := detail.(phase := Verify);
      Persist(AtSettle(prog, r).(durable := detail));
    }

    // ----------------------------------------------------------------- a plain save

    /** runSave. */
    method RunSave() returns (ok: bool)
      requires Valid() && !detail.order.fetch
      requires alive ==> detail == durable && prog == AtBegin(durable)
      modifies `log, `prog, `durable, `alive, `detail
      ensures Valid()
      ensures alive ==> old(alive) && prog.pc == Leaving(ok)
      ensures alive && ok ==> CanResume(durable) && durable.phase == Complete
    {
      hide Trace, StepRun, AnySaved, AtSettle;
      if detail.phase == NoPhase {
        detail := detail.(phase := Open);
      }
      if CanResume(detail) {
        ok := Recheck();
        return;
      }
      var o: Outcome;
      if detail.handle != "" {
        o, ok := ResumeRun();
      } else {
        o, ok := StartSave();
      }
      if ok {
        ok := FinishSave(o);
      }
    }

    /** Only the verification of a finished save is outstanding. */
    method Recheck() returns (verified: bool)
      requires Valid() && CanResume(detail)
      requires alive ==> At(Saving(Rechecking))
      modifies `log, `prog, `durable, `alive, `detail
      ensures Valid()
      ensures alive ==> old(alive) && prog.pc == Leaving(verified)
      ensures alive && verified ==> CanResume(durable) && durable.phase == Complete
    {
      hide Trace, AnySaved;
      verified := *;
      Do(Verified(verified), if verified then AtSaveReport(prog, true) else prog.(pc := Saving(Unverified)));
      if verified {
        ReportSave(true);
      } else {
        Persist(Leave(prog, false).(durable := detail));
      }
    }

    /** The record says that the save is complete, and the task what came of it. */
    method ReportSave(ghost ok: bool)
      requires Valid()
      requires alive ==> prog == AtSaveReport(Here(), ok)
      modifies `log, `prog, `durable, `alive, `detail
      ensures Valid() && detail == old(detail).(phase := Complete)
      ensures alive ==> old(alive) && durable == detail && At(Leaving(ok))
    {
      hide Trace;
      var failed := CountFailed(detail.saved);
      detail := detail.(phase := Complete);
      var result := StateOf(|detail.saved| - failed, failed);
      hide Failures;
      Do(Report(detail, result), Leave(prog, ok).(durable := detail));
    }

    /** The part of runSave that submits a save. */
    method StartSave() returns (o: Outcome, ok: bool)
      requires Valid() && !detail.order.fetch
      requires alive ==> At(Saving(Opening))
      modifies `log, `prog, `durable, `alive, `detail
      ensures Valid() && detail.order == old(detail).order && (ok ==> o.Complete())
      ensures alive ==> old(alive) && prog == if ok then AtSettle(Here(), o) else Leave(Here(), false)
    {
      hide Trace, AtSettle;
      o := *;
      ok := *;
      Do(Opened(ok), if ok then prog.(d := detail.(phase := Save), pc := Saving(Starting)) else Leave(prog, false));
      if !ok {
        return;
      }
      detail := detail.(phase := Save);
      Persist(prog.(durable := detail, pc := Saving(Listing)));
      var entries;
      entries, ok := ListSelected();
      if ok {
        o, ok := SaveSelected(entries);
      }
    }

    /** The part of runSave that takes up a submitted save. */
    method ResumeRun() returns (o: Outcome, ok: bool)
      requires Valid() && !detail.order.fetch
      requires alive ==> prog == AtResume(Here())
      modifies `log, `prog, `durable, `alive, `detail
      ensures Valid() && detail.order == old(detail).order && (ok ==> o.Complete())
      ensures alive ==> old(alive) && prog == if ok then AtSettle(Here(), o) else Leave(Here(), false)
    {
      hide Trace, AtSettle, Reconcile;
      o := *;
      var entries;
      entries, ok := ResumeSelection();
      if !ok {
        return;
      }
      detail := detail.(phase := Save);
      Persist(prog.(durable := detail, pc := Saving(Asking(entries))));
      o, ok := TakeUp(entries);
    }

    /** A save is taken up again, or submitted once more if the provider does not know it. */
    method TakeUp(entries: seq<Entry>) returns (o: Outcome, ok: bool)
      requires Valid()
      requires alive ==> At(Saving(Asking(entries)))
      modifies `log, `prog, `durable, `alive, `detail
      ensures Valid() && detail.order == old(detail).order && (ok ==> o.Complete())
      ensures alive ==> old(alive) && prog == if ok then AtSettle(Here(), o) else Leave(Here(), false)
    {
      hide Trace, AtSettle;
      var resumed;
      o, resumed, ok := ResumeSave(entries);
      if !ok {
        return;
      }
      if resumed {
        var reconciled := ReconcileShareOutcome(o, entries);
        ReconciledIsComplete(o, entries);
        return reconciled, true;
      }
      ok := *;
      Do(Opened(ok), if ok then AtChoose(prog, entries) else Leave(prog, false));
      if ok {
        o, ok := SaveSelected(entries);
      }
    }

    /** finishSave: a save in which nothing succeeded ends the task as failed, any other is verified. */
    method FinishSave(o: Outcome) returns (ok: bool)
      requires Valid() && !detail.order.fetch && o.Complete()
      requires alive ==> prog == AtSettle(Here(), o)
      modifies `log, `prog, `durable, `alive, `detail
      ensures Valid()
      ensures alive ==> old(alive) && prog.pc == Leaving(ok)
      ensures alive && ok ==> CanResume(durable) && durable.phase == Complete
    {
      hide Trace, AnySaved, AllSavedOf, AtSettle, ResultState;
      var failed := NoteOutcome(o);
      if failed {
        return false;
      }
      NotFailedIsSaved(o);
      ok := *;
      Do(Verified(ok), AtSaveReport(prog, ok));
      ReportSave(ok);
    }

    /** The outcome is on disk before it is verified. */
    method NoteOutcome(o: Outcome) returns (failed: bool)
      requires Valid()
      requires alive ==> prog == AtSettle(Here(), o)
      modifies `log, `prog, `durable, `alive, `detail
      ensures Valid() && (failed <==> ResultState(o) == TaskFailed)
      ensures detail == Record(old(detail), o).(phase := if failed && !detail.order.fetch then Complete else Verify)
      ensures alive ==> old(alive) && durable == detail && prog == AfterSettled(Here(), o)
    {
      hide Trace, AllSavedOf;
      var state, tracked, saved, count := ShareOutcomeResult(o);
      hide ResultState;
      failed := state == TaskFailed;
      RecordOutcome(o);
      detail := detail.(phase := if failed && !detail.order.fetch then Complete else Verify);
      Persist(AfterSettled(prog, o).(durable := detail));
    }

    // --------------------------------------------------------------------- a fetch

    /** fetchSavePhase: it ends with a save that is done, or with an error. */
    method FetchSavePhase() returns (ok: bool)
      requires Valid() && FromSave(detail)
      requires alive ==> prog == AtSave(Here())
      modifies `log, `prog, `durable, `alive, `detail
      ensures Valid() && detail.order == old(detail).order && (ok ==> SaveDone(detail) && detail.phase == Verify)
      ensures alive ==> old(alive) && prog == if ok then AtFetch(Here()) else Leave(Here(), false)
    {
      hide Trace, AtSettle;
      var o, entries;
      if detail.handle != "" {
        entries, ok := ResumeSelection();
        if !ok {
          return;
        }
        o, ok := TakeUp(entries);
      } else {
        entries, ok := ListSelected();
        if !ok {
          return;
        }
        o, ok := SaveSelected(entries);
      }
      if ok {
        ok := SettleFetch(o);
      }
    }

    /** A save that failed ends the task, any other must show in the destination. */
    method SettleFetch(o: Outcome) returns (ok: bool)
      requires Valid() && FromSave(detail) && o.Complete()
      requires alive ==> prog == AtSettle(Here(), o)
      modifies `log, `prog, `durable, `alive, `detail
      ensures Valid() && detail.order == old(detail).order && (ok ==> SaveDone(detail) && detail.phase == Verify)
      ensures alive ==> old(alive) && prog == if ok then AtFetch(Here()) else Leave(Here(), false)
    {
      hide Trace, AnySaved, AllSavedOf, AtSettle, ResultState;
      var failed := NoteOutcome(o);
      if failed {
        detail := detail.(phase := Complete);
        Persist(Leave(prog, false).(durable := detail));
        return false;
      }
      NotFailedIsSaved(o);
      ok := *;
      Do(Verified(ok), if ok then AtFetch(prog) else Leave(prog, false));
    }

    /** fetchTargets of a fetch from a save. */
    method FetchTargets() returns (targets: seq<Saved>, ok: bool)
      ensures ok <==> TargetsOf(detail.saved).Some?
      ensures ok ==> targets == TargetsOf(detail.saved).value
    {
      targets, ok := [], true;
      for i := 0 to |detail.saved|
        invariant targets == Wanted(detail.saved[..i])
        invariant forall k | 0 <= k < |targets| :: targets[k].remoteId != ""
      {
        var saved := detail.saved[i];
        assert detail.saved[..i + 1][..i] == detail.saved[..i];
        if !saved.failed {
          if saved.remoteId == "" {
            WantedHas(detail.saved, i);
            return targets, false;
          }
          targets := targets + [saved];
        }
      }
      assert detail.saved[..|detail.saved|] == detail.saved;
      ok := |targets| > 0;
    }

    /** fetchTargets and fetchDestination: what to download, and whether to one file or into a directory. */
    method Plan() returns (job: Job, ok: bool)
      requires Valid()
      requires alive ==> At(Loading(Planning))
      modifies `log, `prog, `durable, `alive
      ensures Valid() && job.earlier == detail.transferred && job.results == []
      ensures alive ==> old(alive) && prog == if ok then AtFile(Here(), job) else Leave(Here(), false)
    {
      hide Trace, AtFile, TargetsOf;
      var direct: seq<Saved>, prepared: bool, single: bool := *, *, *;
      var targets;
      if FromSave(detail) {
        targets, ok := FetchTargets();
      } else {
        targets, ok := direct, |direct| > 0;
      }
      ok := ok && prepared && !(single && |targets| != 1);
      job := Job(targets, single, detail.transferred, []);
      FileFromAnywhere(Here(), job, Loading(Planning));
      Do(Planned(direct, prepared, single), if ok then AtFile(Here(), job) else Leave(prog, false));
    }

    /** transferTarget of a saved entry: its copy is read to the end, however long that is. */
    method ReadTarget(ghost job: Job, x: Saved, path: string) returns (written: nat, ok: bool)
      requires Valid() && FromSave(detail)
      requires alive ==>
          |job.results| < |job.targets| && x == job.targets[|job.results|] && path == PathOf(detail, job, x)
      requires alive ==> At(Loading(Filing(job, ToOpen)))
      modifies `log, `prog, `durable, `alive
      ensures Valid()
      ensures alive ==> old(alive) && prog == AtNoted(Here(), job, x, written, ok)
    {
      hide Trace, PathOf, AtNoted;
      ok := OpenDestination(job, x, path);
      if !ok {
        return 0, false;
      }
      written, ok := *, *;
      CloseDestination(job, x, path, written, ok);
    }

    /** The destination is opened, which may fail. */
    method OpenDestination(ghost job: Job, x: Saved, path: string) returns (ok: bool)
      requires Valid()
      requires alive ==>
          |job.results| < |job.targets| && x == job.targets[|job.results|] && path == PathOf(detail, job, x)
      requires alive ==> At(Loading(Filing(job, ToOpen)))
      modifies `log, `prog, `durable, `alive
      ensures Valid()
      ensures alive ==> old(alive)
      ensures alive && ok ==> At(Loading(Filing(job, if FromSave(detail) then Reading else Fetching(0, 0, x.size))))
      ensures alive && !ok ==> prog == AtNoted(Here(), job, x, 0, false)
    {
      hide Trace, PathOf;
      ok := *;
      ghost var r := StepOpen(prog, OpenTarget(path, x, ok), job, x);
      Do(OpenTarget(path, x, ok), if r.Some? then r.value else prog);
    }

    /** Closing the writer finishes the destination; without that it is discarded. */
    method CloseDestination(ghost job: Job, x: Saved, path: string, written: nat, closed: bool)
      requires Valid()
      requires alive ==>
          |job.results| < |job.targets| && x == job.targets[|job.results|] && path == PathOf(detail, job, x)
      requires alive ==> prog.pc.Loading? && prog.pc.load.Filing? && At(Loading(Filing(job, prog.pc.load.file)))
      requires alive ==> var file := prog.pc.load.file;
                         file == Reading || file == Closing(written) || (file == Discarding(written) && !closed)
      modifies `log, `prog, `durable, `alive
      ensures Valid()
      ensures alive ==> old(alive) && prog == AtNoted(Here(), job, x, written, closed)
    {
      hide Trace, PathOf;
      var e := if closed then FinishTarget(path, x, written) else DiscardTarget(path, x, written);
      Do(e, AtNoted(Here(), job, x, written, closed));
    }

    /** transferTarget of a direct download: three attempts at the URL, each resuming where the last one stopped. */
    method StreamTarget(ghost job: Job, x: Saved, path: string) returns (written: nat, ok: bool)
      requires Valid() && !FromSave(detail)
      requires alive ==>
          |job.results| < |job.targets| && x == job.targets[|job.results|] && path == PathOf(detail, job, x)
      requires alive ==> At(Loading(Filing(job, ToOpen)))
      modifies `log, `prog, `durable, `alive
      ensures Valid()
      ensures alive ==> old(alive) && prog == AtNoted(Here(), job, x, written, ok)
    {
      hide Trace, PathOf, AtNoted, AfterUrl, UrlFetch.Possible;
      ok := OpenDestination(job, x, path);
      if !ok {
        return 0, false;
      }
      var attempt: nat, offset: nat, size := 0, 0, x.size;
      while attempt < URL_ATTEMPTS
        invariant attempt < URL_ATTEMPTS && Valid()
        invariant alive ==> old(alive) && At(Loading(Filing(job, Fetching(attempt, offset, size))))
      {
        var next := Stream(job, attempt, offset, size);
        match next {
          case Fetching(n, o, s) =>
            attempt, offset, size := n, o, s;
          case Closing(bytes) =>
            ok := *;
            CloseDestination(job, x, path, bytes, ok);
            return bytes, ok;
          case Discarding(bytes) =>
            CloseDestination(job, x, path, bytes, false);
            return bytes, false;
          case _ =>
        }
      }
    }

    /** One attempt: the URL behaves as it likes. */
    method Stream(ghost job: Job, attempt: nat, offset: nat, size: int) returns (next: FilePc)
      requires Valid() && attempt < URL_ATTEMPTS
      requires alive ==> |job.results| < |job.targets| && At(Loading(Filing(job, Fetching(attempt, offset, size))))
      modifies `log, `prog, `durable, `alive
      ensures Valid()
      ensures next.Closing? || next.Discarding? || (next.Fetching? && next.attempt == attempt + 1 < URL_ATTEMPTS)
      ensures alive ==> old(alive) && At(Loading(Filing(job, next)))
    {
      hide Trace, UrlFetch.Possible, UrlFetch.Run;
      var url: UrlFetch.Url := *;
      if !UrlFetch.Possible(offset, size, url) {
        url := Dead(size);
        DeadIsPossible(offset, size);
      }
      next := AfterUrl(attempt, offset, size, url);
      Do(Streamed(url), prog.(pc := Loading(Filing(job, next))));
    }

    /** The next target was not transferred before: it is, and the result is written down. */
    method Transfer(job: Job, x: Saved) returns (results: seq<Saved>, ok: bool)
      requires Valid() && |job.results| < |job.targets| && x == job.targets[|job.results|]
      requires alive ==> At(Loading(Filing(job, ToOpen)))
      modifies `log, `prog, `durable, `alive, `detail
      ensures Valid() && |results| == |job.results| + 1 && detail == old(detail).(transferred := results)
      ensures alive ==> old(alive)
      ensures alive ==> prog == if ok then AtFile(Here(), job.(results := results)) else Leave(Here(), false)
    {
      hide Trace, AtFile;
      var path, written := PathOf(detail, job, x), 0;
      hide PathOf;
      if FromSave(detail) {
        written, ok := ReadTarget(job, x, path);
      } else {
        written, ok := StreamTarget(job, x, path);
      }
      results := job.results + [Saved("", x.name, written, x.remoteId, !ok)];
      detail := detail.(transferred := results);
      ghost var more := job.(results := results);
      if alive {
        FileFromAnywhere(Here(), more, prog.pc);
        FileOnDisk(Here(), more, detail);
        FileOnDisk(prog, more, detail);
      }
      Persist(if ok then AtFile(prog, more).(durable := detail) else Leave(prog, false).(durable := detail));
    }

    /** downloadPhase: every target lands, now or in an earlier run, or the phase fails. */
    method DownloadPhase() returns (ok: bool)
      requires Valid()
      requires alive ==> At(Loading(Planning))
      modifies `log, `prog, `durable, `alive, `detail
      ensures Valid() && detail == old(detail).(transferred := detail.transferred)
      ensures alive ==> old(alive)
      ensures alive ==> prog == if ok then Prog(durable, detail.(phase := Cleanup), Loading(Finished))
          else Leave(Here(), false)
    {
      hide Trace, AtFile, PathOf, Earlier, Key;
      var job;
      job, ok := Plan();
      if !ok {
        return;
      }
      var completed := Completed(job.earlier);
      while |job.results| < |job.targets|
        invariant Valid() && detail == old(detail).(transferred := detail.transferred)
        invariant |job.results| <= |job.targets| && Table(completed, job.earlier)
        invariant alive ==> old(alive) && prog == AtFile(Here(), job)
      {
        var target := job.targets[|job.results|];
        FileIs(Here(), job);
        if Key(target) in completed {
          job := job.(results := job.results + [completed[Key(target)]]);
          detail := detail.(transferred := job.results);
        } else {
          var results;
          results, ok := Transfer(job, target);
          if !ok {
            return;
          }
          job := job.(results := results);
        }
      }
      FileIs(Here(), job);
      return true;
    }

    lemma FileIs(p: Prog, job: Job)
      requires |job.results| <= |job.targets|
      ensures |job.results| == |job.targets| ==>
          AtFile(p, job) == p.(d := p.d.(phase := Cleanup), pc := Loading(Finished))
      ensures |job.results| < |job.targets| ==>
                AtFile(p, job) ==
                match Earlier(job.earlier, job.targets[|job.results|])
                case None => p.(pc := Loading(Filing(job, ToOpen)))
                case Some(x) =>
                  var results := job.results + [x];
                  AtFile(p.(d := p.d.(transferred := results)), job.(results := results))
    {
    }

    /** cleanupFetch. */
    method CleanupFetch() returns (ok: bool)
      requires Valid()
      requires alive ==> prog == AtRemove(Here(), 0)
      modifies `log, `prog, `durable, `alive
      ensures Valid()
      ensures alive ==> old(alive) && prog == if ok then AtReport(Here()) else Leave(Here(), false)
    {
      hide Trace, AtReport, NextSaved;
      if !FromSave(detail) || detail.order.keepCloud {
        return true;
      }
      var i := 0;
      while i < |detail.saved|
        invariant i <= |detail.saved| && Valid()
        invariant alive ==> old(alive) && prog == AtRemove(Here(), i)
      {
        var saved := detail.saved[i];
        NextIs(detail.saved, i);
        if !saved.failed && saved.remoteId != "" {
          ok := Remove(i);
          if !ok {
            return;
          }
        }
        i := i + 1;
      }
      NextIs(detail.saved, i);
      return true;
    }

    lemma NextIs(saved: seq<Saved>, i: nat)
      requires i <= |saved|
      ensures i == |saved| ==> NextSaved(saved, i) == i
      ensures i < |saved| ==>
                NextSaved(saved, i) == if !saved[i].failed &&
                    saved[i].remoteId != "" then i else NextSaved(saved, i + 1)
    {
    }

    method Remove(i: nat) returns (gone: bool)
      requires Valid() && i < |detail.saved|
      requires alive ==> At(Loading(Removing(i)))
      modifies `log, `prog, `durable, `alive
      ensures Valid()
      ensures alive ==> old(alive) && prog == if gone then AtRemove(Here(), i + 1) else Leave(Here(), false)
    {
      hide Trace, AtReport, NextSaved;
      gone := *;
      var e := RemoveSaved(detail.saved[i].remoteId, gone);
      ReportOnDisk(Here(), prog);
      Do(e, if gone then AtRemove(Here(), i + 1) else Leave(Here(), false));
    }

    lemma ReportOnDisk(p: Prog, q: Prog)
      ensures AtReport(p).durable == p.durable
      ensures q.d == p.d && q.durable == p.durable ==> AtReport(p) == AtReport(q)
    {
    }

    /** finishFetch: the state of the task counts the failed saves and every transfer. */
    method FinishFetch() returns (result: TaskState)
      requires Valid()
      requires alive ==> prog == AtReport(Here())
      modifies `log, `prog, `durable, `alive, `detail
      ensures Valid() && detail == old(detail).(phase := Complete) && result == FetchResult(detail)
      ensures alive ==> old(alive) && durable == detail && At(Leaving(result != TaskFailed))
    {
      hide Trace;
      detail := detail.(phase := Complete);
      var failed := CountFailed(detail.saved);
      var lost := CountFailed(detail.transferred);
      result := StateOf(|detail.transferred| - lost, failed + lost);
      hide Failures;
      Do(Report(detail, result), Leave(prog, result != TaskFailed).(durable := detail));
    }

    /** runFetch. */
    method RunFetch() returns (ok: bool)
      requires Valid() && detail.order.fetch
      requires alive ==> detail == durable && prog == AtBegin(durable)
      modifies `log, `prog, `durable, `alive, `detail
      ensures Valid()
      ensures alive ==> old(alive) && prog.pc == Leaving(ok)
      ensures alive && ok ==> durable.phase == Complete && FetchResult(durable) != TaskFailed
    {
      hide Trace, StepRun, AnySaved, AtRemove, AtReport, FetchResult, AtSave;
      if detail.phase == NoPhase {
        detail := detail.(phase := Open);
      }
      if FromSave(detail) && !SaveDone(detail) {
        ok := FetchSavePhase();
        if !ok {
          return;
        }
      }
      if detail.phase == Open || detail.phase == Save || detail.phase == Verify {
        EnterDownload();
      }
      if detail.phase == Download {
        ok := DownloadAll();
        if !ok {
          return;
        }
      } else if detail.phase == Cleanup {
        ok := CleanupFetch();
        if !ok {
          return;
        }
      }
      var result := FinishFetch();
      return result != TaskFailed;
    }

    method EnterDownload()
      requires Valid() && !Later(detail.phase) && detail.phase != Complete
      requires alive ==> prog == AtFetch(Here())
      modifies `log, `prog, `durable, `alive, `detail
      ensures Valid() && detail == old(detail).(phase := Download)
      ensures alive ==> old(alive) && At(Loading(Planning))
    {
      hide Trace, AtRemove, AtReport;
      detail := detail.(phase := Download);
      Persist(Prog(detail, detail, Loading(Planning)));
    }

    /** The download phase, the cleanup phase on disk once it is over, and the cleanup. */
    method DownloadAll() returns (ok: bool)
      requires Valid()
      requires alive ==> At(Loading(Planning))
      modifies `log, `prog, `durable, `alive, `detail
      ensures Valid()
      ensures alive ==> old(alive) && prog == if ok then AtReport(Here()) else Leave(Here(), false)
    {
      hide Trace, AtRemove, AtReport;
      ok := DownloadPhase();
      if ok {
        detail := detail.(phase := Cleanup);
        RemoveOnDisk(Here(), 0, detail);
        if alive {
          RemoveFromAnywhere(Here(), prog, 0);
        }
        Persist(AtRemove(Here(), 0).(durable := detail));
        ok := CleanupFetch();
      }
    }

    lemma RemoveFromAnywhere(p: Prog, q: Prog, i: nat)
      requires q.d == p.d && q.durable == p.durable
      ensures AtRemove(p, i) == AtRemove(q, i)
    {
      hide NextSaved, FetchResult;
    }

    // ----------------------------------------------------------------------- lives

    /** newShareRun and the run itself: it starts from the record on disk. */
    method Run()
      requires Valid()
      modifies this
      ensures Valid() && !alive
    {
      hide Trace, Step, AtBegin;
      var able: bool, ok := *, false;
      alive, detail := true, durable;
      StartIs(prog, able);
      BeginOnDisk(durable);
      Do(Resume(able), Started(durable, able));
      if able {
        if detail.order.fetch {
          ok := RunFetch();
        } else {
          ok := RunSave();
        }
      }
      if alive {
        ReturnIs(prog, ok);
      }
      Do(Return(ok), prog.(pc := Off));
      alive := false;
    }

    lemma BeginOnDisk(durable: Detail)
      ensures AtBegin(durable).durable == durable
    {
      hide AnySaved, NextSaved, FetchResult;
    }

    /** Any life of a share task: runs that end, fail or die, restarts and retries, in any number.  Every log is a
        history of the program, and safe. */
    method Live(runs: nat)
      requires Valid()
      modifies this
      ensures Valid() && History(init, log) && Safe(init, log)
    {
      hide Trace, Safe;
      var left := runs;
      while left > 0
        invariant Valid()
      {
        left := left - 1;
        Run();
      }
      HistoryIsSafe(init, log);
    }
  }
}
