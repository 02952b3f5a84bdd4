/** The offline runner (offline_runner.go, offline_fetch.go) as it changes its
record and the world.

The provider, the file systems and the task manager answer as they please.  A
crash, a shutdown or a user's cancel can happen after every single event: after
a crash `alive` is false, and nothing the run goes on to do reaches the world.
Whatever happens, the log is one of `OfflineProgram`. */
module OfflineFetch {
  import opened Wrappers
  import opened ResultFiles
  import opened StagedTree
  import opened OfflineLog
  import opened OfflineProgram
  import Paths
  import UrlFetch

  class OfflineTask {
    const init: Detail
    ghost var log: seq<Event>
    ghost var prog: Prog
    var durable: Detail
    var ended: Ended
    var alive: bool
    var stopped: bool
    var canceling: bool
    var detail: Detail
    var transientErrors: nat

    ghost predicate Valid()
      reads this
    {
      && Fresh(init) && Trace(init, log) == Some(prog)
      && durable == prog.durable
      && (alive ==> prog.stopped == stopped && prog.canceling == canceling && Running(prog))
      && (!alive ==> (ended == Done <==> prog.pc == Off(Done)) && (ended == Broke <==> prog.pc == Off(Broke)))
    }

    /** The program with the record as it is in memory. */
    ghost function Here(): Prog
      reads this
    {
      prog.(d := detail, errors := transientErrors)
    }

    /** The run stands at `p`, about to produce its next event. */
    ghost predicate Is(p: Prog)
      reads this
    {
      Resolve(prog) == p
    }

    /** The run is over and returns `err`. */
    ghost predicate Leaves(err: Error)
      reads this
    {
      Resolve(prog).pc == Leaving(err)
    }

    constructor (init: Detail)
      requires Fresh(init)
      ensures Valid() && log == [] && !alive && this.init == init
    {
      this.init, durable, detail := init, init, init;
      log, prog := [], Prog(init, init, Off(Interrupted), 0, false, false, false);
      alive, stopped, canceling, transientErrors, ended := false, false, false, 0, Interrupted;
      new;
      hide Step;
    }

    // ------------------------------------------------------------------ the world

    method Record(e: Event)
      requires Trace(init, log) == Some(prog) && durable == prog.durable
      requires Step(prog, e).Some? && Step(prog, e).value.durable == Kept(durable, e)
      modifies `log, `prog, `durable
      ensures log == old(log) + [e] && prog == Step(old(prog), e).value
      ensures Trace(init, log) == Some(prog) && durable == prog.durable
    {
      hide Trace, Step;
      TraceNext(init, log, e);
      log, prog := log + [e], Step(prog, e).value;
      durable := Kept(durable, e);
    }

    /** One event of a live run, and whatever the outside does right after it. */
    method Do(e: Event)
      requires Valid() && !Outside(e) && !e.Return?
      requires alive ==> Step(prog, e).Some?
      modifies `log, `prog, `durable, `alive, `ended, `stopped, `canceling
      ensures Valid()
      ensures alive ==> old(alive) && prog == Step(old(prog), e).value.(stopped := stopped, canceling := canceling)
      ensures alive ==> (old(stopped) ==> stopped)
    {
      hide Trace, Step, Resolve;
      if alive {
        StepDurable(prog, e);
        Record(e);
        Outsiders();
      }
    }

    /** The outside: the user may cancel, the process may be shut down, or die. */
    method Outsiders()
      requires Valid() && alive
      modifies `log, `prog, `durable, `alive, `ended, `stopped, `canceling
      ensures Valid()
      ensures alive ==> prog == old(prog).(stopped := stopped, canceling := canceling) && (old(stopped) ==> stopped)
    {
      hide Trace, Step, Resolve;
      var cancels: bool, stops: bool, crashes: bool := *, *, *;
      if cancels {
        StopIs(prog);
        Record(UserCancel);
        stopped, canceling := true, true;
      }
      if stops {
        StopIs(prog);
        Record(Shutdown);
        stopped := true;
      }
      if crashes {
        alive, ended := false, Interrupted;
      }
    }

    /** One event, from the point `q` on to `r`. */
    method Advance(e: Event, ghost q: Prog, ghost r: Prog)
      requires Valid() && !Outside(e) && !e.Return?
      requires alive ==> Is(q) && StepRun(q, e) == Some(r)
      modifies `log, `prog, `durable, `alive, `ended, `stopped, `canceling
      ensures Valid()
      ensures alive ==> old(alive) && (old(stopped) ==> stopped)
      ensures alive ==> prog == r.(stopped := stopped, canceling := canceling) && Is(Settled(prog))
    {
      hide Trace, Resolve, StepRun, StepOutside, Settled;
      if alive {
        StepDurable(prog, e);
      }
      Do(e);
      if alive {
        SettledIs(prog);
      }
    }

    /** cancelProviderTask, on the way out. */
    method CancelProviderTask(ghost q: Prog)
      requires Valid()
      requires alive ==> Is(q) && q.pc.Canceling? && q.d.providerId == detail.providerId
      modifies `log, `prog, `durable, `alive, `ended, `stopped, `canceling
      ensures Valid()
      ensures alive ==> old(alive) && Leaves(q.pc.err)
    {
      hide Trace, Step, StepRun, Resolve;
      if alive {
        RunsOut(q, CancelProvider(detail.providerId));
      }
      Advance(CancelProvider(detail.providerId), q, Leave(q, if q.pc.Canceling? then q.pc.err else Other));
    }

    method Return(err: Error)
      requires Valid()
      requires alive ==> Leaves(err)
      modifies `log, `prog, `durable, `alive, `ended
      ensures Valid() && !alive
      ensures old(alive) ==> log == old(log) + [Event.Return(err)]
    {
      hide Trace, Step, Resolve;
      if alive {
        ReturnIs(prog, err);
        Record(Event.Return(err));
        alive, ended := false, EndOf(err, canceling);
      }
    }

    // ------------------------------------------------------------------- staging

    /** persist, in the staging part. */
    method WriteStage(ghost from: StagePc)
      requires Valid() && AfterWrite(from).Some?
      requires alive ==> Is(Here().(pc := Stage(from)))
      modifies `log, `prog, `durable, `alive, `ended, `stopped, `canceling
      ensures Valid()
      ensures alive ==> old(alive) && durable == detail && Is(Settled(prog))
      ensures alive ==> prog == old(Here()).(durable := detail, pc := AfterWrite(from).value,
                                             stopped := stopped, canceling := canceling)
    {
      hide Trace, Step, StepRun, Resolve, Settled, AfterWrite;
      ghost var q := Here().(pc := Stage(from));
      RunsWrite(q, from);
      Advance(Persist(detail), q, q.(durable := detail, pc := AfterWrite(from).value));
    }

    /** ensureProvider: the source is submitted once, and its id is on disk before the provider is asked for it. */
    method EnsureProvider() returns (err: Error)
      requires Valid()
      requires alive ==> Is(AtEnsure(Here()))
      modifies `log, `prog, `durable, `alive, `ended, `stopped, `canceling, `detail
      ensures Valid() && detail.order == old(detail.order)
      ensures alive ==> old(alive) && if err == Nil then Is(AfterEnsure(Here())) else Leaves(err)
    {
      hide Trace, Step, StepRun, Resolve, Settled, AdoptInto, AfterEnsure;
      if detail.providerId != "" {
        return Nil;
      }
      if stopped {
        return Stopped;
      }
      var created := Submit();
      match created {
        case None =>
          return if stopped then Stopped else Other;
        case Some(download) =>
          if download.id == "" {
            return Other;
          }
          AdoptKeeps(detail, download);
          Adopt(download);
          err := NoteSubmission();
      }
    }

    /** The source is submitted, and the provider answers as it likes. */
    method Submit() returns (created: Option<Download>)
      requires Valid()
      requires alive ==> Is(Here().(pc := Stage(Submitting)))
      modifies `log, `prog, `durable, `alive, `ended, `stopped, `canceling
      ensures Valid()
      ensures alive ==> old(alive)
      ensures alive && created.None? ==> Leaves(if stopped then Stopped else Other)
      ensures alive && created.Some? && created.value.id == "" ==> Leaves(Other)
      ensures alive && created.Some? && created.value.id != "" ==>
                Is(Here().(d := AdoptInto(detail, created.value), pc := Stage(Adopted)))
    {
      hide Trace, Step, StepRun, Resolve, Settled, AdoptInto;
      created := *;
      ghost var q := Here().(pc := Stage(Submitting));
      RunsStage(q, Create(created));
      Advance(Create(created), q, StepSubmit(q, Create(created)).value);
      if alive && prog.pc.Stage? {
        SettlesStage(prog);
      } else if alive {
        SettlesOut(prog);
      }
    }

    /** The id of the new provider task is written down; a cancel that came meanwhile removes the task. */
    method NoteSubmission() returns (err: Error)
      requires Valid() && detail.providerId != ""
      requires alive ==> Is(Here().(pc := Stage(Adopted)))
      modifies `log, `prog, `durable, `alive, `ended, `stopped, `canceling
      ensures Valid()
      ensures alive ==> old(alive) && if err == Nil then Is(AfterEnsure(Here())) else Leaves(err)
    {
      hide Trace, Step, StepRun, Resolve, Settled, AfterEnsure;
      WriteStage(Adopted);
      if alive {
        SettlesStage(prog);
      }
      if stopped {
        if canceling {
          CancelProviderTask(Interrupt(Here()));
        }
        return Stopped;
      }
      return Nil;
    }

    /** What the answer to a submission adds to the record. */
    method Adopt(created: Download)
      requires created.id != ""
      modifies `detail
      ensures detail == AdoptInto(old(detail), created) && detail.providerId == created.id
    {
      hide Trace, Merge;
      MergeNothing(detail.files);
      var rootId, available, files := detail.rootId, detail.available, detail.files;
      if created.remoteId != "" {
        rootId := created.remoteId;
      }
      if created.available {
        available := true;
      }
      if |created.files| > 0 {
        files := MergeOfflineResultFiles(files, created.files);
      }
      detail := detail.(providerId := created.id, rootId := rootId, available := available, files := files);
    }

    /** What an observation adds to the record. */
    method Fold(o: Download)
      modifies `detail
      ensures detail == FoldInto(old(detail), o)
    {
      hide Trace, Merge;
      MergeNothing(detail.files);
      var rootId, available, files := detail.rootId, detail.available, detail.files;
      if o.available {
        available := true;
      }
      if o.remoteId != "" && rootId == "" {
        rootId := o.remoteId;
      }
      if |o.files| > 0 {
        files := MergeOfflineResultFiles(files, o.files);
      }
      detail := detail.(rootId := rootId, available := available, files := files);
    }

    /** recordObservation: the observation is folded into the record, and the record written down. */
    method RecordObservation(o: Download)
      requires Valid()
      requires alive ==> Is(Here().(d := FoldInto(detail, o), pc := Stage(Folded(o))))
      modifies `log, `prog, `durable, `alive, `ended, `stopped, `canceling, `detail
      ensures Valid() && detail == FoldInto(old(detail), o)
      ensures alive ==> old(alive) && Is(AfterRecord(Here(), o)) && durable == detail
    {
      hide Trace, Step, StepRun, Resolve, Settled, FoldInto, AfterRecord;
      Fold(o);
      WriteStage(Folded(o));
      if alive {
        SettlesStage(prog);
        RecordedHere(prog, Here(), o);
      }
    }

    lemma RecordedHere(p: Prog, q: Prog, o: Download)
      requires q == p.(d := q.d, errors := q.errors) && q.d == p.d && q.errors == p.errors
      ensures AfterRecord(q, o) == AfterRecord(p, o)
    {
      assert p == q;
    }

    /** observeStagedFiles. */
    method ObserveStagedFiles() returns (a: Answer)
      requires Valid()
      requires alive ==> Is(Here().(pc := Stage(Observing)))
      modifies `log, `prog, `durable, `alive, `ended, `stopped, `canceling, `detail
      ensures Valid() && detail.order == old(detail.order)
      ensures alive ==> old(alive) && Is(if a.Answered? then AfterRecord(Here(), a.download) else AtPoll(Here()))
    {
      hide Trace, Step, StepRun, Resolve, Settled, FoldInto, AfterRecord, AtPoll;
      a := *;
      ghost var q := Here().(pc := Stage(Observing));
      RunsStage(q, Asked(detail.providerId, a));
      Advance(Asked(detail.providerId, a), q, StepObserve(q, Asked(detail.providerId, a)).value);
      if alive {
        SettlesStage(prog);
      }
      match a {
        case Answered(o) =>
          FoldKeeps(detail, o);
          RecordObservation(o);
        case _ =>
      }
    }

    /** cancelOnInterrupt: the provider task goes only if the user asked to cancel. */
    method CancelOnInterrupt()
      requires Valid()
      requires alive ==> Is(Interrupt(Here()))
      modifies `log, `prog, `durable, `alive, `ended, `stopped, `canceling
      ensures Valid()
      ensures alive ==> old(alive) && Leaves(Stopped)
    {
      hide Trace, Step, StepRun, Resolve;
      if canceling && detail.providerId != "" {
        CancelProviderTask(Interrupt(Here()));
      }
    }

    /** One round of the polling loop: the provider is asked by the id on record, and answers as it likes. */
    method Ask() returns (a: Answer)
      requires Valid()
      requires alive ==> Is(Here().(pc := Stage(Polling)))
      modifies `log, `prog, `durable, `alive, `ended, `stopped, `canceling
      ensures Valid()
      ensures alive ==> old(alive)
      ensures alive && !a.Answered? ==> Is(AfterFailedPoll(Here(), a))
      ensures alive && a.Answered? ==>
                Is(Here().(d := FoldInto(detail, a.download), errors := 0, pc := Stage(Folded(a.download))))
    {
      hide Trace, Step, StepRun, Resolve, Settled, FoldInto, AfterFailedPoll;
      a := *;
      ghost var q := Here().(pc := Stage(Polling));
      RunsStage(q, Asked(detail.providerId, a));
      Advance(Asked(detail.providerId, a), q, StepPoll(q, Asked(detail.providerId, a)).value);
      if alive {
        SettlesStage(prog);
      }
    }

    /** pollToTerminal.  A history that ends while the loop still runs ends in a crash. */
    method PollToTerminal() returns (o: Download, err: Error)
      requires Valid()
      requires alive ==> Is(AtPoll(Here()))
      modifies `log, `prog, `durable, `alive, `ended, `stopped, `canceling, `detail, `transientErrors
      ensures Valid() && detail.order == old(detail.order)
      ensures alive ==> old(alive) && if err == Nil then Is(Settle(Here(), o)) else Leaves(err)
    {
      hide Trace, Step, StepRun, Resolve, FoldInto, Settle, Interrupt, AfterFailedPoll;
      o := *;
      var rounds: nat := *;
      while rounds > 0
        invariant Valid() && detail.order == old(detail.order)
        invariant alive ==> old(alive) && Is(AtPoll(Here()))
      {
        rounds := rounds - 1;
        if stopped {
          CancelOnInterrupt();
          return o, Stopped;
        }
        var a := Ask();
        match a {
          case Answered(download) =>
            transientErrors := 0;
            FoldKeeps(detail, download);
            RecordObservation(download);
            if Settles(detail, download) {
              return download, Nil;
            }
          case _ =>
            var over;
            o, err, over := Retried(a);
            if over {
              return;
            }
        }
      }
      if alive {
        alive, ended := false, Interrupted;
      }
      return o, Other;
    }

    /** The part of the loop after an answer that is an error; `over` ends the loop. */
    method Retried(a: Answer) returns (o: Download, err: Error, over: bool)
      requires Valid() && !a.Answered?
      requires alive ==> Is(AfterFailedPoll(Here(), a))
      modifies `log, `prog, `durable, `alive, `ended, `stopped, `canceling, `transientErrors
      ensures Valid()
      ensures alive ==> old(alive)
      ensures alive ==> if !over then Is(AtPoll(Here())) else if err == Nil then Is(Settle(Here(), o)) else Leaves(err)
    {
      hide Trace, Step, StepRun, Resolve, Settle, Interrupt, AtPoll;
      o := Download("", "", Succeeded, false, detail.files);
      if stopped {
        CancelOnInterrupt();
        return o, Stopped, true;
      }
      if a.Missing? {
        var resolved := ReconcileMissing();
        if resolved {
          return o, Nil, true;
        }
        over := Wait();
        return o, Other, over;
      }
      if a.Refused? {
        return o, Other, true;
      }
      transientErrors := transientErrors + 1;
      return o, Other, transientErrors > TRANSIENT_LIMIT;
    }

    /** The task is missing: it may have been so for too long. */
    method Wait() returns (overdue: bool)
      requires Valid()
      requires alive ==> Is(Here().(pc := Stage(Unfound)))
      modifies `log, `prog, `durable, `alive, `ended, `stopped, `canceling
      ensures Valid()
      ensures alive ==> old(alive) && if overdue then Leaves(Other) else Is(AtPoll(Here()))
    {
      hide Trace, Step, StepRun, Resolve, Settled, AtPoll;
      overdue := *;
      ghost var q := Here().(pc := Stage(Unfound));
      RunsStage(q, Waited(overdue));
      Advance(Waited(overdue), q, StepUnfound(q, Waited(overdue)).value);
      if alive && overdue {
        SettlesOut(prog);
      } else if alive {
        SettlesStage(prog);
      }
    }

    /** verifyDestination: the listing that decides is whatever the file system shows. */
    method VerifyDestination(ghost from: StagePc) returns (found: bool)
      requires Valid() && (from == Relisting || from == Verifying)
      requires alive && detail.files != [] ==> Is(Here().(pc := Stage(from)))
      modifies `log, `prog, `durable, `alive, `ended, `stopped, `canceling
      ensures Valid()
      ensures detail.files == [] ==> !found && alive == old(alive) && prog == old(prog) && stopped == old(stopped)
      ensures alive ==> old(alive)
      ensures alive && detail.files != [] ==>
                Is(Here().(pc := Stage(if from == Verifying then Checked else if found then Found else Unfound)))
    {
      hide Trace, Step, StepRun, Resolve, Settled, ShowsAll;
      if |detail.files| == 0 {
        return false;
      }
      var listing: Option<seq<Node>> := *;
      found := DestinationHasResults(listing, detail.files);
      var e := Verified(detail.files, listing);
      ghost var q := Here().(pc := Stage(from));
      RunsStage(q, e);
      Advance(e, q, if from == Verifying then StepVerify(q, e).value else StepRelist(q, e).value);
      if alive {
        SettlesStage(prog);
      }
    }

    /** reconcileMissing: the provider lost the task, but every expected file is in the destination. */
    method ReconcileMissing() returns (resolved: bool)
      requires Valid()
      requires alive ==> Is(Here().(pc := Stage(if detail.files == [] then Unfound else Relisting)))
      modifies `log, `prog, `durable, `alive, `ended, `stopped, `canceling
      ensures Valid()
      ensures alive ==> old(alive)
      ensures alive && resolved ==> Is(Settle(Here(), Download("", "", Succeeded, false, detail.files)))
      ensures alive && !resolved ==> Is(Here().(pc := Stage(Unfound)))
    {
      hide Trace, Step, StepRun, Resolve, Settled, Settle;
      resolved := VerifyDestination(Relisting);
      if resolved {
        WriteStage(Found);
        if alive {
          SettlesStage(prog);
        }
      }
    }

    lemma OverSettles(p: Prog, o: Download)
      ensures o.state == Failed ==> Settle(p, o) == Leave(p, Other)
      ensures o.state == Succeeded ==>
                var files := Merge(p.d.files, o.files);
                Settle(p, o) == p.(d := p.d.(files := files), pc := Stage(if files == [] then Checked else Verifying))
    {
      hide Merge;
    }

    /** completeStaging: anything but success is an error; success keeps what was observed before. */
    method CompleteStaging(o: Download) returns (ok: bool)
      requires Valid() && (o.state == Succeeded || o.state == Failed)
      requires alive ==> Is(Settle(Here(), o))
      modifies `log, `prog, `durable, `alive, `ended, `stopped, `canceling, `detail
      ensures Valid()
      ensures ok <==> o.state == Succeeded
      ensures ok ==> detail == old(detail).(files := Merge(old(detail).files, o.files))
      ensures alive ==> old(alive) && if ok then Is(AfterStaging(Here())) else Leaves(Other)
    {
      hide Trace, Step, StepRun, Resolve, Settled, Settle, Merge, AfterStaging;
      OverSettles(Here(), o);
      if o.state != Succeeded {
        return false;
      }
      var merged := MergeOfflineResultFiles(detail.files, o.files);
      detail := detail.(files := merged);
      NoteStaging();
      return true;
    }

    /** The destination is listed, which decides nothing, and the results written down. */
    method NoteStaging()
      requires Valid()
      requires alive ==> Is(Here().(pc := Stage(if detail.files == [] then Checked else Verifying)))
      modifies `log, `prog, `durable, `alive, `ended, `stopped, `canceling
      ensures Valid()
      ensures alive ==> old(alive) && Is(AfterStaging(Here()))
    {
      hide Trace, Step, StepRun, Resolve, Settled, AfterStaging;
      var verified := VerifyDestination(Verifying);
      WriteStage(Checked);
      if alive {
        SettlesStage(prog);
      }
    }

    // -------------------------------------------------------------------- transfer

    ghost function At(targets: seq<Paths.Target>, i: nat, file: FilePc): Prog
      reads this
    {
      OnFile(Here(), targets, i, file)
    }

    /** The run is about to begin with target `i`, or done with all of them. */
    ghost predicate Begins(targets: seq<Paths.Target>, i: nat)
      reads this
    {
      Is(ResolveFile(At(targets, i, Opening), targets, i, Opening))
    }

    /** The destination is open, and `attempt` URLs were tried. */
    ghost predicate Fetches(targets: seq<Paths.Target>, i: nat, file: FilePc)
      reads this
    {
      Is(ResolveFile(At(targets, i, file), targets, i, file))
    }

    /** The transfer of a file failed, and the run with it. */
    ghost predicate FileFails(err: Error)
      reads this
    {
      Is(AfterFailedFile(Here(), err))
    }

    /** A file that could not be had through URLs; an accelerated fetch then looks at the staged file. */
    ghost predicate UrlFails(targets: seq<Paths.Target>, i: nat, way: Way, err: Error)
      reads this
    {
      if way == Url && UrlFirst(Here()) then Is(At(targets, i, UrlFailed(err))) else FileFails(err)
    }

    /** One event in the transfer of target `i`, which stays at that target or fails. */
    method AdvanceFile(e: Event, ghost targets: seq<Paths.Target>, ghost i: nat, ghost file: FilePc, ghost next: MovePc)
      requires Valid() && !Outside(e) && !e.Return? && (next.Filing? || next.FileFailed?)
      requires alive ==> Is(At(targets, i, file))
      requires alive ==> StepRun(At(targets, i, file), e) == Some(Here().(pc := Move(next)))
      modifies `log, `prog, `durable, `alive, `ended, `stopped, `canceling
      ensures Valid()
      ensures alive ==> old(alive) && (old(stopped) ==> stopped) && prog.urls == old(prog.urls)
      ensures alive ==> Here().d == prog.d && Here().errors == prog.errors && prog.pc == Move(next)
      ensures alive && next.Filing? ==>
                Is(ResolveFile(At(next.targets, next.i, next.file), next.targets, next.i, next.file))
      ensures alive && next.FileFailed? ==> FileFails(next.err)
    {
      hide Trace, StepRun, Resolve, Settled, ResolveFile, AfterFailedFile;
      Advance(e, At(targets, i, file), Here().(pc := Move(next)));
      if alive {
        SettlesMove(prog);
        if next.Filing? {
          assert prog == At(next.targets, next.i, next.file);
        } else {
          FailsHere(prog, Here(), next.err);
        }
      }
    }

    lemma FailsHere(p: Prog, q: Prog, err: Error)
      requires q == p.(d := q.d, errors := q.errors) && q.d == p.d && q.errors == p.errors
      ensures AfterFailedFile(p, err) == AfterFailedFile(q, err)
    {
      assert p == q;
    }

    /** Discards the destination after an error. */
    method Discard(ghost targets: seq<Paths.Target>, ghost i: nat, t: Paths.Target, ghost way: Way, err: Error)
      requires Valid()
      requires alive ==> i < |targets| && targets[i] == t && Is(At(targets, i, Dropping(way, err)))
      modifies `log, `prog, `durable, `alive, `ended, `stopped, `canceling
      ensures Valid()
      ensures alive ==> old(alive) && prog.urls == old(prog.urls) && UrlFails(targets, i, way, err)
    {
      hide Trace, StepRun, Resolve, AfterFailedFile;
      ghost var next := if way == Url && UrlFirst(Here()) then Filing(targets, i, UrlFailed(err)) else FileFailed(err);
      if alive {
        RunsFile(At(targets, i, Dropping(way, err)), DiscardTarget(t.target), targets, i, Dropping(way, err));
      }
      AdvanceFile(DiscardTarget(t.target), targets, i, Dropping(way, err), next);
    }

    /** Closing the writer finishes the destination, or else it is discarded. */
    method Close(ghost targets: seq<Paths.Target>, ghost i: nat, t: Paths.Target, ghost way: Way, bytes: nat,
                 disclosed: int, ghost filled: set<int>)
      returns (err: Error)
      requires Valid()
      requires alive ==> i < |targets| && targets[i] == t && Is(At(targets, i, Closing(way, bytes, disclosed, filled)))
      modifies `log, `prog, `durable, `alive, `ended, `stopped, `canceling
      ensures Valid() && (err == Nil || err == Other)
      ensures alive ==> old(alive) && prog.urls == old(prog.urls)
      ensures alive ==> if err == Nil then Begins(targets, i + 1) else UrlFails(targets, i, way, err)
    {
      hide Trace, StepRun, Resolve, ResolveFile, AfterFailedFile;
      var closed: bool := *;
      ghost var file := Closing(way, bytes, disclosed, filled);
      if closed {
        var e := FinishTarget(t.target, t.file, bytes, disclosed);
        if alive {
          RunsFile(At(targets, i, file), e, targets, i, file);
        }
        AdvanceFile(e, targets, i, file, Filing(targets, i + 1, Opening));
        return Nil;
      }
      if alive {
        RunsFile(At(targets, i, file), CloseFailed, targets, i, file);
      }
      AdvanceFile(CloseFailed, targets, i, file, Filing(targets, i, Dropping(way, Other)));
      if alive {
        SamePoint(At(targets, i, Dropping(way, Other)), targets, i, Dropping(way, Other));
      }
      Discard(targets, i, t, way, Other);
      return Other;
    }

    lemma SamePoint(p: Prog, targets: seq<Paths.Target>, i: nat, file: FilePc)
      requires i < |targets| && p.pc == Move(Filing(targets, i, file))
      requires !file.Opening? && !file.CopyEnded? && !file.Fetching?
      ensures ResolveFile(p, targets, i, file) == p
    {
    }

    /** transferFromStaging: copies through the file system; a copy that ends short is discarded. */
    method FromStaging(ghost targets: seq<Paths.Target>, ghost i: nat, t: Paths.Target) returns (err: Error)
      requires Valid()
      requires alive ==> i < |targets| && targets[i] == t && Is(At(targets, i, OpenStaged))
      modifies `log, `prog, `durable, `alive, `ended, `stopped, `canceling
      ensures Valid()
      ensures alive ==> old(alive) && prog.urls == old(prog.urls)
      ensures alive ==> if err == Nil then Begins(targets, i + 1) else FileFails(err)
    {
      hide Trace, StepRun, Resolve, ResolveFile, AfterFailedFile;
      var opens := Open(targets, i, t, Staged);
      if !opens {
        return Other;
      }
      var written, copied := Copy(targets, i, t);
      if stopped || !copied || (t.size > 0 && written < t.size) {
        err := if stopped then Stopped else Other;
        Discard(targets, i, t, Staged, err);
        return;
      }
      err := Close(targets, i, t, Staged, written, 0, {});
    }

    /** The destination is opened for writing, which may fail. */
    method Open(ghost targets: seq<Paths.Target>, ghost i: nat, t: Paths.Target, way: Way) returns (opens: bool)
      requires Valid()
      requires alive ==> i < |targets| && targets[i] == t
      requires alive ==> Is(At(targets, i, if way == Staged then OpenStaged else OpenUrl))
      modifies `log, `prog, `durable, `alive, `ended, `stopped, `canceling
      ensures Valid()
      ensures alive ==> old(alive) && prog.urls == old(prog.urls)
      ensures alive && !opens ==> UrlFails(targets, i, way, Other)
      ensures alive && opens && way == Staged ==> Is(At(targets, i, Copying))
      ensures alive && opens && way == Url ==> Fetches(targets, i, Fetching(0, 0, t.size, {}))
    {
      hide Trace, StepRun, Resolve, ResolveFile, AfterFailedFile;
      opens := *;
      ghost var file := if way == Staged then OpenStaged else OpenUrl;
      ghost var next := if opens then Filing(targets, i, if way == Staged then Copying else Fetching(0, 0, t.size, {}))
                        else if way == Url && UrlFirst(Here()) then Filing(targets, i, UrlFailed(Other))
                        else FileFailed(Other);
      if alive {
        RunsFile(At(targets, i, file), OpenTarget(t.target, way, opens), targets, i, file);
      }
      AdvanceFile(OpenTarget(t.target, way, opens), targets, i, file, next);
      if alive && next.Filing? && !next.file.Fetching? {
        SamePoint(At(targets, i, next.file), targets, i, next.file);
      }
    }

    /** The copy ends by itself, with an error, or because the context is over. */
    method Copy(ghost targets: seq<Paths.Target>, ghost i: nat, t: Paths.Target) returns (written: nat, copied: bool)
      requires Valid()
      requires alive ==> i < |targets| && targets[i] == t && Is(At(targets, i, Copying))
      modifies `log, `prog, `durable, `alive, `ended, `stopped, `canceling
      ensures Valid()
      ensures alive ==> old(alive) && prog.urls == old(prog.urls)
      ensures alive && stopped ==> Is(At(targets, i, Dropping(Staged, Stopped)))
      ensures alive && !stopped && (!copied || (t.size > 0 && written < t.size)) ==>
                Is(At(targets, i, Dropping(Staged, Other)))
      ensures alive && !stopped && copied && !(t.size > 0 && written < t.size) ==>
                Is(At(targets, i, Closing(Staged, written, 0, {})))
    {
      hide Trace, StepRun, Resolve;
      written, copied := *, *;
      if alive {
        RunsFile(At(targets, i, Copying), Copied(written, copied), targets, i, Copying);
      }
      AdvanceFile(Copied(written, copied), targets, i, Copying, Filing(targets, i, CopyEnded(written, copied)));
    }

    /** transferFromURL: five URLs at most, each resuming where the last one stopped. */
    method FromUrl(ghost targets: seq<Paths.Target>, ghost i: nat, t: Paths.Target) returns (err: Error)
      requires Valid()
      requires alive ==> i < |targets| && targets[i] == t && Is(At(targets, i, OpenUrl))
      modifies `log, `prog, `durable, `alive, `ended, `stopped, `canceling
      ensures Valid()
      ensures alive ==> old(alive) && prog.urls == old(prog.urls)
      ensures alive ==> if err == Nil then Begins(targets, i + 1) else UrlFails(targets, i, Url, err)
    {
      hide Trace, StepRun, Resolve, ResolveFile, AfterFailedFile, UrlFirst;
      var opens := Open(targets, i, t, Url);
      if !opens {
        return Other;
      }
      var attempt: nat, offset: nat, size, filled: set<int> := 0, 0, t.size, {};
      while attempt < URL_REFRESHES
        invariant attempt <= URL_REFRESHES && Valid()
        invariant alive ==> old(alive) && prog.urls == old(prog.urls)
        invariant alive ==> Fetches(targets, i, Fetching(attempt, offset, size, filled))
      {
        if alive {
          FetchingAt(At(targets, i, Fetching(attempt, offset, size, filled)), targets, i, attempt, offset, size,
              filled);
        }
        if stopped {
          Discard(targets, i, t, Url, Stopped);
          return Stopped;
        }
        var next := Stream(targets, i, attempt, offset, size, filled);
        match next {
          case Closing(_, bytes, disclosed, all) =>
            if alive {
              SamePoint(At(targets, i, next), targets, i, next);
            }
            err := Close(targets, i, t, Url, bytes, disclosed, all);
            return;
          case Fetching(n, o, s, all) =>
            attempt, offset, size, filled := n, o, s, all;
          case _ =>
        }
      }
      if alive {
        FetchingAt(At(targets, i, Fetching(attempt, offset, size, filled)), targets, i, attempt, offset, size, filled);
      }
      err := if stopped then Stopped else Other;
      Discard(targets, i, t, Url, err);
    }

    lemma FetchingAt(p: Prog, targets: seq<Paths.Target>, i: nat, attempt: nat, offset: nat, size: int,
        filled: set<int>)
      requires i < |targets| && p.pc == Move(Filing(targets, i, Fetching(attempt, offset, size, filled)))
      ensures ResolveFile(p, targets, i, Fetching(attempt, offset, size, filled))
           == if p.stopped then OnFile(p, targets, i, Dropping(Url, Stopped))
              else if attempt >= URL_REFRESHES then OnFile(p, targets, i, Dropping(Url, Other))
              else p
    {
    }

    /** One attempt: the provider may give no URL, or one that behaves as it likes. */
    method Stream(ghost targets: seq<Paths.Target>, ghost i: nat, attempt: nat, offset: nat, size: int,
        filled: set<int>)
      returns (next: FilePc)
      requires Valid() && attempt < URL_REFRESHES
      requires alive ==> i < |targets| && Is(At(targets, i, Fetching(attempt, offset, size, filled)))
      modifies `log, `prog, `durable, `alive, `ended, `stopped, `canceling
      ensures Valid()
      ensures (next.Closing? && next.way == Url) || (next.Fetching? && next.attempt == attempt + 1)
      ensures alive ==> old(alive) && prog.urls == old(prog.urls) && Fetches(targets, i, next)
    {
      hide Trace, StepRun, Resolve, ResolveFile, UrlFetch.Possible, UrlFetch.Run, UrlFetch.Written;
      var url: UrlFetch.Url, granted: bool := *, *;
      granted := granted && UrlFetch.Possible(offset, size, url);
      next := if granted then AfterUrl(attempt, offset, size, filled, url)
          else Fetching(attempt + 1, offset, size, filled);
      var e := Streamed(if granted then Some(url) else None);
      ghost var file := Fetching(attempt, offset, size, filled);
      if alive {
        RunsFile(At(targets, i, file), e, targets, i, file);
      }
      AdvanceFile(e, targets, i, file, Filing(targets, i, next));
    }

    /** transferFile: an accelerated fetch tries the URL first, any other the staged file. */
    method TransferFile(ghost targets: seq<Paths.Target>, ghost i: nat, t: Paths.Target, urls: bool)
        returns (err: Error)
      requires Valid()
      requires alive ==> i < |targets| && targets[i] == t && Begins(targets, i) && prog.urls == urls
      modifies `log, `prog, `durable, `alive, `ended, `stopped, `canceling
      ensures Valid()
      ensures alive ==> old(alive) && prog.urls == urls
      ensures alive ==> if err == Nil then Begins(targets, i + 1) else FileFails(err)
    {
      hide Trace, StepRun, Resolve, ResolveFile, AfterFailedFile;
      if alive {
        BeginsAt(Here(), targets, i);
      }
      if detail.order.accelerated && urls {
        err := FromUrl(targets, i, t);
        if err == Nil {
          return;
        }
        var readable := Look(targets, i, UrlFailed(err));
        if readable {
          err := FromStaging(targets, i, t);
        }
        return;
      }
      var readable := Look(targets, i, Looking);
      if readable {
        err := FromStaging(targets, i, t);
      } else {
        err := FromUrl(targets, i, t);
      }
    }

    lemma BeginsAt(p: Prog, targets: seq<Paths.Target>, i: nat)
      requires i < |targets|
      ensures ResolveFile(OnFile(p, targets, i, Opening), targets, i, Opening)
           == OnFile(p, targets, i, if UrlFirst(p) then OpenUrl else Looking)
    {
    }

    /** The staged file may be readable through the file system or not. */
    method Look(ghost targets: seq<Paths.Target>, ghost i: nat, ghost file: FilePc) returns (readable: bool)
      requires Valid() && (file.Looking? || file.UrlFailed?)
      requires alive ==> i < |targets| && Is(At(targets, i, file))
      modifies `log, `prog, `durable, `alive, `ended, `stopped, `canceling
      ensures Valid()
      ensures alive ==> old(alive) && prog.urls == old(prog.urls)
      ensures alive && readable ==> Is(At(targets, i, OpenStaged))
      ensures alive && !readable && file.Looking? ==> Is(At(targets, i, OpenUrl))
      ensures alive && !readable && file.UrlFailed? ==> FileFails(file.err)
    {
      hide Trace, StepRun, Resolve, ResolveFile, AfterFailedFile;
      readable := *;
      ghost var next := if readable then Filing(targets, i, OpenStaged)
                        else if file.Looking? then Filing(targets, i, OpenUrl) else FileFailed(file.err);
      if alive {
        RunsFile(At(targets, i, file), Looked(readable), targets, i, file);
      }
      AdvanceFile(Looked(readable), targets, i, file, next);
      if alive && next.Filing? {
        SamePoint(At(targets, i, next.file), targets, i, next.file);
      }
    }

    /** transferPhase: every file lands at its own destination, or the phase fails. */
    method TransferPhase() returns (err: Error)
      requires Valid()
      requires alive ==> Is(Here().(pc := Move(Planning)))
      modifies `log, `prog, `durable, `alive, `ended, `stopped, `canceling
      ensures Valid()
      ensures alive ==> old(alive)
      ensures alive && err == Nil ==>
          Is(Here().(d := detail.(phase := Cleanup, transferDone := true), pc := Move(Finished)))
      ensures alive && err != Nil ==> if err == Stopped then Is(Interrupt(Here())) else Leaves(err)
    {
      hide Trace, StepRun, Resolve, ResolveFile, Interrupt, Paths.TargetsOf;
      var targets, urls, ok := Plan();
      if !ok {
        return Other;
      }
      var i := 0;
      while i < |targets|
        invariant i <= |targets| && Valid()
        invariant alive ==> old(alive) && Begins(targets, i) && prog.urls == urls
      {
        err := TransferFile(targets, i, targets[i], urls);
        if err != Nil {
          return;
        }
        i := i + 1;
      }
      if alive {
        AllBegan(Here(), targets);
      }
      return Nil;
    }

    lemma AllBegan(p: Prog, targets: seq<Paths.Target>)
      ensures ResolveFile(OnFile(p, targets, |targets|, Opening), targets, |targets|, Opening)
           == p.(d := p.d.(phase := Cleanup, transferDone := true), pc := Move(Finished))
    {
    }

    /** The destinations of all files are chosen and their directories made. */
    method Plan() returns (targets: seq<Paths.Target>, urls: bool, ok: bool)
      requires Valid()
      requires alive ==> Is(Here().(pc := Move(Planning)))
      modifies `log, `prog, `durable, `alive, `ended, `stopped, `canceling
      ensures Valid()
      ensures alive ==> old(alive)
      ensures alive ==> if ok then Begins(targets, 0) && prog.urls == urls else Leaves(Other)
    {
      hide Trace, StepRun, Resolve, Settled, ResolveFile, Paths.TargetsOf;
      var isDirectory: bool, prepared: bool := *, *;
      urls := *;
      var r := Paths.FetchTargets(detail.files, detail.order.flat, detail.order.to, isDirectory);
      var e := Planned(isDirectory, prepared, urls);
      ghost var q := Here().(pc := Move(Planning));
      RunsMove(q, e);
      Advance(e, q, StepPlan(q, e).value);
      targets := if r.Ok? then r.value.targets else [];
      ok := r.Ok? && targets != [] && prepared;
      if alive && ok {
        SettlesMove(prog);
        assert prog == At(targets, 0, Opening);
      } else if alive {
        SettlesOut(prog);
      }
    }

    // --------------------------------------------------------------------- cleanup

    /** cleanupPhase: without retention every staged file with an id is removed, and then perhaps their folder. */
    method CleanupPhase()
      requires Valid()
      requires alive ==> Is(AtClean(Here(), 0, 0, {}))
      modifies `log, `prog, `durable, `alive, `ended, `stopped, `canceling, `detail
      ensures Valid() && detail == old(detail).(cleanupDone := detail.cleanupDone)
      ensures alive ==> old(alive) && Is(AtDone(Here()))
    {
      hide Trace, StepRun, Resolve, AtClean, AtDone, AtFolder;
      CleaningAt(Here(), 0, 0, {});
      if detail.order.keepCloud || |detail.files| == 0 {
        return;
      }
      var ids: set<string>, count: nat, i: nat := {}, 0, 0;
      while i < |detail.files|
        invariant i <= |detail.files| && Valid() && detail == old(detail)
        invariant alive ==> old(alive) && Is(AtClean(Here(), i, count, ids))
      {
        CleaningAt(Here(), i, count, ids);
        if detail.files[i].remoteId != "" {
          count, ids := RemoveStaged(i, count, ids);
        }
        i := i + 1;
      }
      CleaningAt(Here(), i, count, ids);
      detail := detail.(cleanupDone := count == |detail.files|);
      if detail.cleanupDone {
        CleanupRootFolder(ids);
      }
    }

    lemma CleaningAt(p: Prog, i: nat, count: nat, ids: set<string>)
      requires i <= |p.d.files|
      ensures p.d.order.keepCloud || |p.d.files| == 0 ==> AtClean(p, i, count, ids) == AtDone(p)
      ensures !p.d.order.keepCloud && i < |p.d.files| ==>
                AtClean(p, i, count, ids) == if p.d.files[i].remoteId != ""
                    then p.(pc := Clean(Cleaning(i, count, ids)))
                                             else AtClean(p, i + 1, count, ids)
      ensures !p.d.order.keepCloud && 0 < |p.d.files| == i ==>
                AtClean(p, i, count, ids) == var q := p.(d := p.d.(cleanupDone := count == i));
                                             if count == i then AtFolder(q, 0, ids) else AtDone(q)
    {
      hide Trace, AtDone, AtFolder;
    }

    /** One staged file is removed, as far as the provider lets it. */
    method RemoveStaged(i: nat, count: nat, ids: set<string>) returns (removed: nat, gone: set<string>)
      requires Valid() && i < |detail.files|
      requires alive ==> Is(Here().(pc := Clean(Cleaning(i, count, ids))))
      modifies `log, `prog, `durable, `alive, `ended, `stopped, `canceling
      ensures Valid()
      ensures alive ==> old(alive) && Is(AtClean(Here(), i + 1, removed, gone))
    {
      hide Trace, StepRun, Resolve, Settled, AtClean;
      var ok: bool := *;
      var file := detail.files[i];
      removed, gone := if ok then count + 1 else count, if ok then ids + {file.remoteId} else ids;
      ghost var q := Here().(pc := Clean(Cleaning(i, count, ids)));
      RunsClean(q, RemoveFile(file, ok));
      Advance(RemoveFile(file, ok), q, q.(pc := Clean(CleanStep(i + 1, removed, gone))));
      if alive {
        SettlesClean(prog);
        CleansHere(prog, Here(), i + 1, removed, gone);
      }
    }

    lemma CleansHere(p: Prog, q: Prog, i: nat, count: nat, ids: set<string>)
      requires q == p.(d := q.d, errors := q.errors) && q.d == p.d && q.errors == p.errors
      ensures AtClean(p, i, count, ids) == AtClean(q, i, count, ids) && AtDone(p) == AtDone(q)
      ensures forall attempt :: AtFolder(p, attempt, ids) == AtFolder(q, attempt, ids)
    {
      assert p == q;
    }

    /** cleanupStagedRootFolder: the folder goes only when nothing but removed files was listed below it. */
    method CleanupRootFolder(ids: set<string>)
      requires Valid()
      requires alive ==> Is(AtFolder(Here(), 0, ids))
      modifies `log, `prog, `durable, `alive, `ended, `stopped, `canceling
      ensures Valid()
      ensures alive ==> old(alive) && Is(AtDone(Here()))
    {
      hide Trace, StepRun, Resolve, AtDone, RootFolder, Owned;
      var folder := StagedRootFolder(detail.files);
      if detail.rootId == "" || folder == "" {
        return;
      }
      var attempt: nat := 0;
      while attempt < VERIFY_ATTEMPTS
        invariant attempt <= VERIFY_ATTEMPTS && Valid()
        invariant alive ==> old(alive) && Is(AtFolder(Here(), attempt, ids))
      {
        if attempt > 0 && stopped {
          return;
        }
        var over := RemoveFolderOnce(ids, attempt, folder);
        if over {
          return;
        }
        attempt := attempt + 1;
      }
    }

    /** One attempt at the folder; `over` ends the loop. */
    method RemoveFolderOnce(ids: set<string>, ghost attempt: nat, folder: string) returns (over: bool)
      requires Valid() && folder == RootFolder(detail.files)
      requires alive ==> Is(Here().(pc := Clean(Foldering(attempt, ids))))
      modifies `log, `prog, `durable, `alive, `ended, `stopped, `canceling
      ensures Valid()
      ensures alive ==> old(alive) && Is(if over then AtDone(Here()) else AtFolder(Here(), attempt + 1, ids))
    {
      hide Trace, StepRun, Resolve, Settled, AtFolder, RootFolder, Owned;
      var shown, owned := ListFolder(ids, attempt);
      if !owned {
        return true;
      }
      over := *;
      var e := RemoveFolder(detail.rootId, folder, shown, over);
      ghost var q := Here().(pc := Clean(FolderShown(attempt, ids, shown)));
      RunsClean(q, e);
      Advance(e, q, if over then AtDone(q) else q.(pc := Clean(FolderStep(attempt + 1, ids))));
      if alive {
        SettlesClean(prog);
        if !over {
          CleansHere(prog, Here(), 0, 0, ids);
        }
      }
    }

    /** The folder is listed; it may be removed if all that shows below it was removed by this run. */
    method ListFolder(ids: set<string>, ghost attempt: nat) returns (shown: seq<Node>, owned: bool)
      requires Valid()
      requires alive ==> Is(Here().(pc := Clean(Foldering(attempt, ids))))
      modifies `log, `prog, `durable, `alive, `ended, `stopped, `canceling
      ensures Valid()
      ensures alive ==> old(alive)
      ensures alive ==> Is(if owned then Here().(pc := Clean(FolderShown(attempt, ids, shown))) else AtDone(Here()))
    {
      hide Trace, StepRun, Resolve, Settled, LeavesUnder, Nesting;
      var listing: Option<seq<Node>> := *;
      owned := false;
      match listing {
        case None => shown := [];
        case Some(nodes) =>
          shown := nodes;
          owned := StagedTreeOwned(nodes, ids, 0);
      }
      ghost var q := Here().(pc := Clean(Foldering(attempt, ids)));
      RunsClean(q, ListedFolder(listing));
      Advance(ListedFolder(listing), q, if owned then q.(pc := Clean(FolderShown(attempt, ids, shown))) else AtDone(q));
      if alive {
        SettlesClean(prog);
      }
    }

    // ------------------------------------------------------------------------ runs

    /** The observation has settled the staging: it ends with the transfer phase on disk, or with an error. */
    method BeginTransfer(o: Download) returns (err: Error)
      requires Valid() && detail.order.fetch
      requires alive ==> Is(Settle(Here(), o))
      modifies `log, `prog, `durable, `alive, `ended, `stopped, `canceling, `detail
      ensures Valid()
      ensures err == Nil ==> detail.phase == Transfer && detail.order.fetch
      ensures alive ==> old(alive) && if err == Nil then Is(Here().(pc := Move(Planning))) else Leaves(err)
    {
      hide Trace, StepRun, Resolve, Settled, Settle, AtMove;
      match o.state {
        case Canceled =>
          FailCanceled(o);
          return Aborted;
        case Pending =>
          PendingSettles(Here(), o);
          if !(detail.available && |detail.files| > 0) {
            return Other;
          }
        case _ =>
          var ok := CompleteStaging(o);
          if !ok {
            return Other;
          }
      }
      EnterTransfer();
      return Nil;
    }

    /** The transfer phase is on disk before anything is transferred. */
    method EnterTransfer()
      requires Valid()
      requires alive ==> Is(AtMove(Here()))
      modifies `log, `prog, `durable, `alive, `ended, `stopped, `canceling, `detail
      ensures Valid() && detail == old(detail).(phase := Transfer)
      ensures alive ==> old(alive) && durable == detail && Is(Here().(pc := Move(Planning)))
    {
      hide Trace, StepRun, Resolve, Settled;
      detail := detail.(phase := Transfer);
      WriteStage(Moving);
      if alive {
        SettlesMove(prog);
      }
    }

    lemma PendingSettles(p: Prog, o: Download)
      requires o.state == Pending
      ensures Settle(p, o) == if p.d.order.fetch && Ready(p.d) then AtMove(p) else Leave(p, Other)
    {
    }

    /** failCanceled: the provider reported its task canceled. */
    method FailCanceled(o: Download)
      requires Valid() && o.state == Canceled
      requires alive ==> Is(Settle(Here(), o))
      modifies `log, `prog, `durable, `alive, `ended, `stopped, `canceling
      ensures Valid()
      ensures alive ==> old(alive) && Leaves(Aborted)
    {
      hide Trace, StepRun, Resolve;
      if detail.providerId != "" {
        CancelProviderTask(Settle(Here(), o));
      }
    }

    /** The staging part of runFetch. */
    method StageFetch() returns (err: Error)
      requires Valid() && detail.order.fetch
      requires alive ==> Is(AtEnsure(Here()))
      modifies `log, `prog, `durable, `alive, `ended, `stopped, `canceling, `detail, `transientErrors
      ensures Valid()
      ensures err == Nil ==> detail.phase == Transfer && detail.order.fetch
      ensures alive ==> old(alive) && if err == Nil then Is(Here().(pc := Move(Planning))) else Leaves(err)
    {
      hide Trace, StepRun, Resolve, AtEnsure, Settle, AtPoll;
      err := EnsureProvider();
      if err != Nil {
        return;
      }
      var a := ObserveStagedFiles();
      var o: Download := *;
      match a {
        case Answered(download) =>
          o := download;
          if !Settles(detail, o) {
            o, err := PollToTerminal();
          }
        case _ =>
          o, err := PollToTerminal();
      }
      if err != Nil {
        return;
      }
      err := BeginTransfer(o);
    }

    /** runFetch: the phase on disk decides where the run takes up its work. */
    method RunFetch() returns (err: Error)
      requires Valid() && detail.order.fetch
      requires alive ==> Is(ResolveBegin(Here()))
      modifies `log, `prog, `durable, `alive, `ended, `stopped, `canceling, `detail, `transientErrors
      ensures Valid()
      ensures alive ==> old(alive) && Leaves(err)
    {
      hide Trace, StepRun, Resolve, AtEnsure, AtClean;
      if detail.phase == NoPhase {
        detail := detail.(phase := Staging);
      }
      if detail.phase == Staging {
        err := StageFetch();
        if err != Nil {
          return;
        }
      }
      if detail.phase == Transfer {
        err := FinishTransfer();
        if err != Nil {
          return;
        }
      }
      if detail.phase == Cleanup {
        CleanupPhase();
        FinishCleanup();
      }
      return Nil;
    }

    /** The transfer phase and what it leaves on disk; a run that was stopped meanwhile may cancel the provider task. */
    method FinishTransfer() returns (err: Error)
      requires Valid() && detail.order.fetch
      requires alive ==> Is(Here().(pc := Move(Planning)))
      modifies `log, `prog, `durable, `alive, `ended, `stopped, `canceling, `detail
      ensures Valid() && detail.order == old(detail.order) && (err == Nil ==> detail.phase == Cleanup)
      ensures alive ==> old(alive) && if err == Nil then Is(AtClean(Here(), 0, 0, {})) else Leaves(err)
    {
      hide Trace, StepRun, Resolve, Settled, AtClean;
      err := TransferPhase();
      if err == Stopped {
        CancelOnInterrupt();
        return;
      }
      if err != Nil {
        return;
      }
      EnterCleanup();
    }

    /** The cleanup phase is on disk before anything is removed. */
    method EnterCleanup()
      requires Valid()
      requires alive ==> Is(Here().(d := detail.(phase := Cleanup, transferDone := true), pc := Move(Finished)))
      modifies `log, `prog, `durable, `alive, `ended, `stopped, `canceling, `detail
      ensures Valid() && detail == old(detail).(phase := Cleanup, transferDone := true)
      ensures alive ==> old(alive) && durable == detail && Is(AtClean(Here(), 0, 0, {}))
    {
      hide Trace, StepRun, Resolve, Settled, AtClean;
      detail := detail.(phase := Cleanup, transferDone := true);
      ghost var q := Here().(pc := Move(Finished));
      RunsMove(q, Persist(detail));
      Advance(Persist(detail), q, q.(durable := detail, pc := Clean(CleanStep(0, 0, {}))));
      if alive {
        SettlesClean(prog);
        CleansHere(prog, Here(), 0, 0, {});
      }
    }

    /** The cleanup is over: the record says so. */
    method FinishCleanup()
      requires Valid()
      requires alive ==> Is(AtDone(Here()))
      modifies `log, `prog, `durable, `alive, `ended, `stopped, `canceling, `detail
      ensures Valid()
      ensures alive ==> old(alive) && Leaves(Nil)
    {
      hide Trace, StepRun, Resolve, Settled;
      detail := detail.(phase := Complete);
      ghost var q := Here().(pc := Clean(Completing));
      RunsClean(q, Persist(detail));
      Advance(Persist(detail), q, q.(durable := detail, pc := Leaving(Nil)));
      if alive {
        SettlesOut(prog);
      }
    }

    /** runDownload: a plain download ends with its staging. */
    method RunDownload() returns (err: Error)
      requires Valid() && !detail.order.fetch
      requires alive ==> Is(ResolveBegin(Here()))
      modifies `log, `prog, `durable, `alive, `ended, `stopped, `canceling, `detail, `transientErrors
      ensures Valid()
      ensures alive ==> old(alive) && Leaves(err)
    {
      hide Trace, StepRun, Resolve, AtEnsure, AtPoll, Merge;
      err := EnsureProvider();
      if err != Nil {
        return;
      }
      var o;
      o, err := PollToTerminal();
      if err != Nil {
        return;
      }
      match o.state {
        case Canceled =>
          FailCanceled(o);
          return Aborted;
        case Pending =>
          return Other;
        case _ =>
          var ok := CompleteStaging(o);
          return if ok then Nil else Other;
      }
    }

    // ------------------------------------------------------------------ the task manager

    /** What the end of the task means. */
    ghost predicate Over()
      reads this
    {
      if durable.order.fetch then durable.phase == Complete && AllFinished(See(init, log).finished, durable.files)
      else See(init, log).observed == Some(Succeeded)
    }

    /** One run, from the record on disk to the end of the run or of the process. */
    method Run()
      requires Valid() && !alive && ended == Interrupted
      modifies this
      ensures Valid() && !alive
      ensures ended == Done ==> Over()
    {
      hide Step, StepRun, Resolve, ResolveBegin, Over, Trace;
      Begin();
      var err: Error;
      if detail.order.fetch {
        err := RunFetch();
      } else {
        err := RunDownload();
      }
      Return(err);
      if ended == Done {
        OverMeans();
      }
    }

    lemma OverMeans()
      requires Valid() && prog.pc == Off(Done)
      ensures Over()
    {
      hide Trace, Step, Inv, Safe, AllFinished;
      var n := |log| - 1;
      OverIsSuccess(init, log);
      HistoryIsSafe(init, log);
      SafeLast(init, log);
      SafeIsSound(init, log);
      SameDurable(prog, See(init, log));
    }

    lemma SameDurable(p: Prog, v: View)
      requires Inv(p, v)
      ensures p.durable == v.durable
    {
    }

    /** The run starts from the record on disk.  A cancel or a shutdown can come before it has done anything. */
    method Begin()
      requires Valid() && !alive && ended == Interrupted
      modifies this
      ensures Valid()
      ensures alive ==> Is(ResolveBegin(Here()))
    {
      hide Trace, Step, StepRun, Resolve, ResolveBegin;
      ResumeIs(prog);
      Record(Resume);
      alive, stopped, canceling := true, false, false;
      detail, transientErrors := durable, 0;
      Outsiders();
      if alive {
        BeginIs(prog);
        assert Here() == prog;
      }
    }

    /** retryOfflineTask, on a task that did not succeed. */
    method RetryTask(inPlace: bool)
      requires Valid() && !alive && ended != Done
      modifies `log, `prog, `durable, `ended
      ensures Valid() && ended == Interrupted && durable == RetryDetail(old(durable), inPlace)
    {
      hide Trace, Step, StepRun, Resolve;
      OutsideIs(prog, Retry(inPlace));
      Record(Retry(inPlace));
      ended := Interrupted;
    }

    /** startRun refuses a task that was canceled before its run began. */
    method Refuse()
      requires Valid() && !alive && ended == Interrupted
      modifies `log, `prog, `durable, `ended
      ensures Valid() && ended == Broke && durable == old(durable)
    {
      hide Trace, Step, StepRun, Resolve;
      OutsideIs(prog, Event.Refuse);
      Record(Event.Refuse);
      ended := Broke;
    }

    /** Any number of runs, refusals and retries: every log is a history of the program, and safe. */
    method Live(steps: nat)
      requires Valid() && !alive
      modifies this
      ensures Valid() && !alive && Safe(init, log)
      ensures ended == Done ==> Over()
    {
      hide Trace, Over, Safe;
      if ended == Done {
        OverMeans();
      }
      var left := steps;
      while left > 0
        invariant Valid() && !alive && (ended == Done ==> Over())
      {
        left := left - 1;
        var choice: nat, inPlace: bool := *, *;
        if ended == Interrupted && choice == 0 {
          Run();
        } else if ended == Interrupted && choice == 1 {
          Refuse();
        } else if ended != Done {
          RetryTask(inPlace);
        }
      }
      HistoryIsSafe(init, log);
    }
  }
}
