/** Two promises that the offline runner does not keep, each as a history of the program, and exactly when. */
module OfflineGaps {
  import opened Wrappers
  import opened ResultFiles
  import opened StagedTree
  import opened OfflineLog
  import opened OfflineProgram
  import ChunkFetch
  import Paths
  import UrlFetch

  // ---------------------------------------------------------------- following a history

  /** The program stands at `p`; of the destinations only `path` may be finished. */
  ghost predicate Reached(init: Detail, log: seq<Event>, p: Prog, path: string, removed: set<File>) {
    && Trace(init, log) == Some(p)
    && See(init, log).finished.Keys <= {path} && See(init, log).removed == removed
  }

  /** One event further, from `q` where the silent moves lead. */
  lemma Go(init: Detail, log: seq<Event>, p: Prog, path: string, removed: set<File>, q: Prog, e: Event, r: Prog)
    requires Reached(init, log, p, path, removed) && Resolve(p) == q
    requires !Outside(e) && StepRun(q, e) == Some(r) && (e.FinishTarget? ==> e.path == path)
    ensures Reached(init, log + [e], r, path, if e.RemoveFile? then removed + {e.file} else removed)
    ensures e.OpenTarget? && e.path == path ==> See(init, log + [e]).finished == map[]
  {
    hide Trace, StepRun, Resolve, See, Apply;
    TraceNext(init, log, e);
    SeeNext(init, log, e);
    Seen(See(init, log), e, path);
  }

  lemma Seen(v: View, e: Event, path: string)
    requires v.finished.Keys <= {path} && (e.FinishTarget? ==> e.path == path)
    ensures Apply(v, e).finished.Keys <= {path}
    ensures Apply(v, e).removed == if e.RemoveFile? then v.removed + {e.file} else v.removed
    ensures e.OpenTarget? && e.path == path ==> Apply(v, e).finished == map[]
  {
    hide ShowsAll, RetryDetail;
  }

  /** One event from the outside. */
  lemma GoOutside(init: Detail, log: seq<Event>, p: Prog, path: string, removed: set<File>, e: Event, r: Prog)
    requires Reached(init, log, p, path, removed) && Outside(e) && StepOutside(p, e) == Some(r)
    ensures Reached(init, log + [e], r, path, removed)
  {
    hide Trace, StepRun, Resolve, StepOutside, See, Apply;
    TraceNext(init, log, e);
    SeeNext(init, log, e);
    Seen(See(init, log), e, path);
  }

  lemma MergeSame(f: File)
    ensures Merge([f], [f]) == [f] && Merge([], [f]) == [f]
  {
    assert Last([f], ById(f.remoteId)) == Some(f);
    assert MergeOne([f], f) == f;
  }

  /** The answer that the work is done, with the one file `f`. */
  function Ready1(f: File): Download {
    Download("1", "", Succeeded, false, [f])
  }

  /** The record of a fetch of one file before and after it is staged. */
  predicate Unstaged(d: Detail) {
    d.order.fetch && d.phase == Staging && d.files == [] && d.providerId == "1"
  }

  function With(d: Detail, f: File, phase: Phase): Detail {
    d.(files := [f], phase := phase)
  }

  lemma StagedIs(d: Detail, f: File)
    requires Unstaged(d)
    ensures FoldInto(d, Ready1(f)) == With(d, f, Staging)
  {
    MergeSame(f);
  }

  // --------------------------------------------------------------------------- segments

  lemma Starts(init: Detail, path: string)
    ensures Reached(init, [Resume], Started(init), path, {})
  {
    hide StepRun;
    var start := Prog(init, init, Off(Interrupted), 0, false, false, false);
    assert Reached(init, [], start, path, {});
    GoOutside(init, [], start, path, {}, Resume, Started(init));
  }

  /** A first run submits the source and writes the id down. */
  lemma Submitted(init: Detail, path: string) returns (log: seq<Event>, p: Prog)
    requires Fresh(init) && init.order.fetch
    ensures Reached(init, log, p, path, {}) && Unstaged(p.d) && p.d.order == init.order && !p.stopped && !p.canceling
    ensures p.durable == p.d && Resolve(p) == p.(pc := Stage(Observing))
  {
    hide StepRun, Settled, Reached, See;
    Starts(init, path);
    var d := init.(phase := Staging);
    var q := Started(init).(d := d, pc := Stage(Submitting));
    var created := Download("1", "", Pending, false, []);
    var adopted := d.(providerId := "1");
    var r := q.(d := adopted, pc := Stage(Adopted));
    RunsStage(q, Create(Some(created)));
    Go(init, [Resume], Started(init), path, {}, q, Create(Some(created)), r);
    RunsStage(r, Persist(adopted));
    p := r.(durable := adopted, pc := Stage(StagePc.Submitted));
    Go(init, [Resume] + [Create(Some(created))], r, path, {}, r, Persist(adopted), p);
    log := [Resume] + [Create(Some(created))] + [Persist(adopted)];
  }

  /** The work is observed as done and its results are written down, up to the transfer phase. */
  lemma Settling(init: Detail, log: seq<Event>, p: Prog, d: Detail, f: File, path: string, removed: set<File>)
    returns (more: seq<Event>, r: Prog)
    requires Reached(init, log, p, path, removed) && Unstaged(d) && !p.stopped
    requires Resolve(p) == p.(d := d, pc := Stage(Observing))
    ensures Reached(init, more, r, path, removed) && log <= more
    ensures r == p.(durable := With(d, f, Transfer), d := With(d, f, Transfer), pc := Move(Planning))
  {
    hide Reached, See, StepRun, Resolve, Settled, Settle, FoldInto;
    var o, staged := Ready1(f), With(d, f, Staging);
    StagedIs(d, f);
    var q := p.(d := d, pc := Stage(Observing));
    var e := Asked("1", Answered(o));
    RunsStage(q, e);
    var folded := q.(d := staged, pc := Stage(Folded(o)));
    Go(init, log, p, path, removed, q, e, folded);
    SettledIs(folded);
    SettlesStage(folded);
    var recorded := folded.(durable := staged, pc := Stage(Recorded(o)));
    RunsStage(folded, Persist(staged));
    Go(init, log + [e], folded, path, removed, folded, Persist(staged), recorded);
    var rest;
    rest, r := Verifies(init, log + [e] + [Persist(staged)], recorded, d, f, path, removed);
    more := rest;
  }

  lemma Verifies(init: Detail, log: seq<Event>, p: Prog, d: Detail, f: File, path: string, removed: set<File>)
    returns (more: seq<Event>, r: Prog)
    requires Reached(init, log, p, path, removed) && Unstaged(d) && p.d == p.durable == With(d, f, Staging)
    requires p.pc == Stage(Recorded(Ready1(f)))
    ensures Reached(init, more, r, path, removed) && log <= more
    ensures r == p.(durable := With(d, f, Transfer), d := With(d, f, Transfer), pc := Move(Planning))
  {
    hide Reached, See, StepRun, Resolve, Settled;
    var staged, moved := With(d, f, Staging), With(d, f, Transfer);
    SettledIs(p);
    SettlesStage(p);
    MergeSame(f);
    var q := p.(pc := Stage(Verifying));
    assert Settle(p, Ready1(f)) == q;
    var e := Verified([f], None);
    RunsStage(q, e);
    var checked := q.(pc := Stage(Checked));
    Go(init, log, p, path, removed, q, e, checked);
    SettledIs(checked);
    SettlesStage(checked);
    RunsStage(checked, Persist(staged));
    var completed := checked.(pc := Stage(Completed));
    Go(init, log + [e], checked, path, removed, checked, Persist(staged), completed);
    r := MovesOn(init, log + [e] + [Persist(staged)], completed, moved, path, removed);
    more := log + [e] + [Persist(staged)] + [Persist(moved)];
  }

  lemma MovesOn(init: Detail, log: seq<Event>, p: Prog, moved: Detail, path: string, removed: set<File>)
      returns (r: Prog)
    requires Reached(init, log, p, path, removed) && p.d.order.fetch && moved == p.d.(phase := Transfer)
    requires p.pc == Stage(Completed)
    ensures Reached(init, log + [Persist(moved)], r, path, removed)
    ensures r == p.(durable := moved, d := moved, pc := Move(Planning))
  {
    hide Reached, See, StepRun, Resolve, Settled;
    SettledIs(p);
    SettlesStage(p);
    var moving := p.(d := moved, pc := Stage(Moving));
    RunsStage(moving, Persist(moved));
    r := moving.(durable := moved, pc := Move(Planning));
    Go(init, log, p, path, removed, moving, Persist(moved), r);
  }

  /** The one target of `f`, for a destination that turned out to be a directory or not. */
  ghost predicate Placed(order: Order, f: File, isDirectory: bool, t: Paths.Target) {
    var r := Paths.TargetsOf([f], order.flat, order.to, isDirectory);
    r.Ok? && r.value.targets == [t]
  }

  lemma PlacedIs(order: Order, f: File, isDirectory: bool) returns (t: Paths.Target)
    requires Paths.TargetsOf([f], order.flat, order.to, isDirectory).Ok?
    ensures Placed(order, f, isDirectory, t) && t.file == f && t.size == f.size
  {
    hide Paths.TargetsOf;
    Paths.TargetsAreLined([f], order.flat, order.to, isDirectory);
    t := Paths.TargetsOf([f], order.flat, order.to, isDirectory).value.targets[0];
  }

  function At(p: Prog, t: Paths.Target, i: nat, file: FilePc): Prog {
    OnFile(p, [t], i, file)
  }

  /** The destination is opened, by way of the staged file or of a URL. */
  lemma Opens(init: Detail, log: seq<Event>, p: Prog, f: File, isDirectory: bool, t: Paths.Target, way: Way,
      removed: set<File>)
    returns (more: seq<Event>, r: Prog)
    requires Reached(init, log, p, t.target, removed) && p.pc == Move(Planning) && p.d.files == [f] && t.size == f.size
    requires Placed(p.d.order, f, isDirectory, t)
    ensures Reached(init, more, r, t.target, removed) && log <= more && See(init, more).finished == map[]
    ensures r == At(p.(urls := false), t, 0, if way == Staged then Copying else Fetching(0, 0, f.size, {}))
  {
    hide Reached, See, StepRun, Resolve, Settled, Paths.TargetsOf;
    SettledIs(p);
    SettlesMove(p);
    var path, plain := t.target, p.(urls := false);
    var e := Planned(isDirectory, true, false);
    RunsMove(p, e);
    var opening, looking := At(plain, t, 0, Opening), At(plain, t, 0, Looking);
    Go(init, log, p, path, removed, p, e, opening);
    SettledIs(opening);
    SettlesMove(opening);
    RunsFile(looking, Looked(way == Staged), [t], 0, Looking);
    var file := if way == Staged then OpenStaged else OpenUrl;
    var looked := At(plain, t, 0, file);
    Go(init, log + [e], opening, path, removed, looking, Looked(way == Staged), looked);
    SettledIs(looked);
    SettlesFile(looked, [t], 0, file);
    RunsFile(looked, OpenTarget(path, way, true), [t], 0, file);
    r := At(plain, t, 0, if way == Staged then Copying else Fetching(0, 0, f.size, {}));
    Go(init, log + [e] + [Looked(way == Staged)], looked, path, removed, looked, OpenTarget(path, way, true), r);
    more := log + [e] + [Looked(way == Staged)] + [OpenTarget(path, way, true)];
  }

  /** A URL that discloses `total` bytes and delivers them. */
  function Serving(total: nat): UrlFetch.Url {
    UrlFetch.Url(total, total, 1, UrlFetch.Broken, UrlFetch.Part(true, total, total, false), [], [])
  }

  lemma Served(total: nat, size: int)
    requires total > 0
    ensures UrlFetch.Possible(0, size, Serving(total))
    ensures AfterUrl(0, 0, size, {}, Serving(total)) ==
        Closing(Url, total, total, UrlFetch.Written(0, size, Serving(total)))
  {
    hide ChunkFetch.Runs, ChunkFetch.After;
  }

  /** A URL fills the file with the bytes that it disclosed. */
  lemma Streams(init: Detail, log: seq<Event>, p: Prog, f: File, t: Paths.Target, total: nat)
    returns (more: seq<Event>, r: Prog)
    requires Reached(init, log, At(p, t, 0, Fetching(0, 0, f.size, {})), t.target, {}) && !p.stopped && total > 0
    requires t.file == f
    ensures Reached(init, more, r, t.target, {}) && log < more && r == At(p, t, 1, Opening)
    ensures more[|more| - 1] == FinishTarget(t.target, f, total, total)
  {
    hide Reached, See, StepRun, Resolve, Settled, AfterUrl, UrlFetch.Possible;
    var q := At(p, t, 0, Fetching(0, 0, f.size, {}));
    SettledIs(q);
    SettlesFile(q, [t], 0, Fetching(0, 0, f.size, {}));
    Served(total, f.size);
    var e := Streamed(Some(Serving(total)));
    RunsFile(q, e, [t], 0, Fetching(0, 0, f.size, {}));
    var file := AfterUrl(0, 0, f.size, {}, Serving(total));
    var closing := At(p, t, 0, file);
    Go(init, log, q, t.target, {}, q, e, closing);
    SettledIs(closing);
    SettlesFile(closing, [t], 0, file);
    var last := FinishTarget(t.target, f, total, total);
    RunsFile(closing, last, [t], 0, file);
    r := At(p, t, 1, Opening);
    Go(init, log + [e], closing, t.target, {}, closing, last, r);
    more := log + [e] + [last];
  }

  /** The staged file is copied to its end. */
  lemma Copies(init: Detail, log: seq<Event>, p: Prog, f: File, t: Paths.Target) returns (more: seq<Event>, r: Prog)
    requires Reached(init, log, At(p, t, 0, Copying), t.target, {}) && !p.stopped && t.file == f && t.size == f.size
    ensures Reached(init, more, r, t.target, {}) && log < more && r == At(p, t, 1, Opening)
  {
    hide Reached, See, StepRun, Resolve, Settled;
    var q := At(p, t, 0, Copying);
    SettledIs(q);
    SettlesFile(q, [t], 0, Copying);
    var bytes: nat := if f.size > 0 then f.size else 0;
    RunsFile(q, Copied(bytes, true), [t], 0, Copying);
    var ended, closing := At(p, t, 0, CopyEnded(bytes, true)), At(p, t, 0, Closing(Staged, bytes, 0, {}));
    Go(init, log, q, t.target, {}, q, Copied(bytes, true), ended);
    SettledIs(ended);
    SettlesMove(ended);
    var last := FinishTarget(t.target, f, bytes, 0);
    RunsFile(closing, last, [t], 0, Closing(Staged, bytes, 0, {}));
    r := At(p, t, 1, Opening);
    Go(init, log + [Copied(bytes, true)], ended, t.target, {}, closing, last, r);
    more := log + [Copied(bytes, true)] + [last];
  }

  /** With the file in place the staged one is removed. */
  lemma Removes(init: Detail, log: seq<Event>, p: Prog, f: File, t: Paths.Target) returns (more: seq<Event>, r: Prog)
    requires Reached(init, log, At(p, t, 1, Opening), t.target, {}) && p.d.files == [f] && f.remoteId != ""
    requires !p.d.order.keepCloud
    ensures Reached(init, more, r, t.target, {f}) && log < more && more[|more| - 1] == RemoveFile(f, true)
    ensures var d := p.d.(phase := Cleanup, transferDone := true);
            r == p.(d := d, durable := d, pc := Clean(CleanStep(1, 1, {f.remoteId})))
  {
    hide Reached, See, StepRun, Resolve, Settled;
    var q, d := At(p, t, 1, Opening), p.d.(phase := Cleanup, transferDone := true);
    SettledIs(q);
    SettlesMove(q);
    var finished := p.(d := d, pc := Move(Finished));
    RunsMove(finished, Persist(d));
    var stepping := finished.(durable := d, pc := Clean(CleanStep(0, 0, {})));
    Go(init, log, q, t.target, {}, finished, Persist(d), stepping);
    SettledIs(stepping);
    SettlesClean(stepping);
    var cleaning := stepping.(pc := Clean(Cleaning(0, 0, {})));
    RunsClean(cleaning, RemoveFile(f, true));
    r := stepping.(pc := Clean(CleanStep(1, 1, {f.remoteId})));
    assert {} + {f.remoteId} == {f.remoteId} && {} + {f} == {f};
    Go(init, log + [Persist(d)], stepping, t.target, {}, cleaning, RemoveFile(f, true), r);
    more := log + [Persist(d)] + [RemoveFile(f, true)];
  }

  /** The run completes on disk; the folder, if there is one, cannot be listed. */
  lemma Completes(init: Detail, log: seq<Event>, p: Prog, f: File, path: string) returns (more: seq<Event>, r: Prog)
    requires Reached(init, log, p, path, {f}) && p.d.files == [f] && !p.d.order.keepCloud && !p.stopped
    requires p.pc == Clean(CleanStep(1, 1, {f.remoteId}))
    ensures Reached(init, more, r, path, {f})
    ensures var d := p.d.(cleanupDone := true, phase := Complete); r == p.(d := d, durable := d, pc := Leaving(Nil))
  {
    hide Reached, See, StepRun, Resolve, Settled, HasFolder;
    SettledIs(p);
    SettlesClean(p);
    var ids, cleaned, d := {f.remoteId}, p.d.(cleanupDone := true), p.d.(cleanupDone := true, phase := Complete);
    assert SkipBlank(p.d.files, 1) == 1;
    var q := p.(d := cleaned);
    var completing := q.(d := d, pc := Clean(Completing));
    r := completing.(durable := d, pc := Leaving(Nil));
    RunsClean(completing, Persist(d));
    if HasFolder(cleaned) {
      var listing := q.(pc := Clean(Foldering(0, ids)));
      RunsClean(listing, ListedFolder(None));
      Go(init, log, p, path, {f}, listing, ListedFolder(None), completing);
      SettledIs(completing);
      SettlesClean(completing);
      Go(init, log + [ListedFolder(None)], completing, path, {f}, completing, Persist(d), r);
      more := log + [ListedFolder(None)] + [Persist(d)];
    } else {
      Go(init, log, p, path, {f}, completing, Persist(d), r);
      more := log + [Persist(d)];
    }
  }

  /** The process dies before the success is noted, the task is canceled before it is taken up again, and then
      retried in place: it starts over. */
  lemma StartsOver(init: Detail, log: seq<Event>, p: Prog, f: File, path: string)
    returns (more: seq<Event>, r: Prog, d: Detail)
    requires Reached(init, log, p, path, {f}) && p.pc == Leaving(Nil) && p.durable.phase == Complete
    requires p.durable.providerId == "1" && p.durable.order.fetch
    ensures Reached(init, more, r, path, {f}) && Unstaged(d) && d.order == p.durable.order && !r.stopped
    ensures Resolve(r) == r.(d := d, pc := Stage(Observing))
  {
    hide Reached, See, StepRun;
    d := RetryDetail(p.durable, true);
    var refused := p.(pc := Off(Broke));
    GoOutside(init, log, p, path, {f}, Refuse, refused);
    var retried := refused.(durable := d, pc := Off(Interrupted));
    GoOutside(init, log + [Refuse], refused, path, {f}, Retry(true), retried);
    r := Started(d);
    GoOutside(init, log + [Refuse] + [Retry(true)], retried, path, {f}, Resume, r);
    more := log + [Refuse] + [Retry(true)] + [Resume];
  }

  // ------------------------------------------------------------------------- short files

  /** A destination was finished with fewer bytes than the provider reported for the file, while `total` is
      what its URLs disclosed last. */
  predicate Short(e: Event, f: File, total: int) {
    e.FinishTarget? && e.file == f && e.disclosed == total && e.bytes < f.size
  }

  ghost predicate CanEndShort(init: Detail, f: File, total: int) {
    exists log, i :: History(init, log) && 0 <= i < |log| && Short(log[i], f, total)
  }

  /** And its cloud copy is removed after it. */
  ghost predicate CanLoseItsTail(init: Detail, f: File, total: int) {
    exists log, i, j :: History(init, log) && 0 <= i < j < |log| && Short(log[i], f, total) &&
        log[j] == RemoveFile(f, true)
  }

  /** What a finished destination was held to: the total that the URLs disclosed, else the size that the provider
      reported.  Through URLs every byte up to there was written. */
  lemma FinishedIsWhole(init: Detail, log: seq<Event>, i: nat)
    requires History(init, log) && i < |log| && log[i].FinishTarget?
    ensures log[i].bytes >= Expected(log[i].file, log[i].disclosed)
    ensures Short(log[i], log[i].file, log[i].disclosed) ==> 0 < log[i].disclosed < log[i].file.size
    ensures Trace(init, log[..i]).Some?
    ensures var p := Resolve(Trace(init, log[..i]).value);
            && AtFile(p) && p.pc.move.file.Closing? && p.pc.move.file.bytes == log[i].bytes
            && (p.pc.move.file.way == Url ==> ChunkFetch.Covers(p.pc.move.file.filled, 0, log[i].bytes))
  {
    hide Trace, Inv, Resolve, StepRun;
    HistoryIsSafe(init, log);
    HistoryPrefix(init, log, i + 1);
    assert log[..i + 1][..i] == log[..i];
    HistoryPrefix(init, log, i);
    HistoryIsSafe(init, log[..i]);
    var p := Trace(init, log[..i]).value;
    assert log[..i] + [log[i]] == log[..i + 1];
    TraceNext(init, log[..i], log[i]);
    ResolveKeeps(p, See(init, log[..i]));
    FinishesWhere(Resolve(p), log[i]);
    ClosingIs(Resolve(p), See(init, log[..i]));
  }

  lemma ClosingIs(p: Prog, v: View)
    requires Inv(p, v) && AtFile(p) && p.pc.move.file.Closing?
    ensures p.pc.move.file.way == Url ==> ChunkFetch.Covers(p.pc.move.file.filled, 0, p.pc.move.file.bytes)
  {
  }

  lemma FinishesWhere(q: Prog, e: Event)
    requires StepRun(q, e).Some? && e.FinishTarget?
    ensures AtFile(q) && q.pc.move.file.Closing? && q.pc.move.file.bytes == e.bytes
  {
    hide AfterUrl, UrlFetch.Possible, Paths.TargetsOf, FoldInto, AdoptInto, ShowsAll, Owned, RootFolder;
  }

  lemma {:induction false} HistoryPrefix(init: Detail, log: seq<Event>, k: nat)
    requires History(init, log) && k <= |log|
    ensures History(init, log[..k])
    decreases |log|
  {
    hide Step;
    if k == |log| {
      assert log[..k] == log;
    } else {
      assert log[..|log| - 1][..k] == log[..k];
      HistoryPrefix(init, log[..|log| - 1], k);
    }
  }

  /** A run in which a URL discloses `total` and delivers it, up to the removal of the cloud copy. */
  lemma ShortRun(init: Detail, f: File, isDirectory: bool, total: nat)
      returns (log: seq<Event>, p: Prog, t: Paths.Target)
    requires Fresh(init) && init.order.fetch && Paths.TargetsOf([f], init.order.flat, init.order.to, isDirectory).Ok?
    requires total > 0
    ensures Reached(init, log, At(p, t, 1, Opening), t.target, {}) && p.d.files == [f] && p.d.order == init.order
    ensures log != [] && log[|log| - 1] == FinishTarget(t.target, f, total, total)
  {
    hide Reached, Resolve, Paths.TargetsOf;
    t := PlacedIs(init.order, f, isDirectory);
    var submitted, start := Submitted(init, t.target);
    var settled, planning := Settling(init, submitted, start, start.d, f, t.target, {});
    var begun, fetching := Opens(init, settled, planning, f, isDirectory, t, Url, {});
    p := planning.(urls := false);
    var r;
    log, r := Streams(init, begun, p, f, t, total);
  }

  /** A file is finished short exactly if its URLs disclose less than the provider reported, and then, without
      retention, its cloud copy goes as well: the disclosed total wins, and is not compared with the other. */
  lemma ShortExactly(init: Detail, f: File, isDirectory: bool, total: int)
    requires Fresh(init) && init.order.fetch && Paths.TargetsOf([f], init.order.flat, init.order.to, isDirectory).Ok?
    ensures CanEndShort(init, f, total) <==> 0 < total < f.size
    ensures CanLoseItsTail(init, f, total) <==> 0 < total < f.size && !init.order.keepCloud && f.remoteId != ""
  {
    hide Reached, Trace, Resolve, Paths.TargetsOf;
    ShortOnlyIf(init, f, total);
    if 0 < total < f.size {
      var log, p, t := ShortRun(init, f, isDirectory, total);
      ReachedIsHistory(init, log, At(p, t, 1, Opening), t.target, {});
      assert Short(log[|log| - 1], f, total);
      if !init.order.keepCloud && f.remoteId != "" {
        var more, r := Removes(init, log, p, f, t);
        ReachedIsHistory(init, more, r, t.target, {f});
        assert more[|log| - 1] == log[|log| - 1];
        assert more[|more| - 1] == RemoveFile(f, true);
      }
    }
  }

  lemma ReachedIsHistory(init: Detail, log: seq<Event>, p: Prog, path: string, removed: set<File>)
    requires Reached(init, log, p, path, removed) && Fresh(init)
    ensures History(init, log) && See(init, log).removed == removed
  {
  }

  lemma ShortOnlyIf(init: Detail, f: File, total: int)
    ensures CanEndShort(init, f, total) ==> 0 < total < f.size
    ensures CanLoseItsTail(init, f, total) ==> 0 < total < f.size && !init.order.keepCloud && f.remoteId != ""
  {
    hide History, Trace, Resolve, AtFile;
    if CanEndShort(init, f, total) {
      var log, i :| History(init, log) && 0 <= i < |log| && Short(log[i], f, total);
      FinishedIsWhole(init, log, i);
    }
    if CanLoseItsTail(init, f, total) {
      var log, i, j :| History(init, log) && 0 <= i < j < |log| && Short(log[i], f, total) &&
          log[j] == RemoveFile(f, true);
      FinishedIsWhole(init, log, i);
      RemovesAllowed(init, log, j);
    }
  }

  lemma RemovesAllowed(init: Detail, log: seq<Event>, j: nat)
    requires History(init, log) && j < |log| && log[j].RemoveFile?
    ensures !init.order.keepCloud && log[j].file.remoteId != ""
  {
    hide Trace, Inv, AllFinished, Ids, Owned, ShowsAll, RootFolder;
    HistoryIsSafe(init, log);
    SafePrefix(init, log, j);
    SameOrder(init, log[..j]);
  }

  lemma {:induction false} SameOrder(init: Detail, log: seq<Event>)
    requires Safe(init, log)
    ensures See(init, log).durable.order == init.order
  {
    if log != [] {
      hide Safe, AllFinished, Ids, Owned, ShowsAll, RootFolder;
      SafeLast(init, log);
      SameOrder(init, log[..|log| - 1]);
    }
  }

  // --------------------------------------------------------------------------- lost files

  /** The staged file was removed, and no destination holds it. */
  ghost predicate Lost(init: Detail, log: seq<Event>, f: File) {
    f in See(init, log).removed && forall p | p in See(init, log).finished :: See(init, log).finished[p] != f
  }

  ghost predicate CanBeLost(init: Detail, f: File) {
    exists log :: History(init, log) && Lost(init, log, f)
  }

  /** A run that fetches `f`, removes the staged copy and completes on disk; then the task starts over. */
  lemma LosingRun(init: Detail, f: File, isDirectory: bool) returns (log: seq<Event>)
    requires Fresh(init) && init.order.fetch && Paths.TargetsOf([f], init.order.flat, init.order.to, isDirectory).Ok?
    requires !init.order.keepCloud && f.remoteId != ""
    ensures History(init, log) && Lost(init, log, f)
  {
    hide Reached, Trace, Resolve, Paths.TargetsOf;
    var t := PlacedIs(init.order, f, isDirectory);
    var submitted, start := Submitted(init, t.target);
    var settled, planning := Settling(init, submitted, start, start.d, f, t.target, {});
    var begun, copying := Opens(init, settled, planning, f, isDirectory, t, Staged, {});
    var filled, landed := Copies(init, begun, planning.(urls := false), f, t);
    var cleaned, cleaning := Removes(init, filled, planning.(urls := false), f, t);
    var completed, leaving := Completes(init, cleaned, cleaning, f, t.target);
    var over, again, d := StartsOver(init, completed, leaving, f, t.target);
    var resettled, replanning := Settling(init, over, again, d, f, t.target, {f});
    var last;
    log, last := Opens(init, resettled, replanning, f, isDirectory, t, Url, {f});
    ReachedIsHistory(init, log, last, t.target, {f});
  }

  /** A fetched file can be lost exactly if its cloud copy is not retained; and whenever one is, the task was
      started over by a retry that found it completed on disk. */
  lemma LossExactly(init: Detail, f: File, isDirectory: bool)
    requires Fresh(init) && init.order.fetch && Paths.TargetsOf([f], init.order.flat, init.order.to, isDirectory).Ok?
    requires f.remoteId != ""
    ensures CanBeLost(init, f) <==> !init.order.keepCloud
  {
    hide History, Lost, Paths.TargetsOf;
    if !init.order.keepCloud {
      var log := LosingRun(init, f, isDirectory);
    }
    if CanBeLost(init, f) {
      var log :| History(init, log) && Lost(init, log, f);
      LossNeedsARetry(init, log, f);
    }
  }

  /** A retry that finds the task completed, after a removal. */
  ghost predicate StartedOver(init: Detail, log: seq<Event>, i: nat, j: nat) {
    i < j < |log| && log[i].RemoveFile? && log[j].Retry? && See(init, log[..j]).durable.phase == Complete
  }

  lemma LossNeedsARetry(init: Detail, log: seq<Event>, f: File)
    requires History(init, log) && Lost(init, log, f)
    ensures !init.order.keepCloud && exists i, j :: StartedOver(init, log, i, j)
  {
    hide Trace, Inv, Safe, Sound, See;
    HistoryIsSafe(init, log);
    SameOrder(init, log);
    NothingIsLost(init, log, f);
    RestartIsARetry(init, log);
    var i: int, j: int :|
      0 <= i < j < |log| && log[i].RemoveFile? && log[j].Retry? && See(init, log[..j]).durable.phase == Complete;
    assert StartedOver(init, log, i, j);
  }
}
