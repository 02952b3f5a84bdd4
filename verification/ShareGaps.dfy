/** Promises that the share runner does not keep, each as a history of the program, and exactly when. */
module ShareGaps {
  import opened Wrappers
  import opened ShareOutcome
  import opened ShareLog
  import opened ShareProgram

  // ---------------------------------------------------------------- following a history

  /** The program stands at `p`, with these destinations finished. */
  ghost predicate Reached(init: Detail, log: seq<Event>, p: Prog, finished: map<string, string>) {
    Trace(init, log) == Some(p) && See(init, log).durable == p.durable && See(init, log).finished == finished
  }

  /** What an event does to the finished destinations. */
  function Touch(finished: map<string, string>, e: Event): map<string, string> {
    match e
    case OpenTarget(path, _, _) => finished - {path}
    case DiscardTarget(path, _, _) => finished - {path}
    case FinishTarget(path, x, _) => finished[path := x.remoteId]
    case _ => finished
  }

  lemma Touches(v: View, e: Event)
    ensures Apply(v, e).finished == Touch(v.finished, e)
    ensures Apply(v, e).durable == if e.Persist? || e.Report? then e.detail else v.durable
  {
    hide OkIds;
  }

  lemma Go(init: Detail, log: seq<Event>, p: Prog, finished: map<string, string>, e: Event, r: Prog)
    requires Reached(init, log, p, finished) && Step(p, e) == Some(r)
    requires r.durable == if e.Persist? || e.Report? then e.detail else p.durable
    ensures Reached(init, log + [e], r, Touch(finished, e))
  {
    hide Trace, Step, See, Apply, Touch;
    TraceNext(init, log, e);
    SeeNext(init, log, e);
    Touches(See(init, log), e);
  }

  lemma Begun(init: Detail, log: seq<Event>, p: Prog, finished: map<string, string>, able: bool)
    requires Reached(init, log, p, finished)
    ensures Reached(init, log + [Resume(able)], Started(p.durable, able), finished)
  {
    hide Started, Reached;
    StartOnDisk(p.durable, able);
    Go(init, log, p, finished, Resume(able), Started(p.durable, able));
  }

  lemma StartOnDisk(durable: Detail, able: bool)
    ensures Started(durable, able).durable == durable
  {
    hide AnySaved, NextSaved, FetchResult;
  }

  lemma HistoryIs(init: Detail, log: seq<Event>, p: Prog, finished: map<string, string>)
    requires Reached(init, log, p, finished) && Fresh(init)
    ensures History(init, log)
  {
  }

  // --------------------------------------------------------------------- a finished save

  /** What a save with the selection `entries` and the outcome `o` leaves on record. */
  function SavedBy(o: Outcome, entries: seq<Entry>): seq<Saved> {
    AllSavedOf(Reconcile(o, entries).items)
  }

  /** A save that is over and has something to download. */
  predicate Fruitful(init: Detail, o: Outcome, entries: seq<Entry>) {
    Fresh(init) && FromSave(init) && entries != [] && o.Complete() && TargetsOf(SavedBy(o, entries)).Some?
  }

  function Staged(init: Detail, o: Outcome, entries: seq<Entry>, phase: Phase): Detail {
    Record(init.(phase := phase, handle := o.handle, selected := entries), Reconcile(o, entries))
  }

  lemma {:induction false} AllFailed(items: seq<Item>)
    requires FailedCount(items) >= |items|
    ensures Wanted(AllSavedOf(items)) == []
  {
    if items != [] {
      var n := |items| - 1;
      FailedAtMost(items[..n]);
      AllFailed(items[..n]);
      assert AllSavedOf(items)[..n] == AllSavedOf(items[..n]);
    }
  }

  lemma NotFailed(o: Outcome, entries: seq<Entry>)
    requires o.Complete() && TargetsOf(SavedBy(o, entries)).Some?
    ensures Reconcile(o, entries).Complete() && ResultState(Reconcile(o, entries)) != TaskFailed
    ensures AnySaved(SavedBy(o, entries))
  {
    hide Reconcile, Wanted;
    ReconciledIsComplete(o, entries);
    if ResultState(Reconcile(o, entries)) == TaskFailed {
      AllFailed(Reconcile(o, entries).items);
    }
    WantedIds(SavedBy(o, entries));
  }

  lemma Opens(init: Detail)
    requires Fresh(init) && FromSave(init)
    ensures Reached(init, [Resume(true)], Prog(init, init, Saving(Listing)), map[])
  {
    hide AtFetch;
    var off := Prog(init, init, Off);
    assert Reached(init, [], off, map[]);
    Begun(init, [], off, map[], true);
  }

  /** A first run opens the link, submits the selection and gets the outcome at once. */
  lemma Submitted(init: Detail, o: Outcome, entries: seq<Entry>) returns (log: seq<Event>, p: Prog)
    requires Fresh(init) && FromSave(init) && entries != []
    ensures Reached(init, log, p, map[])
    ensures var d := Record(init.(selected := entries, handle := o.handle), o);
            p == Prog(init.(selected := entries), d, Saving(Accepted(entries, o)))
  {
    hide AllSavedOf, Reached;
    var listing := Prog(init, init, Saving(Listing));
    Opens(init);
    var chosen := init.(selected := entries);
    var choosing := AtChoose(listing, entries);
    Go(init, [Resume(true)], listing, map[], Listed(entries), choosing);
    var submitting := Prog(chosen, chosen, Saving(Submitting(entries)));
    Go(init, [Resume(true)] + [Listed(entries)], choosing, map[], Persist(chosen), submitting);
    p := Prog(chosen, Record(chosen.(handle := o.handle), o), Saving(Accepted(entries, o)));
    log := [Resume(true)] + [Listed(entries)] + [Persist(chosen)] + [Submit(Some(o))];
    Go(init, [Resume(true)] + [Listed(entries)] + [Persist(chosen)], submitting, map[], Submit(Some(o)), p);
  }

  /** The outcome is reconciled, written down and verified, and the download phase begins. */
  lemma Planned1(init: Detail, o: Outcome, entries: seq<Entry>) returns (log: seq<Event>, p: Prog)
    requires Fruitful(init, o, entries)
    ensures Reached(init, log, p, map[])
    ensures var d := Staged(init, o, entries, Download); p == Prog(d, d, Loading(Planning))
  {
    hide AllSavedOf, Reconcile, Reached, ResultState, TargetsOf;
    NotFailed(o, entries);
    var l0, accepted := Submitted(init, o, entries);
    var r, written := Reconcile(o, entries), accepted.d;
    var verify, d := Staged(init, o, entries, Verify), Staged(init, o, entries, Download);
    var concluding := Prog(written, verify, Saving(Concluding(r)));
    Go(init, l0, accepted, map[], Persist(written), concluding);
    var l1, settling := l0 + [Persist(written)], Prog(verify, verify, Saving(Settling(r)));
    Go(init, l1, concluding, map[], Persist(verify), settling);
    var l2, verifying := l1 + [Persist(verify)], Prog(verify, verify, Saving(Verifying));
    Go(init, l2, settling, map[], Persist(verify), verifying);
    var l3, entering := l2 + [Persist(verify)], Prog(verify, d, Loading(Entering));
    Go(init, l3, verifying, map[], Verified(true), entering);
    p := Prog(d, d, Loading(Planning));
    Go(init, l3 + [Verified(true)], entering, map[], Persist(d), p);
    log := l3 + [Verified(true)] + [Persist(d)];
  }

  // -------------------------------------------------------------------------- transfers

  /** A directory download of the saved entries, with `earlier` on record when it began. */
  predicate Downloads(p: Prog, job: Job) {
    && FromSave(p.d) && p.d.phase == Download && p.durable == p.d.(transferred := p.durable.transferred)
    && job.targets == Wanted(p.d.saved) && !job.single
    && (forall k | 0 <= k < |job.targets| :: job.targets[k].remoteId != "")
    && (job.results != [] ==> p.d.transferred == job.results)
  }

  /** The download of `d` begins, or begins again. */
  lemma Begins(init: Detail, log: seq<Event>, p: Prog, finished: map<string, string>)
      returns (more: seq<Event>, job: Job)
    requires Reached(init, log, p, finished) && p == Prog(p.d, p.d, Loading(Planning)) && FromSave(p.d) &&
        p.d.phase == Download
    requires TargetsOf(p.d.saved).Some?
    ensures job == Job(Wanted(p.d.saved), false, p.d.transferred, []) && Downloads(p, job)
    ensures Reached(init, more, AtFile(p, job), finished)
  {
    hide Reached, Wanted, AtFile;
    job := Job(Wanted(p.d.saved), false, p.d.transferred, []);
    more := log + [Planned([], true, false)];
    Go(init, log, p, finished, Planned([], true, false), AtFile(p, job));
  }

  function Result(x: Saved, bytes: nat, ok: bool): Saved {
    Saved("", x.name, bytes, x.remoteId, !ok)
  }

  /** The next target is open and then finished with `bytes` bytes, or discarded. */
  lemma Ends(init: Detail, log: seq<Event>, p: Prog, job: Job, finished: map<string, string>, bytes: nat, ok: bool)
    returns (more: seq<Event>, r: Prog)
    requires Reached(init, log, p, finished) && p.pc == Loading(Filing(job, ToOpen)) && Downloads(p, job)
    requires |job.results| < |job.targets|
    ensures var x := job.targets[|job.results|];
            var path := DirPath(p.d.order.to, x.name);
            && more == log + [OpenTarget(path, x, true)]
                           + [if ok then FinishTarget(path, x, bytes) else DiscardTarget(path, x, bytes)]
            && r == AtNoted(p, job, x, bytes, ok)
            && Reached(init, more, r, if ok then finished[path := x.remoteId] else finished - {path})
  {
    hide Reached, Wanted, DirPath, AtNoted;
    var x := job.targets[|job.results|];
    var path := DirPath(p.d.order.to, x.name);
    var open := OpenTarget(path, x, true);
    var reading := p.(pc := Loading(Filing(job, Reading)));
    Go(init, log, p, finished, open, reading);
    var e := if ok then FinishTarget(path, x, bytes) else DiscardTarget(path, x, bytes);
    r := AtNoted(p, job, x, bytes, ok);
    AsRead(p, job, x, bytes, ok);
    Go(init, log + [open], reading, finished - {path}, e, r);
    more := log + [open] + [e];
    assert (finished - {path})[path := x.remoteId] == finished[path := x.remoteId];
    assert finished - {path} - {path} == finished - {path};
  }

  lemma AsRead(p: Prog, job: Job, x: Saved, bytes: nat, ok: bool)
    ensures AtNoted(p.(pc := Loading(Filing(job, Reading))), job, x, bytes, ok) == AtNoted(p, job, x, bytes, ok)
    ensures AtNoted(p, job, x, bytes, ok).durable == p.durable
  {
  }

  /** The next target is transferred and written down. */
  lemma Transfers(init: Detail, log: seq<Event>, p: Prog, job: Job, finished: map<string, string>, bytes: nat)
    returns (more: seq<Event>, q: Prog, next: Job)
    requires Reached(init, log, p, finished) && p.pc == Loading(Filing(job, ToOpen)) && Downloads(p, job)
    requires |job.results| < |job.targets|
    ensures var x := job.targets[|job.results|];
            var path := DirPath(p.d.order.to, x.name);
            && next == job.(results := job.results + [Result(x, bytes, true)])
            && q == p.(durable := q.d, d := p.d.(transferred := next.results), pc := q.pc) && Downloads(q, next)
            && Reached(init, more, AtFile(q, next), finished[path := x.remoteId])
            && log <= more && |log| + 2 <= |more| && more[|log| + 1] == FinishTarget(path, x, bytes)
  {
    hide Reached, Wanted, DirPath, AtFile;
    var x := job.targets[|job.results|];
    var l, noted := Ends(init, log, p, job, finished, bytes, true);
    next := job.(results := job.results + [Result(x, bytes, true)]);
    q := noted.(durable := noted.d);
    FileOnDisk(noted, next, noted.d);
    Go(init, l, noted, finished[DirPath(p.d.order.to, x.name) := x.remoteId], Persist(noted.d), AtFile(q, next));
    more := l + [Persist(noted.d)];
  }

  /** The next target fails, and with it the run; another run plans the download again. */
  lemma Retries(init: Detail, log: seq<Event>, p: Prog, job: Job, finished: map<string, string>)
    returns (more: seq<Event>, q: Prog, next: Job)
    requires Reached(init, log, p, finished) && p.pc == Loading(Filing(job, ToOpen)) && Downloads(p, job)
    requires |job.results| < |job.targets| && SaveDone(p.d) && TargetsOf(p.d.saved).Some?
    ensures var x := job.targets[|job.results|];
            && next == Job(job.targets, false, job.results + [Result(x, 0, false)], [])
            && q == Prog(q.d, p.d.(transferred := next.earlier), q.pc) && Downloads(q, next)
            && Reached(init, more, AtFile(q, next), finished - {DirPath(p.d.order.to, x.name)})
  {
    hide Reached, Wanted, DirPath, AtFile, AnySaved, TargetsOf;
    var x := job.targets[|job.results|];
    var l, noted := Ends(init, log, p, job, finished, 0, false);
    var now := finished - {DirPath(p.d.order.to, x.name)};
    var leaving := noted.(durable := noted.d, pc := Leaving(false));
    Go(init, l, noted, now, Persist(noted.d), leaving);
    var off := leaving.(pc := Off);
    Go(init, l + [Persist(noted.d)], leaving, now, Return(false), off);
    Begun(init, l + [Persist(noted.d)] + [Return(false)], off, now, true);
    q := Prog(noted.d, noted.d, Loading(Planning));
    more, next := Begins(init, l + [Persist(noted.d)] + [Return(false)] + [Resume(true)], q, now);
  }

  lemma FileIs(p: Prog, job: Job)
    ensures |job.results| >= |job.targets| ==>
        AtFile(p, job) == p.(d := p.d.(phase := Cleanup), pc := Loading(Finished))
    ensures |job.results| < |job.targets| ==>
              AtFile(p, job) ==
              match Earlier(job.earlier, job.targets[|job.results|])
              case None => p.(pc := Loading(Filing(job, ToOpen)))
              case Some(x) =>
                var results := job.results + [x];
                AtFile(p.(d := p.d.(transferred := results)), job.(results := results))
  {
  }

  /** The results are those of the first targets. */
  predicate Of(job: Job) {
    && |job.results| <= |job.targets|
    && forall k | 0 <= k < |job.results| :: job.results[k].remoteId == job.targets[k].remoteId && !job.results[k].failed
  }

  /** With nothing on record, the targets up to the n-th are transferred. */
  lemma {:induction false} UpTo(init: Detail, log: seq<Event>, p: Prog, job: Job, finished: map<string, string>, n: nat)
    returns (more: seq<Event>, q: Prog, next: Job, now: map<string, string>)
    requires Reached(init, log, AtFile(p, job), finished) && Downloads(p, job) && p.durable == p.d
    requires job.earlier == [] && Of(job) && |job.results| <= n <= |job.targets|
    ensures Reached(init, more, AtFile(q, next), now) && Downloads(q, next) && Of(next)
    ensures next == job.(results := next.results) && |next.results| == n
    ensures q == Prog(q.d, p.d.(transferred := q.d.transferred), q.pc)
    decreases n - |job.results|
  {
    hide Reached, Downloads, AtFile, DirPath;
    if |job.results| == n {
      more, q, next, now := log, p, job, finished;
    } else {
      FileIs(p, job);
      var filing := p.(pc := Loading(Filing(job, ToOpen)));
      SameDownload(p, filing, job);
      var l, r, onward := Transfers(init, log, filing, job, finished, 0);
      var x := job.targets[|job.results|];
      more, q, next, now := UpTo(init, l, r, onward, finished[DirPath(p.d.order.to, x.name) := x.remoteId], n);
    }
  }

  lemma SameDownload(p: Prog, q: Prog, job: Job)
    requires Downloads(p, job) && q.d == p.d && q.durable == p.durable
    ensures Downloads(q, job)
  {
  }

  /** The place does not hold the id. */
  predicate NotAt(finished: map<string, string>, path: string, id: string) {
    path !in finished || finished[path] != id
  }

  /** The download runs to its end.  An id that is on record is not transferred, so a place that does not hold it
      never will. */
  lemma {:induction false} RunsOut(init: Detail, log: seq<Event>, p: Prog, job: Job, finished: map<string, string>,
                                   path: string, id: string)
    returns (more: seq<Event>, r: Prog, now: map<string, string>)
    requires Reached(init, log, AtFile(p, job), finished) && Downloads(p, job)
    ensures Reached(init, more, r, now) && r.pc == Loading(Finished) && log <= more
    ensures r.d == p.d.(phase := Cleanup, transferred := r.d.transferred)
    ensures id in OkIds(job.earlier) && NotAt(finished, path, id) ==> NotAt(now, path, id)
    decreases |job.targets| - |job.results|
  {
    hide Reached, AtFile, DirPath, Wanted, OkIds;
    FileIs(p, job);
    if |job.results| >= |job.targets| {
      more, r, now := log, AtFile(p, job), finished;
    } else {
      var x := job.targets[|job.results|];
      EarlierIs(job.earlier, x);
      match Earlier(job.earlier, x)
      case Some(was) =>
        var results := job.results + [was];
        more, r, now := RunsOut(init, log, p.(d := p.d.(transferred := results)), job.(results := results), finished,
            path, id);
      case None =>
        var filing := p.(pc := Loading(Filing(job, ToOpen)));
        var l, q, next := Transfers(init, log, filing, job, finished, 0);
        more, r, now := RunsOut(init, l, q, next, finished[DirPath(p.d.order.to, x.name) := x.remoteId], path, id);
    }
  }

  lemma {:induction false} NextSkips(saved: seq<Saved>, i: nat)
    requires i <= |saved|
    ensures forall j | i <= j < NextSaved(saved, i) :: saved[j].failed || saved[j].remoteId == ""
    decreases |saved| - i
  {
    if NextSaved(saved, i) != i {
      NextSkips(saved, i + 1);
    }
  }

  lemma {:induction false} WantedIsSaved(saved: seq<Saved>, x: Saved)
    requires x in Wanted(saved)
    ensures exists j :: 0 <= j < |saved| && saved[j] == x && !x.failed
  {
    var n := |saved| - 1;
    if saved[n] != x || saved[n].failed {
      WantedIsSaved(saved[..n], x);
      var j :| 0 <= j < n && saved[..n][j] == x;
      assert saved[j] == x;
    }
  }

  /** The log ends with the removal of a saved copy, at which the record was `d` and these destinations stood. */
  ghost predicate EndsWithRemoval(init: Detail, log: seq<Event>, d: Detail, finished: map<string, string>) {
    && log != []
    && log[|log| - 1].RemoveSaved? && log[|log| - 1].gone && log[|log| - 1].id in OkIds(d.saved)
    && See(init, log[..|log| - 1]).durable == d && See(init, log[..|log| - 1]).finished == finished
  }

  /** With the download finished the first saved copy is removed. */
  lemma Removes(init: Detail, log: seq<Event>, p: Prog, finished: map<string, string>)
      returns (more: seq<Event>, r: Prog)
    requires Reached(init, log, p, finished) && p.pc == Loading(Finished) && FromSave(p.d) && !p.d.order.keepCloud
    requires TargetsOf(p.d.saved).Some?
    ensures Reached(init, more, r, finished) && log <= more && EndsWithRemoval(init, more, p.d, finished)
  {
    hide Trace, AtReport, FetchResult;
    var k := NextSaved(p.d.saved, 0);
    var x := Wanted(p.d.saved)[0];
    WantedIsSaved(p.d.saved, x);
    NextSkips(p.d.saved, 0);
    hide Wanted, NextSaved;
    var removing := Prog(p.d, p.d, Loading(Removing(k)));
    Go(init, log, p, finished, Persist(p.d), removing);
    var e := RemoveSaved(p.d.saved[k].remoteId, true);
    r := AtRemove(removing, k + 1);
    RemoveOnDisk(removing, k + 1, p.d);
    Go(init, log + [Persist(p.d)], removing, finished, e, r);
    more := log + [Persist(p.d)] + [e];
    assert more[..|more| - 1] == log + [Persist(p.d)];
  }

  // ------------------------------------------------------------------- displaced copies

  /** A saved copy of a save with these results is removed while the entry `x` does not stand at its place. */
  ghost predicate Displaces(init: Detail, saved: seq<Saved>, log: seq<Event>, x: Saved) {
    && History(init, log) && log != [] && log[|log| - 1].RemoveSaved?
    && var v := See(init, log[..|log| - 1]);
       v.durable.saved == saved && x in Wanted(saved) && !Stands(v, v.durable, x)
  }

  ghost predicate CanDisplace(init: Detail, saved: seq<Saved>) {
    exists log, x :: Displaces(init, saved, log, x)
  }

  /** Two entries with the same id: the second one fails, and the next run takes it for transferred. */
  lemma SameIdDisplaces(init: Detail, o: Outcome, entries: seq<Entry>, i: nat, j: nat) returns (log: seq<Event>)
    requires Fruitful(init, o, entries) && !init.order.keepCloud
    requires var wanted := Wanted(SavedBy(o, entries)); i < j < |wanted| && wanted[i].remoteId == wanted[j].remoteId
    ensures Displaces(init, SavedBy(o, entries), log, Wanted(SavedBy(o, entries))[j])
  {
    hide Reached, AtFile, DirPath, Wanted, Reconcile, Downloads, Of, NotAt;
    var l0, p0 := Planned1(init, o, entries);
    var l1, job := Begins(init, l0, p0, map[]);
    OfNothing(job);
    var l2, p2, at, finished := UpTo(init, l1, p0, job, map[], j);
    var x := job.targets[j];
    var path := DirPath(init.order.to, x.name);
    FileIs(p2, at);
    SameDownload(p2, p2.(pc := Loading(Filing(at, ToOpen))), at);
    DoneIs(init, o, entries, p2.d);
    var l3, p3, again := Retries(init, l2, p2.(pc := Loading(Filing(at, ToOpen))), at, finished);
    OnRecord(at, i, j, again.earlier);
    Emptied(finished, path, x.remoteId);
    var l4, p4, now := RunsOut(init, l3, p3, again, finished - {path}, path, x.remoteId);
    var r;
    log, r := Removes(init, l4, p4, now);
    HistoryIs(init, log, r, now);
    NotThere(See(init, log[..|log| - 1]), x, path);
  }

  lemma OfNothing(job: Job)
    requires job.results == []
    ensures Of(job)
  {
  }

  lemma DoneIs(init: Detail, o: Outcome, entries: seq<Entry>, d: Detail)
    requires Fruitful(init, o, entries) && d == Staged(init, o, entries, Download).(transferred := d.transferred)
    ensures SaveDone(d) && TargetsOf(d.saved).Some?
  {
    hide Reconcile, TargetsOf;
    NotFailed(o, entries);
  }

  lemma OnRecord(job: Job, i: nat, j: nat, earlier: seq<Saved>)
    requires Of(job) && i < j == |job.results| < |job.targets| && job.targets[i].remoteId == job.targets[j].remoteId
    requires job.results <= earlier
    ensures job.targets[j].remoteId in OkIds(earlier)
  {
    assert earlier[i] == job.results[i];
  }

  lemma Emptied(finished: map<string, string>, path: string, id: string)
    ensures NotAt(finished - {path}, path, id)
  {
  }

  lemma NotThere(v: View, x: Saved, path: string)
    requires NotAt(v.finished, path, x.remoteId) && path == DirPath(v.durable.order.to, x.name) &&
        |Wanted(v.durable.saved)| > 1
    ensures !Stands(v, v.durable, x)
  {
    hide DirPath, Wanted;
  }

  /** Two entries with the same place: one run puts both there. */
  lemma SamePlaceDisplaces(init: Detail, o: Outcome, entries: seq<Entry>, i: nat, j: nat) returns (log: seq<Event>)
    requires Fruitful(init, o, entries) && !init.order.keepCloud
    requires var wanted := Wanted(SavedBy(o, entries));
             && i < j < |wanted| && wanted[i].remoteId != wanted[j].remoteId
             && DirPath(init.order.to, wanted[i].name) == DirPath(init.order.to, wanted[j].name)
    ensures exists x :: Displaces(init, SavedBy(o, entries), log, x)
  {
    hide Reached, AtFile, DirPath, Wanted, Reconcile, Downloads, NotAt, Displaces;
    var wanted := Wanted(SavedBy(o, entries));
    var l0, p0 := Planned1(init, o, entries);
    var l1, job := Begins(init, l0, p0, map[]);
    var path := DirPath(init.order.to, wanted[i].name);
    var l2, p2, now := RunsOut(init, l1, p0, job, map[], path, "");
    DoneIs(init, o, entries, p0.d);
    var r;
    log, r := Removes(init, l2, p2, now);
    HistoryIs(init, log, r, now);
    OneOnly(now, path, wanted[i].remoteId, wanted[j].remoteId);
    var x := if NotAt(now, path, wanted[i].remoteId) then wanted[i] else wanted[j];
    NotThere(See(init, log[..|log| - 1]), x, path);
    Displaced(init, SavedBy(o, entries), log, x);
  }

  lemma Displaced(init: Detail, saved: seq<Saved>, log: seq<Event>, x: Saved)
    requires History(init, log) && log != [] && log[|log| - 1].RemoveSaved? && x in Wanted(saved)
    requires var v := See(init, log[..|log| - 1]); v.durable.saved == saved && !Stands(v, v.durable, x)
    ensures Displaces(init, saved, log, x)
  {
  }

  lemma OneOnly(finished: map<string, string>, path: string, a: string, b: string)
    requires a != b
    ensures NotAt(finished, path, a) || NotAt(finished, path, b)
  {
  }

  /** At the removal of a saved copy every downloaded entry stands at its place, in every history of a save with
      these results, exactly if their ids and their places are distinct or no copy is removed at all. */
  lemma ClearExactly(init: Detail, o: Outcome, entries: seq<Entry>)
    requires Fruitful(init, o, entries)
    ensures CanDisplace(init, SavedBy(o, entries)) <==>
            !init.order.keepCloud && !Clear(init.(saved := SavedBy(o, entries)))
  {
    hide Displaces, DirPath, Wanted, Reconcile, TargetsOf;
    var saved := SavedBy(o, entries);
    var wanted := Wanted(saved);
    if CanDisplace(init, saved) {
      var log, x :| Displaces(init, saved, log, x);
      ClearKeeps(init, saved, log, x);
    } else if !init.order.keepCloud && !Clear(init.(saved := saved)) {
      if !DistinctIds(wanted) {
        var i, j :| 0 <= i < j < |wanted| && wanted[i].remoteId == wanted[j].remoteId;
        var log := SameIdDisplaces(init, o, entries, i, j);
      } else {
        var i, j :| 0 <= i < j < |wanted| &&
            DirPath(init.order.to, wanted[i].name) == DirPath(init.order.to, wanted[j].name);
        var log := SamePlaceDisplaces(init, o, entries, i, j);
      }
    }
  }

  lemma ClearKeeps(init: Detail, saved: seq<Saved>, log: seq<Event>, x: Saved)
    requires Displaces(init, saved, log, x)
    ensures !init.order.keepCloud && !Clear(init.(saved := saved))
  {
    hide Trace, Inv, Sound, Safe, Stands, DirPath, Wanted;
    var n := |log| - 1;
    RemovalIsAsked(init, log);
    HistoryIsSafe(init, log);
    SafePrefix(init, log, n);
    OrderStays(init, log[..n], 0);
    SameClear(init.(saved := saved), See(init, log[..n]).durable);
    if Clear(init.(saved := saved)) {
      RemovedStillStands(init, log, n);
    }
  }

  lemma SameClear(c: Detail, d: Detail)
    requires c.saved == d.saved && c.order == d.order
    ensures Clear(c) == Clear(d)
  {
  }

  // ------------------------------------------------------------------ repeated transfers

  /** A destination is opened for an id that is written down as transferred. */
  ghost predicate Repeats(init: Detail, saved: seq<Saved>, log: seq<Event>) {
    && History(init, log) && log != [] && log[|log| - 1].OpenTarget?
    && var v := See(init, log[..|log| - 1]);
       v.durable.saved == saved && log[|log| - 1].entry.remoteId in OkIds(v.durable.transferred)
  }

  ghost predicate CanRepeat(init: Detail, saved: seq<Saved>) {
    exists log :: Repeats(init, saved, log)
  }

  lemma SameIdRepeats(init: Detail, o: Outcome, entries: seq<Entry>, i: nat, j: nat) returns (log: seq<Event>)
    requires Fruitful(init, o, entries)
    requires var wanted := Wanted(SavedBy(o, entries)); i < j < |wanted| && wanted[i].remoteId == wanted[j].remoteId
    ensures Repeats(init, SavedBy(o, entries), log)
  {
    hide Trace, AtFile, DirPath, Wanted, Reconcile, OkIds;
    var l0, p0 := Planned1(init, o, entries);
    var l1, job := Begins(init, l0, p0, map[]);
    OfNothing(job);
    var l2, p2, at, finished := UpTo(init, l1, p0, job, map[], j);
    var x := job.targets[j];
    var path := DirPath(init.order.to, x.name);
    FileIs(p2, at);
    OnRecord(at, i, j, at.results);
    var filing := p2.(pc := Loading(Filing(at, ToOpen)));
    var reading := p2.(pc := Loading(Filing(at, Reading)));
    Go(init, l2, filing, finished, OpenTarget(path, x, true), reading);
    log := l2 + [OpenTarget(path, x, true)];
    HistoryIs(init, log, reading, finished - {path});
    assert log[..|log| - 1] == l2;
  }

  /** An entry that is written down as transferred is transferred again, in some history of a save with these
      results, exactly if two of them have the same id. */
  lemma RepeatExactly(init: Detail, o: Outcome, entries: seq<Entry>)
    requires Fruitful(init, o, entries)
    ensures CanRepeat(init, SavedBy(o, entries)) <==> !DistinctIds(Wanted(SavedBy(o, entries)))
  {
    hide Repeats, Wanted, Reconcile, TargetsOf;
    var saved := SavedBy(o, entries);
    var wanted := Wanted(saved);
    if CanRepeat(init, saved) {
      var log :| Repeats(init, saved, log);
      DistinctKeeps(init, saved, log);
    } else if !DistinctIds(wanted) {
      var i, j :| 0 <= i < j < |wanted| && wanted[i].remoteId == wanted[j].remoteId;
      var log := SameIdRepeats(init, o, entries, i, j);
    }
  }

  lemma DistinctKeeps(init: Detail, saved: seq<Saved>, log: seq<Event>)
    requires Repeats(init, saved, log) && FromSave(init)
    ensures !DistinctIds(Wanted(saved))
  {
    hide Trace, Inv, Sound, Safe, Wanted, OkIds, DistinctIds;
    var n := |log| - 1;
    HistoryIsSafe(init, log);
    SafePrefix(init, log, n);
    OrderStays(init, log[..n], 0);
    if DistinctIds(Wanted(saved)) {
      NeverTransferredAgain(init, log, n, n);
    }
  }

  // -------------------------------------------------------------------------- resubmission

  /** What the record says about submitting: the plain save looks at its phase, the fetch at the state of the save. */
  predicate MaySubmit(d: Detail) {
    if d.order.fetch then d.order.toRequested && !SaveDone(d) else !CanResume(d)
  }

  /** The log goes on with a run that submits a save, at once or in a later run. */
  ghost predicate Resubmits(init: Detail, log: seq<Event>, more: seq<Event>) {
    History(init, log + [Resume(true)] + more) && exists k :: 0 <= k < |more| && more[k].Submit?
  }

  ghost predicate CanResubmit(init: Detail, log: seq<Event>) {
    exists more :: Resubmits(init, log, more)
  }

  /** Some outcome of a submitted save. */
  const SOME_OUTCOME := Outcome("", Failed, [])

  lemma ChosenIsSubmitted(init: Detail, log: seq<Event>, p: Prog, finished: map<string, string>, entries: seq<Entry>)
    returns (more: seq<Event>, r: Prog)
    requires Reached(init, log, AtChoose(p, entries), finished) && p.d.order == p.durable.order
    ensures Reached(init, more, r, finished) && log < more && more[|more| - 1] == Submit(Some(SOME_OUTCOME))
  {
    hide Reached;
    var d := p.d.(selected := entries);
    var submitting := Prog(d, d, Saving(Submitting(entries)));
    Go(init, log, AtChoose(p, entries), finished, Persist(d), submitting);
    r := Prog(d, Record(d, SOME_OUTCOME).(handle := ""), Saving(Accepted(entries, SOME_OUTCOME)));
    Go(init, log + [Persist(d)], submitting, finished, Submit(Some(SOME_OUTCOME)), r);
    more := log + [Persist(d)] + [Submit(Some(SOME_OUTCOME))];
  }

  /** The provider does not know the handle, and so the selection is submitted again. */
  lemma ForgottenIsSubmitted(init: Detail, log: seq<Event>, p: Prog, finished: map<string, string>, entries: seq<Entry>)
    returns (more: seq<Event>, r: Prog)
    requires Reached(init, log, p, finished) && p.pc == Saving(Asking(entries)) && p.d.order == p.durable.order
    ensures Reached(init, more, r, finished) && log < more && more[|more| - 1] == Submit(Some(SOME_OUTCOME))
  {
    hide Reached;
    var d, asked := p.d.(handle := ""), Asked(p.d.handle, Unknown);
    var dropping, reopening := Prog(p.durable, d, Saving(Dropping(entries))), Prog(d, d, Saving(Reopening(entries)));
    Go(init, log, p, finished, asked, dropping);
    Go(init, log + [asked], dropping, finished, Persist(d), reopening);
    Go(init, log + [asked] + [Persist(d)], reopening, finished, Opened(true), AtChoose(reopening, entries));
    var l := log + [asked] + [Persist(d)] + [Opened(true)];
    more, r := ChosenIsSubmitted(init, l, reopening, finished, entries);
  }

  lemma SelectedIsSubmitted(init: Detail, log: seq<Event>, p: Prog, finished: map<string, string>, entries: seq<Entry>)
    returns (more: seq<Event>, r: Prog)
    requires Reached(init, log, AfterSelection(p, entries), finished) && p.d.order == p.durable.order
    ensures Reached(init, more, r, finished) && log < more && more[|more| - 1] == Submit(Some(SOME_OUTCOME))
  {
    hide Reached;
    if p.d.order.fetch {
      more, r := ForgottenIsSubmitted(init, log, AfterSelection(p, entries), finished, entries);
    } else {
      var d := p.d.(phase := Save);
      var asking := Prog(d, d, Saving(Asking(entries)));
      Go(init, log, AfterSelection(p, entries), finished, Persist(d), asking);
      more, r := ForgottenIsSubmitted(init, log + [Persist(d)], asking, finished, entries);
    }
  }

  /** From the start of a save a submission can follow, whatever is on record. */
  lemma SaveIsSubmitted(init: Detail, log: seq<Event>, p: Prog, finished: map<string, string>)
    returns (more: seq<Event>, r: Prog)
    requires Reached(init, log, AtSave(p), finished) && p.d.order == p.durable.order
    ensures Reached(init, more, r, finished) && log < more && more[|more| - 1] == Submit(Some(SOME_OUTCOME))
  {
    hide Reached;
    var entries := [Entry("", "", 0)];
    if p.d.handle != "" && p.d.selected != [] {
      more, r := SelectedIsSubmitted(init, log, p, finished, p.d.selected);
    } else if p.d.handle != "" {
      var d := p.d.(selected := entries);
      var noting := Prog(p.durable, d, Saving(Noting(entries)));
      Go(init, log, AtSave(p), finished, Listed(entries), noting);
      Go(init, log + [Listed(entries)], noting, finished, Persist(d), AfterSelection(noting, entries).(durable := d));
      var chosen := noting.(durable := d);
      more, r := SelectedIsSubmitted(init, log + [Listed(entries)] + [Persist(d)], chosen, finished, entries);
    } else if p.d.order.fetch {
      Go(init, log, AtSave(p), finished, Listed(entries), AtChoose(p, entries));
      more, r := ChosenIsSubmitted(init, log + [Listed(entries)], p, finished, entries);
    } else {
      var d := p.d.(phase := Save);
      var starting, listing := Prog(p.durable, d, Saving(Starting)), Prog(d, d, Saving(Listing));
      Go(init, log, AtSave(p), finished, Opened(true), starting);
      Go(init, log + [Opened(true)], starting, finished, Persist(d), listing);
      var l := log + [Opened(true)] + [Persist(d)];
      Go(init, l, listing, finished, Listed(entries), AtChoose(listing, entries));
      more, r := ChosenIsSubmitted(init, l + [Listed(entries)], listing, finished, entries);
    }
  }

  /** After any history, a run that starts now can lead to a submission, at once or in a later run, exactly if the
      record does not settle the save: for a plain save its phase and a saved entry do, for a fetch a saved entry
      and a save that is not running. */
  lemma ResubmitExactly(init: Detail, log: seq<Event>)
    requires History(init, log)
    ensures CanResubmit(init, log) <==> MaySubmit(See(init, log).durable)
  {
    hide Trace, Inv, Sound, Safe, Resubmits, AnySaved, See;
    HistoryIsSafe(init, log);
    if CanResubmit(init, log) {
      var more :| Resubmits(init, log, more);
      SettledKeeps(init, log, more);
    }
    if MaySubmit(See(init, log).durable) {
      var more := MaySubmitDoes(init, log);
    }
  }

  lemma MaySubmitDoes(init: Detail, log: seq<Event>) returns (more: seq<Event>)
    requires History(init, log) && MaySubmit(See(init, log).durable)
    ensures Resubmits(init, log, more)
  {
    hide Trace, Sound, Safe, AnySaved, See, SaveInv, LoadInv, ReportInv, AtSave;
    HistoryIsSafe(init, log);
    var p, finished := Trace(init, log).value, See(init, log).finished;
    assert Reached(init, log, p, finished);
    Begun(init, log, p, finished, true);
    var d := if p.durable.phase == NoPhase then p.durable.(phase := Open) else p.durable;
    var l := log + [Resume(true)];
    var all, r := SaveIsSubmitted(init, l, Prog(p.durable, d, Off), finished);
    HistoryIs(init, all, r, finished);
    more := all[|l|..];
    assert l + more == all;
    assert more[|more| - 1].Submit?;
  }

  lemma SettledKeeps(init: Detail, log: seq<Event>, more: seq<Event>)
    requires Resubmits(init, log, more)
    ensures MaySubmit(See(init, log).durable)
  {
    hide Trace, Inv, Sound, Safe, AnySaved, See;
    var all, n := log + [Resume(true)] + more, |log|;
    HistoryIsSafe(init, all);
    var k :| 0 <= k < |more| && more[k].Submit?;
    var j := n + 1 + k;
    assert all[..n] == log && all[n] == Resume(true) && all[j] == more[k];
    SafeAt(init, all, j);
    SafePrefix(init, all, n);
    OrderStays(init, all[..j], n);
    assert all[..j][..n] == log;
    SubmitIs(See(init, all[..j]), all[j]);
    if Settled(See(init, log).durable) {
      NeverResubmitted(init, all, n, j);
    }
  }

  lemma SubmitIs(v: View, e: Event)
    requires Allowed(v, e) && e.Submit?
    ensures v.durable.order.fetch ==> v.durable.order.toRequested
  {
  }

  // ------------------------------------------------------------------------ hollow reports

  /** The record of a fetch that is complete with its save done and something not transferred, but no failure to
      show for it. */
  predicate Hollow(d: Detail) {
    Late(d) && !AllTransferred(d) && FetchResult(d) != TaskFailed
  }

  /** The run that starts now reports something else than failure although a saved entry was not transferred. */
  ghost predicate ReportsHollow(init: Detail, log: seq<Event>, more: seq<Event>) {
    && History(init, log + [Resume(true)] + more) && more != [] && (forall k | 0 <= k < |more| :: !more[k].Resume?)
    && var last := more[|more| - 1]; last.Report? && last.result != TaskFailed && !AllTransferred(last.detail)
  }

  ghost predicate CanReportHollow(init: Detail, log: seq<Event>) {
    exists more :: ReportsHollow(init, log, more)
  }

  /** After any history, a fetch that starts now can report something else than failure without having transferred
      everything it saved, exactly if it starts from a hollow record. */
  lemma HollowExactly(init: Detail, log: seq<Event>)
    requires History(init, log) && FromSave(init)
    ensures CanReportHollow(init, log) <==> Hollow(See(init, log).durable)
  {
    hide Trace, ReportsHollow, Hollow, See;
    if CanReportHollow(init, log) {
      var more :| ReportsHollow(init, log, more);
      FullKeeps(init, log, more);
    }
    if Hollow(See(init, log).durable) {
      HollowReports(init, log);
    }
  }

  lemma HollowReports(init: Detail, log: seq<Event>)
    requires History(init, log) && FromSave(init) && Hollow(See(init, log).durable)
    ensures ReportsHollow(init, log, [Report(See(init, log).durable, FetchResult(See(init, log).durable))])
  {
    hide Trace, Sound, Safe, AnySaved, See, SaveInv, LoadInv, ReportInv, FetchResult, OkIds;
    HistoryIsSafe(init, log);
    OrderStays(init, log, 0);
    FirstView(init, log);
    var p, d := Trace(init, log).value, See(init, log).durable;
    var finished, report := See(init, log).finished, Report(d, FetchResult(d));
    assert Reached(init, log, p, finished);
    Begun(init, log, p, finished, true);
    assert d.(phase := Complete) == d;
    var reporting := Prog(d, d, Reporting(FetchResult(d), true));
    assert Started(d, true) == reporting;
    Go(init, log + [Resume(true)], reporting, finished, report, Prog(d, d, Leaving(true)));
    HistoryIs(init, log + [Resume(true)] + [report], Prog(d, d, Leaving(true)), finished);
  }

  lemma FirstView(init: Detail, log: seq<Event>)
    ensures See(init, log[..0]).durable == init
  {
  }

  lemma {:induction false} StartStays(init: Detail, log: seq<Event>, k: nat)
    requires 0 < k <= |log| && log[k - 1].Resume? && forall i | k <= i < |log| :: !log[i].Resume?
    ensures See(init, log).start == See(init, log[..k - 1]).durable
    decreases |log|
  {
    hide OkIds, Settled, CanResume;
    var n := |log| - 1;
    if k < |log| {
      assert log[..n][..k - 1] == log[..k - 1];
      StartStays(init, log[..n], k);
    }
  }

  lemma FullKeeps(init: Detail, log: seq<Event>, more: seq<Event>)
    requires ReportsHollow(init, log, more) && FromSave(init)
    ensures Hollow(See(init, log).durable)
  {
    hide Trace, Inv, Sound, Safe, See, AnySaved, FetchResult, OkIds, Apply;
    var all, n := log + [Resume(true)] + more, |log|;
    var m := |all| - 1;
    HistoryIsSafe(init, all);
    SafeAt(init, all, m);
    assert all[m] == more[|more| - 1] && all[..m] == log + [Resume(true)] + more[..|more| - 1];
    assert all[..m][..n] == log && all[..m][n] == Resume(true);
    StartStays(init, all[..m], n + 1);
    SafePrefix(init, all, m);
    OrderStays(init, all[..m], 0);
    FirstView(init, all[..m]);
    ReportIs(See(init, all[..m]), all[m]);
  }

  lemma ReportIs(v: View, e: Event)
    requires Allowed(v, e) && e.Report? && e.result != TaskFailed && !AllTransferred(e.detail) && FromSave(v.durable)
    ensures Hollow(v.start)
  {
    hide MayPersistFetch, OkIds, FetchResult;
  }

  /** A first save in which every entry failed leaves the record of a fetch in the complete phase.  A retry then
      submits a new save, whose first answer is written down in that same phase. */
  lemma Retried(init: Detail, o: Outcome) returns (log: seq<Event>, d: Detail)
    requires Fresh(init) && FromSave(init)
    ensures History(init, log) && See(init, log).durable == d
    ensures d == Record(init.(phase := Complete, handle := o.handle, selected := d.selected), o)
  {
    hide AllSavedOf, Reached, AtFetch;
    var e := Entry("", "", 0);
    var entries := [e];
    var l0, p0 := FailedSave(init, e);
    var failed := p0.d;
    Begun(init, l0, p0, map[], true);
    var l1, listing := l0 + [Resume(true)], Prog(failed, failed, Saving(Listing));
    Go(init, l1, listing, map[], Listed(entries), AtChoose(listing, entries));
    var submitting := Prog(failed, failed, Saving(Submitting(entries)));
    Go(init, l1 + [Listed(entries)], AtChoose(listing, entries), map[], Persist(failed), submitting);
    var l2 := l1 + [Listed(entries)] + [Persist(failed)];
    d := Record(failed.(handle := o.handle), o);
    var accepted := Prog(failed, d, Saving(Accepted(entries, o)));
    Go(init, l2, submitting, map[], Submit(Some(o)), accepted);
    var last := AfterOutcome(accepted, o, entries, true).(durable := d);
    Go(init, l2 + [Submit(Some(o))], accepted, map[], Persist(d), last);
    log := l2 + [Submit(Some(o))] + [Persist(d)];
    Ends1(init, log, last);
  }

  lemma Ends1(init: Detail, log: seq<Event>, p: Prog)
    requires Reached(init, log, p, map[]) && Fresh(init)
    ensures History(init, log) && See(init, log).durable == p.durable
  {
  }

  /** A run whose save failed for its one entry. */
  lemma FailedSave(init: Detail, e: Entry) returns (log: seq<Event>, p: Prog)
    requires Fresh(init) && FromSave(init)
    ensures Reached(init, log, p, map[]) && p == Prog(p.d, p.d, Off) && p.d.handle == "" && !SaveDone(p.d)
    ensures p.d == init.(phase := Complete, selected := [e], saved := p.d.saved, state := p.d.state)
  {
    hide Reached, AllSavedOf, Reconcile, ResultState, AtFetch;
    var o, entries := Outcome("", Failed, []), [e];
    var r := Reconcile(o, entries);
    NothingSaved(e);
    var l0, accepted := Submitted(init, o, entries);
    var written := accepted.d;
    var verify := Record(written, r).(phase := Verify);
    var concluding := Prog(written, verify, Saving(Concluding(r)));
    Go(init, l0, accepted, map[], Persist(written), concluding);
    var l1, settling := l0 + [Persist(written)], Prog(verify, verify, Saving(Settling(r)));
    Go(init, l1, concluding, map[], Persist(verify), settling);
    var d := verify.(phase := Complete);
    var l2, hopeless := l1 + [Persist(verify)], Prog(verify, d, Saving(Hopeless));
    Go(init, l2, settling, map[], Persist(verify), hopeless);
    var l3, leaving := l2 + [Persist(verify)], Prog(d, d, Leaving(false));
    Go(init, l3, hopeless, map[], Persist(d), leaving);
    p := Prog(d, d, Off);
    Go(init, l3 + [Persist(d)], leaving, map[], Return(false), p);
    log := l3 + [Persist(d)] + [Return(false)];
  }

  /** An outcome without items becomes one in which every entry failed. */
  lemma NothingSaved(e: Entry)
    ensures var r := Reconcile(Outcome("", Failed, []), [e]);
            r.Complete() && ResultState(r) == TaskFailed && !AnySaved(AllSavedOf(r.items))
  {
    var r := Reconcile(Outcome("", Failed, []), [e]);
    assert ResultsFrom([], {}, [e]) == [Missing(e)] + ResultsFrom([], {}, [e][1..]);
    assert r.items == [Missing(e)];
    assert [Missing(e)][..0] == [];
    assert FailedCount(r.items) == 1;
  }

  lemma {:induction false} NoFailures(saved: seq<Saved>)
    ensures Failures(saved) == 0 <==> forall k | 0 <= k < |saved| :: !saved[k].failed
  {
    if saved != [] {
      NoFailures(saved[..|saved| - 1]);
    }
  }

  /** Every finished save without a failed entry can leave a hollow record, when it was a retry and the process
      dies right after the answer was written down. */
  lemma HollowIsReached(init: Detail, o: Outcome) returns (log: seq<Event>)
    requires Fresh(init) && FromSave(init) && o.Complete() && o.items != []
    requires forall k | 0 <= k < |o.items| :: o.items[k].error.None?
    ensures History(init, log) && Hollow(See(init, log).durable) && CanReportHollow(init, log)
  {
    hide Trace, See, CanReportHollow;
    var d;
    log, d := Retried(init, o);
    NoFailures(d.saved);
    NoFailures(d.transferred);
    assert !d.saved[0].failed && d.saved[0].remoteId in OkIds(d.saved);
    HollowExactly(init, log);
  }

  /** Every save that still runs and has a saved entry can leave a record in the complete phase that does not keep
      the fetch from submitting again. */
  lemma RunningIsResubmitted(init: Detail, o: Outcome) returns (log: seq<Event>)
    requires Fresh(init) && FromSave(init) && o.state == Running && AnySaved(AllSavedOf(o.items))
    ensures History(init, log) && CanResume(See(init, log).durable) && CanResubmit(init, log)
  {
    hide Trace, See, CanResubmit, AllSavedOf;
    var d;
    log, d := Retried(init, o);
    ResubmitExactly(init, log);
  }

  // ------------------------------------------------------------------------------- lengths

  /** The entry is finished with that many bytes and a copy removed after it. */
  ghost predicate FinishesWith(init: Detail, log: seq<Event>, i: int, x: Saved, bytes: nat) {
    && History(init, log) && 0 <= i && i + 1 < |log| && log[|log| - 1].RemoveSaved?
    && log[i].FinishTarget? && log[i].entry == x && log[i].bytes == bytes
  }

  /** A saved copy is read to its end and the file finished with as many bytes as there were, whatever size is on
      record; without retention a copy is then removed. */
  lemma LengthIsNotChecked(init: Detail, o: Outcome, entries: seq<Entry>, bytes: nat)
    requires Fruitful(init, o, entries)
    ensures (exists log, i :: FinishesWith(init, log, i, Wanted(SavedBy(o, entries))[0], bytes)) <==>
            !init.order.keepCloud
  {
    hide Reconcile, History;
    var x := Wanted(SavedBy(o, entries))[0];
    if log, i :| FinishesWith(init, log, i, x, bytes) {
      RemovalIsAsked(init, log);
    }
    if !init.order.keepCloud {
      var log, i := AnyLength(init, o, entries, bytes);
    }
  }

  /** A task that keeps the cloud copies removes none. */
  lemma RemovalIsAsked(init: Detail, log: seq<Event>)
    requires History(init, log) && log != [] && log[|log| - 1].RemoveSaved?
    ensures !init.order.keepCloud
  {
    hide Trace, Inv, Sound, Safe;
    var n := |log| - 1;
    HistoryIsSafe(init, log);
    SafePrefix(init, log, n);
    OrderStays(init, log[..n], 0);
    RemovalIsEarned(init, log, n);
  }

  lemma AnyLength(init: Detail, o: Outcome, entries: seq<Entry>, bytes: nat) returns (log: seq<Event>, i: nat)
    requires Fruitful(init, o, entries) && !init.order.keepCloud
    ensures FinishesWith(init, log, i, Wanted(SavedBy(o, entries))[0], bytes)
  {
    hide Reached, AtFile, DirPath, Wanted, Reconcile, Downloads, NotAt;
    var l0, p0 := Planned1(init, o, entries);
    var l1, job := Begins(init, l0, p0, map[]);
    FileIs(p0, job);
    var filing := p0.(pc := Loading(Filing(job, ToOpen)));
    SameDownload(p0, filing, job);
    var x := job.targets[0];
    var finished := map[DirPath(init.order.to, x.name) := x.remoteId];
    var l2, p2, next := Transfers(init, l1, filing, job, map[], bytes);
    assert map[][DirPath(init.order.to, x.name) := x.remoteId] == finished;
    var l3, p3, now := RunsOut(init, l2, p2, next, finished, "", "");
    DoneIs(init, o, entries, p0.d);
    var r;
    log, r := Removes(init, l3, p3, now);
    i := |l1| + 1;
    HistoryIs(init, log, r, now);
  }
}
