/** What a share task leaves behind in the world, and what it may do next.

Like an offline task, a share task is judged by its log: the records it writes,
the answers it gets, the saves it submits, the destination files it touches and the
saved copies it removes.  The theorems here hold of every log that is `Safe`, and
`ShareProgram` shows that the logs of the runner are. */
module ShareLog {
  import opened Wrappers
  import opened ShareOutcome
  import Paths
  import UrlFetch

  datatype Phase = NoPhase | Open | Save | Verify | Download | Cleanup | Complete

  datatype Saved = Saved(sourceId: string, name: string, size: int, remoteId: string, failed: bool)

  /** What the user asked for.  `toRequested` asks for a copy in the user's own drive, which a fetch then downloads. */
  datatype Order = Order(fetch: bool, toRequested: bool, keepCloud: bool, to: Paths.Destination)

  /** shareDetail. */
  datatype Detail = Detail(
    order: Order,
    phase: Phase,
    handle: string,
    state: Option<SaveState>,
    saved: seq<Saved>,
    selected: seq<Entry>,
    transferred: seq<Saved>)

  datatype Answer = Reported(outcome: Outcome) | Unknown | Unavailable

  /** The events of a log, each with the answer it got.

      A run starts (`Resume`), if the drivers are able to do what is asked, and returns, unless its process dies.
      In between it writes its record, alone or with the result of the task (`Report`), opens the link and lists
      the selected entries, submits a save and asks for it, looks whether the destination shows the saved entries,
      plans its targets, opens, fills, finishes and discards destinations, and removes saved copies. */
  datatype Event =
    | Resume(able: bool)
    | Return(ok: bool)
    | Persist(detail: Detail)
    | Opened(ok: bool)
    | Listed(entries: seq<Entry>)
    | Submit(accepted: Option<Outcome>)
    | Asked(handle: string, answer: Answer)
    | Stopped
    | Verified(ok: bool)
    | Planned(direct: seq<Saved>, prepared: bool, single: bool)
    | OpenTarget(path: string, entry: Saved, ok: bool)
    | Streamed(url: UrlFetch.Url)
    | FinishTarget(path: string, entry: Saved, bytes: nat)
    | DiscardTarget(path: string, entry: Saved, bytes: nat)
    | RemoveSaved(id: string, gone: bool)
    | Report(detail: Detail, result: TaskState)

  /** `finished` maps a destination to the remote id whose copy stands there,
      untouched since; `landed` are the ids ever finished and `recorded` those ever
      written down as transferred; `lost` are the handles the provider said it does
      not know.  `settled` says that no save is to be submitted any more, and
      `start` is the record that the current run began with. */
  datatype View = View(
    durable: Detail,
    finished: map<string, string>,
    landed: set<string>,
    recorded: set<string>,
    lost: set<string>,
    settled: bool,
    start: Detail)

  // -------------------------------------------------------------------- the record

  predicate AnySaved(saved: seq<Saved>) {
    exists i | 0 <= i < |saved| :: !saved[i].failed
  }

  /** savePhaseDone. */
  predicate SaveDone(d: Detail) {
    d.state != Some(Queued) && d.state != Some(Running) && AnySaved(d.saved)
  }

  /** canResumeVerification. */
  predicate CanResume(d: Detail) {
    (d.phase == Verify || d.phase == Complete) && AnySaved(d.saved)
  }

  predicate Settled(d: Detail) {
    if d.order.fetch then SaveDone(d) else CanResume(d)
  }

  function OkIds(saved: seq<Saved>): set<string> {
    set i | 0 <= i < |saved| && !saved[i].failed :: saved[i].remoteId
  }

  /** The saved entries a fetch downloads. */
  function Wanted(saved: seq<Saved>): (out: seq<Saved>)
    ensures forall i | 0 <= i < |out| :: !out[i].failed
  {
    if saved == [] then []
    else
      var last := saved[|saved| - 1];
      Wanted(saved[..|saved| - 1]) + (if last.failed then [] else [last])
  }

  predicate DistinctIds(wanted: seq<Saved>) {
    forall i, j | 0 <= i < j < |wanted| :: wanted[i].remoteId != wanted[j].remoteId
  }

  /** Where a directory destination puts an entry. */
  function DirPath(to: Paths.Destination, name: string): string {
    if to.Local? then Paths.JoinLocal(to.to, name) else TrimSlashes(to.to) + "/" + name
  }

  function TrimSlashes(s: string): string {
    if s != "" && s[|s| - 1] == '/' then TrimSlashes(s[..|s| - 1]) else s
  }

  /** Every wanted entry has an id and a place of its own. */
  predicate Clear(d: Detail) {
    var wanted := Wanted(d.saved);
    && DistinctIds(wanted)
    && forall i, j | 0 <= i < j < |wanted| :: DirPath(d.order.to, wanted[i].name) != DirPath(d.order.to, wanted[j].name)
  }

  /** The transfers recorded so far are those of the first wanted entries, and only the last may have failed. */
  predicate Aligned(d: Detail) {
    var wanted := Wanted(d.saved);
    && |d.transferred| <= |wanted|
    && (forall k | 0 <= k < |d.transferred| :: d.transferred[k].remoteId == wanted[k].remoteId)
    && (forall k | 0 <= k < |d.transferred| - 1 :: !d.transferred[k].failed)
    && (DistinctIds(wanted) ==> forall k | 0 <= k < |d.transferred| :: d.transferred[k].name == wanted[k].name)
  }

  predicate Later(p: Phase) {
    p == Download || p == Cleanup
  }

  predicate FromSave(d: Detail) {
    d.order.fetch && d.order.toRequested
  }

  predicate SaveOnly(d: Detail) {
    d.transferred == [] && !Later(d.phase)
  }

  /** What a record of a fetch from a save always says. */
  predicate Consistent(d: Detail) {
    && (Later(d.phase) ==> SaveDone(d))
    && (d.transferred != [] ==> SaveDone(d))
    && Aligned(d)
    && (d.phase == Cleanup ==> OkIds(d.saved) <= OkIds(d.transferred) && "" !in OkIds(d.saved))
  }

  // ------------------------------------------------------------------- the world

  /** The record is written. */
  function Written(v: View, d: Detail): View {
    v.(durable := d, recorded := v.recorded + OkIds(d.transferred), settled := v.settled ||
        (!d.order.fetch && CanResume(d)))
  }

  function Apply(v: View, e: Event): View {
    match e
    case Persist(d) => Written(v, d)
    case Report(d, _) => Written(v, d)
    case Resume(_) => v.(settled := v.settled || Settled(v.durable), start := v.durable)
    case Asked(handle, answer) => if answer.Unknown? then v.(lost := v.lost + {handle}) else v
    case OpenTarget(p, _, _) => v.(finished := v.finished - {p})
    case DiscardTarget(p, _, _) => v.(finished := v.finished - {p})
    case FinishTarget(p, x, _) => v.(finished := v.finished[p := x.remoteId], landed := v.landed + {x.remoteId})
    case _ => v
  }

  function See(init: Detail, log: seq<Event>): View {
    if log == [] then View(init, map[], {}, {}, {}, false, init)
    else Apply(See(init, log[..|log| - 1]), log[|log| - 1])
  }

  /** A finished copy of `x` stands where a fetch of `d` puts it. */
  ghost predicate Stands(v: View, d: Detail, x: Saved) {
    exists p :: StandsAt(v, d, x, p)
  }

  predicate StandsAt(v: View, d: Detail, x: Saved, p: string) {
    p in v.finished && v.finished[p] == x.remoteId && (|Wanted(d.saved)| > 1 ==> p == DirPath(d.order.to, x.name))
  }

  /** A transfer is written down only once its copy stands. */
  ghost predicate Backed(v: View, d: Detail) {
    forall k | 0 <= k < |d.transferred| && !d.transferred[k].failed ::
      d.transferred[k].remoteId in OkIds(v.durable.transferred) || Stands(v, d, d.transferred[k])
  }

  ghost predicate MayPersist(v: View, d: Detail) {
    var o := v.durable;
    && d.order == o.order
    && (o.handle != "" && d.handle != o.handle ==> d.handle == "" && o.handle in v.lost)
    && (v.settled ==>
        d.saved == o.saved && d.state == o.state && (d.order.fetch || d.phase == Verify || d.phase == Complete))
    && (!d.order.fetch ==> SaveOnly(d))
    && (FromSave(d) ==> MayPersistFetch(v, d))
  }

  ghost predicate MayPersistFetch(v: View, d: Detail) {
    var o := v.durable;
    && Consistent(d)
    && (Later(o.phase) || o.transferred != [] ==> d.saved == o.saved)
    && OkIds(o.transferred) <= OkIds(d.transferred)
    && Backed(v, d)
  }

  /** A fetch from a save touches only the place of an entry it has not yet recorded. */
  predicate MayTouch(v: View, p: string, x: Saved) {
    && v.durable.phase == Download
    && (FromSave(v.durable) ==>
          var wanted := Wanted(v.durable.saved);
          && x in wanted
          && (|wanted| > 1 ==> p == DirPath(v.durable.order.to, x.name))
          && (DistinctIds(wanted) ==> x.remoteId !in v.recorded))
  }

  /** A run that begins with the save done and the phase complete has nothing left but to report. */
  predicate Late(start: Detail) {
    start.phase == Complete && SaveDone(start)
  }

  function Failures(entries: seq<Saved>): nat {
    if entries == [] then 0
    else Failures(entries[..|entries| - 1]) + (if entries[|entries| - 1].failed then 1 else 0)
  }

  function StateOf(succeeded: int, failed: int): TaskState {
    if failed > 0 then (if succeeded == 0 then TaskFailed else TaskPartialFailed) else TaskSucceeded
  }

  /** What finishFetch makes of the failed saves and of the transfers. */
  function FetchResult(d: Detail): TaskState {
    StateOf(|d.transferred| - Failures(d.transferred), Failures(d.saved) + Failures(d.transferred))
  }

  predicate AllTransferred(d: Detail) {
    OkIds(d.saved) <= OkIds(d.transferred)
  }

  ghost predicate MayReport(v: View, d: Detail, result: TaskState) {
    FromSave(d) ==>
      && result == FetchResult(d)
      && (AllTransferred(d) || (Late(v.start) && v.durable == v.start && d == v.durable))
  }

  ghost predicate Allowed(v: View, e: Event) {
    match e
    case Persist(d) => MayPersist(v, d)
    case Submit(_) => v.durable.handle == "" && !v.settled && v.durable.transferred == []
                      && (v.durable.order.fetch ==> v.durable.order.toRequested)
    case OpenTarget(p, x, _) => MayTouch(v, p, x)
    case DiscardTarget(p, x, _) => MayTouch(v, p, x)
    case FinishTarget(p, x, _) => MayTouch(v, p, x)
    case RemoveSaved(id, _) =>
      FromSave(v.durable) && v.durable.phase == Cleanup && !v.durable.order.keepCloud && id in OkIds(v.durable.saved)
    case Report(d, result) => MayPersist(v, d) && MayReport(v, d, result)
    case _ => true
  }

  ghost predicate Safe(init: Detail, log: seq<Event>) {
    forall i | 0 <= i < |log| :: Allowed(See(init, log[..i]), log[i])
  }

  // ------------------------------------------------------------- every moment of a run

  /** A task that is just created. */
  predicate Fresh(d: Detail) {
    d.phase == Open && d.handle == "" && d.state == None && d.saved == [] && d.transferred == []
  }

  ghost predicate Sound(v: View) {
    && (FromSave(v.durable) ==> FetchSound(v))
    && (!v.durable.order.fetch ==> SaveOnly(v.durable))
    && (v.settled ==> Settled(v.durable))
    && (forall p | p in v.finished :: v.finished[p] in v.landed)
  }

  ghost predicate FetchSound(v: View) {
    && Consistent(v.durable)
    && v.recorded == OkIds(v.durable.transferred) && v.recorded <= v.landed
    && (Clear(v.durable) ==> AllStand(v))
  }

  ghost predicate AllStand(v: View) {
    forall k | 0 <= k < |v.durable.transferred| &&
        !v.durable.transferred[k].failed :: Stands(v, v.durable, v.durable.transferred[k])
  }

  lemma SeeNext(init: Detail, log: seq<Event>, e: Event)
    ensures See(init, log + [e]) == Apply(See(init, log), e)
    ensures Safe(init, log) && Allowed(See(init, log), e) ==> Safe(init, log + [e])
  {
    var more := log + [e];
    assert more[..|log|] == log;
    forall i | 0 <= i < |log| ensures more[..i] == log[..i] && more[i] == log[i] {
    }
  }

  lemma FreshIsSound(init: Detail)
    requires Fresh(init)
    ensures Sound(See(init, []))
  {
    assert Wanted(init.saved) == [];
  }

  /** Touching the place of an unrecorded entry leaves the recorded ones standing. */
  lemma OthersStand(v: View, w: View, p: string, x: Saved)
    requires FetchSound(v) && FromSave(v.durable) && MayTouch(v, p, x) && Clear(v.durable)
    requires w.durable == v.durable && forall q | q in v.finished && q != p ::
        q in w.finished && w.finished[q] == v.finished[q]
    ensures AllStand(w)
  {
    var d, wanted := v.durable, Wanted(v.durable.saved);
    forall k | 0 <= k < |d.transferred| && !d.transferred[k].failed ensures Stands(w, d, d.transferred[k]) {
      var t := d.transferred[k];
      var q :| StandsAt(v, d, t, q);
      assert t.remoteId in OkIds(d.transferred);
      var j :| 0 <= j < |wanted| && wanted[j] == x;
      assert j != k;
      assert q != p by {
        assert k < |wanted|;
        assert k < j;
      }
      assert StandsAt(w, d, t, q);
    }
  }

  lemma TouchIsSound(v: View, e: Event)
    requires Sound(v) && Allowed(v, e) && (e.OpenTarget? || e.DiscardTarget? || e.FinishTarget?)
    ensures Sound(Apply(v, e))
  {
    var w := Apply(v, e);
    if FromSave(v.durable) && Clear(v.durable) {
      hide Consistent, Clear, AllStand, OkIds;
      OthersStand(v, w, e.path, e.entry);
    }
  }

  /** Standing speaks of the saved entries and the destination only. */
  lemma StandsAgain(v: View, w: View, x: Saved, y: Saved)
    requires Stands(v, v.durable, x) && y.remoteId == x.remoteId && y.name == x.name
    requires w.finished == v.finished && w.durable.saved == v.durable.saved && w.durable.order == v.durable.order
    ensures Stands(w, w.durable, y)
  {
    var p :| StandsAt(v, v.durable, x, p);
    assert StandsAt(w, w.durable, y, p);
  }

  lemma {:induction false} WantedIds(saved: seq<Saved>)
    ensures OkIds(saved) == OkIds(Wanted(saved))
    ensures AnySaved(saved) <==> Wanted(saved) != []
  {
    if saved != [] {
      var n := |saved| - 1;
      WantedIds(saved[..n]);
      OkIdsSplit(saved[..n], [saved[n]]);
      assert saved == saved[..n] + [saved[n]];
      OkIdsSplit(Wanted(saved[..n]), if saved[n].failed then [] else [saved[n]]);
      if AnySaved(saved[..n]) {
        var i :| 0 <= i < n && !saved[..n][i].failed;
        assert !saved[i].failed;
      }
      if AnySaved(saved) && saved[n].failed {
        var i :| 0 <= i < |saved| && !saved[i].failed;
        assert !saved[..n][i].failed;
      }
    }
  }

  lemma OkIdsSplit(a: seq<Saved>, b: seq<Saved>)
    ensures OkIds(a + b) == OkIds(a) + OkIds(b)
  {
    forall x | x in OkIds(a) ensures x in OkIds(a + b) {
      var i :| 0 <= i < |a| && !a[i].failed && a[i].remoteId == x;
      assert (a + b)[i] == a[i];
    }
    forall x | x in OkIds(b) ensures x in OkIds(a + b) {
      var i :| 0 <= i < |b| && !b[i].failed && b[i].remoteId == x;
      assert (a + b)[|a| + i] == b[i];
    }
    forall x | x in OkIds(a + b) ensures x in OkIds(a) + OkIds(b) {
      var i :| 0 <= i < |a + b| && !(a + b)[i].failed && (a + b)[i].remoteId == x;
      if i < |a| { assert x in OkIds(a); } else { assert x in OkIds(b) by { assert b[i - |a|].remoteId == x; } }
    }
  }

  /** With distinct ids, the record of an id is at the same position in two aligned records. */
  lemma RecordedEarlier(o: Detail, d: Detail, k: nat)
    requires Aligned(o) && Aligned(d) && d.saved == o.saved && DistinctIds(Wanted(d.saved))
    requires k < |d.transferred| && d.transferred[k].remoteId in OkIds(o.transferred)
    ensures k < |o.transferred| && !o.transferred[k].failed && o.transferred[k].remoteId == d.transferred[k].remoteId
    ensures o.transferred[k].name == d.transferred[k].name
  {
    var wanted := Wanted(d.saved);
    var i :| 0 <= i < |o.transferred| && !o.transferred[i].failed &&
        o.transferred[i].remoteId == d.transferred[k].remoteId;
    assert wanted[i].remoteId == wanted[k].remoteId;
    assert i == k;
  }

  lemma PersistStands(v: View, d: Detail)
    requires FetchSound(v) && FromSave(v.durable) && MayPersist(v, d) && Clear(d)
    ensures AllStand(Written(v, d))
  {
    var o, w := v.durable, Written(v, d);
    forall k | 0 <= k < |d.transferred| && !d.transferred[k].failed ensures Stands(w, d, d.transferred[k]) {
      if d.transferred[k].remoteId in OkIds(o.transferred) {
        assert o.transferred != [];
        hide DirPath;
        RecordedEarlier(o, d, k);
        StandsAgain(v, w, o.transferred[k], d.transferred[k]);
      } else {
        var p :| StandsAt(v, d, d.transferred[k], p);
        assert StandsAt(w, d, d.transferred[k], p);
      }
    }
  }

  lemma PersistIsSound(v: View, d: Detail)
    requires Sound(v) && MayPersist(v, d)
    ensures Sound(Written(v, d))
  {
    if FromSave(d) {
      if Clear(d) {
        PersistStands(v, d);
      }
      forall x | x in OkIds(d.transferred) ensures x in v.landed {
        if x !in v.recorded {
          var k :| 0 <= k < |d.transferred| && !d.transferred[k].failed && d.transferred[k].remoteId == x;
          var p :| StandsAt(v, d, d.transferred[k], p);
        }
      }
    }
  }

  lemma SoundStep(v: View, e: Event)
    requires Sound(v) && Allowed(v, e)
    ensures Sound(Apply(v, e))
  {
    hide Sound, MayPersist, MayTouch, OkIds;
    match e
    case Persist(d) => PersistIsSound(v, d);
    case Report(d, _) => PersistIsSound(v, d);
    case OpenTarget(_, _, _) => TouchIsSound(v, e);
    case DiscardTarget(_, _, _) => TouchIsSound(v, e);
    case FinishTarget(_, _, _) => TouchIsSound(v, e);
    case Resume(_) => OtherStep(v, e);
    case Asked(_, _) => OtherStep(v, e);
    case _ =>
  }

  lemma OtherStep(v: View, e: Event)
    requires Sound(v) && (e.Resume? || e.Asked?)
    ensures Sound(Apply(v, e))
  {
    hide Consistent, Clear, Stands, OkIds;
    var w, d := Apply(v, e), v.durable;
    if FromSave(d) && Clear(d) {
      forall k | 0 <= k < |d.transferred| && !d.transferred[k].failed ensures Stands(w, d, d.transferred[k]) {
        StandsAgain(v, w, d.transferred[k], d.transferred[k]);
      }
    }
  }

  lemma {:induction false} SafeIsSound(init: Detail, log: seq<Event>)
    requires Fresh(init) && Safe(init, log)
    ensures Sound(See(init, log))
  {
    if log == [] {
      FreshIsSound(init);
    } else {
      hide Allowed, Apply, Sound, Fresh, Safe;
      SafeLast(init, log);
      SafeIsSound(init, log[..|log| - 1]);
      SoundStep(See(init, log[..|log| - 1]), log[|log| - 1]);
    }
  }

  lemma SafePrefix(init: Detail, log: seq<Event>, k: nat)
    requires Safe(init, log) && k <= |log|
    ensures Safe(init, log[..k])
  {
    forall i | 0 <= i < k ensures log[..k][..i] == log[..i] {
    }
  }

  lemma SafeLast(init: Detail, log: seq<Event>)
    requires Safe(init, log) && log != []
    ensures var n := |log| - 1; Safe(init, log[..n]) && Allowed(See(init, log[..n]), log[n])
    ensures See(init, log) == Apply(See(init, log[..|log| - 1]), log[|log| - 1])
  {
    SafePrefix(init, log, |log| - 1);
  }

  lemma SafeAt(init: Detail, log: seq<Event>, i: nat)
    requires Safe(init, log) && i < |log|
    ensures Allowed(See(init, log[..i]), log[i]) && Safe(init, log[..i])
  {
    SafePrefix(init, log, i);
  }

  // -------------------------------------------------------------------- whole histories

  lemma {:induction false} LandedWasFinished(init: Detail, log: seq<Event>, id: string)
    requires id in See(init, log).landed
    ensures exists j :: 0 <= j < |log| && log[j].FinishTarget? && log[j].entry.remoteId == id
  {
    if log != [] {
      var n := |log| - 1;
      if log[n].FinishTarget? && log[n].entry.remoteId == id {
      } else {
        LandedWasFinished(init, log[..n], id);
        var j :| 0 <= j < n && log[..n][j].FinishTarget? && log[..n][j].entry.remoteId == id;
        assert log[j].FinishTarget?;
      }
    }
  }

  /** A saved copy is removed only by a fetch that saved it and was not asked to keep it, after its own
      transfer was finished, in whichever run that was. */
  lemma RemovalIsEarned(init: Detail, log: seq<Event>, i: nat)
    requires Fresh(init) && Safe(init, log) && i < |log| && log[i].RemoveSaved?
    ensures var d := See(init, log[..i]).durable; FromSave(d) && !d.order.keepCloud && d.phase == Cleanup && SaveDone(d)
    ensures exists j :: 0 <= j < i && log[j].FinishTarget? && log[j].entry.remoteId == log[i].id
  {
    SafeAt(init, log, i);
    SafeIsSound(init, log[..i]);
    LandedWasFinished(init, log[..i], log[i].id);
    var j :| 0 <= j < i && log[..i][j].FinishTarget? && log[..i][j].entry.remoteId == log[i].id;
    assert log[j].FinishTarget?;
  }

  /** And when the entries have ids and places of their own, every one of them then stands finished at its place,
      untouched. */
  lemma RemovedStillStands(init: Detail, log: seq<Event>, i: nat)
    requires Fresh(init) && Safe(init, log) && i < |log| && log[i].RemoveSaved?
    requires Clear(See(init, log[..i]).durable)
    ensures var v := See(init, log[..i]); forall x | x in Wanted(v.durable.saved) :: Stands(v, v.durable, x)
  {
    SafeAt(init, log, i);
    SafeIsSound(init, log[..i]);
    var v := See(init, log[..i]);
    forall x | x in Wanted(v.durable.saved) ensures Stands(v, v.durable, x) {
      WantedStands(v, x);
    }
  }

  lemma WantedStands(v: View, x: Saved)
    requires FetchSound(v) && Clear(v.durable) && v.durable.phase == Cleanup && x in Wanted(v.durable.saved)
    ensures Stands(v, v.durable, x)
  {
    hide DirPath;
    var d, wanted := v.durable, Wanted(v.durable.saved);
    var j :| 0 <= j < |wanted| && wanted[j] == x;
    WantedIds(d.saved);
    assert x.remoteId in OkIds(wanted);
    var k :| 0 <= k < |d.transferred| && !d.transferred[k].failed && d.transferred[k].remoteId == x.remoteId;
    assert wanted[k].remoteId == wanted[j].remoteId;
    StandsAgain(v, v, d.transferred[k], x);
  }

  /** At every moment, a fetch from a save that is downloading or cleaning up has its save done. */
  lemma {:induction false} LaterMeansSaved(init: Detail, log: seq<Event>)
    requires Fresh(init) && Safe(init, log)
    requires var d := See(init, log).durable; FromSave(d) && (d.phase == Download || d.phase == Cleanup)
    ensures SaveDone(See(init, log).durable)
  {
    SafeIsSound(init, log);
  }

  lemma {:induction false} RecordedStays(init: Detail, log: seq<Event>, k: nat)
    requires k <= |log|
    ensures See(init, log[..k]).recorded <= See(init, log).recorded
    decreases |log|
  {
    if k == |log| {
      assert log[..k] == log;
    } else {
      assert log[..|log| - 1][..k] == log[..k];
      RecordedStays(init, log[..|log| - 1], k);
    }
  }

  /** An entry once written down as transferred is, with distinct ids, never transferred again. */
  lemma NeverTransferredAgain(init: Detail, log: seq<Event>, k: nat, i: nat)
    requires Fresh(init) && Safe(init, log) && k <= i < |log| && log[i].OpenTarget?
    requires FromSave(See(init, log[..i]).durable) && DistinctIds(Wanted(See(init, log[..i]).durable.saved))
    requires FromSave(See(init, log[..k]).durable)
    ensures log[i].entry.remoteId !in OkIds(See(init, log[..k]).durable.transferred)
  {
    SafeAt(init, log, i);
    SafePrefix(init, log, k);
    SafeIsSound(init, log[..k]);
    assert log[..i][..k] == log[..k];
    RecordedStays(init, log[..i], k);
  }

  lemma SettledStep(v: View, e: Event)
    requires Allowed(v, e) && v.settled
    ensures Apply(v, e).settled && Apply(v, e).durable.saved == v.durable.saved && !e.Submit?
  {
    hide MayPersistFetch, MayTouch, OkIds;
  }

  lemma {:induction false} SettledStays(init: Detail, log: seq<Event>, k: nat)
    requires Safe(init, log) && k <= |log| && See(init, log[..k]).settled
    ensures See(init, log).settled && See(init, log).durable.saved == See(init, log[..k]).durable.saved
    decreases |log|
  {
    hide Allowed, Apply, Safe;
    if k == |log| {
      assert log[..k] == log;
    } else {
      var n := |log| - 1;
      assert log[..n][..k] == log[..k];
      SafeLast(init, log);
      SettledStays(init, log[..n], k);
      SettledStep(See(init, log[..n]), log[n]);
    }
  }

  lemma SettlingStep(v: View, e: Event)
    ensures e.Resume? && Settled(v.durable) ==> Apply(v, e).settled && Apply(v, e).durable == v.durable
    ensures e.Persist? && !e.detail.order.fetch && CanResume(e.detail) ==>
        Apply(v, e).settled && Apply(v, e).durable == e.detail
  {
    hide OkIds, AnySaved;
  }

  lemma SettledMeans(v: View)
    requires Sound(v) && v.settled
    ensures Settled(v.durable)
  {
  }

  /** Once a run begins with its save done, no save is ever submitted again and the result of the save stays. */
  lemma NeverResubmitted(init: Detail, log: seq<Event>, i: nat, j: nat)
    requires Fresh(init) && Safe(init, log) && i < j < |log| && log[i].Resume? && Settled(See(init, log[..i]).durable)
    ensures !log[j].Submit?
    ensures Settled(See(init, log[..j]).durable) &&
        See(init, log[..j]).durable.saved == See(init, log[..i]).durable.saved
  {
    hide Allowed, Apply, Safe, See, Sound, Settled, CanResume;
    SafeAt(init, log, j);
    assert log[..j][..i + 1] == log[..i] + [log[i]];
    SeeNext(init, log[..i], log[i]);
    SettlingStep(See(init, log[..i]), log[i]);
    SettledStays(init, log[..j], i + 1);
    SettledStep(See(init, log[..j]), log[j]);
    SafeIsSound(init, log[..j]);
    SettledMeans(See(init, log[..j]));
  }

  /** For a plain save already the record itself decides: verify or complete with a saved entry. */
  lemma SaveNeverResubmits(init: Detail, log: seq<Event>, i: nat, j: nat)
    requires Fresh(init) && Safe(init, log) && i < j < |log| && log[i].Persist?
    requires !log[i].detail.order.fetch && CanResume(log[i].detail)
    ensures !log[j].Submit?
    ensures CanResume(See(init, log[..j]).durable) && See(init, log[..j]).durable.saved == log[i].detail.saved
  {
    hide Allowed, Apply, Safe, See, Sound, Settled, CanResume;
    SafeAt(init, log, j);
    assert log[..j][..i + 1] == log[..i] + [log[i]];
    SeeNext(init, log[..i], log[i]);
    SettlingStep(See(init, log[..i]), log[i]);
    SettledStays(init, log[..j], i + 1);
    SettledStep(See(init, log[..j]), log[j]);
    SafeIsSound(init, log[..j]);
    SettledMeans(See(init, log[..j]));
    OrderStays(init, log[..j], i + 1);
    SaveSettled(See(init, log[..j]).durable);
  }

  lemma SaveSettled(d: Detail)
    requires Settled(d) && !d.order.fetch
    ensures CanResume(d)
  {
  }

  lemma OrderStep(v: View, e: Event)
    requires Allowed(v, e)
    ensures Apply(v, e).durable.order == v.durable.order
  {
    hide MayPersistFetch, MayTouch, OkIds;
  }

  lemma {:induction false} OrderStays(init: Detail, log: seq<Event>, k: nat)
    requires Safe(init, log) && k <= |log|
    ensures See(init, log).durable.order == See(init, log[..k]).durable.order
    decreases |log|
  {
    hide Allowed, Apply, Safe;
    if k == |log| {
      assert log[..k] == log;
    } else {
      var n := |log| - 1;
      assert log[..n][..k] == log[..k];
      SafeLast(init, log);
      OrderStays(init, log[..n], k);
      OrderStep(See(init, log[..n]), log[n]);
    }
  }

  lemma HandleStep(v: View, e: Event)
    requires Allowed(v, e) && v.durable.handle != ""
    ensures Apply(v, e).durable.handle == v.durable.handle || v.durable.handle in Apply(v, e).lost
    ensures v.lost <= Apply(v, e).lost
    ensures !e.Submit?
  {
    hide MayPersistFetch, MayTouch, OkIds;
  }

  lemma LostStep(v: View, e: Event)
    ensures v.lost <= Apply(v, e).lost
  {
    hide OkIds;
  }

  lemma {:induction false} HandleOrLost(init: Detail, log: seq<Event>, k: nat)
    requires Safe(init, log) && k <= |log| && See(init, log[..k]).durable.handle != ""
    ensures See(init, log).durable.handle == See(init, log[..k]).durable.handle
            || See(init, log[..k]).durable.handle in See(init, log).lost
    decreases |log|
  {
    hide Allowed, Apply, Safe;
    if k == |log| {
      assert log[..k] == log;
    } else {
      var n := |log| - 1;
      assert log[..n][..k] == log[..k];
      SafeLast(init, log);
      HandleOrLost(init, log[..n], k);
      LostStep(See(init, log[..n]), log[n]);
      if See(init, log[..n]).durable.handle != "" {
        HandleStep(See(init, log[..n]), log[n]);
      }
    }
  }

  /** A save handle once written down goes only after the provider said it does not know it. */
  lemma HandleIsKept(init: Detail, log: seq<Event>, k: nat)
    requires Safe(init, log) && k <= |log| && See(init, log[..k]).durable.handle != ""
    requires See(init, log).durable.handle != See(init, log[..k]).durable.handle
    ensures exists i :: 0 <= i < |log| && log[i] == Asked(See(init, log[..k]).durable.handle, Unknown)
  {
    HandleOrLost(init, log, k);
    LostWasSaid(init, log, See(init, log[..k]).durable.handle);
  }

  lemma {:induction false} LostWasSaid(init: Detail, log: seq<Event>, h: string)
    requires h in See(init, log).lost
    ensures exists i :: 0 <= i < |log| && log[i] == Asked(h, Unknown)
  {
    if log != [] {
      hide OkIds;
      var n := |log| - 1;
      if log[n] != Asked(h, Unknown) {
        LostWasSaid(init, log[..n], h);
        var i :| 0 <= i < n && log[..n][i] == Asked(h, Unknown);
        assert log[i] == Asked(h, Unknown);
      }
    }
  }

  /** No save is submitted while a handle is on record. */
  lemma SubmittedOnlyWithoutHandle(init: Detail, log: seq<Event>, i: nat)
    requires Safe(init, log) && i < |log| && log[i].Submit?
    ensures See(init, log[..i]).durable.handle == ""
  {
    SafeAt(init, log, i);
  }

  /** A fetch that reports anything but failure has transferred every saved entry, unless its run began with
      the save done and the phase complete. */
  lemma ReportedIsTransferred(init: Detail, log: seq<Event>, i: nat)
    requires Fresh(init) && Safe(init, log) && i < |log| && log[i].Report? && log[i].result != TaskFailed
    requires FromSave(log[i].detail) && !Late(See(init, log[..i]).start)
    ensures forall x | x in OkIds(log[i].detail.saved) ::
              exists j :: 0 <= j < i && log[j].FinishTarget? && log[j].entry.remoteId == x
  {
    var v, d := See(init, log[..i]), log[i].detail;
    SafeAt(init, log, i);
    SafeIsSound(init, log[..i]);
    PersistIsSound(v, d);
    forall x | x in OkIds(d.saved)
      ensures exists j :: 0 <= j < i && log[j].FinishTarget? && log[j].entry.remoteId == x
    {
      LandedWasFinished(init, log[..i], x);
      var j :| 0 <= j < i && log[..i][j].FinishTarget? && log[..i][j].entry.remoteId == x;
      assert log[j].FinishTarget?;
    }
  }
}
