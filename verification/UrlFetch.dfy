/** One attempt at a provider download URL (offlineURLFetch in transfer.go): which
requests it makes for which sizes, and what it may report after which answers. */
module UrlFetch {
  import opened Wrappers
  import opened ChunkFetch

  /** The answer to one bounded request.  A rejection may disclose a total; a part whose `total` is zero discloses
      none that can be used; a `cut` body breaks off with an error after `body` bytes. */
  datatype Reply =
    | Broken
    | Rejected(end: Option<int>)
    | Whole(body: nat, cut: bool)
    | Part(valid: bool, total: nat, body: nat, cut: bool)

  /** `size` is the total the attempt settled on, zero if none. */
  datatype Result = Result(written: nat, size: int, done: bool, failed: bool)

  /** A provider URL: the size it discloses, the chunk plan, and how it behaves. */
  datatype Url = Url(disclosed: int, chunk: nat, workers: nat, probe: Reply, reply: Reply, schedule: seq<Step>,
      parts: seq<Reply>)

  const FAILED := Result(0, 0, false, true)

  /** validateRangeNotSatisfiable. */
  predicate AtEnd(offset: int, expected: int, end: Option<int>) {
    if expected > 0 then (end.None? || end.value == expected) && offset >= expected
    else end.Some? && offset >= end.value
  }

  /** copyChunk: up to `length` bytes, or all if it is zero, and whether it failed. */
  function Copy(body: nat, cut: bool, length: nat): (nat, bool) {
    if length > 0 && body >= length then (length, false) else (body, cut)
  }

  /** remaining. */
  function Left(size: int, start: int): nat {
    if size <= start then 0 else size - start
  }

  /** copyBody: the leading `skip` bytes of the body are dropped. */
  function CopyBody(body: nat, cut: bool, skip: nat, length: nat): (nat, bool) {
    if body < skip then (0, cut) else Copy(body - skip, cut, length)
  }

  function Copied(start: int, size: int, copy: (nat, bool)): Result {
    if copy.1 then Result(copy.0, size, false, true)
    else Result(copy.0, size, size <= 0 || start + copy.0 >= size, false)
  }

  /** runSingleRange: one response is to cover all that remains. */
  function SingleRange(start: nat, size: int, reply: Reply): Result {
    match reply
    case Broken => FAILED
    case Rejected(end) => if AtEnd(start, size, end) then Result(0, size, true, false)
        else Result(0, size, false, true)
    case Whole(body, cut) => Copied(start, size, CopyBody(body, cut, start, Left(size, start)))
    case Part(valid, total, body, cut) =>
      if !valid then Result(0, size, false, true) else Copied(start, size, Copy(body, cut, Left(size, start)))
  }

  /** runChunks, after the last worker has stopped. */
  function Chunks(s: State): Result {
    var written := if s.shared.contiguous < s.span.start then 0 else s.shared.contiguous - s.span.start;
    Result(written, s.span.size, !s.shared.failed && s.shared.contiguous >= s.span.size, s.shared.failed)
  }

  /** runSequentialRanges, over the answers in turn; it fails if they run out.  Only a whole-file answer is
      counted as written. */
  function Sequential(start: nat, offset: nat, chunk: nat, parts: seq<Reply>): (Result, int)
    decreases |parts|
  {
    if parts == [] then (FAILED, offset)
    else
      match parts[0]
      case Broken => (FAILED, offset)
      case Rejected(end) => (if AtEnd(offset, 0, end) then Result(0, 0, true, false) else FAILED, offset)
      case Whole(body, cut) =>
        var (copied, failed) := CopyBody(body, cut, start, 0);
        (Result(copied, 0, !failed, failed), start + copied)
      case Part(valid, _, body, cut) =>
        var (copied, failed) := Copy(body, cut, chunk);
        if !valid || failed then (FAILED, offset)
        else if copied < chunk then (Result(0, 0, true, false), offset + copied)
        else Sequential(start, offset + copied, chunk, parts[1..])
  }

  /** The two ways to fetch a file whose size is known. */
  function Sized(start: nat, size: int, u: Url): Result
    requires start < size && Scheduled(start, size, u)
  {
    if start + u.chunk >= size then SingleRange(start, size, u.reply)
    else Chunks(After(Begin(Span(start, size, u.chunk), u.workers), u.schedule))
  }

  /** The schedule is one of chunk workers that run to their end, if there are any. */
  predicate Scheduled(start: nat, size: int, u: Url) {
    u.chunk > 0 && u.workers > 0 &&
    (start + u.chunk < size ==>
       var s := Begin(Span(start, size, u.chunk), u.workers);
       Runs(s, u.schedule) && Finished(After(s, u.schedule)))
  }

  /** runUnknownSize: a one byte request finds out the size, if it can. */
  function Unsized(start: nat, u: Url): Result
    requires Possible(start, 0, u) && u.disclosed <= 0
  {
    match u.probe
    case Broken => FAILED
    case Rejected(end) => if AtEnd(start, 0, end) then Result(0, 0, true, false) else FAILED
    case Whole(body, cut) => Copied(start, 0, CopyBody(body, cut, start, 0))
    case Part(valid, total, body, cut) =>
      if !valid || (body == 0 && cut) then FAILED
      else if total == 0 then Sequential(start, start, u.chunk, u.parts).0
      else if start >= total then Result(0, total, true, false)
      else Sized(start, total, u)
  }

  /** What the URL discloses counts before what was asked for. */
  function SizeOf(asked: int, u: Url): int {
    if u.disclosed > 0 then u.disclosed else asked
  }

  /** The total that the attempt works with in the end. */
  function Total(asked: int, u: Url): int {
    if SizeOf(asked, u) > 0 then SizeOf(asked, u) else if u.probe.Part? then u.probe.total else 0
  }

  predicate Possible(start: nat, asked: int, u: Url) {
    Scheduled(start, Total(asked, u), u)
  }

  /** run. */
  function Run(start: nat, asked: int, u: Url): Result
    requires Possible(start, asked, u)
  {
    var size := SizeOf(asked, u);
    if size > 0 && start >= size then Result(0, size, true, false)
    else if size <= 0 then Unsized(start, u.(disclosed := 0))
    else Sized(start, size, u)
  }

  /** The positions that the attempt has written. */
  function Written(start: nat, asked: int, u: Url): set<int>
    requires Possible(start, asked, u)
  {
    var r, size := Run(start, asked, u), Total(asked, u);
    if size > 0 && start < size && start + u.chunk < size && InChunks(asked, u) then
      After(Begin(Span(start, size, u.chunk), u.workers), u.schedule).written
    else if SizeOf(asked, u) <= 0 && size == 0 && InChunks(asked, u) then
      Range(start, Sequential(start, start, u.chunk, u.parts).1)
    else Range(start, start + r.written)
  }

  /** The probe of a file of unknown size was answered as a part. */
  predicate InChunks(asked: int, u: Url) {
    SizeOf(asked, u) > 0 || (u.probe.Part? && u.probe.valid && !(u.probe.body == 0 && u.probe.cut))
  }

  // ---------------------------------------------------------------------- what it means

  lemma ChunksAreWritten(span: Span, workers: nat, schedule: seq<Step>)
    requires span.Valid() && Runs(Begin(span, workers), schedule)
    ensures var s := After(Begin(span, workers), schedule);
            && Covers(s.written, span.start, span.start + Chunks(s).written)
            && (Chunks(s).done ==> span.start + Chunks(s).written >= span.size)
            && Chunks(s).size == span.size
  {
    ReportedPrefixIsWritten(span, workers, schedule);
    RunKeeps(Begin(span, workers), schedule);
  }

  lemma SizedIsWhole(start: nat, size: int, u: Url)
    requires start < size && Scheduled(start, size, u)
    ensures var r := Sized(start, size, u); r.done ==> start + r.written >= size && r.size == size
    ensures Sized(start, size, u).size == size || Sized(start, size, u) == FAILED
  {
    hide Runs, After;
    if start + u.chunk < size {
      ChunksAreWritten(Span(start, size, u.chunk), u.workers, u.schedule);
    }
  }

  /** What an attempt reports: every byte it counts was written, without a gap from where it started; and one
      that is done with a known size has reached that size, which is the disclosed one if there is one. */
  lemma DoneIsWhole(start: nat, asked: int, u: Url)
    requires Possible(start, asked, u)
    ensures var r := Run(start, asked, u);
            && Covers(Written(start, asked, u), start, start + r.written)
            && (r.done && r.size > 0 ==> start + r.written >= r.size)
            && (SizeOf(asked, u) > 0 && r.done ==> r.size == SizeOf(asked, u))
            && (r.size > 0 ==> r.size == Total(asked, u))
  {
    hide Runs, After;
    var size := Total(asked, u);
    SequentialCount(start, start, u.chunk, u.parts);
    if size > 0 && start < size {
      SizedIsWhole(start, size, u);
      SizedIsWhole(start, size, u.(disclosed := 0));
      if start + u.chunk < size {
        ChunksAreWritten(Span(start, size, u.chunk), u.workers, u.schedule);
      }
    }
  }

  /** A provider that honours the ranges and does not break off gets the attempt done. */
  lemma HonouredIsDone(start: nat, asked: int, u: Url)
    requires Possible(start, asked, u) && 0 < SizeOf(asked, u)
    requires start < SizeOf(asked, u) && start + u.chunk >= SizeOf(asked, u) ==>
               u.reply.Part? && u.reply.valid && u.reply.body >= SizeOf(asked, u) - start
    requires start < SizeOf(asked, u) && start + u.chunk < SizeOf(asked, u) ==>
               var s := After(Begin(Span(start, SizeOf(asked, u), u.chunk), u.workers),
                   u.schedule); !s.shared.failed && !s.shared.whole
    ensures Run(start, asked, u).done
  {
    hide Runs, After;
    var size := SizeOf(asked, u);
    if start < size && start + u.chunk < size {
      NoFailureIsDone(Span(start, size, u.chunk), u.workers, u.schedule);
      RunKeeps(Begin(Span(start, size, u.chunk), u.workers), u.schedule);
    }
  }

  /** The first answer that is not a full valid part is the whole file. */
  predicate DecidedWhole(chunk: nat, parts: seq<Reply>) {
    parts != [] &&
    (parts[0].Whole? || (parts[0].Part? && parts[0].valid && parts[0].body >= chunk && DecidedWhole(chunk, parts[1..])))
  }

  /** The sequential ranges count the bytes they got to exactly if there are none or the whole file was sent
      in the end; otherwise they count none, however far the copy got. */
  lemma {:induction false} SequentialCount(start: nat, offset: nat, chunk: nat, parts: seq<Reply>)
    requires start <= offset && chunk > 0
    ensures var (r, reached) := Sequential(start, offset, chunk, parts);
            && reached >= start && r.size == 0
            && (r.written == reached - start <==> reached == start || DecidedWhole(chunk, parts))
            && (!DecidedWhole(chunk, parts) ==> r.written == 0 && reached >= offset)
    decreases |parts|
  {
    if parts != [] && parts[0].Part? {
      var (copied, failed) := Copy(parts[0].body, parts[0].cut, chunk);
      if parts[0].valid && !failed && copied >= chunk {
        SequentialCount(start, offset + copied, chunk, parts[1..]);
      }
    }
  }

  /** A file shorter than a chunk is copied, and none of it counted. */
  lemma ShortFileIsNotCounted(start: nat, chunk: nat, body: nat)
    requires 0 < body < chunk
    ensures Sequential(start, start, chunk, [Part(true, 0, body, false)]) == (Result(0, 0, true, false), start + body)
  {
  }

  /** runSequentialRanges as the loop that it is. */
  method RunSequentialRanges(start: nat, chunk: nat, parts: seq<Reply>) returns (r: Result, reached: int)
    requires chunk > 0
    ensures (r, reached) == Sequential(start, start, chunk, parts)
  {
    var offset := start;
    for k := 0 to |parts|
      invariant offset >= 0 && Sequential(start, start, chunk, parts) == Sequential(start, offset, chunk, parts[k..])
    {
      assert parts[k..][0] == parts[k] && parts[k..][1..] == parts[k + 1..];
      match parts[k] {
        case Broken =>
          return FAILED, offset;
        case Rejected(end) =>
          return if AtEnd(offset, 0, end) then Result(0, 0, true, false) else FAILED, offset;
        case Whole(body, cut) =>
          var copied, failed := CopyBody(body, cut, start, 0).0, CopyBody(body, cut, start, 0).1;
          return Result(copied, 0, !failed, failed), start + copied;
        case Part(valid, _, body, cut) =>
          var copied, failed := Copy(body, cut, chunk).0, Copy(body, cut, chunk).1;
          if !valid || failed {
            return FAILED, offset;
          }
          offset := offset + copied;
          if copied < chunk {
            return Result(0, 0, true, false), offset;
          }
      }
    }
    return FAILED, offset;
  }
}
