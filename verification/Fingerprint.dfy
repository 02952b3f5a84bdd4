/** The identity by which active offline requests are de-duplicated. */
module Fingerprint {
  import opened Text
  import Paths

  const NUL := '\0'
  const MARK := "\U{1}"

  datatype Selection = Selection(mode: string, largest: int, included: seq<string>, excluded: seq<string>)

  datatype Request = Request(mount: string, dir: string, kind: string, identity: string, selection: Selection)

  // -------------------------------------------------------------- sorting strings

  /** Byte order of the strings, which is the order of their code points. */
  predicate Leq(a: string, b: string) {
    a == "" || (b != "" && (a[0] < b[0] || (a[0] == b[0] && Leq(a[1..], b[1..]))))
  }

  lemma {:induction false} LeqTotal(a: string, b: string)
    ensures Leq(a, b) || Leq(b, a)
  {
    if a != "" && b != "" && a[0] == b[0] {
      LeqTotal(a[1..], b[1..]);
    }
  }

  lemma {:induction false} LeqAntisymmetric(a: string, b: string)
    requires Leq(a, b) && Leq(b, a)
    ensures a == b
  {
    if a != "" && b != "" {
      LeqAntisymmetric(a[1..], b[1..]);
      assert a == [a[0]] + a[1..] && b == [b[0]] + b[1..];
    }
  }

  lemma {:induction false} LeqTransitive(a: string, b: string, c: string)
    requires Leq(a, b) && Leq(b, c)
    ensures Leq(a, c)
  {
    if a != "" && a[0] == b[0] == c[0] {
      LeqTransitive(a[1..], b[1..], c[1..]);
    }
  }

  predicate Sorted(xs: seq<string>) {
    forall i, j | 0 <= i < j < |xs| :: Leq(xs[i], xs[j])
  }

  function Insert(x: string, xs: seq<string>): seq<string> {
    if xs == [] || Leq(x, xs[0]) then [x] + xs else [xs[0]] + Insert(x, xs[1..])
  }

  function Sort(xs: seq<string>): seq<string> {
    if xs == [] then [] else Insert(xs[0], Sort(xs[1..]))
  }

  lemma {:induction false} InsertSorts(x: string, xs: seq<string>)
    requires Sorted(xs)
    ensures Sorted(Insert(x, xs)) && multiset(Insert(x, xs)) == multiset(xs) + multiset{x}
  {
    if xs == [] {
    } else if Leq(x, xs[0]) {
      forall j | 0 <= j < |xs| ensures Leq(x, xs[j]) {
        if j > 0 {
          LeqTransitive(x, xs[0], xs[j]);
        }
      }
    } else {
      LeqTotal(x, xs[0]);
      InsertSorts(x, xs[1..]);
      var rest := Insert(x, xs[1..]);
      assert xs == [xs[0]] + xs[1..];
      forall j | 0 <= j < |rest| ensures Leq(xs[0], rest[j]) {
        assert rest[j] in multiset(rest);
        assert rest[j] == x || rest[j] in xs[1..];
      }
    }
  }

  lemma {:induction false} SortSorts(xs: seq<string>)
    ensures Sorted(Sort(xs)) && multiset(Sort(xs)) == multiset(xs)
  {
    if xs != [] {
      SortSorts(xs[1..]);
      InsertSorts(xs[0], Sort(xs[1..]));
      assert xs == [xs[0]] + xs[1..];
    }
  }

  lemma {:induction false} SortedIsUnique(xs: seq<string>, ys: seq<string>)
    requires Sorted(xs) && Sorted(ys) && multiset(xs) == multiset(ys)
    ensures xs == ys
  {
    assert |multiset(xs)| == |multiset(ys)|;
    if xs != [] {
      FirstIsLeast(xs, ys);
      FirstIsLeast(ys, xs);
      LeqAntisymmetric(xs[0], ys[0]);
      WithoutFirst(xs);
      WithoutFirst(ys);
      SortedIsUnique(xs[1..], ys[1..]);
    }
  }

  lemma WithoutFirst(xs: seq<string>)
    requires xs != []
    ensures xs == [xs[0]] + xs[1..] && multiset(xs[1..]) == multiset(xs) - multiset{xs[0]}
    ensures Sorted(xs) ==> Sorted(xs[1..])
  {
    hide Leq;
    assert xs == [xs[0]] + xs[1..];
  }

  lemma FirstIsLeast(xs: seq<string>, ys: seq<string>)
    requires Sorted(xs) && xs != [] && ys != [] && multiset(xs) == multiset(ys)
    ensures Leq(xs[0], ys[0])
  {
    assert ys[0] in multiset(ys);
    assert ys[0] in xs;
    var i :| 0 <= i < |xs| && xs[i] == ys[0];
    if i == 0 {
      LeqTotal(xs[0], xs[0]);
    }
  }

  /** Sorting forgets the order and nothing else. */
  lemma SortIsMultiset(xs: seq<string>, ys: seq<string>)
    ensures Sort(xs) == Sort(ys) <==> multiset(xs) == multiset(ys)
  {
    SortSorts(xs);
    SortSorts(ys);
    if multiset(xs) == multiset(ys) {
      SortedIsUnique(Sort(xs), Sort(ys));
    }
  }

  // ------------------------------------------------------------------ fingerprints

  function ModeOf(s: Selection): string {
    if s.mode == "" then "all" else s.mode
  }

  function DirOf(r: Request): string {
    if Paths.Blank(r.dir) then r.dir else Paths.CleanVirtualPath(r.dir)
  }

  function SelectionFingerprint(s: Selection): string {
    Join([ModeOf(s), Decimal(s.largest)] + Sort(s.included) + [MARK] + Sort(s.excluded), NUL)
  }

  function OfflineFingerprint(r: Request): string {
    Join([r.mount, DirOf(r), r.kind, r.identity, SelectionFingerprint(r.selection)], NUL)
  }

  /** Two requests for the same thing. */
  ghost predicate SameRequest(a: Request, b: Request) {
    && a.mount == b.mount
    && DirOf(a) == DirOf(b)
    && a.kind == b.kind
    && a.identity == b.identity
    && ModeOf(a.selection) == ModeOf(b.selection)
    && a.selection.largest == b.selection.largest
    && multiset(a.selection.included) == multiset(b.selection.included)
    && multiset(a.selection.excluded) == multiset(b.selection.excluded)
  }

  ghost predicate NulFree(r: Request) {
    && NUL !in r.mount && NUL !in r.dir && NUL !in r.kind && NUL !in r.identity && NUL !in r.selection.mode
    && (forall x | x in r.selection.included :: NUL !in x)
    && (forall x | x in r.selection.excluded :: NUL !in x)
  }

  function Head(r: Request): seq<string> {
    [r.mount, DirOf(r), r.kind, r.identity, ModeOf(r.selection), Decimal(r.selection.largest)]
  }

  function Globs(s: Selection): seq<string> {
    Sort(s.included) + [MARK] + Sort(s.excluded)
  }

  /** The nested join is one join over all the parts. */
  lemma FingerprintIsOneJoin(r: Request)
    ensures OfflineFingerprint(r) == Join(Head(r) + Globs(r.selection), NUL)
  {
    hide Join, Sort, Decimal, ModeOf, DirOf;
    var s := r.selection;
    var front := [r.mount, DirOf(r), r.kind, r.identity];
    var back := [ModeOf(s), Decimal(s.largest)] + Sort(s.included) + [MARK] + Sort(s.excluded);
    JoinAppend(front, back, NUL);
    JoinAppend(front, [SelectionFingerprint(s)], NUL);
    JoinSingle(SelectionFingerprint(s));
    assert front + [SelectionFingerprint(s)] == [r.mount, DirOf(r), r.kind, r.identity, SelectionFingerprint(s)];
    assert front + back == Head(r) + Globs(s);
  }

  lemma JoinSingle(s: string)
    ensures Join([s], NUL) == s
  {
  }

  lemma PartsAreNulFree(r: Request)
    requires NulFree(r)
    ensures forall i | 0 <= i < |Head(r) + Globs(r.selection)| :: NUL !in (Head(r) + Globs(r.selection))[i]
  {
    hide Sort, Paths.CleanVirtualPath, Paths.Blank;
    var s := r.selection;
    if NUL in Paths.CleanVirtualPath(r.dir) {
      Paths.CleanVirtualCharacters(r.dir, NUL);
    }
    SortedPartsNulFree(s.included);
    SortedPartsNulFree(s.excluded);
    assert NUL !in Decimal(s.largest);
  }

  lemma SortedPartsNulFree(xs: seq<string>)
    requires forall x | x in xs :: NUL !in x
    ensures forall i | 0 <= i < |Sort(xs)| :: NUL !in Sort(xs)[i]
  {
    SortSorts(xs);
    forall i | 0 <= i < |Sort(xs)| ensures NUL !in Sort(xs)[i] {
      assert Sort(xs)[i] in multiset(Sort(xs));
    }
  }

  /** For any NUL-free requests, equal fingerprints are equal parts, one by one. */
  lemma EqualFingerprints(a: Request, b: Request)
    requires NulFree(a) && NulFree(b)
    ensures OfflineFingerprint(a) == OfflineFingerprint(b) <==>
        Head(a) == Head(b) && Globs(a.selection) == Globs(b.selection)
  {
    hide Sort, Join, Split, OfflineFingerprint, DirOf, ModeOf, Decimal;
    FingerprintIsOneJoin(a);
    FingerprintIsOneJoin(b);
    PartsAreNulFree(a);
    PartsAreNulFree(b);
    SplitOfJoin(Head(a) + Globs(a.selection), NUL);
    SplitOfJoin(Head(b) + Globs(b.selection), NUL);
    if OfflineFingerprint(a) == OfflineFingerprint(b) {
      var x, y := Head(a) + Globs(a.selection), Head(b) + Globs(b.selection);
      assert x == y;
      assert x[..6] == Head(a) && y[..6] == Head(b);
      assert x[6..] == Globs(a.selection) && y[6..] == Globs(b.selection);
    }
  }

  function FirstMark(xs: seq<string>): nat {
    if xs == [] || xs[0] == MARK then 0 else 1 + FirstMark(xs[1..])
  }

  lemma {:induction false} FirstMarkIs(a: seq<string>, b: seq<string>)
    requires MARK !in a
    ensures FirstMark(a + [MARK] + b) == |a|
  {
    if a != [] {
      assert (a + [MARK] + b)[1..] == a[1..] + [MARK] + b;
      FirstMarkIs(a[1..], b);
    }
  }

  /** The first mark separates what is included from what is excluded. */
  lemma MarkSeparates(a: seq<string>, b: seq<string>, c: seq<string>, d: seq<string>)
    requires MARK !in a && MARK !in c && a + [MARK] + b == c + [MARK] + d
    ensures a == c && b == d
  {
    FirstMarkIs(a, b);
    FirstMarkIs(c, d);
    var x, y := a + [MARK] + b, c + [MARK] + d;
    assert a == x[..|a|] && c == y[..|c|];
    assert b == x[|a| + 1..] && d == y[|c| + 1..];
  }

  // --------------------------------------------------------- when it is an identity

  /** The mark can be taken for one of the globs: it is among them, and nothing that sorts after it is included and
      nothing that sorts before it excluded. */
  predicate Blurred(s: Selection) {
    && (MARK in s.included || MARK in s.excluded)
    && (forall x | x in s.included :: x == "" || x == MARK)
    && "" !in s.excluded
  }

  ghost predicate NulFreeGlobs(xs: seq<string>) {
    forall x | x in xs :: NUL !in x
  }

  /** The mark is the least string but for the empty one. */
  lemma MarkIsLeast(x: string)
    requires NUL !in x
    ensures Leq(x, MARK) <==> x == "" || x == MARK
    ensures Leq(MARK, x) <==> x != ""
  {
    if x != "" {
      assert x == [x[0]] + x[1..];
      assert x[0] in x && x[0] != NUL;
      assert MARK[1..] == "";
    }
  }

  lemma SortHas(xs: seq<string>, x: string)
    ensures x in Sort(xs) <==> x in xs
  {
    SortSorts(xs);
    assert x in multiset(Sort(xs)) <==> x in multiset(xs);
  }

  lemma SortedStays(xs: seq<string>)
    requires Sorted(xs)
    ensures Sort(xs) == xs
  {
    SortSorts(xs);
    SortedIsUnique(Sort(xs), xs);
  }

  /** Two ways to read one list, of which the first has fewer globs before the mark. */
  lemma ReadTwice(a: seq<string>, b: seq<string>, c: seq<string>, d: seq<string>) returns (m: seq<string>)
    requires a + [MARK] + b == c + [MARK] + d && |a| < |c|
    ensures c == a + [MARK] + m && b == m + [MARK] + d
  {
    var all := a + [MARK] + b;
    m := c[|a| + 1..];
    assert c == all[..|c|] && a == all[..|a|] && all[|a|] == MARK;
    assert b == all[|a| + 1..] && d == all[|c| + 1..] && all[|c|] == MARK;
  }

  /** What is between two marks of a list that is sorted up to the second and from the first on, and around them. */
  lemma AroundMarks(a: seq<string>, m: seq<string>, d: seq<string>)
    requires Sorted(a + [MARK] + m) && Sorted(m + [MARK] + d)
    requires NulFreeGlobs(a) && NulFreeGlobs(m) && NulFreeGlobs(d)
    ensures forall x | x in a + [MARK] + m :: x == "" || x == MARK
    ensures "" !in m + [MARK] + d
  {
    hide Leq;
    var l, r := a + [MARK] + m, m + [MARK] + d;
    assert l[|a|] == MARK == r[|m|];
    forall k | 0 <= k < |a| ensures a[k] == "" || a[k] == MARK {
      assert Leq(l[k], l[|a|]) && a[k] in a;
      MarkIsLeast(a[k]);
    }
    forall k | 0 <= k < |m| ensures m[k] == MARK {
      assert Leq(l[|a|], l[|a| + 1 + k]) && Leq(r[k], r[|m|]) && m[k] in m;
      MarkIsLeast(m[k]);
    }
    forall k | 0 <= k < |d| ensures d[k] != "" {
      assert Leq(r[|m|], r[|m| + 1 + k]) && d[k] in d;
      MarkIsLeast(d[k]);
    }
  }

  lemma FewerIncluded(a: seq<string>, b: seq<string>, c: seq<string>, d: seq<string>)
    requires a + [MARK] + b == c + [MARK] + d && |a| < |c|
    requires Sorted(b) && Sorted(c) && NulFreeGlobs(b) && NulFreeGlobs(c)
    ensures MARK in b && (forall x | x in a :: x == "" || x == MARK) && "" !in b
    ensures MARK in c && (forall x | x in c :: x == "" || x == MARK) && "" !in d
  {
    hide Leq, Sorted;
    var m := ReadTwice(a, b, c, d);
    AroundMarks(a, m, d);
    forall x | x in a ensures x == "" || x == MARK {
      assert x in a + [MARK] + m;
    }
  }

  lemma SameSplit(a: seq<string>, b: seq<string>, c: seq<string>, d: seq<string>)
    requires a + [MARK] + b == c + [MARK] + d && |a| == |c|
    ensures a == c && b == d
  {
    var all := a + [MARK] + b;
    assert a == all[..|a|] && c == all[..|c|] && b == all[|a| + 1..] && d == all[|c| + 1..];
  }

  /** Requests of one fingerprint that differ are both blurred. */
  lemma CollidersAreBlurred(a: Request, b: Request)
    requires NulFree(a) && NulFree(b) && OfflineFingerprint(a) == OfflineFingerprint(b) && !SameRequest(a, b)
    ensures Blurred(a.selection) && Blurred(b.selection)
  {
    hide Sort, Sorted, OfflineFingerprint, DirOf, ModeOf, Decimal, Leq;
    EqualFingerprints(a, b);
    SameHead(a, b);
    var s, t := a.selection, b.selection;
    var i, e, j, f := Sort(s.included), Sort(s.excluded), Sort(t.included), Sort(t.excluded);
    SortSorts(s.included);
    SortSorts(s.excluded);
    SortSorts(t.included);
    SortSorts(t.excluded);
    SortedGlobs(s.included);
    SortedGlobs(s.excluded);
    SortedGlobs(t.included);
    SortedGlobs(t.excluded);
    if |i| == |j| {
      SameSplit(i, e, j, f);
      assert false;
    } else if |i| < |j| {
      FewerIncluded(i, e, j, f);
    } else {
      FewerIncluded(j, f, i, e);
    }
    AsGiven(s);
    AsGiven(t);
  }

  lemma SameHead(a: Request, b: Request)
    requires Head(a) == Head(b)
    ensures SameRequest(a, b) <==>
            && multiset(a.selection.included) == multiset(b.selection.included)
            && multiset(a.selection.excluded) == multiset(b.selection.excluded)
  {
    hide DirOf, ModeOf, Decimal;
    assert Head(a)[0] == Head(b)[0] && Head(a)[1] == Head(b)[1] && Head(a)[2] == Head(b)[2];
    assert Head(a)[3] == Head(b)[3] && Head(a)[4] == Head(b)[4] && Head(a)[5] == Head(b)[5];
    DecimalInjective(a.selection.largest, b.selection.largest);
  }

  lemma SortedGlobs(xs: seq<string>)
    requires NulFreeGlobs(xs)
    ensures NulFreeGlobs(Sort(xs))
  {
    forall x | x in Sort(xs) ensures NUL !in x {
      SortHas(xs, x);
    }
  }

  /** Being blurred does not depend on the order of the globs. */
  lemma AsGiven(s: Selection)
    ensures Blurred(s) <==> Blurred(s.(included := Sort(s.included), excluded := Sort(s.excluded)))
  {
    hide Sort;
    forall x ensures (x in Sort(s.included) <==> x in s.included) && (x in Sort(s.excluded) <==> x in s.excluded) {
      SortHas(s.included, x);
      SortHas(s.excluded, x);
    }
  }

  /** A request for something else that has the same fingerprint. */
  ghost predicate Collides(a: Request, b: Request) {
    NulFree(b) && OfflineFingerprint(a) == OfflineFingerprint(b) && !SameRequest(a, b)
  }

  /** The mark that separates the globs changes places with one of them. */
  function Shifted(a: Request): Request {
    var s := a.selection;
    var i, e := Sort(s.included), Sort(s.excluded);
    a.(selection := if e != [] && MARK in e then s.(included := i + [MARK], excluded := e[1..])
                    else if i != [] then s.(included := i[..|i| - 1], excluded := [MARK] + e) else s)
  }

  /** The globs of a blurred selection, sorted: the mark stands first among the excluded, or last among the included. */
  lemma BlurredEnds(i: seq<string>, e: seq<string>)
    requires Sorted(i) && Sorted(e) && NulFreeGlobs(i) && NulFreeGlobs(e)
    requires (forall x | x in i :: x == "" || x == MARK) && "" !in e
    ensures Sorted(i + [MARK]) && Sorted([MARK] + e)
    ensures MARK in e ==> e[0] == MARK
    ensures MARK in i ==> i[|i| - 1] == MARK
  {
    hide Leq;
    forall x | x in i + e ensures x in i ==> Leq(x, MARK) {
      MarkIsLeast(x);
    }
    forall k | 0 <= k < |e| ensures Leq(MARK, e[k]) {
      assert e[k] in e;
      MarkIsLeast(e[k]);
    }
    if MARK in e {
      var k :| 0 <= k < |e| && e[k] == MARK;
      if k > 0 {
        assert Leq(e[0], MARK);
        assert e[0] in e;
        LeqAntisymmetric(e[0], MARK);
      }
    }
    if MARK in i {
      var n, k :| n == |i| - 1 && 0 <= k < |i| && i[k] == MARK;
      if k < n {
        assert Leq(MARK, i[n]);
        assert i[n] in i;
        LeqAntisymmetric(MARK, i[n]);
      }
    }
  }

  /** The mark at the head of the excluded globs moves to the end of the included ones, or the other way round. */
  lemma MarkMoves(i: seq<string>, e: seq<string>)
    requires Sorted(i) && Sorted(e) && NulFreeGlobs(i) && NulFreeGlobs(e) && (MARK in i || MARK in e)
    requires (forall x | x in i :: x == "" || x == MARK) && "" !in e
    ensures MARK in e ==> Sorted(i + [MARK]) && Sorted(e[1..]) && i + [MARK] + e == i + [MARK] + [MARK] + e[1..]
    ensures MARK in i ==>
              && Sorted(i[..|i| - 1]) && Sorted([MARK] + e)
              && i + [MARK] + e == i[..|i| - 1] + [MARK] + ([MARK] + e)
  {
    hide Leq, Sorted;
    BlurredEnds(i, e);
    if MARK in e {
      WithoutFirst(e);
    }
    if MARK in i {
      LastGone(i);
    }
  }

  lemma ShiftedSelection(a: Request)
    requires NulFree(a) && Blurred(a.selection)
    ensures Globs(Shifted(a).selection) == Globs(a.selection) && NulFree(Shifted(a))
    ensures |Shifted(a).selection.included| != |a.selection.included|
  {
    hide Sort, Sorted, Leq;
    var s, t := a.selection, Shifted(a).selection;
    var i, e := Sort(s.included), Sort(s.excluded);
    AsGiven(s);
    SortSorts(s.included);
    SortSorts(s.excluded);
    SortedGlobs(s.included);
    SortedGlobs(s.excluded);
    MarkMoves(i, e);
    assert NUL !in MARK;
    SortedStays(t.included);
    SortedStays(t.excluded);
    SameSize(i, s.included);
  }

  lemma SameSize(xs: seq<string>, ys: seq<string>)
    requires multiset(xs) == multiset(ys)
    ensures |xs| == |ys|
  {
    assert |multiset(xs)| == |xs| && |multiset(ys)| == |ys|;
  }

  /** If its globs are blurred, another request has the fingerprint too. */
  lemma BlurredCollides(a: Request)
    requires NulFree(a) && Blurred(a.selection)
    ensures Collides(a, Shifted(a))
  {
    hide Sort, OfflineFingerprint, DirOf, ModeOf, Decimal, Blurred, NulFree;
    var b := Shifted(a);
    ShiftedSelection(a);
    EqualFingerprints(a, b);
    SelectionKeepsHead(a, b.selection);
    SameHead(a, b);
    if multiset(a.selection.included) == multiset(b.selection.included) {
      SameSize(a.selection.included, b.selection.included);
    }
  }

  lemma SelectionKeepsHead(a: Request, t: Selection)
    requires t.mode == a.selection.mode && t.largest == a.selection.largest
    ensures Head(a.(selection := t)) == Head(a)
  {
  }

  lemma LastGone(xs: seq<string>)
    requires Sorted(xs) && xs != []
    ensures Sorted(xs[..|xs| - 1]) && xs == xs[..|xs| - 1] + [xs[|xs| - 1]]
  {
    hide Leq;
  }

  /** The fingerprint identifies a request exactly if its globs are not blurred: otherwise another one has it too. */
  lemma IdentityExactly(a: Request)
    requires NulFree(a)
    ensures (exists b :: Collides(a, b)) <==> Blurred(a.selection)
  {
    hide NulFree, OfflineFingerprint, SameRequest, Shifted;
    if b :| Collides(a, b) {
      CollidersAreBlurred(a, b);
    }
    if Blurred(a.selection) {
      BlurredCollides(a);
    }
  }

  /** Equal fingerprints mean the same request and the same request means equal fingerprints. */
  lemma FingerprintIsIdentity(a: Request, b: Request)
    requires NulFree(a) && NulFree(b)
    requires Blurred(a.selection) ==> MARK !in a.selection.included && MARK !in b.selection.included
    ensures OfflineFingerprint(a) == OfflineFingerprint(b) <==> SameRequest(a, b)
  {
    hide Sort, OfflineFingerprint, DirOf, ModeOf, Decimal, NulFree, Blurred;
    EqualFingerprints(a, b);
    var s, t := a.selection, b.selection;
    SortIsMultiset(s.included, t.included);
    SortIsMultiset(s.excluded, t.excluded);
    if OfflineFingerprint(a) == OfflineFingerprint(b) && !SameRequest(a, b) {
      CollidersAreBlurred(a, b);
      NoMarkAfterSort(s.included);
      NoMarkAfterSort(t.included);
      MarkSeparates(Sort(s.included), Sort(s.excluded), Sort(t.included), Sort(t.excluded));
      SameHead(a, b);
    }
  }

  lemma NoMarkAfterSort(xs: seq<string>)
    requires MARK !in xs
    ensures MARK !in Sort(xs)
  {
    SortSorts(xs);
    assert MARK !in multiset(Sort(xs));
  }
}
