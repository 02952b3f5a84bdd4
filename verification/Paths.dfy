/** Where a fetch places its result files: validating provider-reported paths and
resolving every file to a destination below the root. */
module Paths {
  import opened Text
  import opened ResultFiles

  const MAX_DEPTH := 32

  datatype Result<+T> = Ok(value: T) | Invalid

  // ------------------------------------------------------------------ components

  predicate IsSpace(c: char) {
    '\t' <= c <= '\r' || c == ' ' || c == '\U{85}' || c == '\U{A0}' || c == '\U{1680}' || '\U{2000}' <= c <= '\U{200A}'
    || c == '\U{2028}' || c == '\U{2029}' || c == '\U{202F}' || c == '\U{205F}' || c == '\U{3000}'
  }

  predicate Blank(s: string) {
    forall i | 0 <= i < |s| :: IsSpace(s[i])
  }

  function Upper(c: char): char {
    if 'a' <= c <= 'z' then c - 'a' + 'A' else c
  }

  const DEVICES := ["CON", "PRN", "AUX", "NUL"]

  /** A Windows device name, whatever its case and extension. */
  predicate Reserved(part: string) {
    var base := Split(part, '.')[0];
    var name := seq(|base|, i requires 0 <= i < |base| => Upper(base[i]));
    name in DEVICES || (|name| == 4 && name[..3] in ["COM", "LPT"] && '1' <= name[3] <= '9')
  }

  /** The length of a string in UTF-8. */
  function ByteLength(s: string): nat {
    if s == "" then 0
    else
      var c := s[|s| - 1] as int;
      ByteLength(s[..|s| - 1]) + (if c < 0x80 then 1 else if c < 0x800 then 2 else if c < 0x10000 then 3 else 4)
  }

  predicate Forbidden(c: char) {
    c in "<>:\"|?*" || c < ' ' || c == '\U{7F}'
  }

  /** validateOfflineComponent. */
  predicate Valid(part: string) {
    && part != "" && part != "." && part != ".."
    && (forall i | 0 <= i < |part| :: !Forbidden(part[i]))
    && part[|part| - 1] != '.' && part[|part| - 1] != ' '
    && !Reserved(part)
    && ByteLength(part) <= 255
  }

  predicate AllValid(parts: seq<string>) {
    forall i | 0 <= i < |parts| :: Valid(parts[i])
  }

  /** Both separators written as the one. */
  function Slashed(raw: string): string {
    seq(|raw|, i requires 0 <= i < |raw| => if raw[i] == '\\' then '/' else raw[i])
  }

  /** splitStagedPath: splits at both separators and keeps empty components. */
  method SplitStagedPath(raw: string) returns (parts: seq<string>)
    ensures parts == Split(Slashed(raw), '/')
    ensures Join(parts, '/') == Slashed(raw)
    ensures forall i | 0 <= i < |parts| :: '/' !in parts[i] && '\\' !in parts[i]
  {
    hide Split, Prefixed, Join;
    var s := Slashed(raw);
    parts := [];
    var current := "";
    assert s[0..] == s;
    PrefixNothing(Split(s, '/'));
    for i := 0 to |raw|
      invariant Split(s, '/') == parts + Prefixed(current, Split(s[i..], '/'))
    {
      SplitNext(s[i..]);
      assert s[i..][1..] == s[i + 1..];
      var rest := Split(s[i + 1..], '/');
      PassSeparator(parts, current, rest);
      PassCharacter(current, s[i], rest);
      if raw[i] == '/' || raw[i] == '\\' {
        parts := parts + [current];
        current := "";
      } else {
        current := current + [raw[i]];
      }
    }
    assert s[|raw|..] == "";
    SplitEnd(current);
    parts := parts + [current];
    JoinOfSplit(s, '/');
    forall i | 0 <= i < |parts| ensures '\\' !in parts[i] {
      SplitCharacters(s, '/', i);
      assert '\\' !in s;
    }
  }

  /** `parts` with `head` written in front of the first one. */
  function Prefixed(head: string, parts: seq<string>): seq<string>
    requires |parts| > 0
  {
    [head + parts[0]] + parts[1..]
  }

  lemma PrefixNothing(parts: seq<string>)
    requires |parts| > 0
    ensures Prefixed("", parts) == parts
  {
    assert "" + parts[0] == parts[0];
  }

  lemma SplitNext(s: string)
    requires s != ""
    ensures var rest := Split(s[1..], '/');
            Split(s, '/') == if s[0] == '/' then [""] + rest else Prefixed([s[0]], rest)
  {
  }

  lemma SplitEnd(current: string)
    ensures Prefixed(current, Split("", '/')) == [current]
  {
    assert current + "" == current;
  }

  lemma PassSeparator(parts: seq<string>, current: string, rest: seq<string>)
    requires |rest| > 0
    ensures parts + Prefixed(current, [""] + rest) == (parts + [current]) + Prefixed("", rest)
  {
    PrefixNothing(rest);
    assert current + "" == current;
    assert ([""] + rest)[1..] == rest;
  }

  lemma PassCharacter(current: string, c: char, rest: seq<string>)
    requires |rest| > 0
    ensures Prefixed(current, Prefixed([c], rest)) == Prefixed(current + [c], rest)
  {
    assert current + ([c] + rest[0]) == (current + [c]) + rest[0];
    assert Prefixed([c], rest)[1..] == rest[1..];
  }

  /** Splitting adds no characters. */
  lemma {:induction false} SplitCharacters(s: string, sep: char, i: nat)
    requires i < |Split(s, sep)|
    ensures forall c | c in Split(s, sep)[i] :: c in s
  {
    if s != "" {
      var rest := Split(s[1..], sep);
      if s[0] == sep {
        if i > 0 {
          SplitCharacters(s[1..], sep, i - 1);
        }
      } else {
        SplitCharacters(s[1..], sep, i);
      }
    }
  }

  /** sanitizeOfflineRelPath: the components of a staged relative path. */
  function RelPath(raw: string): (r: Result<seq<string>>)
    ensures r.Ok? ==> 1 <= |r.value| <= MAX_DEPTH && AllValid(r.value) && Join(r.value, '/') == Slashed(raw)
    ensures r.Ok? ==> forall i | 0 <= i < |r.value| :: '/' !in r.value[i]
  {
    if Blank(raw) then Invalid
    else if raw[0] == '/' || raw[0] == '\\' then Invalid
    else if |raw| >= 2 && raw[1] == ':' then Invalid
    else
      var parts := Split(Slashed(raw), '/');
      if |parts| > MAX_DEPTH || !AllValid(parts) then Invalid
      else
        JoinOfSplit(Slashed(raw), '/');
        Ok(parts)
  }

  /** sanitizeOfflineComponent: a single name. */
  function Component(raw: string): (r: Result<string>)
    ensures r.Ok? ==> r.value == raw && Valid(raw) && '/' !in raw
  {
    var parts := Split(Slashed(raw), '/');
    if |parts| != 1 || !Valid(parts[0]) then Invalid
    else
      SlashedUnchanged(raw);
      Ok(parts[0])
  }

  lemma SlashedUnchanged(raw: string)
    requires |Split(Slashed(raw), '/')| == 1
    ensures Split(Slashed(raw), '/')[0] == raw && '/' !in raw
  {
    var s := Slashed(raw);
    JoinOfSplit(s, '/');
    assert s == Split(s, '/')[0];
    assert forall i | 0 <= i < |s| :: s[i] in s;
    assert s == raw;
  }

  function ItemName(f: File): string {
    if f.name != "" then f.name
    else if f.remoteId != "" then f.remoteId
    else "file-" + Decimal(f.index + 1)
  }

  /** placementComponents. */
  function Place(flat: bool, f: File): (r: Result<seq<string>>)
    ensures r.Ok? ==> 1 <= |r.value| <= MAX_DEPTH && AllValid(r.value)
    ensures r.Ok? ==> forall i | 0 <= i < |r.value| :: '/' !in r.value[i]
  {
    if !flat && f.path != "" then RelPath(f.path)
    else
      var c := Component(ItemName(f));
      if c.Ok? then Ok([c.value]) else Invalid
  }

  // ------------------------------------------------------------- lexical cleaning

  /** One pass over the components: "" and "." vanish, ".." takes one back. */
  function Resolve(rooted: bool, parts: seq<string>, done: seq<string>): seq<string> {
    if parts == [] then done
    else
      var p := parts[0];
      if p == "" || p == "." then Resolve(rooted, parts[1..], done)
      else if p == ".." then
        if done != [] && done[|done| - 1] != ".." then Resolve(rooted, parts[1..], done[..|done| - 1])
        else if rooted then Resolve(rooted, parts[1..], done)
        else Resolve(rooted, parts[1..], done + [p])
      else Resolve(rooted, parts[1..], done + [p])
  }

  predicate Rooted(p: string) {
    p != "" && p[0] == '/'
  }

  function Render(rooted: bool, parts: seq<string>): string {
    if rooted then "/" + Join(parts, '/') else if parts == [] then "." else Join(parts, '/')
  }

  /** path.Clean, and filepath.Clean with '/' as the separator. */
  function Clean(p: string): string {
    Render(Rooted(p), Resolve(Rooted(p), Split(p, '/'), []))
  }

  function CleanVirtualPath(p: string): string {
    Clean("/" + (if Rooted(p) then p[1..] else p))
  }

  /** The path `parts` below a clean root. */
  function Below(root: string, parts: seq<string>): string {
    if root == "." then Join(parts, '/')
    else if root == "/" then "/" + Join(parts, '/')
    else root + "/" + Join(parts, '/')
  }

  /** filepath.Join of a directory and a relative path. */
  function JoinLocal(root: string, name: string): string {
    if root == "" then Clean(name) else Clean(root + "/" + name)
  }

  function JoinVirtualPath(parent: string, name: string): string {
    if CleanVirtualPath(parent) == "/" then "/" + name else CleanVirtualPath(parent) + "/" + name
  }

  predicate Plain(parts: seq<string>) {
    forall i | 0 <= i < |parts| :: parts[i] != "" && parts[i] != "." && parts[i] != ".." && '/' !in parts[i]
  }

  /** Plain components survive resolution, behind whatever came before them. */
  lemma {:induction false} ResolvePlain(rooted: bool, parts: seq<string>, done: seq<string>)
    requires Plain(parts)
    ensures Resolve(rooted, parts, done) == done + parts
  {
    if parts != [] {
      ResolvePlain(rooted, parts[1..], done + [parts[0]]);
      assert done + [parts[0]] + parts[1..] == done + parts;
    } else {
      assert done + parts == done;
    }
  }

  lemma {:induction false} ResolveAppend(rooted: bool, parts: seq<string>, more: seq<string>, done: seq<string>)
    ensures Resolve(rooted, parts + more, done) == Resolve(rooted, more, Resolve(rooted, parts, done))
  {
    if parts == [] {
      assert parts + more == more;
    } else {
      var p := parts[0];
      assert (parts + more)[1..] == parts[1..] + more;
      if p == "" || p == "." {
        ResolveAppend(rooted, parts[1..], more, done);
      } else if p == ".." && done != [] && done[|done| - 1] != ".." {
        ResolveAppend(rooted, parts[1..], more, done[..|done| - 1]);
      } else if p == ".." && rooted {
        ResolveAppend(rooted, parts[1..], more, done);
      } else {
        ResolveAppend(rooted, parts[1..], more, done + [p]);
      }
    }
  }

  lemma {:induction false} SplitAppend(s: string, t: string, sep: char)
    ensures Split(s + [sep] + t, sep) == Split(s, sep) + Split(t, sep)
  {
    var all := s + [sep] + t;
    if s == "" {
      assert all[1..] == t;
    } else {
      assert all[1..] == s[1..] + [sep] + t;
      SplitAppend(s[1..], t, sep);
    }
  }

  /** What comes out of resolution is plain, but for leading ".." of an unrooted path. */
  lemma {:induction false} ResolvedIsPlain(parts: seq<string>, done: seq<string>)
    requires Plain(done) && forall i | 0 <= i < |parts| :: '/' !in parts[i]
    ensures Plain(Resolve(true, parts, done))
  {
    if parts != [] {
      var p := parts[0];
      if p == "" || p == "." {
        ResolvedIsPlain(parts[1..], done);
      } else if p == ".." {
        ResolvedIsPlain(parts[1..], if done != [] && done[|done| - 1] != ".." then done[..|done| - 1] else done);
      } else {
        ResolvedIsPlain(parts[1..], done + [p]);
      }
    }
  }

  lemma ResolveNothing()
    ensures Resolve(true, ["", ""], []) == []
  {
    assert ["", ""][1..] == [""];
    assert Resolve(true, [""], []) == [];
  }

  lemma RootedPlain(parts: seq<string>)
    requires Plain(parts)
    ensures Clean(Render(true, parts)) == Render(true, parts)
  {
    var p := Render(true, parts);
    if parts == [] {
      assert p == "/" && p[1..] == "";
      assert Split(p, '/') == ["", ""];
      ResolveNothing();
    } else {
      SplitFirst("", Join(parts, '/'), '/');
      assert "" + ['/'] + Join(parts, '/') == p;
      SplitOfJoin(parts, '/');
      assert ([""] + parts)[1..] == parts;
      ResolvePlain(true, parts, []);
      assert [] + parts == parts;
    }
  }

  lemma CleanVirtualIsClean(p: string)
    ensures CleanVirtualPath(CleanVirtualPath(p)) == CleanVirtualPath(p)
    ensures Rooted(CleanVirtualPath(p))
  {
    var q := "/" + (if Rooted(p) then p[1..] else p);
    var parts := Resolve(true, Split(q, '/'), []);
    ResolvedIsPlain(Split(q, '/'), []);
    RootedPlain(parts);
    var r := Render(true, parts);
    assert "/" + r[1..] == r;
  }

  /** A namespace destination lies at the cleaned root followed by the components. */
  lemma VirtualBelow(root: string, parts: seq<string>)
    ensures JoinVirtualPath(CleanVirtualPath(root), Join(parts, '/')) == Below(CleanVirtualPath(root), parts)
  {
    CleanVirtualIsClean(root);
  }

  /** A local destination lies at the cleaned root followed by the components. */
  lemma LocalBelow(root: string, parts: seq<string>)
    requires root != "" && parts != [] && Plain(parts)
    ensures JoinLocal(root, Join(parts, '/')) == Below(Clean(root), parts)
  {
    var name := Join(parts, '/');
    var before := Resolve(Rooted(root), Split(root, '/'), []);
    SplitAppend(root, name, '/');
    SplitOfJoin(parts, '/');
    assert root + ['/'] + name == root + "/" + name;
    ResolveAppend(Rooted(root), Split(root, '/'), parts, []);
    ResolvePlain(Rooted(root), parts, before);
    RenderBelow(Rooted(root), before, parts);
    CleanDot(root);
  }

  lemma RenderBelow(rooted: bool, before: seq<string>, parts: seq<string>)
    requires parts != []
    ensures Render(rooted, before + parts)
         == if before == [] then Below(if rooted then "/" else ".", parts)
             else Render(rooted, before) + "/" + Join(parts, '/')
  {
    if before == [] {
      assert before + parts == parts;
    } else {
      JoinAppend(before, parts, '/');
    }
  }

  predicate NoDot(parts: seq<string>) {
    forall i | 0 <= i < |parts| :: parts[i] != "" && parts[i] != "." && '/' !in parts[i]
  }

  /** A clean path reads "." or "/" only when nothing was left of it. */
  lemma CleanDot(p: string)
    ensures var parts := Resolve(Rooted(p), Split(p, '/'), []);
            parts != [] ==> Clean(p) != "." && Clean(p) != "/"
  {
    var parts := Resolve(Rooted(p), Split(p, '/'), []);
    ResolvedHasNoDot(Rooted(p), Split(p, '/'), []);
    if parts != [] {
      JoinStarts(parts);
    }
  }

  lemma {:induction false} ResolvedHasNoDot(rooted: bool, parts: seq<string>, done: seq<string>)
    requires NoDot(done) && forall i | 0 <= i < |parts| :: '/' !in parts[i]
    ensures NoDot(Resolve(rooted, parts, done))
  {
    if parts != [] {
      var p := parts[0];
      if p == "" || p == "." {
        ResolvedHasNoDot(rooted, parts[1..], done);
      } else if p == ".." && done != [] && done[|done| - 1] != ".." {
        ResolvedHasNoDot(rooted, parts[1..], done[..|done| - 1]);
      } else if p == ".." && rooted {
        ResolvedHasNoDot(rooted, parts[1..], done);
      } else {
        ResolvedHasNoDot(rooted, parts[1..], done + [p]);
      }
    }
  }

  lemma JoinStarts(parts: seq<string>)
    requires parts != [] && parts[0] != "" && parts[0] != "." && '/' !in parts[0]
    ensures Join(parts, '/') != "" && Join(parts, '/') != "." && Join(parts, '/')[0] != '/'
  {
    assert parts[0][0] in parts[0];
    assert parts[0] <= Join(parts, '/');
  }

  /** Different placements are different destinations. */
  lemma BelowIsInjective(root: string, a: seq<string>, b: seq<string>)
    requires a != [] && b != [] && Plain(a) && Plain(b) && Below(root, a) == Below(root, b)
    ensures a == b
  {
    var skip := if root == "." then 0 else if root == "/" then 1 else |root| + 1;
    assert Below(root, a)[skip..] == Join(a, '/');
    assert Below(root, b)[skip..] == Join(b, '/');
    SplitOfJoin(a, '/');
    SplitOfJoin(b, '/');
  }

  lemma CleanPlain(parts: seq<string>)
    requires parts != [] && Plain(parts)
    ensures Clean(Join(parts, '/')) == Join(parts, '/')
  {
    JoinStarts(parts);
    SplitOfJoin(parts, '/');
    ResolvePlain(false, parts, []);
    assert [] + parts == parts;
  }

  // --------------------------------------------------------------------- targets

  /** The caller's destination: a plain local path, or a path of the namespace. */
  datatype Destination = Local(to: string) | Namespace(to: string)

  datatype Target = Target(file: File, target: string, size: int)

  datatype Targets = Targets(targets: seq<Target>, asDirectory: bool)

  function Root(d: Destination): string {
    if d.Local? then Clean(d.to) else CleanVirtualPath(d.to)
  }

  /** The destination string of one placement, as the source joins it. */
  function Locate(d: Destination, components: seq<string>): string {
    if d.Local? then JoinLocal(d.to, Clean(Join(components, '/')))
    else JoinVirtualPath(CleanVirtualPath(d.to), Join(components, '/'))
  }

  lemma LocateIsBelow(d: Destination, components: seq<string>)
    requires components != [] && Plain(components)
    ensures Locate(d, components) == Below(Root(d), components)
  {
    if d.Local? {
      CleanPlain(components);
      if d.to == "" {
        assert Clean("") == "." by { assert [""][1..] == []; }
      } else {
        LocalBelow(d.to, components);
      }
    } else {
      VirtualBelow(d.to, components);
    }
  }

  lemma PlacedIsPlain(flat: bool, f: File)
    requires Place(flat, f).Ok?
    ensures Place(flat, f).value != [] && Plain(Place(flat, f).value)
  {
    hide Reserved, ByteLength;
    var parts := Place(flat, f).value;
    assert forall i | 0 <= i < |parts| :: Valid(parts[i]);
  }

  /** Every file can be placed, and no two at the same place. */
  ghost predicate Placeable(flat: bool, files: seq<File>) {
    && (forall i | 0 <= i < |files| :: Place(flat, files[i]).Ok?)
    && (forall i, j | 0 <= i < j < |files| :: Place(flat, files[i]) != Place(flat, files[j]))
  }

  /** The files one to one and in order, each strictly below the root at its validated components, no
      destination twice. */
  ghost predicate Placed(flat: bool, root: string, files: seq<File>, targets: seq<Target>) {
    && |targets| == |files|
    && (forall i | 0 <= i < |files| ::
          && targets[i].file == files[i] && targets[i].size == files[i].size
          && Place(flat, files[i]).Ok? && targets[i].target == Below(root, Place(flat, files[i]).value))
    && (forall i, j | 0 <= i < j < |targets| :: targets[i].target != targets[j].target)
  }

  function PlaceAt(flat: bool, root: string, f: File): Target {
    var place := Place(flat, f);
    Target(f, if place.Ok? then Below(root, place.value) else "", f.size)
  }

  /** What fetchTargets returns. */
  ghost function TargetsOf(files: seq<File>, flat: bool, d: Destination, isDirectory: bool): Result<Targets> {
    if files == [] then Ok(Targets([], false))
    else if |files| == 1 && !isDirectory then
      var place := Place(flat, files[0]);
      if place.Ok? && |place.value| == 1 then Ok(Targets([Target(files[0], d.to, files[0].size)], false)) else Invalid
    else if Placeable(flat, files) then
      Ok(Targets(seq(|files|, i requires 0 <= i < |files| => PlaceAt(flat, Root(d), files[i])), true))
    else Invalid
  }

  /** fetchTargets.  `isDirectory` is what the destination turned out to be. */
  method FetchTargets(files: seq<File>, flat: bool, d: Destination, isDirectory: bool) returns (r: Result<Targets>)
    ensures files == [] ==> r == Ok(Targets([], false))
    ensures |files| == 1 && !isDirectory ==>
              if Place(flat, files[0]).Ok? && |Place(flat, files[0]).value| == 1
              then r == Ok(Targets([Target(files[0], d.to, files[0].size)], false))
              else r == Invalid
    ensures files != [] && (|files| > 1 || isDirectory) ==>
              && (r.Ok? <==> Placeable(flat, files))
              && (r.Ok? ==> r.value.asDirectory && Placed(flat, Root(d), files, r.value.targets))
    ensures r == TargetsOf(files, flat, d, isDirectory)
  {
    if |files| == 0 {
      return Ok(Targets([], false));
    }
    var asDirectory := |files| > 1 || isDirectory;
    hide Place, Locate, Root, Below;
    if !asDirectory {
      var components := Place(flat, files[0]);
      if components.Invalid? || |components.value| > 1 {
        return Invalid;
      }
      return Ok(Targets([Target(files[0], d.to, files[0].size)], false));
    }
    var targets := PlaceAll(files, flat, d);
    if targets.Invalid? {
      return Invalid;
    }
    PlacedIsThat(flat, Root(d), files, targets.value);
    return Ok(Targets(targets.value, true));
  }

  lemma PlacedIsThat(flat: bool, root: string, files: seq<File>, targets: seq<Target>)
    requires Placed(flat, root, files, targets)
    ensures targets == seq(|files|, i requires 0 <= i < |files| => PlaceAt(flat, root, files[i]))
  {
  }

  /** The files one to one and in order, and no destination twice. */
  ghost predicate Lined(files: seq<File>, targets: seq<Target>) {
    && |targets| == |files|
    && (forall i | 0 <= i < |files| :: targets[i].file == files[i] && targets[i].size == files[i].size)
    && (forall i, j | 0 <= i < j < |targets| :: targets[i].target != targets[j].target)
  }

  lemma TargetsAreLined(files: seq<File>, flat: bool, d: Destination, isDirectory: bool)
    requires TargetsOf(files, flat, d, isDirectory).Ok?
    ensures Lined(files, TargetsOf(files, flat, d, isDirectory).value.targets)
  {
    hide Place, Root, Below;
    if files != [] && !(|files| == 1 && !isDirectory) {
      var targets := TargetsOf(files, flat, d, isDirectory).value.targets;
      forall i, j | 0 <= i < j < |files| ensures targets[i].target != targets[j].target {
        DifferentPlaces(flat, Root(d), files, i, j);
      }
    }
  }

  lemma DifferentPlaces(flat: bool, root: string, files: seq<File>, i: nat, j: nat)
    requires Placeable(flat, files) && i < j < |files|
    ensures PlaceAt(flat, root, files[i]).target != PlaceAt(flat, root, files[j]).target
  {
    PlacedIsPlain(flat, files[i]);
    PlacedIsPlain(flat, files[j]);
    hide Place, Below;
    if PlaceAt(flat, root, files[i]).target == PlaceAt(flat, root, files[j]).target {
      BelowIsInjective(root, Place(flat, files[i]).value, Place(flat, files[j]).value);
    }
  }

  /** The loop of fetchTargets over a directory destination. */
  method PlaceAll(files: seq<File>, flat: bool, d: Destination) returns (r: Result<seq<Target>>)
    ensures r.Ok? <==> Placeable(flat, files)
    ensures r.Ok? ==> Placed(flat, Root(d), files, r.value)
  {
    hide Place, Locate, Root, Below, Placed, Placeable;
    var targets: seq<Target> := [];
    var seen: map<string, nat> := map[];
    PlacedNothing(flat, Root(d));
    for i := 0 to |files|
      invariant |targets| == i && Placed(flat, Root(d), files[..i], targets)
      invariant Seen(seen, targets)
    {
      var file := files[i];
      var components := Place(flat, file);
      if components.Invalid? {
        NotPlaceable(flat, files, i, i);
        return Invalid;
      }
      PlacedIsPlain(flat, file);
      var destination := Locate(d, components.value);
      LocateIsBelow(d, components.value);
      if destination in seen {
        SamePlace(flat, Root(d), files, targets, seen[destination], i);
        NotPlaceable(flat, files, seen[destination], i);
        return Invalid;
      }
      PlacedStep(flat, Root(d), files, targets, destination);
      seen := seen[destination := i];
      targets := targets + [Target(file, destination, file.size)];
    }
    assert files[..|files|] == files;
    AreDistinctPlaces(flat, Root(d), files, targets);
    return Ok(targets);
  }

  ghost predicate Seen(seen: map<string, nat>, targets: seq<Target>) {
    && (forall k | 0 <= k < |targets| :: targets[k].target in seen)
    && (forall x | x in seen :: seen[x] < |targets| && targets[seen[x]].target == x)
  }

  lemma PlacedNothing(flat: bool, root: string)
    ensures Placed(flat, root, [], [])
  {
  }

  lemma NotPlaceable(flat: bool, files: seq<File>, i: nat, j: nat)
    requires i <= j < |files|
    requires if i < j then Place(flat, files[i]) == Place(flat, files[j]) else Place(flat, files[i]).Invalid?
    ensures !Placeable(flat, files)
  {
    hide Place;
  }

  lemma PlacedStep(flat: bool, root: string, files: seq<File>, targets: seq<Target>, destination: string)
    requires |targets| < |files| && Placed(flat, root, files[..|targets|], targets)
    requires Place(flat, files[|targets|]).Ok? && destination == Below(root, Place(flat, files[|targets|]).value)
    requires forall k | 0 <= k < |targets| :: targets[k].target != destination
    ensures Placed(flat, root, files[..|targets| + 1],
        targets + [Target(files[|targets|], destination, files[|targets|].size)])
  {
    hide Place, Below;
    var f := files[|targets|];
    assert files[..|targets| + 1] == files[..|targets|] + [f];
  }

  lemma SamePlace(flat: bool, root: string, files: seq<File>, targets: seq<Target>, i: nat, j: nat)
    requires i < j < |files| && Placed(flat, root, files[..j], targets)
    requires Place(flat, files[j]).Ok? && targets[i].target == Below(root, Place(flat, files[j]).value)
    ensures Place(flat, files[i]) == Place(flat, files[j])
  {
    hide Place, Below;
    PlacedIsPlain(flat, files[i]);
    PlacedIsPlain(flat, files[j]);
    BelowIsInjective(root, Place(flat, files[i]).value, Place(flat, files[j]).value);
  }

  lemma AreDistinctPlaces(flat: bool, root: string, files: seq<File>, targets: seq<Target>)
    requires Placed(flat, root, files, targets)
    ensures Placeable(flat, files)
  {
    hide Place, Below;
    forall i, j | 0 <= i < j < |files| ensures Place(flat, files[i]) != Place(flat, files[j]) {
      assert targets[i].target != targets[j].target;
    }
  }

  /** What "below the root" means for a target: the root is a proper prefix at a component boundary and the
      rest are between one and 32 components, none empty, ".", ".." or holding a separator. */
  lemma TargetsStayBelow(flat: bool, root: string, files: seq<File>, targets: seq<Target>, i: nat)
    requires Placed(flat, root, files, targets) && i < |targets|
    ensures var rest := targets[i].target[if root == "." then 0 else if root == "/" then 1 else |root| + 1..];
            && (root != "." ==> root < targets[i].target)
            && (root != "." && root != "/" ==> targets[i].target[|root|] == '/')
            && 1 <= |Split(rest, '/')| <= MAX_DEPTH
            && AllValid(Split(rest, '/'))
            && forall k | 0 <= k < |Split(rest, '/')| :: '\\' !in Split(rest, '/')[k]
  {
    var parts := Place(flat, files[i]).value;
    PlacedIsPlain(flat, files[i]);
    JoinStarts(parts);
    SplitOfJoin(parts, '/');
    NoBackslash(flat, files[i]);
    var skip := if root == "." then 0 else if root == "/" then 1 else |root| + 1;
    assert targets[i].target[skip..] == Join(parts, '/');
  }

  lemma NoBackslash(flat: bool, f: File)
    requires Place(flat, f).Ok?
    ensures forall k | 0 <= k < |Place(flat, f).value| :: '\\' !in Place(flat, f).value[k]
  {
    hide Valid;
    var raw := if !flat && f.path != "" then f.path else ItemName(f);
    var parts := Split(Slashed(raw), '/');
    forall k | 0 <= k < |parts| ensures '\\' !in parts[k] {
      SplitCharacters(Slashed(raw), '/', k);
      assert '\\' !in Slashed(raw);
    }
    if flat || f.path == "" {
      if |parts| == 1 {
        SlashedUnchanged(raw);
      }
    }
  }

  // ------------------------------------------------- characters of a cleaned path

  lemma {:induction false} ResolveMembers(rooted: bool, parts: seq<string>, done: seq<string>, x: string)
    requires x in Resolve(rooted, parts, done)
    ensures x in parts || x in done
  {
    if parts != [] {
      var p := parts[0];
      assert x in parts[1..] ==> x in parts;
      if p == "" || p == "." {
        ResolveMembers(rooted, parts[1..], done, x);
      } else if p == ".." && done != [] && done[|done| - 1] != ".." {
        ResolveMembers(rooted, parts[1..], done[..|done| - 1], x);
      } else if p == ".." && rooted {
        ResolveMembers(rooted, parts[1..], done, x);
      } else {
        ResolveMembers(rooted, parts[1..], done + [p], x);
      }
    }
  }

  /** Cleaning brings in no character but '/'. */
  lemma CleanVirtualCharacters(p: string, c: char)
    requires c in CleanVirtualPath(p) && c != '/'
    ensures c in p
  {
    var q := "/" + (if Rooted(p) then p[1..] else p);
    var parts := Split(q, '/');
    var resolved := Resolve(true, parts, []);
    JoinCharacters(resolved, '/', c);
    var i :| 0 <= i < |resolved| && c in resolved[i];
    ResolveMembers(true, parts, [], resolved[i]);
    var k :| 0 <= k < |parts| && parts[k] == resolved[i];
    SplitCharacters(q, '/', k);
  }
}
