/** The bencode reader behind `.torrent` sources (BEP 3, section "bencoding").

The functions `ParseAt`, `ParseString`, `ParseItems` and `ParseFields` say what a
byte string parses to; the methods below them are the loops that compute it.
`fmt.Sscanf("%d")` is a parameter, `NumberReader`: a function of the bytes in
front of the delimiter.  Spans and locality hold for every such reader; the round
trip asks that it is exact on canonical decimals, and `Scan` is such a reader. */
module Bencode {
  import opened Wrappers

  type Byte = int
  type Bytes = seq<Byte>

  const INTEGER: Byte := 105  // 'i'
  const LIST: Byte := 108     // 'l'
  const DICT: Byte := 100     // 'd'
  const END: Byte := 101      // 'e'
  const COLON: Byte := 58     // ':'
  const MINUS: Byte := 45     // '-'
  const PLUS: Byte := 43      // '+'
  const SPACE: Byte := 32

  const INT64_LIMIT: int := 0x8000_0000_0000_0000

  /** What the sum of two machine integers, neither negative, comes to. */
  function Wrap(n: nat): int {
    if n < INT64_LIMIT then n else n - 2 * INT64_LIMIT
  }

  predicate IsDigit(b: Byte) {
    48 <= b <= 57
  }

  type NumberReader = Bytes -> Option<int>

  /** A parsed value with the absolute offsets [start, end) it was read from. */
  datatype Value =
    | Str(str: Bytes, start: int, end: int)
    | Num(integer: int, start: int, end: int)
    | List(items: seq<Value>, start: int, end: int)
    | Dict(dict: map<Bytes, Value>, start: int, end: int)

  /** The errors that are returned, and `Panic` for a slice out of bounds. */
  datatype Error =
    | EmptyValue
    | UnterminatedInteger
    | InvalidInteger
    | UnterminatedLength
    | InvalidLength
    | Overrun
    | UnterminatedList
    | UnterminatedDict
    | InvalidPrefix
    | Panic

  datatype Parsed = Ok(value: Value, rest: Bytes) | Err(error: Error)

  datatype ParsedField = FieldOk(key: Bytes, value: Value, rest: Bytes) | FieldErr(error: Error)

  // ---------------------------------------------------------------- parsing

  /** The first position of `b`, or -1. */
  function Index(data: Bytes, b: Byte): (i: int)
    ensures -1 <= i < |data|
    ensures i >= 0 ==> data[i] == b && b !in data[..i]
    ensures i < 0 ==> b !in data
  {
    if data == [] then -1
    else if data[0] == b then 0
    else
      var i := Index(data[1..], b);
      assert forall k | 0 < k < |data| :: data[k] == data[1..][k - 1];
      if i < 0 then -1 else i + 1
  }

  /** `Read(data, base, r)`: on success the value spans exactly the bytes consumed. */
  predicate Read(data: Bytes, base: int, r: Parsed) {
    r.Ok? ==>
      && |r.rest| < |data|
      && r.rest == data[|data| - |r.rest|..]
      && r.value.start == base
      && r.value.end == base + |data| - |r.rest|
  }

  function ParseString(num: NumberReader, data: Bytes, base: int): (r: Parsed)
    ensures Read(data, base, r)
    ensures r.Ok? ==> r.value.Str?
  {
    var colon := Index(data, COLON);
    if colon < 0 then Err(UnterminatedLength)
    else
      match num(data[..colon])
      case None => Err(InvalidLength)
      case Some(length) =>
        if length < 0 || length >= INT64_LIMIT then Err(InvalidLength)
        else
          var end := Wrap(colon + 1 + length);
          if end > |data| then Err(Overrun)
          else if end < colon + 1 then Err(Panic)
          else Ok(Str(data[colon + 1..end], base, base + end), data[end..])
  }

  function ParseInteger(num: NumberReader, data: Bytes, base: int): (r: Parsed)
    ensures Read(data, base, r)
    ensures r.Ok? ==> r.value.Num?
  {
    var end := Index(data, END);
    if end < 1 then Err(UnterminatedInteger)
    else
      match num(data[1..end])
      case None => Err(InvalidInteger)
      case Some(n) => Ok(Num(n, base, base + end + 1), data[end + 1..])
  }

  function ParseAt(num: NumberReader, data: Bytes, base: int): (r: Parsed)
    ensures Read(data, base, r)
    decreases |data|, 0
  {
    if data == [] then Err(EmptyValue)
    else if data[0] == INTEGER then ParseInteger(num, data, base)
    else if data[0] == LIST then ParseItems(num, data[1..], base + 1, [], base)
    else if data[0] == DICT then ParseFields(num, data[1..], base + 1, map[], base)
    else if IsDigit(data[0]) then ParseString(num, data, base)
    else Err(InvalidPrefix)
  }

  /** The rest of a list that started at `start`, with `items` read so far and
      `rest` beginning at the absolute offset `offset`. */
  function ParseItems(num: NumberReader, rest: Bytes, offset: int, items: seq<Value>, start: int): (r: Parsed)
    ensures r.Ok? ==>
              && r.value.List?
              && |r.rest| < |rest|
              && r.rest == rest[|rest| - |r.rest|..]
              && r.value.start == start
              && r.value.end == offset + |rest| - |r.rest|
    decreases |rest|, 1
  {
    if rest == [] then Err(UnterminatedList)
    else if rest[0] == END then Ok(List(items, start, offset + 1), rest[1..])
    else
      match ParseAt(num, rest, offset)
      case Err(e) => Err(e)
      case Ok(item, next) => ParseItems(num, next, offset + (|rest| - |next|), items + [item], start)
  }

  function ParseFields(num: NumberReader, rest: Bytes, offset: int, dict: map<Bytes, Value>, start: int): (r: Parsed)
    ensures r.Ok? ==>
              && r.value.Dict?
              && |r.rest| < |rest|
              && r.rest == rest[|rest| - |r.rest|..]
              && r.value.start == start
              && r.value.end == offset + |rest| - |r.rest|
    decreases |rest|, 2
  {
    hide ParseField;
    if rest == [] then Err(UnterminatedDict)
    else if rest[0] == END then Ok(Dict(dict, start, offset + 1), rest[1..])
    else
      match ParseField(num, rest, offset)
      case FieldErr(e) => Err(e)
      case FieldOk(key, item, next) =>
        ParseFields(num, next, offset + (|rest| - |next|), dict[key := item], start)
  }

  /** One key and its value. */
  function ParseField(num: NumberReader, rest: Bytes, offset: int): (r: ParsedField)
    ensures r.FieldOk? ==>
              && |r.rest| < |rest|
              && r.rest == rest[|rest| - |r.rest|..]
              && offset < r.value.start < r.value.end == offset + |rest| - |r.rest|
    decreases |rest|, 1
  {
    match ParseString(num, rest, offset)
    case Err(e) => FieldErr(e)
    case Ok(key, afterKey) =>
      match ParseAt(num, afterKey, offset + (|rest| - |afterKey|))
      case Err(e) => FieldErr(e)
      case Ok(item, next) => FieldOk(key.str, item, next)
  }

  // One unfolding each.  The proofs below hide the parsers and unfold them here, a step at a time.

  lemma UnfoldAt(num: NumberReader, data: Bytes, base: int)
    requires data != []
    ensures ParseAt(num, data, base) ==
            if data[0] == INTEGER then ParseInteger(num, data, base)
            else if data[0] == LIST then ParseItems(num, data[1..], base + 1, [], base)
            else if data[0] == DICT then ParseFields(num, data[1..], base + 1, map[], base)
            else if IsDigit(data[0]) then ParseString(num, data, base)
            else Err(InvalidPrefix)
  {
    hide ParseInteger, ParseItems, ParseFields, ParseString;
  }

  lemma UnfoldItems(num: NumberReader, rest: Bytes, offset: int, items: seq<Value>, start: int)
    ensures ParseItems(num, rest, offset, items, start) ==
            if rest == [] then Err(UnterminatedList)
            else if rest[0] == END then Ok(List(items, start, offset + 1), rest[1..])
            else
              var p := ParseAt(num, rest, offset);
              if p.Err? then p
              else ParseItems(num, p.rest, offset + (|rest| - |p.rest|), items + [p.value], start)
  {
    hide ParseAt;
  }

  lemma UnfoldFields(num: NumberReader, rest: Bytes, offset: int, dict: map<Bytes, Value>, start: int)
    ensures ParseFields(num, rest, offset, dict, start) ==
            if rest == [] then Err(UnterminatedDict)
            else if rest[0] == END then Ok(Dict(dict, start, offset + 1), rest[1..])
            else
              var p := ParseField(num, rest, offset);
              if p.FieldErr? then Err(p.error)
              else ParseFields(num, p.rest, offset + (|rest| - |p.rest|), dict[p.key := p.value], start)
  {
    hide ParseField;
  }

  lemma UnfoldField(num: NumberReader, rest: Bytes, offset: int)
    ensures ParseField(num, rest, offset) ==
            var key := ParseString(num, rest, offset);
            if key.Err? then FieldErr(key.error)
            else
              var p := ParseAt(num, key.rest, offset + (|rest| - |key.rest|));
              if p.Err? then FieldErr(p.error) else FieldOk(key.value.str, p.value, p.rest)
  {
    hide ParseAt, ParseString;
  }

  // ------------------------------------------------------- the loops themselves

  method IndexByte(data: Bytes, b: Byte) returns (i: int)
    ensures i == Index(data, b)
    ensures i >= 0 ==> i < |data| && data[i] == b && b !in data[..i]
    ensures i < 0 ==> b !in data
  {
    i := 0;
    while i < |data|
      invariant 0 <= i <= |data|
      invariant b !in data[..i]
    {
      if data[i] == b {
        FirstIndexIsUnique(data, b, i);
        return;
      }
      assert data[..i + 1] == data[..i] + [data[i]];
      i := i + 1;
    }
    assert data[..i] == data;
    i := -1;
  }

  lemma FirstIndexIsUnique(data: Bytes, b: Byte, i: nat)
    requires i < |data| && data[i] == b && b !in data[..i]
    ensures Index(data, b) == i
  {
    if i > 0 {
      assert data[0] in data[..i];
      assert data[1..][..i - 1] == data[..i][1..];
      FirstIndexIsUnique(data[1..], b, i - 1);
    }
  }

  method ParseBencodeAt(num: NumberReader, data: Bytes, base: int) returns (r: Parsed)
    ensures r == ParseAt(num, data, base)
    ensures Read(data, base, r)
    decreases |data|, 1
  {
    if |data| == 0 {
      return Err(EmptyValue);
    }
    UnfoldAt(num, data, base);
    hide ParseAt, ParseItems, ParseFields, ParseString;
    if data[0] == INTEGER {
      var end := IndexByte(data, END);
      if end < 0 {
        return Err(UnterminatedInteger);
      }
      match num(data[1..end])
      case None => return Err(InvalidInteger);
      case Some(n) => return Ok(Num(n, base, base + end + 1), data[end + 1..]);
    } else if data[0] == LIST {
      r := ParseBencodeList(num, data, base);
    } else if data[0] == DICT {
      r := ParseBencodeDict(num, data, base);
    } else if IsDigit(data[0]) {
      r := ParseBencodeString(num, data, base);
    } else {
      r := Err(InvalidPrefix);
    }
  }

  method ParseBencodeString(num: NumberReader, data: Bytes, base: int) returns (r: Parsed)
    ensures r == ParseString(num, data, base)
    ensures Read(data, base, r)
    ensures r.Ok? ==> r.value.Str?
  {
    var colon := IndexByte(data, COLON);
    if colon < 0 {
      return Err(UnterminatedLength);
    }
    var parsed := num(data[..colon]);
    if parsed == None || parsed.value < 0 || parsed.value >= INT64_LIMIT {
      return Err(InvalidLength);
    }
    var end := Wrap(colon + 1 + parsed.value);
    if end > |data| {
      return Err(Overrun);
    }
    if end < colon + 1 {
      return Err(Panic);
    }
    return Ok(Str(data[colon + 1..end], base, base + end), data[end..]);
  }

  method ParseBencodeList(num: NumberReader, data: Bytes, base: int) returns (r: Parsed)
    requires |data| > 0 && data[0] == LIST
    ensures r == ParseAt(num, data, base)
    decreases |data|, 0
  {
    hide ParseAt, ParseItems;
    UnfoldAt(num, data, base);
    var rest := data[1..];
    var items: seq<Value> := [];
    while true
      invariant |rest| < |data|
      invariant ParseItems(num, rest, base + (|data| - |rest|), items, base) == ParseAt(num, data, base)
      decreases |rest|
    {
      UnfoldItems(num, rest, base + (|data| - |rest|), items, base);
      if |rest| == 0 {
        return Err(UnterminatedList);
      }
      if rest[0] == END {
        return Ok(List(items, base, base + (|data| - |rest|) + 1), rest[1..]);
      }
      var offset := base + (|data| - |rest|);
      var parsed := ParseBencodeAt(num, rest, offset);
      if parsed.Err? {
        return Err(parsed.error);
      }
      items := items + [parsed.value];
      rest := parsed.rest;
    }
  }

  /** Where the loop over a dictionary stops. */
  lemma FieldsStop(num: NumberReader, rest: Bytes, offset: int, dict: map<Bytes, Value>, start: int)
    ensures var r := ParseFields(num, rest, offset, dict, start);
            if rest == [] then r == Err(UnterminatedDict)
            else if rest[0] == END then r == Ok(Dict(dict, start, offset + 1), rest[1..])
            else
              var key := ParseString(num, rest, offset);
              if key.Err? then r == Err(key.error)
              else
                var p := ParseAt(num, key.rest, offset + (|rest| - |key.rest|));
                p.Err? ==> r == Err(p.error)
  {
    hide ParseAt, ParseFields, ParseField, ParseString;
    UnfoldFields(num, rest, offset, dict, start);
    UnfoldField(num, rest, offset);
  }

  /** Where it goes on. */
  lemma FieldsNext(num: NumberReader, rest: Bytes, offset: int, dict: map<Bytes, Value>, start: int, key: Parsed,
      p: Parsed)
    requires rest != [] && rest[0] != END && key == ParseString(num, rest, offset) && key.Ok?
    requires p == ParseAt(num, key.rest, offset + (|rest| - |key.rest|)) && p.Ok?
    ensures ParseFields(num, rest, offset, dict, start)
         == ParseFields(num, p.rest, offset + (|rest| - |p.rest|), dict[key.value.str := p.value], start)
  {
    hide ParseAt, ParseFields, ParseField, ParseString;
    UnfoldFields(num, rest, offset, dict, start);
    UnfoldField(num, rest, offset);
  }

  method ParseBencodeDict(num: NumberReader, data: Bytes, base: int) returns (r: Parsed)
    requires |data| > 0 && data[0] == DICT
    ensures r == ParseAt(num, data, base)
    decreases |data|, 0
  {
    hide ParseAt, ParseFields, ParseField, ParseString;
    UnfoldAt(num, data, base);
    var rest := data[1..];
    var dict: map<Bytes, Value> := map[];
    while true
      invariant |rest| < |data|
      invariant ParseFields(num, rest, base + (|data| - |rest|), dict, base) == ParseAt(num, data, base)
      decreases |rest|
    {
      FieldsStop(num, rest, base + (|data| - |rest|), dict, base);
      if |rest| == 0 {
        return Err(UnterminatedDict);
      }
      if rest[0] == END {
        return Ok(Dict(dict, base, base + (|data| - |rest|) + 1), rest[1..]);
      }
      var keyOffset := base + (|data| - |rest|);
      var key := ParseBencodeString(num, rest, keyOffset);
      if key.Err? {
        return Err(key.error);
      }
      var valueOffset := keyOffset + (|rest| - |key.rest|);
      var parsed := ParseBencodeAt(num, key.rest, valueOffset);
      if parsed.Err? {
        return Err(parsed.error);
      }
      FieldsNext(num, rest, keyOffset, dict, base, key, parsed);
      dict := dict[key.value.str := parsed.value];
      rest := parsed.rest;
    }
  }

  // --------------------------------------------------------- locality and spans

  lemma Splice(rest: Bytes, j: nat, k: nat, suffix: Bytes)
    requires j <= k <= |rest|
    ensures rest[..k] + suffix == rest[..j] + (rest[j..][..k - j] + suffix)
    ensures k > 0 ==> (rest[..k] + suffix)[0] == rest[0]
    ensures k == 1 ==> (rest[..k] + suffix)[1..] == suffix
  {
  }

  lemma Cut(data: Bytes, k: nat, suffix: Bytes)
    requires 0 < k <= |data|
    ensures (data[..k] + suffix)[0] == data[0] && (data[..k] + suffix)[1..] == data[1..][..k - 1] + suffix
  {
  }

  lemma Drop(data: Bytes, at: nat, n: nat)
    requires at + n <= |data|
    ensures data[at..][n..] == data[at + n..] && data[at..][..n] + [] == data[at..at + n]
  {
  }

  lemma IndexIsLocal(data: Bytes, b: Byte, k: nat, suffix: Bytes)
    requires 0 <= Index(data, b) < k <= |data|
    ensures Index(data[..k] + suffix, b) == Index(data, b)
  {
    var i := Index(data, b);
    var other := data[..k] + suffix;
    assert other[..i] == data[..i];
    FirstIndexIsUnique(other, b, i);
  }

  /** The outcome depends on the consumed bytes only: whatever follows them may be
      replaced and comes back as the rest. */
  lemma {:induction false} ParseIsLocal(num: NumberReader, data: Bytes, base: int, suffix: Bytes)
    requires ParseAt(num, data, base).Ok?
    ensures var r := ParseAt(num, data, base);
            ParseAt(num, data[..|data| - |r.rest|] + suffix, base) == Ok(r.value, suffix)
    decreases |data|, 0
  {
    hide ParseAt, ParseItems, ParseFields, ParseString, ParseInteger;
    var r := ParseAt(num, data, base);
    var k := |data| - |r.rest|;
    var other := data[..k] + suffix;
    Cut(data, k, suffix);
    UnfoldAt(num, data, base);
    UnfoldAt(num, other, base);
    if data[0] == INTEGER {
      IntegerIsLocal(num, data, base, suffix);
    } else if data[0] == LIST {
      ItemsAreLocal(num, data[1..], base + 1, [], base, suffix);
    } else if data[0] == DICT {
      FieldsAreLocal(num, data[1..], base + 1, map[], base, suffix);
    } else {
      StringIsLocal(num, data, base, suffix);
    }
  }

  lemma IntegerIsLocal(num: NumberReader, data: Bytes, base: int, suffix: Bytes)
    requires ParseInteger(num, data, base).Ok?
    ensures var r := ParseInteger(num, data, base);
            ParseInteger(num, data[..|data| - |r.rest|] + suffix, base) == Ok(r.value, suffix)
  {
    var end := Index(data, END);
    var other := data[..end + 1] + suffix;
    IndexIsLocal(data, END, end + 1, suffix);
    assert other[1..end] == data[1..end] && other[end + 1..] == suffix;
  }

  lemma StringIsLocal(num: NumberReader, data: Bytes, base: int, suffix: Bytes)
    requires ParseString(num, data, base).Ok?
    ensures var r := ParseString(num, data, base);
            ParseString(num, data[..|data| - |r.rest|] + suffix, base) == Ok(r.value, suffix)
  {
    var r := ParseString(num, data, base);
    var k := |data| - |r.rest|;
    var other := data[..k] + suffix;
    var colon := Index(data, COLON);
    IndexIsLocal(data, COLON, k, suffix);
    assert other[..colon] == data[..colon];
    assert other[colon + 1..k] == data[colon + 1..k] && other[k..] == suffix;
  }

  lemma {:induction false} ItemsAreLocal(num: NumberReader, rest: Bytes, offset: int, items: seq<Value>, start: int,
      suffix: Bytes)
    requires ParseItems(num, rest, offset, items, start).Ok?
    ensures var r := ParseItems(num, rest, offset, items, start);
            ParseItems(num, rest[..|rest| - |r.rest|] + suffix, offset, items, start) == Ok(r.value, suffix)
    decreases |rest|, 1
  {
    hide ParseAt, ParseItems;
    UnfoldItems(num, rest, offset, items, start);
    var r := ParseItems(num, rest, offset, items, start);
    var k := |rest| - |r.rest|;
    var other := rest[..k] + suffix;
    if rest[0] == END {
      Splice(rest, 0, k, suffix);
    } else {
      var p := ParseAt(num, rest, offset);
      var j := |rest| - |p.rest|;
      var tail := p.rest[..k - j] + suffix;
      ItemsAreLocal(num, p.rest, offset + j, items + [p.value], start, suffix);
      ParseIsLocal(num, rest, offset, tail);
      Splice(rest, j, k, suffix);
      assert other == rest[..j] + tail && |other| - |tail| == j;
    }
    UnfoldItems(num, other, offset, items, start);
  }

  lemma {:induction false} FieldsAreLocal(num: NumberReader, rest: Bytes, offset: int, dict: map<Bytes, Value>,
      start: int, suffix: Bytes)
    requires ParseFields(num, rest, offset, dict, start).Ok?
    ensures var r := ParseFields(num, rest, offset, dict, start);
            ParseFields(num, rest[..|rest| - |r.rest|] + suffix, offset, dict, start) == Ok(r.value, suffix)
    decreases |rest|, 2
  {
    hide ParseField, ParseFields;
    UnfoldFields(num, rest, offset, dict, start);
    var r := ParseFields(num, rest, offset, dict, start);
    var k := |rest| - |r.rest|;
    if rest[0] == END {
      Splice(rest, 0, k, suffix);
      UnfoldFields(num, rest[..k] + suffix, offset, dict, start);
    } else {
      var p := ParseField(num, rest, offset);
      var j := |rest| - |p.rest|;
      Splice(rest, j, k, suffix);
      FieldIsLocal(num, rest, offset, p.rest[..k - j] + suffix);
      FieldsAreLocal(num, p.rest, offset + j, dict[p.key := p.value], start, suffix);
      FieldsSkip(num, rest[..k] + suffix, offset, dict, start, p.key, p.value, p.rest[..k - j] + suffix);
    }
  }

  lemma FieldsSkip(num: NumberReader, data: Bytes, offset: int, dict: map<Bytes, Value>, start: int, key: Bytes,
      value: Value, after: Bytes)
    requires data != [] && data[0] != END
    requires ParseField(num, data, offset) == FieldOk(key, value, after)
    ensures ParseFields(num, data, offset, dict, start)
         == ParseFields(num, after, offset + (|data| - |after|), dict[key := value], start)
  {
    hide ParseField, ParseFields;
    UnfoldFields(num, data, offset, dict, start);
  }

  lemma {:induction false} FieldIsLocal(num: NumberReader, rest: Bytes, offset: int, suffix: Bytes)
    requires ParseField(num, rest, offset).FieldOk?
    ensures var r := ParseField(num, rest, offset);
            ParseField(num, rest[..|rest| - |r.rest|] + suffix, offset) == FieldOk(r.key, r.value, suffix)
    decreases |rest|, 1
  {
    hide ParseAt, ParseField, ParseString;
    UnfoldField(num, rest, offset);
    var key := ParseString(num, rest, offset);
    var j := |rest| - |key.rest|;
    var p := ParseAt(num, key.rest, offset + j);
    var l := |key.rest| - |p.rest|;
    ParseIsLocal(num, key.rest, offset + j, suffix);
    StringIsLocal(num, rest, offset, key.rest[..l] + suffix);
    Splice(rest, j, j + l, suffix);
    UnfoldField(num, rest[..j + l] + suffix, offset);
  }

  /** Every value below `v` reads back alone: its span of `data` (which starts at
      the absolute offset `base`) parses to that very value with nothing left over. */
  ghost predicate ReadsAlone(num: NumberReader, data: Bytes, base: int, v: Value) {
    && base <= v.start < v.end <= base + |data|
    && ParseAt(num, data[v.start - base..v.end - base], v.start) == Ok(v, [])
    && match v
       case Str(_, _, _) => true
       case Num(_, _, _) => true
       case List(items, _, _) => forall i | 0 <= i < |items| :: ReadsAlone(num, data, base, items[i])
       case Dict(dict, _, _) => forall k | k in dict :: ReadsAlone(num, data, base, dict[k])
  }

  /** Children lie strictly inside their parent; list items follow one another without a gap, and the
      values under different keys do not overlap. */
  ghost predicate SpansNest(v: Value) {
    match v
    case Str(_, start, end) => start < end
    case Num(_, start, end) => start < end
    case List(items, start, end) =>
      && InOrder(items, start + 1, end - 1)
      && forall i | 0 <= i < |items| :: SpansNest(items[i])
    case Dict(dict, start, end) =>
      && start < end
      && (forall k | k in dict :: start < dict[k].start && dict[k].end < end)
      && (forall k, l | k in dict && l in dict && k != l ::
          dict[k].end <= dict[l].start || dict[l].end <= dict[k].start)
      && forall k | k in dict :: SpansNest(dict[k])
  }

  /** `items` tile [from, to) from left to right. */
  ghost predicate InOrder(items: seq<Value>, from: int, to: int) {
    if items == [] then from == to
    else
      var last := items[|items| - 1];
      && last.start < last.end == to
      && InOrder(items[..|items| - 1], from, last.start)
  }

  lemma {:induction false} SpansAreNested(num: NumberReader, data: Bytes, base: int)
    requires ParseAt(num, data, base).Ok?
    ensures SpansNest(ParseAt(num, data, base).value)
    decreases |data|, 0
  {
    hide ParseAt, ParseItems, ParseFields;
    UnfoldAt(num, data, base);
    if data[0] == LIST {
      ItemSpans(num, data[1..], base + 1, [], base);
    } else if data[0] == DICT {
      FieldSpans(num, data[1..], base + 1, map[], base);
    }
  }

  lemma {:induction false} ItemSpans(num: NumberReader, rest: Bytes, offset: int, items: seq<Value>, start: int)
    requires ParseItems(num, rest, offset, items, start).Ok?
    requires start < offset && InOrder(items, start + 1, offset)
    requires forall i | 0 <= i < |items| :: SpansNest(items[i])
    ensures SpansNest(ParseItems(num, rest, offset, items, start).value)
    decreases |rest|, 1
  {
    hide ParseAt, ParseItems;
    UnfoldItems(num, rest, offset, items, start);
    if rest[0] != END {
      var p := ParseAt(num, rest, offset);
      SpansAreNested(num, rest, offset);
      assert (items + [p.value])[..|items|] == items;
      ItemSpans(num, p.rest, offset + (|rest| - |p.rest|), items + [p.value], start);
    }
  }

  /** What `ParseFields` knows about the fields it has collected before `offset`. */
  ghost predicate FieldsBefore(dict: map<Bytes, Value>, start: int, offset: int) {
    && (forall k | k in dict :: start < dict[k].start < dict[k].end <= offset && SpansNest(dict[k]))
    && forall k, l | k in dict && l in dict && k != l :: dict[k].end <= dict[l].start || dict[l].end <= dict[k].start
  }

  lemma {:induction false} FieldSpans(num: NumberReader, rest: Bytes, offset: int, dict: map<Bytes, Value>, start: int)
    requires ParseFields(num, rest, offset, dict, start).Ok?
    requires start < offset && FieldsBefore(dict, start, offset)
    ensures SpansNest(ParseFields(num, rest, offset, dict, start).value)
    decreases |rest|, 1
  {
    hide ParseAt, ParseField, ParseFields, ParseString;
    UnfoldFields(num, rest, offset, dict, start);
    if rest[0] != END {
      UnfoldField(num, rest, offset);
      var key := ParseString(num, rest, offset);
      var p := ParseField(num, rest, offset);
      SpansAreNested(num, key.rest, offset + (|rest| - |key.rest|));
      FieldSpans(num, p.rest, offset + (|rest| - |p.rest|), dict[p.key := p.value], start);
    }
  }

  /** A value read somewhere inside `data` reads alone, and so does everything below it. */
  lemma {:induction false} ValueReadsAlone(num: NumberReader, data: Bytes, base: int, at: nat)
    requires at <= |data| && ParseAt(num, data[at..], base + at).Ok?
    ensures ReadsAlone(num, data, base, ParseAt(num, data[at..], base + at).value)
    decreases |data| - at, 0
  {
    hide ParseAt, ParseItems, ParseFields, ParseString, ParseInteger;
    var here := data[at..];
    UnfoldAt(num, here, base + at);
    var r := ParseAt(num, here, base + at);
    var k := |here| - |r.rest|;
    ParseIsLocal(num, here, base + at, []);
    Drop(data, at, k);
    Drop(data, at, 1);
    if here[0] == LIST {
      ItemsReadAlone(num, data, base, at + 1, [], base + at);
    } else if here[0] == DICT {
      FieldsReadAlone(num, data, base, at + 1, map[], base + at);
    }
  }

  lemma {:induction false} ItemsReadAlone(num: NumberReader, data: Bytes, base: int, at: nat, items: seq<Value>,
      start: int)
    requires at <= |data| && ParseItems(num, data[at..], base + at, items, start).Ok?
    requires forall i | 0 <= i < |items| :: ReadsAlone(num, data, base, items[i])
    ensures var r := ParseItems(num, data[at..], base + at, items, start).value;
            forall i | 0 <= i < |r.items| :: ReadsAlone(num, data, base, r.items[i])
    decreases |data| - at, 1
  {
    hide ParseAt, ParseItems, ReadsAlone;
    var rest := data[at..];
    UnfoldItems(num, rest, base + at, items, start);
    if rest[0] != END {
      var p := ParseAt(num, rest, base + at);
      ValueReadsAlone(num, data, base, at);
      var next := |data| - |p.rest|;
      Drop(data, at, next - at);
      ItemsReadAlone(num, data, base, next, items + [p.value], start);
    }
  }

  ghost predicate DictReadsAlone(num: NumberReader, data: Bytes, base: int, dict: map<Bytes, Value>) {
    forall k | k in dict :: ReadsAlone(num, data, base, dict[k])
  }

  lemma OneMoreAlone(num: NumberReader, data: Bytes, base: int, dict: map<Bytes, Value>, key: Bytes, value: Value)
    requires DictReadsAlone(num, data, base, dict) && ReadsAlone(num, data, base, value)
    ensures DictReadsAlone(num, data, base, dict[key := value])
  {
    hide ReadsAlone;
  }

  lemma {:induction false} FieldsReadAlone(num: NumberReader, data: Bytes, base: int, at: nat,
      dict: map<Bytes, Value>, start: int)
    requires at <= |data| && ParseFields(num, data[at..], base + at, dict, start).Ok?
    requires DictReadsAlone(num, data, base, dict)
    ensures DictReadsAlone(num, data, base, ParseFields(num, data[at..], base + at, dict, start).value.dict)
    decreases |data| - at, 2
  {
    hide ParseAt, ParseString, ParseField, ParseFields, ReadsAlone, DictReadsAlone;
    var rest := data[at..];
    UnfoldFields(num, rest, base + at, dict, start);
    if rest[0] != END {
      FieldReadsAlone(num, data, base, at);
      var p := ParseField(num, rest, base + at);
      var next := |data| - |p.rest|;
      Drop(data, at, next - at);
      OneMoreAlone(num, data, base, dict, p.key, p.value);
      FieldsReadAlone(num, data, base, next, dict[p.key := p.value], start);
    }
  }

  lemma {:induction false} FieldReadsAlone(num: NumberReader, data: Bytes, base: int, at: nat)
    requires at <= |data| && ParseField(num, data[at..], base + at).FieldOk?
    ensures ReadsAlone(num, data, base, ParseField(num, data[at..], base + at).value)
    decreases |data| - at, 1
  {
    hide ParseAt, ParseField, ParseString, ReadsAlone;
    UnfoldField(num, data[at..], base + at);
    var key := ParseString(num, data[at..], base + at);
    var middle := |data| - |key.rest|;
    Drop(data, at, middle - at);
    ValueReadsAlone(num, data, base, middle);
  }

  /** The whole file parsed at offset 0: the bytes hashed for any nested value, `info` included,
      parse alone to that value. */
  lemma NestedValuesReadAlone(num: NumberReader, data: Bytes)
    requires ParseAt(num, data, 0).Ok?
    ensures ReadsAlone(num, data, 0, ParseAt(num, data, 0).value)
  {
    hide ParseAt, ReadsAlone;
    assert data[0..] == data;
    ValueReadsAlone(num, data, 0, 0);
  }

  // ------------------------------------------------------------------ encoding

  /** A value as a tree.  Dictionary fields are listed in encoding order. */
  datatype Tree =
    | TStr(str: Bytes)
    | TInt(n: int)
    | TList(items: seq<Tree>)
    | TDict(fields: seq<Field>)

  datatype Field = Field(key: Bytes, value: Tree)

  function Digits(n: nat): (s: Bytes)
    ensures |s| > 0
    ensures forall i | 0 <= i < |s| :: IsDigit(s[i])
  {
    if n < 10 then [48 + n] else Digits(n / 10) + [48 + n % 10]
  }

  function Decimal(n: int): (s: Bytes)
    ensures |s| > 0
    ensures forall i | 0 <= i < |s| :: IsDigit(s[i]) || (i == 0 && s[0] == MINUS && n < 0)
  {
    if n < 0 then [MINUS] + Digits(-n) else Digits(n)
  }

  function EncodeString(s: Bytes): (e: Bytes)
    ensures |e| > 0 && IsDigit(e[0])
  {
    Decimal(|s|) + [COLON] + s
  }

  function Encode(t: Tree): (e: Bytes)
    ensures |e| > 0 && e[0] != END
    decreases t, 1
  {
    match t
    case TStr(s) => EncodeString(s)
    case TInt(n) => [INTEGER] + Decimal(n) + [END]
    case TList(items) => [LIST] + EncodeItems(items) + [END]
    case TDict(fields) => [DICT] + EncodeFields(fields) + [END]
  }

  function EncodeItems(items: seq<Tree>): Bytes
    decreases items, 0
  {
    if items == [] then [] else Encode(items[0]) + EncodeItems(items[1..])
  }

  function EncodeFields(fields: seq<Field>): Bytes
    decreases fields, 0
  {
    if fields == [] then []
    else EncodeString(fields[0].key) + (Encode(fields[0].value) + EncodeFields(fields[1..]))
  }

  /** The string and the length in front of it fit together in a slice. */
  predicate Fits(s: Bytes) {
    |EncodeString(s)| < INT64_LIMIT
  }

  /** Integers and the lengths of encoded strings fit in 64 bits and no dictionary repeats a key. */
  ghost predicate Encodable(t: Tree) {
    match t
    case TStr(s) => Fits(s)
    case TInt(n) => -INT64_LIMIT <= n < INT64_LIMIT
    case TList(items) => forall i | 0 <= i < |items| :: Encodable(items[i])
    case TDict(fields) =>
      && DistinctKeys(fields)
      && forall i | 0 <= i < |fields| :: Fits(fields[i].key) && Encodable(fields[i].value)
  }

  ghost predicate DistinctKeys(fields: seq<Field>) {
    forall i, j | 0 <= i < j < |fields| :: fields[i].key != fields[j].key
  }

  /** `v` is the tree `t`, forgetting spans. */
  ghost predicate Denotes(v: Value, t: Tree) {
    match t
    case TStr(s) => v.Str? && v.str == s
    case TInt(n) => v.Num? && v.integer == n
    case TList(items) =>
      v.List? && |v.items| == |items| && forall i | 0 <= i < |items| :: Denotes(v.items[i], items[i])
    case TDict(fields) =>
      && v.Dict?
      && v.dict.Keys == Keys(fields)
      && forall i | 0 <= i < |fields| :: Denotes(v.dict[fields[i].key], fields[i].value)
  }

  ghost function Keys(fields: seq<Field>): (keys: set<Bytes>)
    ensures forall i | 0 <= i < |fields| :: fields[i].key in keys
  {
    set i | 0 <= i < |fields| :: fields[i].key
  }

  /** The reader is exact on the canonical form of every 64-bit integer. */
  ghost predicate Exact(num: NumberReader) {
    forall n | -INT64_LIMIT <= n < INT64_LIMIT :: num(Decimal(n)) == Some(n)
  }

  /** A string is read back from its encoding exactly if the two fit together in a slice; a longer one ends the
      program, in spite of the check against an overrun. */
  lemma StringRoundTripExactly(num: NumberReader, s: Bytes, base: int, suffix: Bytes)
    requires Exact(num) && |s| < INT64_LIMIT
    ensures ParseString(num, EncodeString(s) + suffix, base)
         == if Fits(s) then Ok(Str(s, base, base + |EncodeString(s)|), suffix) else Err(Panic)
  {
    var data := EncodeString(s) + suffix;
    var d := Decimal(|s|);
    assert data[..|d|] == d;
    FirstIndexIsUnique(data, COLON, |d|);
    FewDigits(|s|);
    assert data[|d| + 1..|d| + 1 + |s|] == s;
    assert data[|d| + 1 + |s|..] == suffix;
  }

  /** A number has no more digits than it counts, but for zero. */
  lemma {:induction false} FewDigits(n: nat)
    ensures |Digits(n)| <= n + 1
  {
    if n >= 10 {
      FewDigits(n / 10);
    }
  }

  lemma StringRoundTrip(num: NumberReader, s: Bytes, base: int, suffix: Bytes)
    requires Exact(num) && Fits(s)
    ensures ParseString(num, EncodeString(s) + suffix, base)
         == Ok(Str(s, base, base + |EncodeString(s)|), suffix)
  {
    StringRoundTripExactly(num, s, base, suffix);
  }

  /** The length in front of the first colon passes every check and yet the sum with its position does not fit. */
  predicate Overflows(num: NumberReader, data: Bytes) {
    var colon := Index(data, COLON);
    colon >= 0 && match num(data[..colon]) case None => false case Some(length) =>
      0 <= length < INT64_LIMIT <= colon + 1 + length
  }

  /** On input that fits in a slice, a string ends the program exactly if its length overflows, and else what is
      accepted is as long as it says. */
  lemma PanicExactly(num: NumberReader, data: Bytes, base: int)
    requires |data| < INT64_LIMIT
    ensures ParseString(num, data, base) == Err(Panic) <==> Overflows(num, data)
    ensures var r := ParseString(num, data, base); r.Ok? ==> num(data[..Index(data, COLON)]) == Some(|r.value.str|)
  {
  }

  /** Wherever the parser ends the program it does so at a string of the input. */
  lemma {:induction false} PanicIsAString(num: NumberReader, data: Bytes, base: int) returns (at: nat)
    requires ParseAt(num, data, base) == Err(Panic)
    ensures at <= |data| && ParseString(num, data[at..], base + at) == Err(Panic)
    decreases |data|, 0
  {
    hide ParseAt, ParseItems, ParseFields, ParseString;
    if data != [] {
      UnfoldAt(num, data, base);
      if data[0] == LIST {
        at := PanicInList(num, data[1..], base + 1, [], base);
        at := at + 1;
        assert data[1..][at - 1..] == data[at..];
      } else if data[0] == DICT {
        at := PanicInDict(num, data[1..], base + 1, map[], base);
        at := at + 1;
        assert data[1..][at - 1..] == data[at..];
      } else {
        at := 0;
        assert data[0..] == data;
      }
    } else {
      EmptyIsNoPanic(num, base);
    }
  }

  lemma EmptyIsNoPanic(num: NumberReader, base: int)
    ensures ParseAt(num, [], base) == Err(EmptyValue)
  {
  }

  lemma {:induction false} PanicInList(num: NumberReader, rest: Bytes, offset: int, items: seq<Value>,
      start: int) returns (at: nat)
    requires ParseItems(num, rest, offset, items, start) == Err(Panic)
    ensures at <= |rest| && ParseString(num, rest[at..], offset + at) == Err(Panic)
    decreases |rest|, 1
  {
    hide ParseAt, ParseItems, ParseString;
    UnfoldItems(num, rest, offset, items, start);
    var p := ParseAt(num, rest, offset);
    if p.Err? {
      at := PanicIsAString(num, rest, offset);
    } else {
      var k := |rest| - |p.rest|;
      at := PanicInList(num, p.rest, offset + k, items + [p.value], start);
      at := at + k;
      assert rest[k..][at - k..] == rest[at..];
    }
  }

  lemma {:induction false} PanicInDict(num: NumberReader, rest: Bytes, offset: int, dict: map<Bytes, Value>, start: int)
    returns (at: nat)
    requires ParseFields(num, rest, offset, dict, start) == Err(Panic)
    ensures at <= |rest| && ParseString(num, rest[at..], offset + at) == Err(Panic)
    decreases |rest|, 1
  {
    hide ParseAt, ParseField, ParseFields, ParseString;
    UnfoldFields(num, rest, offset, dict, start);
    UnfoldField(num, rest, offset);
    var p, key := ParseField(num, rest, offset), ParseString(num, rest, offset);
    if p.FieldOk? {
      var k := |rest| - |p.rest|;
      at := PanicInDict(num, p.rest, offset + k, dict[p.key := p.value], start);
      at := at + k;
      assert rest[k..][at - k..] == rest[at..];
    } else if key.Err? {
      at := 0;
      assert rest[0..] == rest;
    } else {
      var k := |rest| - |key.rest|;
      at := PanicIsAString(num, key.rest, offset + k);
      at := at + k;
      assert rest[k..][at - k..] == rest[at..];
    }
  }

  lemma Untag(tag: Byte, middle: Bytes, suffix: Bytes)
    ensures ([tag] + middle + [END] + suffix)[1..] == middle + ([END] + suffix)
  {
  }

  lemma IntegerRoundTrip(num: NumberReader, n: int, base: int, suffix: Bytes)
    requires Exact(num) && -INT64_LIMIT <= n < INT64_LIMIT
    ensures ParseInteger(num, [INTEGER] + Decimal(n) + [END] + suffix, base)
         == Ok(Num(n, base, base + |Decimal(n)| + 2), suffix)
  {
    var d := Decimal(n);
    var data := [INTEGER] + d + [END] + suffix;
    assert data[1..1 + |d|] == d;
    assert data[..1 + |d|] == [INTEGER] + d;
    FirstIndexIsUnique(data, END, 1 + |d|);
    assert data[2 + |d|..] == suffix;
  }

  /** Parsing the encoding of a tree, followed by anything, gives back the tree and what followed. */
  lemma {:induction false} RoundTrip(num: NumberReader, t: Tree, base: int, suffix: Bytes)
    requires Exact(num) && Encodable(t)
    ensures var r := ParseAt(num, Encode(t) + suffix, base);
            r.Ok? && r.rest == suffix && Denotes(r.value, t)
    decreases t, 1
  {
    hide ParseAt, ParseItems, ParseFields, ParseString, ParseInteger, Exact, EncodeString, EncodeItems, EncodeFields;
    var data := Encode(t) + suffix;
    assert data[0] == Encode(t)[0];
    UnfoldAt(num, data, base);
    match t
    case TStr(s) =>
      StringRoundTrip(num, s, base, suffix);
    case TInt(n) =>
      IntegerRoundTrip(num, n, base, suffix);
    case TList(items) =>
      Untag(LIST, EncodeItems(items), suffix);
      ItemsRoundTrip(num, items, base + 1, [], base, suffix);
    case TDict(fields) =>
      Untag(DICT, EncodeFields(fields), suffix);
      FieldsRoundTrip(num, fields, base + 1, map[], base, suffix);
  }

  lemma {:induction false} ItemsRoundTrip(num: NumberReader, items: seq<Tree>, offset: int, done: seq<Value>,
      start: int, suffix: Bytes)
    requires Exact(num) && forall i | 0 <= i < |items| :: Encodable(items[i])
    ensures ItemsRead(ParseItems(num, EncodeItems(items) + ([END] + suffix), offset, done, start), done, items, suffix)
    decreases items, 0
  {
    hide ParseAt, ParseItems, ItemsRead, Denotes, Encodable, Exact, EncodeItems, Encode;
    var data := EncodeItems(items) + ([END] + suffix);
    UnfoldItems(num, data, offset, done, start);
    if items == [] {
      NoItems(done, start, offset, suffix);
    } else {
      var after := EncodeItems(items[1..]) + ([END] + suffix);
      EncodeItemsStep(items, [END] + suffix);
      RoundTrip(num, items[0], offset, after);
      var p := ParseAt(num, data, offset);
      ItemsRoundTrip(num, items[1..], offset + (|data| - |after|), done + [p.value], start, suffix);
      ItemsReadStep(ParseItems(num, data, offset, done, start), done, items, p.value, suffix);
    }
  }

  /** `r` is a list of the values `done` followed by `items`, with `suffix` left. */
  ghost predicate ItemsRead(r: Parsed, done: seq<Value>, items: seq<Tree>, suffix: Bytes) {
    && r.Ok? && r.rest == suffix && r.value.List?
    && |r.value.items| == |done| + |items|
    && done <= r.value.items
    && forall i | 0 <= i < |items| :: Denotes(r.value.items[|done| + i], items[i])
  }

  lemma ItemsReadStep(r: Parsed, done: seq<Value>, items: seq<Tree>, v: Value, suffix: Bytes)
    requires items != [] && Denotes(v, items[0])
    requires ItemsRead(r, done + [v], items[1..], suffix)
    ensures ItemsRead(r, done, items, suffix)
  {
    hide Denotes;
    var all := r.value.items;
    assert all[|done|] == (done + [v])[|done|];
    forall i | 0 <= i < |items| ensures Denotes(all[|done| + i], items[i]) {
      if i > 0 {
        assert items[1..][i - 1] == items[i];
        assert all[|done + [v]| + (i - 1)] == all[|done| + i];
      }
    }
  }

  lemma NoItems(done: seq<Value>, start: int, offset: int, suffix: Bytes)
    ensures EncodeItems([]) + ([END] + suffix) == [END] + suffix
    ensures ItemsRead(Ok(List(done, start, offset + 1), suffix), done, [], suffix)
  {
  }

  lemma EncodeItemsStep(items: seq<Tree>, suffix: Bytes)
    requires items != []
    ensures var e := EncodeItems(items) + suffix;
            && e == Encode(items[0]) + (EncodeItems(items[1..]) + suffix)
            && |e| > 0 && e[0] != END
  {
    hide Encode;
  }

  lemma {:induction false} FieldsRoundTrip(num: NumberReader, fields: seq<Field>, offset: int,
      done: map<Bytes, Value>, start: int, suffix: Bytes)
    requires Exact(num) && DistinctKeys(fields)
    requires forall i | 0 <= i < |fields| :: Fits(fields[i].key) && Encodable(fields[i].value)
    ensures FieldsRead(ParseFields(num, EncodeFields(fields) + ([END] + suffix), offset, done, start), done, fields,
        suffix)
    decreases fields, 0
  {
    hide ParseField, ParseFields, FieldsRead, Denotes, Encodable, Exact, EncodeFields, Encode, EncodeString;
    var data := EncodeFields(fields) + ([END] + suffix);
    UnfoldFields(num, data, offset, done, start);
    if fields == [] {
      NoFields(done, start, offset, suffix);
    } else {
      var after := EncodeFields(fields[1..]) + ([END] + suffix);
      FieldRoundTrip(num, fields[0], offset, after);
      EncodeFieldsStep(fields, [END] + suffix);
      var p := ParseField(num, data, offset);
      KeysOfTail(fields);
      FieldsRoundTrip(num, fields[1..], offset + (|data| - |after|), done[p.key := p.value], start, suffix);
      FieldsReadStep(ParseFields(num, data, offset, done, start), done, fields, p.value, suffix);
    }
  }

  /** `r` is a dictionary holding `fields` on top of the fields `done`, with `suffix` left. */
  ghost predicate FieldsRead(r: Parsed, done: map<Bytes, Value>, fields: seq<Field>, suffix: Bytes) {
    && r.Ok? && r.rest == suffix && r.value.Dict?
    && r.value.dict.Keys == done.Keys + Keys(fields)
    && (forall k | k in done && k !in Keys(fields) :: r.value.dict[k] == done[k])
    && forall i | 0 <= i < |fields| :: Denotes(r.value.dict[fields[i].key], fields[i].value)
  }

  lemma FieldsReadStep(r: Parsed, done: map<Bytes, Value>, fields: seq<Field>, v: Value, suffix: Bytes)
    requires fields != [] && DistinctKeys(fields) && Denotes(v, fields[0].value)
    requires FieldsRead(r, done[fields[0].key := v], fields[1..], suffix)
    ensures FieldsRead(r, done, fields, suffix)
  {
    hide Keys, Denotes;
    KeysOfTail(fields);
    forall i | 0 <= i < |fields| ensures Denotes(r.value.dict[fields[i].key], fields[i].value) {
      if i > 0 {
        assert fields[1..][i - 1] == fields[i];
      }
    }
  }

  lemma NoFields(done: map<Bytes, Value>, start: int, offset: int, suffix: Bytes)
    ensures EncodeFields([]) + ([END] + suffix) == [END] + suffix
    ensures FieldsRead(Ok(Dict(done, start, offset + 1), suffix), done, [], suffix)
  {
  }

  lemma EncodeFieldsStep(fields: seq<Field>, suffix: Bytes)
    requires fields != []
    ensures var e := EncodeFields(fields) + suffix;
            && e == EncodeString(fields[0].key) + (Encode(fields[0].value) + (EncodeFields(fields[1..]) + suffix))
            && |e| > 0 && IsDigit(e[0])
  {
    hide EncodeString, Encode;
  }

  lemma {:induction false} FieldRoundTrip(num: NumberReader, field: Field, offset: int, suffix: Bytes)
    requires Exact(num) && Fits(field.key) && Encodable(field.value)
    ensures var r := ParseField(num, EncodeString(field.key) + (Encode(field.value) + suffix), offset);
            r.FieldOk? && r.rest == suffix && r.key == field.key && Denotes(r.value, field.value)
    decreases field, 2
  {
    hide ParseAt, ParseField, ParseString, Encode, EncodeString, Denotes, Encodable, Exact;
    var e := EncodeString(field.key);
    var after := Encode(field.value) + suffix;
    UnfoldField(num, e + after, offset);
    StringRoundTrip(num, field.key, offset, after);
    RoundTrip(num, field.value, offset + |e|, suffix);
  }

  lemma KeysOfTail(fields: seq<Field>)
    requires fields != [] && DistinctKeys(fields)
    ensures Keys(fields) == {fields[0].key} + Keys(fields[1..])
    ensures fields[0].key !in Keys(fields[1..])
    ensures DistinctKeys(fields[1..])
  {
    var tail := fields[1..];
    forall k | k in Keys(fields) ensures k == fields[0].key || k in Keys(tail) {
      var i :| 0 <= i < |fields| && fields[i].key == k;
      if i > 0 {
        assert tail[i - 1].key == k;
      }
    }
    forall i | 0 <= i < |tail| ensures tail[i].key in Keys(fields) && tail[i].key != fields[0].key {
      assert tail[i] == fields[i + 1];
    }
  }

  // ------------------------------------------------------- a reader that is exact

  /** Leading blanks, an optional sign, the longest run of digits, 64-bit range;
      whatever follows the digits is ignored. */
  function Scan(s: Bytes): Option<int>
  {
    if s != [] && s[0] == SPACE then Scan(s[1..])
    else if s != [] && s[0] == MINUS then Signed(-1, s[1..])
    else if s != [] && s[0] == PLUS then Signed(1, s[1..])
    else Signed(1, s)
  }

  function Signed(sign: int, s: Bytes): Option<int> {
    if s == [] || !IsDigit(s[0]) then None
    else
      var n := sign * DigitsValue(s, 0);
      if -INT64_LIMIT <= n < INT64_LIMIT then Some(n) else None
  }

  function DigitsValue(s: Bytes, acc: nat): nat {
    if s == [] || !IsDigit(s[0]) then acc else DigitsValue(s[1..], 10 * acc + (s[0] - 48))
  }

  lemma {:induction false} DigitsValueAppend(s: Bytes, d: Byte, acc: nat)
    requires IsDigit(d) && forall i | 0 <= i < |s| :: IsDigit(s[i])
    ensures DigitsValue(s + [d], acc) == 10 * DigitsValue(s, acc) + (d - 48)
  {
    if s == [] {
      assert (s + [d])[1..] == [];
    } else {
      assert (s + [d])[1..] == s[1..] + [d];
      DigitsValueAppend(s[1..], d, 10 * acc + (s[0] - 48));
    }
  }

  lemma {:induction false} DigitsValueOfDigits(n: nat)
    ensures DigitsValue(Digits(n), 0) == n
  {
    if n >= 10 {
      DigitsValueOfDigits(n / 10);
      DigitsValueAppend(Digits(n / 10), 48 + n % 10, 0);
    } else {
      assert Digits(n)[1..] == [];
    }
  }

  lemma ScanIsExact()
    ensures Exact(Scan)
  {
    forall n | -INT64_LIMIT <= n < INT64_LIMIT ensures Scan(Decimal(n)) == Some(n) {
      if n < 0 {
        DigitsValueOfDigits(-n);
        assert Decimal(n)[1..] == Digits(-n);
      } else {
        DigitsValueOfDigits(n);
      }
    }
  }

  /** What the file reader gives on the encoding of a tree, with the scanner itself. */
  lemma ScannedRoundTrip(t: Tree)
    requires Encodable(t)
    ensures var r := ParseAt(Scan, Encode(t), 0);
            r.Ok? && r.rest == [] && Denotes(r.value, t)
  {
    ScanIsExact();
    RoundTrip(Scan, t, 0, []);
    assert Encode(t) + [] == Encode(t);
  }

  /** A string that claims the largest length ends the program, behind its colon nothing need follow. */
  lemma LargestLengthPanics(suffix: Bytes, base: int)
    ensures ParseAt(Scan, Decimal(INT64_LIMIT - 1) + [COLON] + suffix, base) == Err(Panic)
  {
    var d := Decimal(INT64_LIMIT - 1);
    var data := d + [COLON] + suffix;
    ScanIsExact();
    assert data[..|d|] == d;
    FirstIndexIsUnique(data, COLON, |d|);
    FewDigits(INT64_LIMIT - 1);
    assert data[0] == d[0];
  }

  // -------------------------------------------------------------- torrent files

  const INFO: Bytes := [105, 110, 102, 111]
  const NAME: Bytes := [110, 97, 109, 101]
  const ANNOUNCE: Bytes := [97, 110, 110, 111, 117, 110, 99, 101]
  const ANNOUNCE_LIST: Bytes := [97, 110, 110, 111, 117, 110, 99, 101, 45, 108, 105, 115, 116]

  datatype Meta = Meta(hashed: Bytes, name: Bytes, trackers: seq<Bytes>)

  datatype Torrent = Torrent(meta: Meta) | Panicked | Malformed(error: Error) | Trailing | NotDict | NoInfo

  function Strings(items: seq<Value>): seq<Bytes> {
    if items == [] then []
    else
      var last := items[|items| - 1];
      Strings(items[..|items| - 1]) + (if last.Str? then [last.str] else [])
  }

  /** The trackers of an announce-list: the strings of its list-valued tiers, in order. */
  function TierStrings(tiers: seq<Value>): seq<Bytes> {
    if tiers == [] then []
    else
      var last := tiers[|tiers| - 1];
      TierStrings(tiers[..|tiers| - 1]) + (if last.List? then Strings(last.items) else [])
  }

  function Trackers(root: map<Bytes, Value>): seq<Bytes> {
    (if ANNOUNCE in root && root[ANNOUNCE].Str? then [root[ANNOUNCE].str] else [])
    + (if ANNOUNCE_LIST in root && root[ANNOUNCE_LIST].List? then TierStrings(root[ANNOUNCE_LIST].items) else [])
  }

  method CollectTrackers(root: map<Bytes, Value>) returns (trackers: seq<Bytes>)
    ensures trackers == Trackers(root)
  {
    hide Strings;
    trackers := [];
    if ANNOUNCE in root && root[ANNOUNCE].Str? {
      trackers := trackers + [root[ANNOUNCE].str];
    }
    if ANNOUNCE_LIST in root && root[ANNOUNCE_LIST].List? {
      var announced := trackers;
      var tiers := root[ANNOUNCE_LIST].items;
      for i := 0 to |tiers|
        invariant trackers == announced + TierStrings(tiers[..i])
      {
        assert tiers[..i + 1][..i] == tiers[..i];
        if tiers[i].List? {
          var tier := CollectTier(tiers[i].items);
          trackers := trackers + tier;
        }
      }
      assert tiers[..|tiers|] == tiers;
    }
  }

  method CollectTier(tier: seq<Value>) returns (trackers: seq<Bytes>)
    ensures trackers == Strings(tier)
  {
    trackers := [];
    for j := 0 to |tier|
      invariant trackers == Strings(tier[..j])
    {
      assert tier[..j + 1][..j] == tier[..j];
      if tier[j].Str? {
        trackers := trackers + [tier[j].str];
      }
    }
    assert tier[..|tier|] == tier;
  }

  /** Reads a torrent file.  `hashed` are the bytes handed to SHA-1. */
  method ParseTorrentMeta(num: NumberReader, data: Bytes) returns (t: Torrent)
    ensures t.Panicked? <==> ParseAt(num, data, 0) == Err(Panic)
    ensures t.Malformed? <==> ParseAt(num, data, 0).Err? && !t.Panicked?
    ensures t.Torrent? ==>
              var r := ParseAt(num, data, 0);
              && r.Ok? && r.rest == [] && r.value.Dict?
              && INFO in r.value.dict && r.value.dict[INFO].Dict?
              // the hashed bytes are a slice of the file that parses alone to the info dictionary
              && var info := r.value.dict[INFO];
              && 0 <= info.start < info.end <= |data|
              && t.meta.hashed == data[info.start..info.end]
              && ParseAt(num, t.meta.hashed, info.start) == Ok(info, [])
              && t.meta.name == (if NAME in info.dict && info.dict[NAME].Str? then info.dict[NAME].str else [])
              && t.meta.trackers == Trackers(r.value.dict)
    ensures !t.Torrent? && !t.Malformed? && !t.Panicked? ==>
              var r := ParseAt(num, data, 0);
              r.rest != [] || !r.value.Dict? || INFO !in r.value.dict || !r.value.dict[INFO].Dict?
  {
    hide ParseAt;
    var r := ParseBencodeAt(num, data, 0);
    if r.Err? {
      return if r.error == Panic then Panicked else Malformed(r.error);
    }
    if |r.rest| != 0 {
      return Trailing;
    }
    var root := r.value;
    if !root.Dict? {
      return NotDict;
    }
    if INFO !in root.dict || !root.dict[INFO].Dict? {
      return NoInfo;
    }
    var info := root.dict[INFO];
    NestedValuesReadAlone(num, data);
    assert ReadsAlone(num, data, 0, info);
    var name: Bytes := [];
    if NAME in info.dict && info.dict[NAME].Str? {
      name := info.dict[NAME].str;
    }
    var trackers := CollectTrackers(root.dict);
    return Torrent(Meta(data[info.start..info.end], name, trackers));
  }
}
