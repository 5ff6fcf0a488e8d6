/** The bencode encoder of the container probe, with values as Python builds them: a dict is a
    sequence of entries in insertion order.  The reference is a decoder written from the
    "bencoding" section of BEP 3; it works on meanings, where a dict is a map. */
module Bencode {
  import opened Wrappers

  type Byte = b: int | 0 <= b < 256
  type Bytes = seq<Byte>

  const MINUS: Byte := 45
  const ZERO: Byte := 48
  const COLON: Byte := 58
  const D: Byte := 100
  const E: Byte := 101
  const I: Byte := 105
  const L: Byte := 108

  type Entries = seq<(Bytes, Value)>

  datatype Value =
    | Int(n: int)
    | Str(s: Bytes)
    | List(items: seq<Value>)
    | Dict(entries: Entries)

  /** What two Python values that compare equal have in common. */
  datatype Meaning =
    | MInt(n: int)
    | MStr(s: Bytes)
    | MList(items: seq<Meaning>)
    | MDict(entries: map<Bytes, Meaning>)

  ghost predicate DistinctKeys(entries: Entries) {
    forall i, j :: 0 <= i < j < |entries| ==> entries[i].0 != entries[j].0
  }

  /** No dict inside `v` holds a key twice, as Python guarantees. */
  ghost predicate Valid(v: Value) {
    match v
    case Int(_) => true
    case Str(_) => true
    case List(items) => forall item | item in items :: Valid(item)
    case Dict(entries) => DistinctKeys(entries) && forall e | e in entries :: Valid(e.1)
  }

  ghost function MeaningOf(v: Value): Meaning
    requires Valid(v)
  {
    match v
    case Int(n) => MInt(n)
    case Str(s) => MStr(s)
    case List(items) => MList(ItemsMeaning(items))
    case Dict(entries) => MDict(EntriesMeaning(entries))
  }

  ghost function ItemsMeaning(items: seq<Value>): seq<Meaning>
    requires forall item | item in items :: Valid(item)
  {
    if items == [] then [] else [MeaningOf(items[0])] + ItemsMeaning(items[1..])
  }

  ghost function EntriesMeaning(entries: Entries): map<Bytes, Meaning>
    requires forall e | e in entries :: Valid(e.1)
  {
    if entries == [] then map[]
    else
      var e := entries[0];
      assert e decreases to e.1;
      map[e.0 := MeaningOf(e.1)] + EntriesMeaning(entries[1..])
  }

  // ----- the encoder ----------------------------------------------------------------------

  function Digits(n: nat): (d: Bytes)
    ensures d != [] && forall x | x in d :: IsDigit(x)
  {
    if n < 10 then [ZERO + n] else Digits(n / 10) + [ZERO + n % 10]
  }

  function Decimal(n: int): Bytes {
    if n < 0 then [MINUS] + Digits(-n) else Digits(n)
  }

  /** Python compares bytes lexicographically. */
  predicate Below(a: Bytes, b: Bytes) {
    b != [] && (a == [] || a[0] < b[0] || (a[0] == b[0] && Below(a[1..], b[1..])))
  }

  function Insert(e: (Bytes, Value), entries: Entries): (r: Entries)
    ensures forall x :: x in r <==> x == e || x in entries
  {
    if entries == [] then [e]
    else if Below(entries[0].0, e.0) then [entries[0]] + Insert(e, entries[1..])
    else [e] + entries
  }

  function SortByKey(entries: Entries): (r: Entries)
    ensures forall x :: x in r <==> x in entries
  {
    if entries == [] then [] else Insert(entries[0], SortByKey(entries[1..]))
  }

  function Encode(v: Value): Bytes
    decreases v, 1
  {
    match v
    case Int(n) => [I] + Decimal(n) + [E]
    case Str(s) => EncodeStr(s)
    case List(items) => [L] + EncodeItems(items) + [E]
    case Dict(entries) => [D] + EncodeEntries(SortByKey(entries), v) + [E]
  }

  function EncodeStr(s: Bytes): Bytes {
    Digits(|s|) + [COLON] + s
  }

  function EncodeItems(items: seq<Value>): Bytes {
    if items == [] then [] else Encode(items[0]) + EncodeItems(items[1..])
  }

  function EncodeEntries(entries: Entries, owner: Value): Bytes
    requires forall e | e in entries :: e.1 < owner
    decreases owner, 0, |entries|
  {
    if entries == [] then []
    else EncodeStr(entries[0].0) + Encode(entries[0].1) + EncodeEntries(entries[1..], owner)
  }

  // ----- the decoder ----------------------------------------------------------------------

  predicate IsDigit(b: Byte) {
    ZERO <= b < ZERO + 10
  }

  function Span(s: Bytes): (k: nat)
    ensures k <= |s|
  {
    if s == [] || !IsDigit(s[0]) then 0 else 1 + Span(s[1..])
  }

  function ValueOfDigits(d: Bytes): nat
    requires forall x | x in d :: IsDigit(x)
  {
    if d == [] then 0
    else
      var last := d[|d| - 1];
      assert last in d && IsDigit(last);
      10 * ValueOfDigits(d[..|d| - 1]) + (last - ZERO)
  }

  lemma SpanIsDigits(s: Bytes)
    ensures forall x | x in s[..Span(s)] :: IsDigit(x)
  {
    if s != [] && IsDigit(s[0]) {
      SpanIsDigits(s[1..]);
      assert s[..Span(s)] == [s[0]] + s[1..][..Span(s[1..])];
    }
  }

  function DecodeNat(s: Bytes, stop: Byte): (r: Option<(nat, Bytes)>)
    ensures r.Some? ==> |r.value.1| < |s|
  {
    var k := Span(s);
    SpanIsDigits(s);
    if k == 0 || k == |s| || s[k] != stop then None
    else Some((ValueOfDigits(s[..k]), s[k + 1..]))
  }

  function DecodeStr(s: Bytes): (r: Option<(Bytes, Bytes)>)
    ensures r.Some? ==> |r.value.1| < |s|
  {
    var (n, rest) :- DecodeNat(s, COLON);
    if |rest| < n then None else Some((rest[..n], rest[n..]))
  }

  function Decode(s: Bytes): (r: Option<(Meaning, Bytes)>)
    ensures r.Some? ==> |r.value.1| < |s|
    decreases |s|, 0
  {
    if s == [] then None
    else if s[0] == I then
      if |s| > 1 && s[1] == MINUS then
        var (n, rest) :- DecodeNat(s[2..], E); Some((MInt(0 - n), rest))
      else
        var (n, rest) :- DecodeNat(s[1..], E); Some((MInt(n), rest))
    else if s[0] == L then
      var (items, rest) :- DecodeItems(s[1..]); Some((MList(items), rest))
    else if s[0] == D then
      var (entries, rest) :- DecodeEntries(s[1..]); Some((MDict(entries), rest))
    else
      var (str, rest) :- DecodeStr(s); Some((MStr(str), rest))
  }

  function DecodeItems(s: Bytes): (r: Option<(seq<Meaning>, Bytes)>)
    ensures r.Some? ==> |r.value.1| < |s|
    decreases |s|, 1
  {
    if s == [] then None
    else if s[0] == E then Some(([], s[1..]))
    else
      var (item, rest) :- Decode(s);
      var (items, rest') :- DecodeItems(rest);
      Some(([item] + items, rest'))
  }

  function DecodeEntries(s: Bytes): (r: Option<(map<Bytes, Meaning>, Bytes)>)
    ensures r.Some? ==> |r.value.1| < |s|
    decreases |s|, 1
  {
    if s == [] then None
    else if s[0] == E then Some((map[], s[1..]))
    else
      var (key, rest) :- DecodeStr(s);
      var (item, rest') :- Decode(rest);
      var (entries, rest'') :- DecodeEntries(rest');
      Some((map[key := item] + entries, rest''))
  }

  // ----- round trip -----------------------------------------------------------------------

  lemma {:induction false} DigitsRoundTrip(n: nat)
    ensures ValueOfDigits(Digits(n)) == n
  {
    if n >= 10 {
      DigitsRoundTrip(n / 10);
      assert Digits(n)[..|Digits(n)| - 1] == Digits(n / 10);
    }
  }

  lemma {:induction false} SpanOfDigits(d: Bytes, x: Bytes)
    requires forall b | b in d :: IsDigit(b)
    requires x != [] && !IsDigit(x[0])
    ensures Span(d + x) == |d|
  {
    if d == [] {
      assert d + x == x;
    } else {
      SpanOfDigits(d[1..], x);
      assert (d + x)[1..] == d[1..] + x;
    }
  }

  lemma NatRoundTrip(n: nat, stop: Byte, x: Bytes)
    requires !IsDigit(stop)
    ensures DecodeNat(Digits(n) + [stop] + x, stop) == Some((n, x))
  {
    var s := Digits(n) + [stop] + x;
    assert s == Digits(n) + ([stop] + x);
    SpanOfDigits(Digits(n), [stop] + x);
    DigitsRoundTrip(n);
    assert s[..|Digits(n)|] == Digits(n);
    assert s[|Digits(n)| + 1..] == x;
  }

  lemma StrRoundTrip(s: Bytes, x: Bytes)
    ensures DecodeStr(EncodeStr(s) + x) == Some((s, x))
    ensures IsDigit(EncodeStr(s)[0])
  {
    NatRoundTrip(|s|, COLON, s + x);
    assert Digits(|s|)[0] in Digits(|s|);
    assert EncodeStr(s) + x == Digits(|s|) + [COLON] + (s + x);
    assert (s + x)[..|s|] == s && (s + x)[|s|..] == x;
  }

  /** The first byte tells the four kinds apart and is never the end mark. */
  lemma FirstByte(v: Value)
    ensures Encode(v) != [] && Encode(v)[0] != E
  {
    if v.Str? {
      StrRoundTrip(v.s, []);
    }
  }

  /** A decoder recovers every value and leaves exactly what followed it. */
  lemma {:induction false} RoundTrip(v: Value, x: Bytes)
    requires Valid(v)
    ensures Decode(Encode(v) + x) == Some((MeaningOf(v), x))
    decreases v, 1
  {
    match v
    case Int(n) => IntRoundTrip(n, x);
    case Str(str) =>
      StrRoundTrip(str, x);
      assert Encode(v) + x == EncodeStr(str) + x;
    case List(items) =>
      var body := EncodeItems(items) + [E] + x;
      assert Encode(v) + x == [L] + body;
      ItemsRoundTrip(items, x);
      DecodeContainer(body);
    case Dict(entries) =>
      var sorted := SortByKey(entries);
      var body := EncodeEntries(sorted, v) + [E] + x;
      assert Encode(v) + x == [D] + body;
      SortKeepsDistinct(entries);
      EntriesRoundTrip(sorted, v, x);
      SameEntriesSameMeaning(sorted, entries);
      DecodeContainer(body);
  }

  lemma DecodeContainer(body: Bytes)
    ensures var r := DecodeItems(body);
            Decode([L] + body) == if r.None? then None else Some((MList(r.value.0), r.value.1))
    ensures var r := DecodeEntries(body);
            Decode([D] + body) == if r.None? then None else Some((MDict(r.value.0), r.value.1))
  {
    assert ([L] + body)[1..] == body && ([D] + body)[1..] == body;
  }

  lemma DecodeNumber(body: Bytes)
    ensures var r := DecodeNat(body, E);
            Decode([I] + ([MINUS] + body)) == if r.None? then None else Some((MInt(0 - r.value.0), r.value.1))
    ensures var r := DecodeNat(body, E);
            body != [] && body[0] != MINUS ==>
              Decode([I] + body) == if r.None? then None else Some((MInt(r.value.0), r.value.1))
  {
    hide DecodeNat;
    assert ([I] + body)[1..] == body;
    var signed := [I] + ([MINUS] + body);
    assert signed[1] == MINUS && signed[2..] == body;
  }

  lemma IntRoundTrip(n: int, x: Bytes)
    ensures Decode(Encode(Int(n)) + x) == Some((MInt(n), x))
  {
    hide Decode, DecodeNat, Digits;
    var magnitude := if n < 0 then -n else n;
    var body := Digits(magnitude) + [E] + x;
    NatRoundTrip(magnitude, E, x);
    DecodeNumber(body);
    assert Digits(magnitude)[0] in Digits(magnitude);
    if n < 0 {
      assert Encode(Int(n)) + x == [I] + ([MINUS] + body);
    } else {
      assert Encode(Int(n)) + x == [I] + body;
    }
  }

  lemma {:induction false} ItemsRoundTrip(items: seq<Value>, x: Bytes)
    requires forall item | item in items :: Valid(item)
    ensures DecodeItems(EncodeItems(items) + [E] + x)
         == Some((ItemsMeaning(items), x))
    decreases items, 0
  {
    hide Decode, Encode;
    var s := EncodeItems(items) + [E] + x;
    if items != [] {
      var rest := EncodeItems(items[1..]) + [E] + x;
      assert s == Encode(items[0]) + rest;
      FirstByte(items[0]);
      RoundTrip(items[0], rest);
      ItemsRoundTrip(items[1..], x);
    }
  }

  lemma {:induction false} EntriesRoundTrip(entries: Entries, owner: Value, x: Bytes)
    requires forall e | e in entries :: e.1 < owner && Valid(e.1)
    ensures DecodeEntries(EncodeEntries(entries, owner) + [E] + x) == Some((EntriesMeaning(entries), x))
    decreases owner, 0, |entries|
  {
    hide Decode, DecodeStr, Encode, EncodeStr;
    var s := EncodeEntries(entries, owner) + [E] + x;
    if entries != [] {
      var (key, item) := entries[0];
      var rest := EncodeEntries(entries[1..], owner) + [E] + x;
      assert s == EncodeStr(key) + (Encode(item) + rest);
      StrRoundTrip(key, Encode(item) + rest);
      RoundTrip(item, rest);
      EntriesRoundTrip(entries[1..], owner, x);
    }
  }

  // ----- sorting --------------------------------------------------------------------------

  ghost predicate Sorted(entries: Entries) {
    forall i, j :: 0 <= i < j < |entries| ==> Below(entries[i].0, entries[j].0)
  }

  lemma BelowTrichotomy(a: Bytes, b: Bytes)
    ensures !(Below(a, b) && Below(b, a))
    ensures a == b || Below(a, b) || Below(b, a)
    ensures !Below(a, a)
  {
    if a != [] && b != [] && a[0] == b[0] {
      BelowTrichotomy(a[1..], b[1..]);
      assert a == [a[0]] + a[1..] && b == [b[0]] + b[1..];
    }
    if a != [] {
      BelowTrichotomy(a[1..], a[1..]);
    }
  }

  lemma BelowTransitive(a: Bytes, b: Bytes, c: Bytes)
    requires Below(a, b) && Below(b, c)
    ensures Below(a, c)
  {
    if a != [] && a[0] == b[0] == c[0] {
      BelowTransitive(a[1..], b[1..], c[1..]);
    }
  }

  lemma InsertKeepsSorted(e: (Bytes, Value), entries: Entries)
    requires Sorted(entries) && forall x | x in entries :: x.0 != e.0
    ensures Sorted(Insert(e, entries)) && |Insert(e, entries)| == |entries| + 1
  {
    if entries != [] {
      BelowTrichotomy(entries[0].0, e.0);
      if Below(entries[0].0, e.0) {
        InsertKeepsSorted(e, entries[1..]);
        var r := Insert(e, entries[1..]);
        forall i | 0 <= i < |r| ensures Below(entries[0].0, r[i].0) {
          assert r[i] in r;
        }
      } else {
        forall i | 0 <= i < |entries| ensures Below(e.0, entries[i].0) {
          if i > 0 {
            BelowTransitive(e.0, entries[0].0, entries[i].0);
          }
        }
      }
    }
  }

  lemma {:induction false} SortKeepsDistinct(entries: Entries)
    requires DistinctKeys(entries)
    ensures Sorted(SortByKey(entries)) && DistinctKeys(SortByKey(entries))
    ensures |SortByKey(entries)| == |entries|
  {
    if entries != [] {
      SortKeepsDistinct(entries[1..]);
      InsertKeepsSorted(entries[0], SortByKey(entries[1..]));
    }
    var r := SortByKey(entries);
    forall i, j | 0 <= i < j < |r| ensures r[i].0 != r[j].0 {
      BelowTrichotomy(r[i].0, r[j].0);
    }
  }

  lemma {:induction false} MeaningKeys(entries: Entries, k: Bytes)
    requires forall e | e in entries :: Valid(e.1)
    ensures k in EntriesMeaning(entries) <==> exists i :: 0 <= i < |entries| && entries[i].0 == k
  {
    if entries != [] {
      MeaningKeys(entries[1..], k);
      forall i | 0 < i < |entries| && entries[i].0 == k ensures k in EntriesMeaning(entries) {
        assert entries[1..][i - 1].0 == k;
      }
    }
  }

  lemma {:induction false} MeaningAt(entries: Entries, i: nat)
    requires DistinctKeys(entries) && i < |entries|
    requires forall e | e in entries :: Valid(e.1)
    ensures entries[i].0 in EntriesMeaning(entries)
    ensures EntriesMeaning(entries)[entries[i].0] == MeaningOf(entries[i].1)
  {
    MeaningKeys(entries[1..], entries[0].0);
    if i > 0 {
      MeaningAt(entries[1..], i - 1);
    }
  }

  lemma SameEntriesSameMeaning(a: Entries, b: Entries)
    requires DistinctKeys(a) && DistinctKeys(b)
    requires forall e :: e in a <==> e in b
    requires forall e | e in a :: Valid(e.1)
    ensures EntriesMeaning(a) == EntriesMeaning(b)
  {
    forall k ensures k in EntriesMeaning(a) <==> k in EntriesMeaning(b) {
      MeaningKeys(a, k);
      MeaningKeys(b, k);
      if k in EntriesMeaning(a) {
        var i :| 0 <= i < |a| && a[i].0 == k;
        assert a[i] in b;
      }
      if k in EntriesMeaning(b) {
        var i :| 0 <= i < |b| && b[i].0 == k;
        assert b[i] in a;
      }
    }
    forall k | k in EntriesMeaning(a) ensures EntriesMeaning(a)[k] == EntriesMeaning(b)[k] {
      MeaningKeys(a, k);
      var i :| 0 <= i < |a| && a[i].0 == k;
      assert a[i] in b;
      var j :| 0 <= j < |b| && b[j] == a[i];
      MeaningAt(a, i);
      MeaningAt(b, j);
    }
  }

  // ----- the two main results -------------------------------------------------------------

  /** No encoding is a proper prefix of another, and equal encodings mean equal values. */
  lemma UniquelyDecodable(a: Value, b: Value, x: Bytes, y: Bytes)
    requires Valid(a) && Valid(b)
    requires Encode(a) + x == Encode(b) + y
    ensures MeaningOf(a) == MeaningOf(b) && x == y
  {
    RoundTrip(a, x);
    RoundTrip(b, y);
  }

  /** Values that compare equal, whatever the insertion orders inside them, encode alike:
      together with UniquelyDecodable, encodings are equal exactly when the values are. */
  lemma {:induction false} OrderIndependent(a: Value, b: Value)
    requires Valid(a) && Valid(b) && MeaningOf(a) == MeaningOf(b)
    ensures Encode(a) == Encode(b)
    decreases a, 1
  {
    match a
    case Int(_) =>
    case Str(_) =>
    case List(items) => ItemsOrderIndependent(items, b.items);
    case Dict(entries) =>
      var sa, sb := SortByKey(entries), SortByKey(b.entries);
      SortKeepsDistinct(entries);
      SortKeepsDistinct(b.entries);
      SameEntriesSameMeaning(sa, entries);
      SameEntriesSameMeaning(sb, b.entries);
      EntriesOrderIndependent(sa, a, sb, b);
  }

  /** Two values have the same encoding exactly when they mean the same: whatever the insertion
      order of their dicts, and however deep. */
  lemma SameEncodingIff(a: Value, b: Value)
    requires Valid(a) && Valid(b)
    ensures Encode(a) == Encode(b) <==> MeaningOf(a) == MeaningOf(b)
  {
    if Encode(a) == Encode(b) {
      UniquelyDecodable(a, b, [], []);
    }
    if MeaningOf(a) == MeaningOf(b) {
      OrderIndependent(a, b);
    }
  }

  lemma {:induction false} ItemsOrderIndependent(a: seq<Value>, b: seq<Value>)
    requires forall v | v in a :: Valid(v)
    requires forall v | v in b :: Valid(v)
    requires ItemsMeaning(a) == ItemsMeaning(b)
    ensures EncodeItems(a) == EncodeItems(b)
    decreases a, 0
  {
    if a != [] && b != [] {
      assert ItemsMeaning(a)[0] == ItemsMeaning(b)[0];
      assert ItemsMeaning(a)[1..] == ItemsMeaning(b)[1..];
      OrderIndependent(a[0], b[0]);
      ItemsOrderIndependent(a[1..], b[1..]);
    }
  }

  lemma {:induction false} EntriesOrderIndependent(a: Entries, ownerA: Value, b: Entries, ownerB: Value)
    requires forall e | e in a :: e.1 < ownerA && Valid(e.1)
    requires forall e | e in b :: e.1 < ownerB && Valid(e.1)
    requires Sorted(a) && Sorted(b) && DistinctKeys(a) && DistinctKeys(b)
    requires EntriesMeaning(a) == EntriesMeaning(b)
    ensures EncodeEntries(a, ownerA) == EncodeEntries(b, ownerB)
    decreases ownerA, 0, |a|
  {
    if a != [] && b != [] {
      SameHead(a, b);
      MeaningAt(a, 0);
      MeaningAt(b, 0);
      OrderIndependent(a[0].1, b[0].1);
      SameTail(a);
      SameTail(b);
      EntriesOrderIndependent(a[1..], ownerA, b[1..], ownerB);
    } else if a != [] {
      MeaningAt(a, 0);
    } else if b != [] {
      MeaningAt(b, 0);
    }
  }

  lemma SameHead(a: Entries, b: Entries)
    requires a != [] && b != [] && Sorted(a) && Sorted(b)
    requires forall e | e in a :: Valid(e.1)
    requires forall e | e in b :: Valid(e.1)
    requires EntriesMeaning(a) == EntriesMeaning(b)
    ensures a[0].0 == b[0].0
  {
    MeaningKeys(a, a[0].0);
    MeaningKeys(b, a[0].0);
    MeaningKeys(a, b[0].0);
    MeaningKeys(b, b[0].0);
    var i :| 0 <= i < |b| && b[i].0 == a[0].0;
    var j :| 0 <= j < |a| && a[j].0 == b[0].0;
    BelowTrichotomy(a[0].0, b[0].0);
  }

  lemma SameTail(a: Entries)
    requires a != [] && DistinctKeys(a) && forall e | e in a :: Valid(e.1)
    ensures EntriesMeaning(a[1..]) == EntriesMeaning(a) - {a[0].0}
  {
    MeaningKeys(a[1..], a[0].0);
  }

  // ----- the standard's own examples ------------------------------------------------------

  function Ascii(text: string): Bytes
    requires forall i :: 0 <= i < |text| ==> text[i] as int < 256
  {
    seq(|text|, i requires 0 <= i < |text| => text[i] as int)
  }

  /** In order of the first byte in which they differ, a prefix before what it is a prefix of. */
  ghost predicate Precedes(a: Bytes, b: Bytes) {
    exists k: nat :: k <= |a| && k < |b| && a[..k] == b[..k] && (k == |a| || a[k] < b[k])
  }

  lemma {:induction false} BelowPrecedes(a: Bytes, b: Bytes)
    requires Below(a, b)
    ensures Precedes(a, b)
  {
    if a == [] || a[0] < b[0] {
      assert a[..0] == b[..0];
    } else {
      BelowPrecedes(a[1..], b[1..]);
      var k: nat :| k <= |a[1..]| && k < |b[1..]| && a[1..][..k] == b[1..][..k]
                    && (k == |a[1..]| || a[1..][k] < b[1..][k]);
      assert a[..k + 1] == [a[0]] + a[1..][..k] && b[..k + 1] == [b[0]] + b[1..][..k];
    }
  }

  /** A dict is written entry by entry, its keys as strings in ascending order. */
  lemma KeysAscend(entries: Entries, i: nat, j: nat)
    requires DistinctKeys(entries) && i < j < |SortByKey(entries)|
    ensures Precedes(SortByKey(entries)[i].0, SortByKey(entries)[j].0)
  {
    SortKeepsDistinct(entries);
    BelowPrecedes(SortByKey(entries)[i].0, SortByKey(entries)[j].0);
  }

  lemma TwoItems(a: Value, b: Value)
    ensures EncodeItems([a, b]) == Encode(a) + Encode(b)
  {
    assert [a, b][1..] == [b] && |[b][1..]| == 0;
    assert EncodeItems([b]) == Encode(b) + EncodeItems([b][1..]);
  }

  lemma TwoEntries(a: (Bytes, Value), b: (Bytes, Value), owner: Value)
    requires a.1 < owner && b.1 < owner
    ensures EncodeEntries([a, b], owner) == EncodeStr(a.0) + Encode(a.1) + (EncodeStr(b.0) + Encode(b.1))
  {
    var last: Entries := [b];
    assert [a, b][1..] == last && |last[1..]| == 0;
    assert EncodeEntries(last, owner) == EncodeStr(b.0) + Encode(b.1) + EncodeEntries(last[1..], owner);
  }

  lemma ExampleNumbers()
    ensures Encode(Int(3)) == Ascii("i3e") && Encode(Int(-3)) == Ascii("i-3e") && Encode(Int(0)) == Ascii("i0e")
  {
    assert Digits(3) == [51] && Digits(0) == [48];
  }

  lemma ExampleStrings()
    ensures EncodeStr(Ascii("spam")) == Ascii("4:spam") && EncodeStr(Ascii("eggs")) == Ascii("4:eggs")
    ensures EncodeStr(Ascii("cow")) == Ascii("3:cow") && EncodeStr(Ascii("moo")) == Ascii("3:moo")
  {
    assert Digits(3) == [51] && Digits(4) == [52];
  }

  lemma ExampleTexts()
    ensures [L] + (Ascii("4:spam") + Ascii("4:eggs")) + [E] == Ascii("l4:spam4:eggse")
    ensures [D] + (Ascii("3:cow") + Ascii("3:moo") + (Ascii("4:spam") + Ascii("4:eggs"))) + [E]
         == Ascii("d3:cow3:moo4:spam4:eggse")
  {
  }

  lemma ExampleOrder(spam: (Bytes, Value), cow: (Bytes, Value))
    requires spam.0 == Ascii("spam") && cow.0 == Ascii("cow")
    ensures SortByKey([spam, cow]) == [cow, spam]
  {
    var last: Entries := [cow];
    assert [spam, cow][1..] == last && |last[1..]| == 0;
    assert SortByKey(last) == last;
    assert Below(cow.0, spam.0);
    assert Insert(spam, last) == [cow] + Insert(spam, last[1..]);
  }

  /** The examples of the standard's bencoding section, the dict with its entries the other way
      round. */
  lemma StandardExamples()
    ensures Encode(Int(3)) == Ascii("i3e") && Encode(Int(-3)) == Ascii("i-3e") && Encode(Int(0)) == Ascii("i0e")
    ensures Encode(Str(Ascii("spam"))) == Ascii("4:spam")
    ensures Encode(List([Str(Ascii("spam")), Str(Ascii("eggs"))])) == Ascii("l4:spam4:eggse")
    ensures Encode(Dict([(Ascii("spam"), Str(Ascii("eggs"))), (Ascii("cow"), Str(Ascii("moo")))]))
         == Ascii("d3:cow3:moo4:spam4:eggse")
  {
    hide Ascii, EncodeStr, EncodeItems, EncodeEntries, SortByKey, Decimal, Digits;
    ExampleNumbers();
    ExampleStrings();
    ExampleTexts();
    var spam, cow := (Ascii("spam"), Str(Ascii("eggs"))), (Ascii("cow"), Str(Ascii("moo")));
    TwoItems(Str(Ascii("spam")), Str(Ascii("eggs")));
    ExampleOrder(spam, cow);
    var entries: Entries := [spam, cow];
    assert spam in entries && cow in entries;
    assert forall e | e in entries :: e.1 < Dict(entries);
    TwoEntries(cow, spam, Dict(entries));
  }
}
