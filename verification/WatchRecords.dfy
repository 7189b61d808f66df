/**
 The records of change watching: how an event of the boundary becomes an inotify record in a
 read buffer, and how a reader of such a buffer gets the event back.
 */
module WatchRecords {
  import opened Basics
  import opened Words

  datatype Event = Event(watch: nat, events: nat, cookie: nat, name: seq<Byte>)

  const INT32_MAX: nat := 0x7FFFFFFF
  const WORD: nat := 0x1_0000_0000

  // Event bits

  /** One row of the translation table: the position of the bit on either side. */
  datatype Pair = Pair(native: nat, boundary: nat)

  /** watch_bits: access, modify, attributes, moved from, moved to, create, delete, overflow, removed, directory, only
      directory, no follow. */
  const WATCH_BITS: seq<Pair> := [
    Pair(0, 0), Pair(1, 1), Pair(2, 2), Pair(6, 3), Pair(7, 4), Pair(8, 5), Pair(9, 6), Pair(14, 7), Pair(15, 8),
    Pair(30, 9), Pair(24, 10), Pair(25, 11)]

  function Source(row: Pair, toBoundary: bool): nat { if toBoundary then row.native else row.boundary }

  function Target(row: Pair, toBoundary: bool): nat { if toBoundary then row.boundary else row.native }

  /** The bits that the rows of a table give, the first row first. */
  function Translated(bits: nat, toBoundary: bool, table: seq<Pair>): nat {
    if table == [] then 0
    else
      var (rows, row) := (table[..|table| - 1], table[|table| - 1]);
      var out := Translated(bits, toBoundary, rows);
      if And(bits, Pow2(Source(row, toBoundary))) != 0 then Or(out, Pow2(Target(row, toBoundary))) else out
  }

  function ToNative(bits: nat): nat { Translated(bits, false, WATCH_BITS) }

  function ToBoundary(bits: nat): nat { Translated(bits, true, WATCH_BITS) }

  /** watch_translate */
  method Translate(bits: nat, toBoundary: bool, table: seq<Pair>) returns (out: nat)
    ensures out == Translated(bits, toBoundary, table)
  {
    out := 0;
    for i := 0 to |table|
      invariant out == Translated(bits, toBoundary, table[..i])
    {
      var row := table[i];
      if And(bits, Pow2(Source(row, toBoundary))) != 0 { out := Or(out, Pow2(Target(row, toBoundary))); }
      assert table[..i + 1][..i] == table[..i];
    }
    assert table[..|table|] == table;
  }

  lemma {:induction false} TranslatedBit(bits: nat, toBoundary: bool, table: seq<Pair>, k: nat)
    ensures Bit(Translated(bits, toBoundary, table), k) <==>
            exists row :: row in table && Target(row, toBoundary) == k && Bit(bits, Source(row, toBoundary))
  {
    if table == [] {
      BitOfZero(k);
    } else {
      var (rows, row) := (table[..|table| - 1], table[|table| - 1]);
      assert table == rows + [row];
      TranslatedBit(bits, toBoundary, rows, k);
      AndTestsBit(bits, Source(row, toBoundary));
      BitOfOr(Translated(bits, toBoundary, rows), Pow2(Target(row, toBoundary)), k);
      BitOfPow2(Target(row, toBoundary), k);
    }
  }

  /** No two rows share a bit on either side. */
  ghost predicate OneToOne(table: seq<Pair>) {
    forall i, j :: 0 <= i < j < |table| ==> table[i].native != table[j].native && table[i].boundary != table[j].boundary
  }

  /** A bit survives the way there and back exactly when the table has a row for it. */
  lemma BitThereAndBack(bits: nat, toBoundary: bool, table: seq<Pair>, k: nat)
    requires OneToOne(table)
    ensures Bit(Translated(Translated(bits, toBoundary, table), !toBoundary, table), k) <==>
            Bit(bits, k) && exists row :: row in table && Source(row, toBoundary) == k
  {
    var there := Translated(bits, toBoundary, table);
    TranslatedBit(there, !toBoundary, table, k);
    forall row | row in table && Source(row, toBoundary) == k
      ensures Bit(there, Target(row, toBoundary)) <==> Bit(bits, k)
    {
      TranslatedBit(bits, toBoundary, table, Target(row, toBoundary));
    }
    assert forall row :: row in table ==> Target(row, !toBoundary) == Source(row, toBoundary);
  }

  /** The row of a native bit. */
  function NativeRow(k: nat): int {
    if k <= 2 then k else if k <= 9 then k - 3 else if k <= 15 then k - 7 else if k == 30 then 9 else k - 14
  }

  lemma TableIsOneToOne()
    ensures OneToOne(WATCH_BITS)
  {
    assert forall i :: 0 <= i < |WATCH_BITS| ==> WATCH_BITS[i].boundary == i && NativeRow(WATCH_BITS[i].native) == i;
  }

  lemma TableRow(k: nat)
    requires k < 12
    ensures exists row :: row in WATCH_BITS && Source(row, false) == k
  {
    var row := WATCH_BITS[k];
    assert row in WATCH_BITS && Source(row, false) == k;
  }

  /** Boundary bits go to inotify's and come back unchanged. */
  lemma BoundaryRoundTrip(bits: nat)
    requires bits < Pow2(12)
    ensures ToBoundary(ToNative(bits)) == bits
  {
    forall k: nat ensures Bit(ToBoundary(ToNative(bits)), k) <==> Bit(bits, k) {
      TableIsOneToOne();
      BitThereAndBack(bits, false, WATCH_BITS, k);
      if k >= 12 { HighBits(bits, 12, k); } else { TableRow(k); }
    }
    SameBits(ToBoundary(ToNative(bits)), bits);
  }

  /** Bits of inotify come back unchanged but for those without a counterpart. */
  lemma NativeRoundTrip(bits: nat, k: nat)
    ensures Bit(ToNative(ToBoundary(bits)), k) <==> Bit(bits, k) && k in {0, 1, 2, 6, 7, 8, 9, 14, 15, 24, 25, 30}
  {
    TableIsOneToOne();
    BitThereAndBack(bits, true, WATCH_BITS, k);
    NativeRows(k);
  }

  lemma NativeRows(k: nat)
    ensures (exists row :: row in WATCH_BITS && Source(row, true) == k) <==>
            k in {0, 1, 2, 6, 7, 8, 9, 14, 15, 24, 25, 30}
  {
    if k in {0, 1, 2, 6, 7, 8, 9, 14, 15, 24, 25, 30} {
      var i := NativeRow(k);
      assert WATCH_BITS[i] in WATCH_BITS && Source(WATCH_BITS[i], true) == k;
    }
  }

  lemma NativeBelow()
    ensures forall row :: row in WATCH_BITS ==> row.native < 32
  {
  }

  /** Every translated word is a 32-bit word. */
  lemma NativeIsWord(bits: nat)
    ensures ToNative(bits) < WORD
  {
    Pow2Values();
    forall k: nat | k >= 32 ensures !Bit(ToNative(bits), k) {
      TranslatedBit(bits, false, WATCH_BITS, k);
      NativeBelow();
    }
    LowWord(ToNative(bits), 32);
  }

  lemma {:induction false} LowWord(x: nat, w: nat)
    requires forall k: nat :: k >= w ==> !Bit(x, k)
    ensures x < Pow2(w)
  {
    if w == 0 {
      if x > 0 { var k := SomeBit(x); }
    } else {
      forall k: nat | k >= w - 1 ensures !Bit(x / 2, k) { assert !Bit(x, k + 1); }
      LowWord(x / 2, w - 1);
    }
  }

  // Records

  /** What the boundary lets through: a known kind, an overflow exactly when no watch is named, an entry name. */
  predicate Acceptable(e: Event) {
    && e.watch < WORD && e.events < WORD && e.cookie < WORD
    && And(e.events, 511) != 0 && And(e.events, Not(1023, 32)) == 0
    && (And(e.events, 128) != 0 <==> e.watch == 0)
    && |e.name| <= 255 && forall i :: 0 <= i < |e.name| ==> e.name[i] != 0 && e.name[i] != 47
  }

  /** In bits: some kind of event, nothing that is not reported, and the overflow bit exactly without a watch. */
  lemma AcceptableBits(e: Event)
    requires Acceptable(e)
    ensures e.events < 1024 && exists k: nat :: k < 9 && Bit(e.events, k)
    ensures Bit(e.events, 7) <==> e.watch == 0
  {
    Pow2Values();
    MaskClears(e.events, 1023, 10, 32);
    assert Pow2(7) == 128 && Pow2(9) == 512;
    AndTestsBit(e.events, 7);
    var k := SomeBit(And(e.events, 511));
    BitOfAnd(e.events, 511, k);
    if k >= 9 { HighBits(511, 9, k); }
  }

  function Little(x: nat): (r: seq<Byte>)
    ensures |r| == 4
  {
    [x % 256, x / 0x100 % 256, x / 0x10000 % 256, x / 0x1000000 % 256]
  }

  function Big(s: seq<Byte>): nat
    requires |s| >= 4
  {
    var (a: int, b: int, c: int, d: int) := (s[0], s[1], s[2], s[3]);
    a + b * 0x100 + c * 0x10000 + d * 0x1000000
  }

  lemma LittleBig(x: nat)
    requires x < WORD
    ensures Big(Little(x)) == x
  {
    var a := x / 0x100;
    var b := a / 0x100;
    assert x / 0x10000 == b && x / 0x1000000 == b / 0x100;
    assert x == a * 0x100 + x % 256 && a == b * 0x100 + a % 256 && b == (b / 0x100) * 0x100 + b % 256;
  }

  /** The length of the name field: empty, or whole words with at least one terminating zero and at most four. */
  function Padded(n: nat): (r: nat)
    ensures r % 4 == 0
    ensures if n == 0 then r == 0 else n < r <= n + 4
  {
    if n == 0 then 0 else (n + 4) / 4 * 4
  }

  /** `(name_length + 4) & ~3` is that length. */
  lemma MaskPads(n: nat)
    requires 0 < n <= 255
    ensures And(n + 4, Not(3, 32)) == Padded(n)
  {
    var x := n + 4;
    assert x - x % 4 == x / 4 * 4;
    Pow2Values();
    MaskClears(x, 3, 2, 32);
  }

  /** The watch descriptor as an unsigned word: -1 for no watch and for one that is no int32. */
  function Descriptor(watch: nat): nat { if watch == 0 || watch > INT32_MAX then WORD - 1 else watch }

  function Field(name: seq<Byte>, n: nat): seq<Byte> { name + Zeroes(if n >= |name| then n - |name| else 0) }

  function Header(e: Event): seq<Byte> {
    Little(Descriptor(e.watch)) + Little(ToNative(e.events)) + Little(e.cookie) + Little(Padded(|e.name|))
  }

  /** One record of watch_read. */
  function Encode(e: Event): seq<Byte> { Header(e) + Field(e.name, Padded(|e.name|)) }

  function EncodeAll(events: seq<Event>): seq<Byte> {
    if events == [] then [] else Encode(events[0]) + EncodeAll(events[1..])
  }

  lemma {:induction false} EncodeAllAppend(events: seq<Event>, e: Event)
    ensures EncodeAll(events + [e]) == EncodeAll(events) + Encode(e)
  {
    if events == [] {
      assert events + [e] == [e] && EncodeAll([e]) == Encode(e) + EncodeAll([]);
    } else {
      assert (events + [e])[1..] == events[1..] + [e];
      EncodeAllAppend(events[1..], e);
    }
  }

  // A reader of the buffer

  datatype Record = Record(wd: nat, mask: nat, cookie: nat, name: seq<Byte>)

  /** The bytes before the first zero. */
  function Text(s: seq<Byte>): seq<Byte> { if s == [] || s[0] == 0 then [] else [s[0]] + Text(s[1..]) }

  function NameLength(buffer: seq<Byte>): nat
    requires |buffer| >= 16
  {
    Big(buffer[12..16])
  }

  /** The record at the start of a buffer and what follows it. */
  function ParseOne(buffer: seq<Byte>): (r: Option<(Record, seq<Byte>)>)
    ensures r.Some? ==> |r.value.1| < |buffer|
  {
    if |buffer| < 16 || |buffer| < 16 + NameLength(buffer) then None
    else
      var length := NameLength(buffer);
      Some((Record(Big(buffer[0..4]), Big(buffer[4..8]), Big(buffer[8..12]), Text(buffer[16..16 + length])),
            buffer[16 + length..]))
  }

  function ParseAll(buffer: seq<Byte>): Option<seq<Record>>
    decreases |buffer|
  {
    if buffer == [] then Some([])
    else match ParseOne(buffer)
      case None => None
      case Some((r, rest)) =>
        match ParseAll(rest)
        case None => None
        case Some(more) => Some([r] + more)
  }

  /** What a record of an event says. */
  function View(e: Event): Record { Record(Descriptor(e.watch), ToNative(e.events), e.cookie, e.name) }

  /** The event that a record describes. */
  function Meaning(r: Record): Event {
    Event(if r.wd > INT32_MAX then 0 else r.wd, ToBoundary(r.mask), r.cookie, r.name)
  }

  lemma {:induction false} TextOfField(name: seq<Byte>, n: nat)
    requires forall i :: 0 <= i < |name| ==> name[i] != 0
    ensures Text(name + Zeroes(n)) == name
  {
    if name != [] {
      var s := name + Zeroes(n);
      assert s[0] == name[0] && s[1..] == name[1..] + Zeroes(n);
      TextOfField(name[1..], n);
    }
  }

  /** What the record format needs of an event. */
  ghost predicate Fits(e: Event) {
    e.watch < WORD && e.cookie < WORD && |e.name| <= 255 && forall i :: 0 <= i < |e.name| ==> e.name[i] != 0
  }

  lemma HeaderMeans(e: Event)
    requires Fits(e)
    ensures Big(Little(Descriptor(e.watch))) == Descriptor(e.watch)
    ensures Big(Little(ToNative(e.events))) == ToNative(e.events)
    ensures Big(Little(e.cookie)) == e.cookie
    ensures Big(Little(Padded(|e.name|))) == Padded(|e.name|)
  {
    NativeIsWord(e.events);
    LittleBig(Descriptor(e.watch));
    LittleBig(ToNative(e.events));
    LittleBig(e.cookie);
    LittleBig(Padded(|e.name|));
  }

  lemma HeaderWords(e: Event, rest: seq<Byte>)
    ensures var b := Header(e) + rest;
            && |b| == 16 + |rest| && b[16..] == rest
            && b[0..4] == Little(Descriptor(e.watch)) && b[4..8] == Little(ToNative(e.events))
            && b[8..12] == Little(e.cookie) && b[12..16] == Little(Padded(|e.name|))
  {
  }

  lemma ParseParts(b: seq<Byte>, r: Record, field: seq<Byte>, rest: seq<Byte>)
    requires |b| >= 16 && b[16..] == field + rest && Text(field) == r.name
    requires Big(b[0..4]) == r.wd && Big(b[4..8]) == r.mask && Big(b[8..12]) == r.cookie && Big(b[12..16]) == |field|
    ensures ParseOne(b) == Some((r, rest))
  {
    assert b[16..16 + |field|] == b[16..][..|field|] == field;
    assert b[16 + |field|..] == b[16..][|field|..] == rest;
  }

  lemma EncodedSize(e: Event)
    ensures |Field(e.name, Padded(|e.name|))| == Padded(|e.name|)
    ensures |Encode(e)| == 16 + Padded(|e.name|)
  {
  }

  lemma Join(h: seq<Byte>, f: seq<Byte>, rest: seq<Byte>)
    ensures (h + f) + rest == h + (f + rest)
  {
  }

  lemma HeaderParses(e: Event, field: seq<Byte>, rest: seq<Byte>)
    requires Fits(e) && |field| == Padded(|e.name|) && Text(field) == e.name
    ensures ParseOne(Header(e) + (field + rest)) == Some((View(e), rest))
  {
    HeaderWords(e, field + rest);
    HeaderMeans(e);
    ParseParts(Header(e) + (field + rest), View(e), field, rest);
  }

  /** Reading back a record gives what it says, and leaves what follows it. */
  lemma ParseEncoded(e: Event, rest: seq<Byte>)
    requires Fits(e)
    ensures ParseOne(Encode(e) + rest) == Some((View(e), rest))
  {
    var n := Padded(|e.name|);
    var field := Field(e.name, n);
    EncodedSize(e);
    TextOfField(e.name, n - |e.name|);
    HeaderParses(e, field, rest);
    Join(Header(e), field, rest);
  }

  /** An event comes back from its record; only a watch that no caller was given reads as none. */
  lemma MeaningOfView(e: Event)
    requires Acceptable(e)
    ensures Meaning(View(e)) == if e.watch <= INT32_MAX then e else e.(watch := 0)
  {
    AcceptableBits(e);
    Pow2Values();
    BoundaryRoundTrip(e.events);
  }

  function Views(events: seq<Event>): seq<Record> {
    if events == [] then [] else [View(events[0])] + Views(events[1..])
  }

  /** A buffer of records reads back as its events, all of them and in order. */
  lemma {:induction false} ParseEncodedAll(events: seq<Event>)
    requires forall e :: e in events ==> Fits(e)
    ensures ParseAll(EncodeAll(events)) == Some(Views(events))
  {
    if events != [] {
      ParseEncoded(events[0], EncodeAll(events[1..]));
      ParseEncodedAll(events[1..]);
    }
  }

  function Meanings(records: seq<Record>): seq<Event> {
    if records == [] then [] else [Meaning(records[0])] + Meanings(records[1..])
  }

  /** Records of watches that callers know mean the events they were made from. */
  lemma {:induction false} MeaningsOfViews(events: seq<Event>)
    requires forall e :: e in events ==> Acceptable(e) && e.watch <= INT32_MAX
    ensures Meanings(Views(events)) == events
  {
    if events != [] {
      MeaningOfView(events[0]);
      MeaningsOfViews(events[1..]);
    }
  }
}
