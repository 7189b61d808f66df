/**
 CopyFile: the content of one open file from its cursor on goes to another, through a provider
 that may move fewer bytes than asked for in every single call.
 */
module CopyFile {
  import opened Basics

  const CHUNK: nat := 64 * 1024
  const I64_MAX: nat := 0x7FFF_FFFF_FFFF_FFFF
  const EBADF: nat := 9
  const EACCES: nat := 13
  const EIO: nat := 5
  const EINVAL: nat := 22
  const ENOMEM: nat := 12
  const ENOTSUP: nat := 95

  class File {
    var content: seq<Byte>

    constructor (bytes: seq<Byte>)
      ensures content == bytes
    {
      content := bytes;
    }
  }

  /** The file part of an sn_object. */
  class Handle {
    const file: File
    const readable: bool
    const writable: bool
    const synchronous: bool
    var position: nat

    constructor (f: File, r: bool, w: bool, s: bool)
      ensures file == f && readable == r && writable == w && synchronous == s && position == 0
    {
      file, readable, writable, synchronous, position := f, r, w, s, 0;
    }
  }

  /** What a provider says about one transfer. */
  datatype Answer = Refused(error: nat) | Moved(count: nat)

  /** The provider's answers by call: reads are asked with what is left of the file and the capacity, writes with the
      size; flush answers with an error, or 0. */
  datatype Provider = Provider(read: (nat, nat, nat) -> Answer, write: (nat, nat) -> Answer, flush: nat -> nat)

  /** The contract of read_at: what it moves is there, and nothing moves at the end only. */
  ghost predicate Truthful(p: Provider) {
    forall call, left, capacity :: capacity > 0 && p.read(call, left, capacity).Moved? ==>
      var count := p.read(call, left, capacity).count;
      count > capacity || (count <= left && (count == 0 <==> left == 0))
  }

  /** A provider that refuses nothing it is asked for properly. */
  ghost predicate Willing(p: Provider) {
    && (forall call, left, capacity :: capacity > 0 ==>
          p.read(call, left, capacity).Moved? && p.read(call, left, capacity).count <= capacity)
    && (forall call, size :: size > 0 ==> p.write(call, size).Moved? && 0 < p.write(call, size).count <= size)
    && (forall call :: p.flush(call) == 0)
  }

  // Content

  /** The content after one byte was written at `at`; a gap before it reads as zeroes. */
  function Put(content: seq<Byte>, at: nat, x: Byte): seq<Byte> {
    if at < |content| then content[at := x] else content + Zeroes(at - |content|) + [x]
  }

  /** The content after `data` was written at `at`. */
  function Overwrite(content: seq<Byte>, at: nat, data: seq<Byte>): seq<Byte>
    decreases |data|
  {
    if data == [] then content else Overwrite(Put(content, at, data[0]), at + 1, data[1..])
  }

  /** Byte by byte: the data where it was written, zeroes in a gap, everything else as it was, and no other length than
      that takes. */
  lemma {:induction false} OverwriteAt(content: seq<Byte>, at: nat, data: seq<Byte>, i: nat)
    requires data != []
    ensures |Overwrite(content, at, data)| == if at + |data| > |content| then at + |data| else |content|
    ensures i < |Overwrite(content, at, data)| ==>
              Overwrite(content, at, data)[i] ==
              if at <= i < at + |data| then data[i - at] else if i < |content| then content[i] else 0
    decreases |data|
  {
    if |data| > 1 { OverwriteAt(Put(content, at, data[0]), at + 1, data[1..], i); }
  }

  /** Writing in pieces, each where the last one ended, is writing at once. */
  lemma {:induction false} OverwriteAppend(content: seq<Byte>, at: nat, a: seq<Byte>, b: seq<Byte>)
    ensures Overwrite(Overwrite(content, at, a), at + |a|, b) == Overwrite(content, at, a + b)
    decreases |a|
  {
    if a == [] {
      assert a + b == b;
    } else {
      OverwriteAppend(Put(content, at, a[0]), at + 1, a[1..], b);
      assert (a + b)[1..] == a[1..] + b;
    }
  }

  /** The content got the first `count` bytes of the data. */
  ghost predicate CopiedPart(before: seq<Byte>, at: nat, data: seq<Byte>, after: seq<Byte>, count: nat) {
    count <= |data| && after == Overwrite(before, at, data[..count])
  }

  // Transfers

  /** file_read: the bytes, or an error */
  method FileRead(h: Handle, answer: Answer, capacity: nat, offset: nat) returns (error: nat, data: seq<Byte>)
    requires capacity > 0
    requires answer.Moved? && answer.count <= capacity && offset <= |h.file.content| ==>
               answer.count <= |h.file.content| - offset
    requires answer.Moved? && answer.count <= capacity && offset > |h.file.content| ==> answer.count == 0
    ensures error != 0 ==> data == []
    ensures error == 0 ==> answer.Moved? && answer.count <= capacity && |data| == answer.count
    ensures error == 0 && offset <= |h.file.content| ==> data == h.file.content[offset..offset + |data|]
    ensures h.readable && offset <= I64_MAX && answer.Moved? && answer.count <= capacity ==> error == 0
  {
    if !h.readable { return EBADF, []; }
    if offset > I64_MAX { return EINVAL, []; }
    match answer
    case Refused(e) => return if e != 0 then e else EIO, [];
    case Moved(count) =>
      if count > capacity { return EIO, []; }
      return 0, if offset <= |h.file.content| then h.file.content[offset..offset + count] else [];
  }

  /** file_write: how much went to the file and whether it counts; after a failed flush it went there but does not. */
  method FileWrite(h: Handle, data: seq<Byte>, answer: Answer, flush: nat, offset: nat)
    returns (error: nat, written: nat, ghost stored: nat)
    requires data != []
    modifies h.file
    ensures CopiedPart(old(h.file.content), offset, data, h.file.content, stored)
    ensures error == 0 ==> 0 < written == stored && offset + |data| <= I64_MAX
    ensures h.writable && offset + |data| <= I64_MAX && answer.Moved? && 0 < answer.count <= |data| && flush == 0 ==>
              error == 0
  {
    stored, written := 0, 0;
    if !h.writable { return EBADF, 0, 0; }
    if offset > I64_MAX || offset + |data| > I64_MAX { return EINVAL, 0, 0; }
    match answer
    case Refused(e) => return if e != 0 then e else EIO, 0, 0;
    case Moved(count) =>
      if count == 0 || count > |data| { return EIO, 0, 0; }
      h.file.content := Overwrite(h.file.content, offset, data[..count]);
      stored := count;
      if h.synchronous && flush != 0 { return flush, 0, count; }
      return 0, count, count;
  }

  /** The times and the permission bits: what may fail the call after the content was copied. */
  datatype Attributes = NoStatus | Status(mode: nat, setTimes: Option<nat>, setMode: Option<nat>)

  /** A provider without the operation, or a target that refuses it, is no failure. */
  predicate Harmless(error: nat) { error == 0 || error == ENOTSUP || error == EACCES }

  function AttributeError(a: Attributes): nat {
    match a
    case NoStatus => 0
    case Status(mode, setTimes, setMode) =>
      var times := if setTimes.Some? then setTimes.value else ENOTSUP;
      var changed :=
        if Harmless(times) then if setMode.Some? && mode != 0 then setMode.value else ENOTSUP
        else times;
      if Harmless(changed) then 0 else changed
  }

  /** What is left of a file from its cursor. */
  function From(content: seq<Byte>, position: nat): seq<Byte> {
    if position <= |content| then content[position..] else []
  }

  lemma CopiedMore(before: seq<Byte>, at: nat, data: seq<Byte>, after: seq<Byte>, count: nat, more: nat)
    requires CopiedPart(before, at, data, after, count) && count + more <= |data|
    ensures CopiedPart(before, at, data, Overwrite(after, at + count, data[count..count + more]), count + more)
  {
    OverwriteAppend(before, at, data[..count], data[count..count + more]);
    assert data[..count] + data[count..count + more] == data[..count + more];
  }

  lemma CopiedChunk(before: seq<Byte>, at: nat, data: seq<Byte>, content: seq<Byte>, count: nat, chunk: seq<Byte>,
                    after: seq<Byte>, part: nat)
    requires CopiedPart(before, at, data, content, count)
    requires count + |chunk| <= |data| && chunk == data[count..count + |chunk|]
    requires CopiedPart(content, at + count, chunk, after, part)
    ensures CopiedPart(before, at, data, after, count + part)
  {
    assert chunk[..part] == data[count..count + part];
    CopiedMore(before, at, data, content, count, part);
  }

  lemma CopiedAll(before: seq<Byte>, at: nat, data: seq<Byte>, after: seq<Byte>)
    ensures CopiedPart(before, at, data, before, 0)
    ensures CopiedPart(before, at, data, after, |data|) ==> after == Overwrite(before, at, data)
  {
    assert data[..0] == [] && data[..|data|] == data;
  }

  /** One turn of the inner loop: what is left of the chunk is offered to the destination. */
  method WriteTurn(d: Handle, chunk: seq<Byte>, done: nat, p: Provider, call: nat, ghost before: seq<Byte>,
                   ghost at: nat)
    returns (error: nat, put: nat, ghost stored: nat)
    requires done < |chunk| && d.position == at + done && CopiedPart(before, at, chunk, d.file.content, done)
    modifies d`position, d.file
    ensures done <= stored && CopiedPart(before, at, chunk, d.file.content, stored)
    ensures error == 0 ==> 0 < put && stored == done + put && d.position == at + stored <= I64_MAX
    ensures Willing(p) && d.writable && at + |chunk| <= I64_MAX ==> error == 0
  {
    var left := chunk[done..];
    ghost var content := d.file.content;
    ghost var part;
    error, put, part := FileWrite(d, left, p.write(call, |left|), p.flush(call), d.position);
    CopiedChunk(before, at, chunk, content, done, left, d.file.content, part);
    stored := done + part;
    if error == 0 { d.position := d.position + put; }
  }

  /** The inner loop: all of one chunk goes to the destination, in as many writes as the provider takes. */
  method WriteChunk(d: Handle, chunk: seq<Byte>, p: Provider, call: nat)
    returns (error: nat, next: nat, ghost stored: nat)
    modifies d`position, d.file
    ensures CopiedPart(old(d.file.content), old(d.position), chunk, d.file.content, stored)
    ensures error == 0 ==> stored == |chunk| && d.position == old(d.position) + |chunk|
    ensures error == 0 && chunk != [] ==> d.position <= I64_MAX
    ensures Willing(p) && d.writable && old(d.position) + |chunk| <= I64_MAX ==> error == 0
  {
    error, next, stored := 0, call, 0;
    ghost var before, at := d.file.content, d.position;
    var done := 0;
    CopiedAll(before, at, chunk, before);
    while done < |chunk| && error == 0
      invariant done <= |chunk| && CopiedPart(before, at, chunk, d.file.content, stored)
      invariant error == 0 ==> stored == done && d.position == at + done
      invariant error == 0 && done > 0 ==> d.position <= I64_MAX
      invariant Willing(p) && d.writable && at + |chunk| <= I64_MAX ==> error == 0
      decreases |chunk| - done, error == 0
    {
      var put;
      error, put, stored := WriteTurn(d, chunk, done, p, next, before, at);
      next := next + 1;
      if error == 0 { done := done + put; }
    }
  }

  /** The provider may answer a read of a whole chunk so, with this much left. */
  ghost predicate ReadsAs(p: Provider, left: nat, count: nat) {
    exists call :: p.read(call, left, CHUNK) == Moved(count)
  }

  /** One chunk of what the source has left, empty only at its end. */
  method ReadChunk(s: Handle, p: Provider, call: nat) returns (error: nat, chunk: seq<Byte>)
    requires Truthful(p)
    modifies s`position
    ensures chunk <= From(s.file.content, old(s.position)) && s.position == old(s.position) + |chunk|
    ensures error == 0 && chunk == [] ==> From(s.file.content, old(s.position)) == []
    ensures error != 0 ==> chunk == []
    ensures error == 0 ==> ReadsAs(p, |From(s.file.content, old(s.position))|, |chunk|)
    ensures Willing(p) && s.readable && old(s.position) <= I64_MAX ==> error == 0
  {
    var left := if s.position <= |s.file.content| then |s.file.content| - s.position else 0;
    error, chunk := FileRead(s, p.read(call, left, CHUNK), CHUNK, s.position);
    s.position := s.position + |chunk|;
  }

  /** What the two handles show at one moment: the contents of their files and their cursors. */
  datatype View = View(source: seq<Byte>, destination: seq<Byte>, read: nat, written: nat)

  ghost function Seen(s: Handle, d: Handle): View
    reads s, d, s.file, d.file
  {
    View(s.file.content, d.file.content, s.position, d.position)
  }

  /** What a turn that read `chunk` and stored `part` of it does to the view. With one handle (`one`) the write begins
      where the read ended. */
  ghost predicate Turned(one: bool, a: View, b: View, chunk: seq<Byte>, part: nat, error: nat, atEnd: bool) {
    && chunk <= From(a.source, a.read)
    && CopiedPart(a.destination, a.written + (if one then |chunk| else 0), chunk, b.destination, part)
    && (error == 0 ==>
          && part == |chunk| && (atEnd <==> chunk == []) && (atEnd ==> From(a.source, a.read) == [])
          && b.written == a.written + (if one then 2 * |chunk| else |chunk|)
          && b.read == (if one then b.written else a.read + |chunk|))
  }

  /** One turn of the outer loop: a chunk is read and written, or the source is at its end. The handles may be one,
      and so may their files; then what is written is part of what is read later. */
  method CopyTurn(s: Handle, d: Handle, p: Provider, call: nat)
    returns (error: nat, next: nat, atEnd: bool, ghost chunk: seq<Byte>, ghost part: nat)
    requires Truthful(p)
    modifies s`position, d`position, d.file
    ensures Turned(s == d, old(Seen(s, d)), Seen(s, d), chunk, part, error, atEnd)
    ensures error == 0 && !atEnd ==> Room(d.position) < old(Room(d.position))
    ensures Willing(p) && s != d && s.readable && d.writable && old(s.position) <= I64_MAX ==>
              (old(d.position) + |chunk| <= I64_MAX ==> error == 0)
    ensures Willing(p) && s == d && s.readable && d.writable && old(s.position) <= I64_MAX ==>
              (old(s.position) + 2 * |chunk| <= I64_MAX ==> error == 0)
    ensures chunk != [] ==> ReadsAs(p, |From(old(s.file.content), old(s.position))|, |chunk|)
  {
    var bytes;
    error, bytes := ReadChunk(s, p, call);
    next, atEnd, chunk, part := call + 1, error == 0 && bytes == [], bytes, 0;
    CopiedAll(d.file.content, d.position, bytes, d.file.content);
    if bytes != [] { error, next, part := WriteChunk(d, bytes, p, next); }
  }

  /** How many bytes the boundary still lets the destination's cursor move. */
  function Room(position: nat): nat { if position <= I64_MAX then I64_MAX - position else 0 }

  // Whole copies

  /** Handles between which the copy is what it promises: there is nothing to copy, or they are two, and their files
      differ or the destination's cursor is not ahead of the source's. */
  ghost predicate Sound(one: bool, same: bool, start: nat, at: nat, data: seq<Byte>) {
    data == [] || (!one && (!same || at <= start))
  }

  /** Nothing stands in the way of the copy: open modes, a willing provider, and offsets that the boundary takes. */
  ghost predicate Unhindered(s: Handle, d: Handle, p: Provider, start: nat, at: nat, data: seq<Byte>) {
    Willing(p) && s.readable && d.writable && start + |data| <= I64_MAX && at + |data| <= I64_MAX
  }

  lemma FromLater(content: seq<Byte>, position: nat, count: nat)
    requires count <= |From(content, position)|
    ensures From(content, position + count) == From(content, position)[count..]
  {
  }

  /** What lies behind a write is as it was. */
  lemma TailKept(content: seq<Byte>, at: nat, data: seq<Byte>, position: nat)
    requires at + |data| <= position
    ensures From(Overwrite(content, at, data), position) == From(content, position)
  {
    if data != [] {
      var after := Overwrite(content, at, data);
      OverwriteAt(content, at, data, 0);
      if position <= |content| {
        forall i | position <= i < |after| ensures after[i] == content[i] { OverwriteAt(content, at, data, i); }
      }
    }
  }

  /** Reading on after a chunk: what is left of the source is what was left, less the chunk, in one file or two. */
  lemma LeftAfter(before: seq<Byte>, after: seq<Byte>, same: bool, start: nat, at: nat, chunk: seq<Byte>)
    requires chunk <= From(before, start)
    requires if same then at <= start && after == Overwrite(before, at, chunk) else after == before
    ensures From(after, start + |chunk|) == From(before, start)[|chunk|..]
  {
    FromLater(before, start, |chunk|);
    if same { TailKept(before, at, chunk, start + |chunk|); }
  }

  lemma ChunkOf(data: seq<Byte>, stored: nat, chunk: seq<Byte>)
    requires stored <= |data| && chunk <= data[stored..]
    ensures stored + |chunk| <= |data| && chunk == data[stored..stored + |chunk|]
    ensures data[stored..][|chunk|..] == data[stored + |chunk|..]
  {
    assert chunk == data[stored..][..|chunk|];
  }

  /** What a turn of a sound copy stores: `was` and `now` are the destination's content. */
  lemma StoredAfter(before: seq<Byte>, at: nat, data: seq<Byte>, stored: nat, was: seq<Byte>, chunk: seq<Byte>,
                    part: nat, now: seq<Byte>)
    requires CopiedPart(before, at, data, was, stored)
    requires chunk <= data[stored..] && CopiedPart(was, at + stored, chunk, now, part)
    ensures CopiedPart(before, at, data, now, stored + part)
  {
    ChunkOf(data, stored, chunk);
    CopiedChunk(before, at, data, was, stored, chunk, now, part);
  }

  /** What it leaves to be read: `source` and `later` are the source's content. */
  lemma RestAfter(same: bool, position: nat, at: nat, rest: seq<Byte>, was: seq<Byte>, source: seq<Byte>,
                  chunk: seq<Byte>, now: seq<Byte>, later: seq<Byte>)
    requires From(source, position) == rest && chunk <= rest && CopiedPart(was, at, chunk, now, |chunk|)
    requires if same then source == was && later == now && (at <= position || chunk == []) else later == source
    ensures From(later, position + |chunk|) == rest[|chunk|..]
  {
    CopiedAll(was, at, chunk, now);
    if chunk == [] {
      assert later == source;
    } else {
      LeftAfter(source, later, same, position, at, chunk);
    }
  }

  /** A sound copy between turns: this much is stored, both cursors are there, and the rest is still to be read. */
  ghost predicate SoundAt(v: View, start: nat, at: nat, data: seq<Byte>, before: seq<Byte>, stored: nat) {
    && CopiedPart(before, at, data, v.destination, stored)
    && v.read == start + stored && v.written == at + stored && From(v.source, v.read) == data[stored..]
  }

  lemma SoundOn(one: bool, same: bool, start: nat, at: nat, data: seq<Byte>, before: seq<Byte>, stored: nat, a: View,
                b: View, chunk: seq<Byte>, part: nat, error: nat, atEnd: bool)
    requires SoundAt(a, start, at, data, before, stored) && Turned(one, a, b, chunk, part, error, atEnd)
    requires Linked(same, a) && Linked(same, b) && (!same ==> b.source == a.source) && (one ==> a.read == a.written)
    requires Sound(one, same, start, at, data)
    ensures CopiedPart(before, at, data, b.destination, stored + part)
    ensures error == 0 ==> SoundAt(b, start, at, data, before, stored + part) && (atEnd ==> stored == |data|)
  {
    ChunkOf(data, stored, chunk);
    StoredAfter(before, at, data, stored, a.destination, chunk, part, b.destination);
    if error == 0 {
      RestAfter(same, a.read, a.written, data[stored..], a.destination, a.source, chunk, b.destination, b.source);
    }
  }

  /** One file has one content. */
  ghost predicate Linked(same: bool, v: View) { same ==> v.source == v.destination }

  lemma LongerAfter(was: seq<Byte>, at: nat, chunk: seq<Byte>, now: seq<Byte>, part: nat)
    requires CopiedPart(was, at, chunk, now, part)
    ensures |now| >= |was| && (part > 0 ==> |now| >= at + part)
  {
    if part > 0 { OverwriteAt(was, at, chunk[..part], 0); }
  }

  /** The destination holds all of the data, and its cursor is behind it. */
  ghost predicate Whole(before: seq<Byte>, at: nat, data: seq<Byte>, after: seq<Byte>, position: nat) {
    after == Overwrite(before, at, data) && position == at + |data|
  }

  /** The writer is ahead of the reader in one file, so there is always something to read. */
  ghost predicate Chased(v: View, start: nat, at: nat) {
    && start < at && v.read < |v.source| && v.read - start == v.written - at >= 0
    && (v.written > at ==> |v.source| >= v.written)
  }

  lemma ChasedOn(start: nat, at: nat, a: View, b: View, chunk: seq<Byte>, part: nat, error: nat, atEnd: bool)
    requires Chased(a, start, at) && Turned(false, a, b, chunk, part, error, atEnd) && error == 0
    requires Linked(true, a) && Linked(true, b)
    ensures !atEnd && Chased(b, start, at)
  {
    LongerAfter(a.destination, a.written, chunk, b.destination, part);
  }

  /** How far the copy has come. A sound one has stored this much, both cursors are there, and the rest is still to be
      read; one onto the same file ahead of the reader has no end; one with a single cursor never shortens the file. */
  ghost predicate Going(one: bool, same: bool, v: View, start: nat, at: nat, data: seq<Byte>, before: seq<Byte>,
                        stored: nat, error: nat, atEnd: bool) {
    && (Sound(one, same, start, at, data) ==>
          && CopiedPart(before, at, data, v.destination, stored)
          && (error == 0 ==> SoundAt(v, start, at, data, before, stored) && (atEnd ==> stored == |data|)))
    && (!one && !Sound(one, same, start, at, data) && error == 0 ==> !atEnd && Chased(v, start, at))
    && (one ==> |v.destination| >= |before| && (error == 0 ==> v.read == v.written && (atEnd ==> v.read >= |before|)))
  }

  /** A turn of the outer loop brings the copy on. */
  lemma GoingOn(one: bool, same: bool, start: nat, at: nat, data: seq<Byte>, before: seq<Byte>, stored: nat, a: View,
                b: View, chunk: seq<Byte>, part: nat, error: nat, atEnd: bool)
    requires Going(one, same, a, start, at, data, before, stored, 0, false)
    requires Turned(one, a, b, chunk, part, error, atEnd) && (one ==> same)
    requires Linked(same, a) && Linked(same, b) && (!same ==> b.source == a.source)
    ensures Going(one, same, b, start, at, data, before, stored + part, error, atEnd)
  {
    if one { LongerAfter(a.destination, a.written + |chunk|, chunk, b.destination, part); }
    if Sound(one, same, start, at, data) {
      SoundOn(one, same, start, at, data, before, stored, a, b, chunk, part, error, atEnd);
    } else if !one && error == 0 {
      ChasedOn(start, at, a, b, chunk, part, error, atEnd);
    }
  }

  // One handle as source and destination

  /** A stretch that is read is written again right behind itself, over what has not been read. */
  function EchoOne(content: seq<Byte>, position: nat, size: nat): (seq<Byte>, nat) {
    var left := From(content, position);
    (Overwrite(content, position + size, left[..Min(size, |left|)]), position + 2 * size)
  }

  /** The file and the cursor after these reads, each of which begins where the last write ended. */
  function Echo(before: seq<Byte>, start: nat, sizes: seq<nat>): (seq<Byte>, nat)
    decreases |sizes|
  {
    if sizes == [] then (before, start)
    else
      var e := Echo(before, start, sizes[..|sizes| - 1]);
      EchoOne(e.0, e.1, sizes[|sizes| - 1])
  }

  /** The provider may make a read of this size here. */
  ghost predicate AnsweredOne(p: Provider, content: seq<Byte>, position: nat, size: nat) {
    0 < size <= |From(content, position)| && ReadsAs(p, |From(content, position)|, size)
  }

  /** Each of the reads is one that the provider may make of what is then left. */
  ghost predicate Answered(p: Provider, before: seq<Byte>, start: nat, sizes: seq<nat>)
    decreases |sizes|
  {
    sizes == [] ||
    var e := Echo(before, start, sizes[..|sizes| - 1]);
    Answered(p, before, start, sizes[..|sizes| - 1]) && AnsweredOne(p, e.0, e.1, sizes[|sizes| - 1])
  }

  lemma EchoMore(p: Provider, before: seq<Byte>, start: nat, sizes: seq<nat>, size: nat)
    requires var e := Echo(before, start, sizes); Answered(p, before, start, sizes) && AnsweredOne(p, e.0, e.1, size)
    ensures Answered(p, before, start, sizes + [size])
    ensures var e := Echo(before, start, sizes); Echo(before, start, sizes + [size]) == EchoOne(e.0, e.1, size)
  {
    assert (sizes + [size])[..|sizes|] == sizes;
  }

  lemma EchoOneAhead(before: seq<Byte>, content: seq<Byte>, position: nat, size: nat)
    requires From(content, position) == From(before, position) && 0 < size <= |From(content, position)|
    ensures var e := EchoOne(content, position, size); var left := |From(content, position)|;
            From(e.0, e.1) == From(before, e.1) && |From(e.0, e.1)| == if 2 * size <= left then left - 2 * size else 0
  {
    TailKept(content, position + size, From(content, position)[..size], position + 2 * size);
    if 2 * size <= |From(content, position)| {
      FromLater(content, position, 2 * size);
      FromLater(before, position, 2 * size);
    }
  }

  /** What is left to be read is what was there before the copy: nothing is read that the copy wrote. The cursor stays
      within twice the data. */
  lemma {:induction false} EchoAhead(p: Provider, before: seq<Byte>, start: nat, sizes: seq<nat>)
    requires Answered(p, before, start, sizes)
    ensures var e := Echo(before, start, sizes);
            && From(e.0, e.1) == From(before, e.1) && start <= e.1
            && e.1 + 2 * |From(e.0, e.1)| <= start + 2 * |From(before, start)|
    decreases |sizes|
  {
    if sizes != [] {
      EchoAhead(p, before, start, sizes[..|sizes| - 1]);
      var e := Echo(before, start, sizes[..|sizes| - 1]);
      EchoOneAhead(before, e.0, e.1, sizes[|sizes| - 1]);
    }
  }

  /** A copy that failed may have written part of what it read last. */
  ghost predicate EchoPart(content: seq<Byte>, position: nat, after: seq<Byte>, chunk: seq<Byte>, part: nat) {
    chunk <= From(content, position) && CopiedPart(content, position + |chunk|, chunk, after, part)
  }

  /** What one handle has made of its file by these reads. */
  ghost predicate Echoed(p: Provider, before: seq<Byte>, start: nat, sizes: seq<nat>, after: seq<Byte>, position: nat,
                         error: nat) {
    var e := Echo(before, start, sizes);
    && Answered(p, before, start, sizes)
    && if error == 0 then (after, position) == e else exists chunk, part :: EchoPart(e.0, e.1, after, chunk, part)
  }

  lemma EchoStays(p: Provider, before: seq<Byte>, start: nat, sizes: seq<nat>, after: seq<Byte>, position: nat,
                  error: nat)
    requires Echoed(p, before, start, sizes, after, position, 0)
    ensures Echoed(p, before, start, sizes, after, position, error)
  {
    CopiedAll(after, position, [], after);
    assert EchoPart(after, position, after, [], 0);
  }

  lemma TurnedEcho(a: View, b: View, chunk: seq<Byte>, part: nat, atEnd: bool)
    requires Turned(true, a, b, chunk, part, 0, atEnd) && Linked(true, a) && a.read == a.written && chunk != []
    ensures (b.destination, b.read) == EchoOne(a.destination, a.read, |chunk|)
  {
    assert From(a.destination, a.read)[..|chunk|] == chunk;
    CopiedAll(a.destination, a.written + |chunk|, chunk, b.destination);
  }

  lemma FailedEcho(a: View, b: View, chunk: seq<Byte>, part: nat, error: nat, atEnd: bool)
    requires Turned(true, a, b, chunk, part, error, atEnd) && Linked(true, a) && a.read == a.written
    ensures EchoPart(a.destination, a.read, b.destination, chunk, part)
  {
  }

  lemma EndedEcho(a: View, b: View, part: nat, atEnd: bool)
    requires Turned(true, a, b, [], part, 0, atEnd) && a.read == a.written
    ensures (b.destination, b.read) == (a.destination, a.read)
  {
    CopiedAll(a.destination, a.written, [], b.destination);
  }

  lemma EchoFails(p: Provider, before: seq<Byte>, start: nat, sizes: seq<nat>, content: seq<Byte>, position: nat,
                  after: seq<Byte>, position': nat, chunk: seq<Byte>, part: nat, error: nat)
    requires Echoed(p, before, start, sizes, content, position, 0) && error != 0
    requires EchoPart(content, position, after, chunk, part)
    ensures Echoed(p, before, start, sizes, after, position', error)
  {
  }

  lemma EchoGrows(p: Provider, before: seq<Byte>, start: nat, sizes: seq<nat>, content: seq<Byte>, position: nat,
                  size: nat, after: seq<Byte>, position': nat)
    requires Echoed(p, before, start, sizes, content, position, 0) && AnsweredOne(p, content, position, size)
    requires (after, position') == EchoOne(content, position, size)
    ensures Echoed(p, before, start, sizes + [size], after, position', 0)
  {
    EchoMore(p, before, start, sizes, size);
  }

  /** The reads so far, with the one of a turn that stored what it read. */
  function Longer(sizes: seq<nat>, chunk: seq<Byte>, error: nat): seq<nat> {
    if error == 0 && chunk != [] then sizes + [|chunk|] else sizes
  }

  lemma EchoMoves(p: Provider, before: seq<Byte>, start: nat, sizes: seq<nat>, a: View, b: View, chunk: seq<Byte>,
                  part: nat, atEnd: bool)
    requires Echoed(p, before, start, sizes, a.destination, a.read, 0) && a.read == a.written && chunk != []
    requires Turned(true, a, b, chunk, part, 0, atEnd) && Linked(true, a)
    requires ReadsAs(p, |From(a.source, a.read)|, |chunk|)
    ensures Echoed(p, before, start, sizes + [|chunk|], b.destination, b.read, 0)
  {
    TurnedEcho(a, b, chunk, part, atEnd);
    EchoGrows(p, before, start, sizes, a.destination, a.read, |chunk|, b.destination, b.read);
  }

  lemma EchoOn(p: Provider, before: seq<Byte>, start: nat, sizes: seq<nat>, a: View, b: View, chunk: seq<Byte>,
               part: nat, error: nat, atEnd: bool)
    requires Echoed(p, before, start, sizes, a.destination, a.read, 0) && a.read == a.written
    requires Turned(true, a, b, chunk, part, error, atEnd) && Linked(true, a)
    requires chunk != [] ==> ReadsAs(p, |From(a.source, a.read)|, |chunk|)
    ensures Echoed(p, before, start, Longer(sizes, chunk, error), b.destination, b.read, error)
  {
    if error != 0 {
      FailedEcho(a, b, chunk, part, error, atEnd);
      EchoFails(p, before, start, sizes, a.destination, a.read, b.destination, b.read, chunk, part, error);
    } else if chunk == [] {
      EndedEcho(a, b, part, atEnd);
    } else {
      EchoMoves(p, before, start, sizes, a, b, chunk, part, atEnd);
    }
  }

  /** Nothing stands in the way of a copy with one handle. */
  ghost predicate Alone(h: Handle, p: Provider, start: nat, data: seq<Byte>) {
    Willing(p) && h.readable && h.writable && start + 2 * |data| <= I64_MAX
  }

  method CopyOn(s: Handle, d: Handle, p: Provider, call: nat, ghost start: nat, ghost at: nat, ghost data: seq<Byte>,
                ghost before: seq<Byte>, ghost stored: nat, ghost sizes: seq<nat>)
    returns (error: nat, next: nat, atEnd: bool, ghost more: nat, ghost sizes': seq<nat>)
    requires Truthful(p) && Going(s == d, s.file == d.file, Seen(s, d), start, at, data, before, stored, 0, false)
    requires s == d ==> data == From(before, start) && Echoed(p, before, start, sizes, d.file.content, s.position, 0)
    modifies s`position, d`position, d.file
    ensures Going(s == d, s.file == d.file, Seen(s, d), start, at, data, before, more, error, atEnd)
    ensures error == 0 && !atEnd ==> Room(d.position) < old(Room(d.position))
    ensures s != d && Sound(s == d, s.file == d.file, start, at, data) && Unhindered(s, d, p, start, at, data) ==>
              error == 0
    ensures s == d ==> Echoed(p, before, start, sizes', d.file.content, s.position, error)
    ensures s == d && error == 0 && atEnd ==> From(d.file.content, s.position) == []
    ensures s == d && Alone(s, p, start, data) ==> error == 0
  {
    ghost var was := Seen(s, d);
    ghost var chunk, part;
    error, next, atEnd, chunk, part := CopyTurn(s, d, p, call);
    GoingOn(s == d, s.file == d.file, start, at, data, before, stored, was, Seen(s, d), chunk, part, error, atEnd);
    if s != d && Sound(s == d, s.file == d.file, start, at, data) { ChunkOf(data, stored, chunk); }
    more, sizes' := stored + part, sizes;
    if s == d {
      EchoAhead(p, before, start, sizes);
      EchoOn(p, before, start, sizes, was, Seen(s, d), chunk, part, error, atEnd);
      sizes' := Longer(sizes, chunk, error);
    }
  }

  /** CopyFile between any two handles with no other user of their cursors. `buffered` says whether the buffer could
      be allocated. Between two handles the copy is whole exactly when it is sound: with nothing in the way it then
      succeeds, and otherwise, when a file is copied onto itself ahead of the reader, it never does. With one handle
      it makes an echo of the file by the reads of `sizes`. */
  method Copy(s: Handle, d: Handle, p: Provider, buffered: bool, attributes: Attributes)
    returns (error: nat, ghost stored: nat, ghost sizes: seq<nat>)
    requires Truthful(p)
    modifies s`position, d`position, d.file
    ensures var data := From(old(s.file.content), old(s.position));
            Sound(s == d, s.file == d.file, old(s.position), old(d.position), data) ==>
              CopiedPart(old(d.file.content), old(d.position), data, d.file.content, stored)
    ensures var data := From(old(s.file.content), old(s.position));
            Sound(s == d, s.file == d.file, old(s.position), old(d.position), data) && error == 0 ==>
              && Whole(old(d.file.content), old(d.position), data, d.file.content, d.position)
              && s.position == old(s.position) + |data|
    ensures var data := From(old(s.file.content), old(s.position));
            Sound(s == d, s.file == d.file, old(s.position), old(d.position), data) && buffered
            && Unhindered(s, d, p, old(s.position), old(d.position), data) && AttributeError(attributes) == 0 ==>
              error == 0
    ensures var data := From(old(s.file.content), old(s.position));
            s != d && !Sound(s == d, s.file == d.file, old(s.position), old(d.position), data) ==> error != 0
    ensures s == d ==> Echoed(p, old(s.file.content), old(s.position), sizes, s.file.content, s.position, error)
    ensures s == d && error == 0 ==> From(s.file.content, s.position) == [] && s.position >= old(|s.file.content|)
    ensures var data := From(old(s.file.content), old(s.position));
            s == d && buffered && Alone(s, p, old(s.position), data) && AttributeError(attributes) == 0 ==> error == 0
    ensures error == 0 ==> buffered && AttributeError(attributes) == 0
  {
    ghost var start, at, before := s.position, d.position, d.file.content;
    ghost var data := From(s.file.content, start);
    CopiedAll(before, at, data, before);
    EchoStays(p, before, start, [], before, start, ENOMEM);
    error, stored, sizes := if buffered then 0 else ENOMEM, 0, [];
    var call, atEnd := 0, false;
    while error == 0 && !atEnd
      invariant Going(s == d, s.file == d.file, Seen(s, d), start, at, data, before, stored, error, atEnd)
      invariant s == d ==> Echoed(p, before, start, sizes, d.file.content, s.position, error)
      invariant s == d && error == 0 && atEnd ==> From(d.file.content, s.position) == []
      invariant error == 0 ==> buffered
      invariant s != d && Sound(s == d, s.file == d.file, start, at, data) && buffered ==>
                  (Unhindered(s, d, p, start, at, data) ==> error == 0)
      invariant s == d && Alone(s, p, start, data) && buffered ==> error == 0
      decreases error == 0, !atEnd, Room(d.position)
    {
      error, call, atEnd, stored, sizes := CopyOn(s, d, p, call, start, at, data, before, stored, sizes);
    }
    CopiedAll(before, at, data, d.file.content);
    if error == 0 {
      error := AttributeError(attributes);
      if s == d { EchoStays(p, before, start, sizes, d.file.content, s.position, error); }
    }
  }

  /** A provider that reads byte by byte, and the last two bytes at once. */
  function Nibbling(): Provider {
    Provider((call: nat, left: nat, capacity: nat) => Moved(if left <= 2 && left <= capacity then left else 1),
             (call: nat, size: nat) => Moved(size), (call: nat) => 0)
  }

  lemma NibblingIsWilling()
    ensures Truthful(Nibbling()) && Willing(Nibbling())
  {
  }

  lemma NibblingReads(left: nat, count: nat)
    requires ReadsAs(Nibbling(), left, count)
    ensures count == if left <= 2 then left else 1
  {
  }

  lemma NibblingOne(before: seq<Byte>, content: seq<Byte>, position: nat, size: nat, end: nat)
    requires From(content, position) == From(before, position) && position + |From(content, position)| == end
    requires AnsweredOne(Nibbling(), content, position, size)
    ensures var e := EchoOne(content, position, size);
            if From(e.0, e.1) == [] then e.1 > end else e.1 + |From(e.0, e.1)| == end
  {
    EchoOneAhead(before, content, position, size);
    NibblingReads(|From(content, position)|, size);
  }

  /** With such a provider the cursor passes the end of the data whenever there is any. */
  lemma {:induction false} NibblingOvershoots(before: seq<Byte>, start: nat, sizes: seq<nat>)
    requires Answered(Nibbling(), before, start, sizes) && From(before, start) != []
    ensures var e := Echo(before, start, sizes); var end := start + |From(before, start)|;
            if From(e.0, e.1) == [] then e.1 > end else e.1 + |From(e.0, e.1)| == end
    decreases |sizes|
  {
    if sizes != [] {
      var e := Echo(before, start, sizes[..|sizes| - 1]);
      NibblingOvershoots(before, start, sizes[..|sizes| - 1]);
      EchoAhead(Nibbling(), before, start, sizes[..|sizes| - 1]);
      NibblingOne(before, e.0, e.1, sizes[|sizes| - 1], start + |From(before, start)|);
    }
  }

  /** One handle with anything to read is never sound: there is a provider with nothing in the way under which the call
      answers success and the copy is not whole. */
  method CopyOntoItself(h: Handle) returns (error: nat)
    requires h.readable && h.writable && From(h.file.content, h.position) != []
    requires h.position + 2 * |From(h.file.content, h.position)| <= I64_MAX
    modifies h`position, h.file
    ensures error == 0
    ensures !Whole(old(h.file.content), old(h.position), From(old(h.file.content), old(h.position)), h.file.content,
                   h.position)
  {
    ghost var before, start := h.file.content, h.position;
    ghost var stored, sizes;
    NibblingIsWilling();
    error, stored, sizes := Copy(h, h, Nibbling(), true, NoStatus);
    NibblingOvershoots(before, start, sizes);
  }
}
