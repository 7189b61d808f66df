/** The watch descriptor as it runs: the look-ahead event is kept in place and records are written into a buffer. */
module WatchDescriptor {
  import opened Basics
  import opened WatchRecords
  import opened Watcher

  /** memcpy of `bytes` to offset `at` */
  method Put(buffer: array<Byte>, at: nat, bytes: seq<Byte>)
    requires at + |bytes| <= buffer.Length
    modifies buffer
    ensures buffer[..at + |bytes|] == old(buffer[..at]) + bytes
    ensures buffer[at + |bytes|..] == old(buffer[at + |bytes|..])
  {
    for i := 0 to |bytes|
      invariant buffer[..at + i] == old(buffer[..at]) + bytes[..i]
      invariant buffer[at + i..] == old(buffer[at + i..])
    {
      buffer[at + i] := bytes[i];
      assert buffer[..at + i + 1] == buffer[..at + i] + [bytes[i]];
      assert buffer[at + i + 1..] == buffer[at + i..][1..];
      assert old(buffer[at + i + 1..]) == old(buffer[at + i..])[1..];
    }
  }

  lemma Tail(before: seq<Byte>, after: seq<Byte>, i: nat, j: nat)
    requires |before| == |after| && i <= j <= |before| && after[i..] == before[i..]
    ensures after[j..] == before[j..]
  {
    assert after[j..] == after[i..][j - i..];
    assert before[j..] == before[i..][j - i..];
  }

  method PutHeader(buffer: array<Byte>, at: nat, e: Event)
    requires at + 16 <= buffer.Length
    modifies buffer
    ensures buffer[..at + 16] == old(buffer[..at]) + Header(e)
    ensures buffer[at + 16..] == old(buffer[at + 16..])
  {
    ghost var before := buffer[..];
    Put(buffer, at, Little(Descriptor(e.watch)));
    Tail(before, buffer[..], at + 4, at + 16);
    ghost var first := buffer[..];
    var mask := Translate(e.events, false, WATCH_BITS);
    Put(buffer, at + 4, Little(mask));
    Tail(first, buffer[..], at + 8, at + 16);
    ghost var second := buffer[..];
    Put(buffer, at + 8, Little(e.cookie));
    Tail(second, buffer[..], at + 12, at + 16);
    Put(buffer, at + 12, Little(Padded(|e.name|)));
  }

  /** The name goes over a field of zeroes. */
  method PutName(buffer: array<Byte>, at: nat, name: seq<Byte>, padded: nat)
    requires |name| <= padded && at + padded <= buffer.Length
    modifies buffer
    ensures buffer[..at + padded] == old(buffer[..at]) + Field(name, padded)
    ensures buffer[at + padded..] == old(buffer[at + padded..])
  {
    Put(buffer, at, Zeroes(padded));
    ghost var zeroed := buffer[..];
    assert zeroed[..at] == old(buffer[..at]);
    assert zeroed[at + |name|..at + padded] == Zeroes(padded - |name|);
    Put(buffer, at, name);
    Tail(zeroed, buffer[..], at + |name|, at + padded);
    assert buffer[..at + padded] == buffer[..at + |name|] + buffer[at + |name|..][..padded - |name|];
  }

  method PutRecord(buffer: array<Byte>, at: nat, e: Event)
    requires at + |Encode(e)| <= buffer.Length
    modifies buffer
    ensures buffer[..at + |Encode(e)|] == old(buffer[..at]) + Encode(e)
    ensures buffer[at + |Encode(e)|..] == old(buffer[at + |Encode(e)|..])
  {
    EncodedSize(e);
    ghost var before := buffer[..];
    var padded := Padded(|e.name|);
    PutHeader(buffer, at, e);
    Tail(before, buffer[..], at + 16, at + 16 + padded);
    PutName(buffer, at + 16, e.name, padded);
    Join(before[..at], Header(e), Field(e.name, padded));
  }

  /** What a turn of the read loop leaves to be done. */
  lemma ReadTurn(pending: Option<Event>, size: nat, taken: seq<Event>, bytes: seq<Byte>, script: seq<Answer>)
    ensures var f := Watcher.Fill(pending, if |bytes| > 0 then 0 else -1, script);
            ReadFrom(pending, size, taken, bytes, script) ==
              if f.outcome != Ready then Done(Unready(f.outcome, bytes), taken, f.pending, f.rest)
              else if |Encode(f.pending.value)| > size - |bytes| then
                Done(if |bytes| > 0 then Bytes(bytes) else Failed(EINVAL), taken, f.pending, f.rest)
              else ReadFrom(None, size, taken + [f.pending.value], bytes + Encode(f.pending.value), f.rest)
  {
  }

  /** struct sn_watcher, with the answers its provider is going to give */
  class State {
    var pending: bool
    var event: Event
    var script: seq<Answer>

    ghost function LookAhead(): Option<Event>
      reads this
    {
      if pending then Some(event) else None
    }

    constructor (answers: seq<Answer>)
      ensures LookAhead() == None && script == answers
    {
      pending := false;
      event := Event(0, 0, 0, []);
      script := answers;
    }

    method Fill(timeout: int) returns (outcome: Outcome)
      modifies this
      ensures var f := Watcher.Fill(old(LookAhead()), timeout, old(script));
              outcome == f.outcome && LookAhead() == f.pending && script == f.rest
    {
      var left := timeout;
      ghost var goal := Watcher.Fill(LookAhead(), timeout, script);
      while !pending
        invariant var f := Watcher.Fill(LookAhead(), left, script);
                  f.outcome == goal.outcome && f.pending == goal.pending && f.rest == goal.rest
        decreases |script|, !pending
      {
        if script == [] { return Waiting; }
        var slice := Slice(left);
        var answer := script[0];
        script := script[1..];
        match answer {
          case Arrived(e) => event, pending := e, true;
          case Broken(code) => return Error(code);
          case TimedOut(closed) =>
            if left >= 0 {
              left := left - slice;
              if left <= 0 { return Nothing; }
            }
            if closed { return Nothing; }
        }
      }
      return Ready;
    }

    /** One turn of the read loop: it ends, or another record is in the buffer. */
    method Turn(buffer: array<Byte>, size: nat, used: nat) returns (done: bool, result: Result, next: nat)
      requires used <= size <= buffer.Length
      modifies this, buffer
      ensures var f := Watcher.Fill(old(LookAhead()), if used > 0 then 0 else -1, old(script));
              && script == f.rest && used <= next <= size && buffer[next..] == old(buffer[next..])
              && (done <==> f.outcome != Ready || |Encode(f.pending.value)| > size - used)
              && (done ==>
                    && LookAhead() == f.pending && next == used && buffer[..used] == old(buffer[..used])
                    && result == if f.outcome != Ready then Unready(f.outcome, buffer[..used])
                                 else if used > 0 then Bytes(buffer[..used]) else Failed(EINVAL))
              && (!done ==>
                    && LookAhead() == None && next == used + |Encode(f.pending.value)|
                    && buffer[..next] == old(buffer[..used]) + Encode(f.pending.value))
    {
      var outcome := Fill(if used > 0 then 0 else -1);
      if outcome != Ready { return true, Unready(outcome, buffer[..used]), used; }
      var record := 16 + Padded(|event.name|);
      EncodedSize(event);
      if record > size - used { return true, if used > 0 then Bytes(buffer[..used]) else Failed(EINVAL), used; }
      PutRecord(buffer, used, event);
      pending := false;
      return false, Empty, used + record;
    }

    /** The same turn, as one step towards the result that is specified; `before` is the buffer as the read found it. */
    method Round(buffer: array<Byte>, size: nat, used: nat, ghost taken: seq<Event>, ghost before: seq<Byte>,
                 ghost goal: Done)
      returns (done: bool, result: Result, next: nat, ghost more: seq<Event>)
      requires used <= size <= buffer.Length == |before| && Towards(buffer, size, used, taken, before, goal)
      modifies this, buffer
      ensures next <= size
      ensures !done ==> Towards(buffer, size, next, more, before, goal)
      ensures !done ==> |script| < old(|script|) || (|script| == old(|script|) && !pending && old(pending))
      ensures done ==> Done(result, more, LookAhead(), script) == goal
      ensures done ==> buffer[..next] == EncodeAll(more) && buffer[next..] == before[next..]
    {
      ghost var was := buffer[..];
      ghost var f := Watcher.Fill(LookAhead(), if used > 0 then 0 else -1, script);
      ReadTurn(LookAhead(), size, taken, buffer[..used], script);
      done, result, next := Turn(buffer, size, used);
      Tail(before, was, used, next);
      more := taken;
      if !done {
        EncodeAllAppend(taken, f.pending.value);
        more := taken + [f.pending.value];
      }
    }

    /** The records of `taken` are in the buffer, nothing else was written, and what is left to read leads to `goal`. */
    ghost predicate Towards(buffer: array<Byte>, size: nat, used: nat, taken: seq<Event>, before: seq<Byte>, goal: Done)
      requires used <= size <= buffer.Length == |before|
      reads this, buffer
    {
      && buffer[..used] == EncodeAll(taken) && buffer[used..] == before[used..]
      && ReadFrom(LookAhead(), size, taken, buffer[..used], script) == goal
    }

    /** The result is a byte count or an error, and the bytes are in the buffer; nothing behind them is written. */
    method Read(buffer: array<Byte>, size: nat) returns (result: Result, used: nat)
      requires size <= buffer.Length
      modifies this, buffer
      ensures var d := Watcher.Read(old(LookAhead()), size, old(script));
              && result == d.result && LookAhead() == d.pending && script == d.rest
              && used <= size && buffer[..used] == EncodeAll(d.taken) && buffer[used..] == old(buffer[used..])
    {
      ghost var goal := Watcher.Read(LookAhead(), size, script);
      ghost var before := buffer[..];
      ghost var taken: seq<Event> := [];
      var done := false;
      used, result := 0, Empty;
      while !done
        invariant used <= size && (!done ==> Towards(buffer, size, used, taken, before, goal))
        invariant done ==> Done(result, taken, LookAhead(), script) == goal
        invariant done ==> buffer[..used] == EncodeAll(taken) && buffer[used..] == before[used..]
        decreases !done, |script|, pending
      {
        done, result, used, taken := Round(buffer, size, used, taken, before, goal);
      }
    }
  }
}
