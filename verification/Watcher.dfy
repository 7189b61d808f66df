/**
 A watch descriptor between the provider of events and the caller of Poll and Read: one event of
 look-ahead, waits cut into slices, and reads that return whole records.
 */
module Watcher {
  import opened Basics
  import opened WatchRecords

  const SLICE: nat := 1_000_000_000
  const EINVAL: nat := 22
  const OS_ERROR: nat := 5

  /** What one read of the provider comes back with; after a timeout, whether the descriptor was closed meanwhile. */
  datatype Answer = Arrived(event: Event) | TimedOut(closed: bool) | Broken(error: nat)

  /** The events that the answers bring. */
  function Events(script: seq<Answer>): seq<Event> {
    if script == [] then []
    else (if script[0].Arrived? then [script[0].event] else []) + Events(script[1..])
  }

  /** The boundary passes on an acceptable event and turns any other into an error. */
  function Checked(a: Answer): Answer { if a.Arrived? && !Acceptable(a.event) then Broken(OS_ERROR) else a }

  function CheckedAll(script: seq<Answer>): seq<Answer> {
    if script == [] then [] else [Checked(script[0])] + CheckedAll(script[1..])
  }

  /** Every event that crossed the boundary is one that a record can carry. */
  lemma {:induction false} CheckedFit(script: seq<Answer>)
    ensures forall e :: e in Events(CheckedAll(script)) ==> Acceptable(e) && Fits(e)
  {
    if script != [] {
      CheckedFit(script[1..]);
      assert CheckedAll(script)[1..] == CheckedAll(script[1..]);
    }
  }

  function Held(pending: Option<Event>): seq<Event> { if pending.Some? then [pending.value] else [] }

  /** The events that are still to be delivered. */
  function Left(pending: Option<Event>, script: seq<Answer>): seq<Event> { Held(pending) + Events(script) }

  lemma LeftSome(e: Event, script: seq<Answer>)
    ensures Left(Some(e), script) == [e] + Left(None, script)
  {
    assert Left(None, script) == Events(script);
  }

  lemma Regroup(a: seq<Event>, b: seq<Event>, c: seq<Event>)
    ensures a + (b + c) == (a + b) + c
  {
  }

  // Waiting

  function Slice(timeout: int): nat { if timeout < 0 || timeout > SLICE then SLICE else timeout }

  /** Waiting: the provider has not answered yet. */
  datatype Outcome = Ready | Nothing | Error(code: nat) | Waiting

  datatype Filled = Filled(outcome: Outcome, pending: Option<Event>, rest: seq<Answer>, asked: nat)

  /** watch_fill against the provider's coming answers; `asked` adds up the slices of all reads, whatever came of
      them. */
  function Fill(pending: Option<Event>, timeout: int, script: seq<Answer>): (f: Filled)
    ensures |f.rest| <= |script|
    ensures f.outcome == Ready ==> f.pending.Some? && (|f.rest| < |script| || (pending.Some? && f.rest == script))
    decreases |script|
  {
    if pending.Some? then Filled(Ready, pending, script, 0)
    else if script == [] then Filled(Waiting, None, [], Slice(timeout))
    else match script[0]
      case Arrived(e) => Filled(Ready, Some(e), script[1..], Slice(timeout))
      case Broken(code) => Filled(Error(code), None, script[1..], Slice(timeout))
      case TimedOut(closed) =>
        var slice := Slice(timeout);
        if (timeout >= 0 && timeout - slice <= 0) || closed then Filled(Nothing, None, script[1..], slice)
        else
          var f := Fill(None, if timeout >= 0 then timeout - slice else timeout, script[1..]);
          f.(asked := f.asked + slice)
  }

  /** Waiting neither loses nor invents an event, keeps their order, and is ready exactly with one in hand. */
  lemma {:induction false} FillConserves(pending: Option<Event>, timeout: int, script: seq<Answer>)
    ensures var f := Fill(pending, timeout, script);
            && Left(f.pending, f.rest) == Left(pending, script)
            && (f.outcome == Ready <==> f.pending.Some?)
    decreases |script|
  {
    if pending.None? && script != [] {
      match script[0]
      case Arrived(e) =>
      case Broken(code) =>
      case TimedOut(closed) =>
        FillConserves(None, if timeout >= 0 then timeout - Slice(timeout) else timeout, script[1..]);
    }
  }

  /** How many reads a wait of `timeout` is cut into. */
  function Reads(timeout: nat): nat { if timeout == 0 then 1 else (timeout + SLICE - 1) / SLICE }

  /** A finite wait ends after at most that many reads, whose slices add up to no more than its timeout; it gives up
      before it has asked for all of that only for a closed descriptor. */
  lemma {:induction false} FiniteWait(pending: Option<Event>, timeout: nat, script: seq<Answer>)
    ensures var f := Fill(pending, timeout, script);
            && |script| - |f.rest| <= Reads(timeout) && f.asked <= timeout
            && (f.outcome == Waiting ==> |script| < Reads(timeout))
            && (f.outcome == Nothing ==>
                  f.asked == timeout || (|f.rest| < |script| && script[|script| - |f.rest| - 1] == TimedOut(true)))
    decreases |script|
  {
    if pending.None? && script != [] && script[0].TimedOut? && timeout > SLICE && !script[0].closed {
      FiniteWait(None, timeout - SLICE, script[1..]);
      assert Reads(timeout) == Reads(timeout - SLICE) + 1;
    }
  }

  /** A wait without limit ends for an event, an error or a closed descriptor only. */
  lemma {:induction false} EndlessWait(pending: Option<Event>, timeout: int, script: seq<Answer>)
    requires timeout < 0
    ensures var f := Fill(pending, timeout, script);
            f.outcome == Nothing ==> |f.rest| < |script| && script[|script| - |f.rest| - 1] == TimedOut(true)
    decreases |script|
  {
    if pending.None? && script != [] && script[0].TimedOut? && !script[0].closed {
      EndlessWait(None, timeout, script[1..]);
    }
  }

  /** An error is one that the provider has just answered. */
  lemma {:induction false} WaitFails(pending: Option<Event>, timeout: int, script: seq<Answer>)
    ensures var f := Fill(pending, timeout, script);
            f.outcome.Error? ==> |f.rest| < |script| && script[|script| - |f.rest| - 1] == Broken(f.outcome.code)
    decreases |script|
  {
    if pending.None? && script != [] && script[0].TimedOut? {
      WaitFails(None, if timeout >= 0 then timeout - Slice(timeout) else timeout, script[1..]);
    }
  }

  // Reading

  datatype Result = Bytes(data: seq<Byte>) | Empty | Failed(code: nat) | Blocked

  /** `taken` are the events whose records are in the buffer. */
  datatype Done = Done(result: Result, taken: seq<Event>, pending: Option<Event>, rest: seq<Answer>)

  function Unready(outcome: Outcome, buffer: seq<Byte>): Result {
    match outcome
    case Waiting => Blocked
    case Error(code) => if buffer != [] then Bytes(buffer) else Failed(code)
    case _ => if buffer != [] then Bytes(buffer) else Empty
  }

  /** watch_read from the point where the records of `taken` are in the buffer */
  function ReadFrom(pending: Option<Event>, size: nat, taken: seq<Event>, buffer: seq<Byte>, script: seq<Answer>): Done
    decreases 2 * |script| + |Held(pending)|
  {
    var f := Fill(pending, if buffer != [] then 0 else -1, script);
    if f.outcome != Ready then Done(Unready(f.outcome, buffer), taken, f.pending, f.rest)
    else
      var record := Encode(f.pending.value);
      if |record| > size - |buffer| then
        Done(if buffer != [] then Bytes(buffer) else Failed(EINVAL), taken, f.pending, f.rest)
      else ReadFrom(None, size, taken + [f.pending.value], buffer + record, f.rest)
  }

  function Read(pending: Option<Event>, size: nat, script: seq<Answer>): Done {
    ReadFrom(pending, size, [], [], script)
  }

  lemma EncodedIsSome(taken: seq<Event>)
    ensures EncodeAll(taken) == [] <==> taken == []
  {
  }

  /** What a read takes and what it leaves is all there was, in order. */
  lemma {:induction false} ReadConserves(pending: Option<Event>, size: nat, taken: seq<Event>, buffer: seq<Byte>,
                                         script: seq<Answer>)
    ensures var d := ReadFrom(pending, size, taken, buffer, script);
            d.taken + Left(d.pending, d.rest) == taken + Left(pending, script)
    decreases 2 * |script| + |Held(pending)|
  {
    var f := Fill(pending, if buffer != [] then 0 else -1, script);
    FillConserves(pending, if buffer != [] then 0 else -1, script);
    if f.outcome == Ready {
      var e := f.pending.value;
      if |Encode(e)| <= size - |buffer| {
        ReadConserves(None, size, taken + [e], buffer + Encode(e), f.rest);
        LeftSome(e, f.rest);
        Regroup(taken, [e], Left(None, f.rest));
      }
    }
  }

  /** A read returns the records of what it took, within the buffer; it takes nothing when it fails. */
  lemma {:induction false} ReadReturnsTaken(pending: Option<Event>, size: nat, taken: seq<Event>, buffer: seq<Byte>,
                                            script: seq<Answer>)
    requires buffer == EncodeAll(taken) && |buffer| <= size
    ensures var d := ReadFrom(pending, size, taken, buffer, script);
            && taken <= d.taken && |EncodeAll(d.taken)| <= size
            && (d.result.Bytes? <==> d.taken != [] && d.result != Blocked)
            && (d.result.Bytes? ==> d.result.data == EncodeAll(d.taken))
    decreases 2 * |script| + |Held(pending)|
  {
    var f := Fill(pending, if buffer != [] then 0 else -1, script);
    EncodedIsSome(taken);
    if f.outcome == Ready {
      var e := f.pending.value;
      if |Encode(e)| <= size - |buffer| {
        EncodeAllAppend(taken, e);
        ReadReturnsTaken(None, size, taken + [e], buffer + Encode(e), f.rest);
      }
    }
  }

  /** A read stops at an event only because its record does not fit, and then keeps the event. */
  lemma {:induction false} ReadIsMaximal(pending: Option<Event>, size: nat, taken: seq<Event>, buffer: seq<Byte>,
                                         script: seq<Answer>)
    requires buffer == EncodeAll(taken) && |buffer| <= size
    ensures var d := ReadFrom(pending, size, taken, buffer, script);
            d.pending.Some? ==> d.result != Blocked && |EncodeAll(d.taken)| + |Encode(d.pending.value)| > size
    decreases 2 * |script| + |Held(pending)|
  {
    var f := Fill(pending, if buffer != [] then 0 else -1, script);
    FillConserves(pending, if buffer != [] then 0 else -1, script);
    EncodedIsSome(taken);
    if f.outcome == Ready && |Encode(f.pending.value)| <= size - |buffer| {
      EncodeAllAppend(taken, f.pending.value);
      ReadIsMaximal(None, size, taken + [f.pending.value], buffer + Encode(f.pending.value), f.rest);
    }
  }

  /** A read returns nothing only for a closed descriptor, and fails only with the provider's error or for a first
      record that does not fit; then it keeps the event. */
  lemma ReadGivesUp(pending: Option<Event>, size: nat, script: seq<Answer>)
    ensures var d := Read(pending, size, script);
            && (d.result.Empty? ==> |d.rest| < |script| && script[|script| - |d.rest| - 1] == TimedOut(true))
            && (d.result.Failed? ==>
                  || (d.pending.Some? && d.result.code == EINVAL && |Encode(d.pending.value)| > size)
                  || (|d.rest| < |script| && script[|script| - |d.rest| - 1] == Broken(d.result.code)))
  {
    var f := Fill(pending, -1, script);
    EndlessWait(pending, -1, script);
    WaitFails(pending, -1, script);
    if f.outcome == Ready {
      var e := f.pending.value;
      if |Encode(e)| <= size {
        EncodeAllAppend([], e);
        assert [] + [e] == [e] && [] + Encode(e) == Encode(e);
        ReadReturnsTaken(None, size, [e], Encode(e), f.rest);
      }
    }
  }

  /** The event a Poll was answered with is the first that the next Read with room for any record returns. */
  lemma PollThenRead(timeout: int, script: seq<Answer>, size: nat)
    requires forall e :: e in Events(script) ==> Fits(e)
    requires Fill(None, timeout, script).outcome == Ready && size >= 272
    ensures var f := Fill(None, timeout, script);
            var d := Read(f.pending, size, f.rest);
            && (d.result.Bytes? || d.result.Blocked?) && d.taken != [] && d.taken[0] == f.pending.value
  {
    var f := Fill(None, timeout, script);
    FillConserves(None, timeout, script);
    LeftSome(f.pending.value, f.rest);
    assert Left(None, script) == Events(script);
    assert f.pending.value == Events(script)[0];
    PendingIsRead(f.pending.value, f.rest, size);
  }

  lemma PendingIsRead(e: Event, script: seq<Answer>, size: nat)
    requires Fits(e) && size >= 272
    ensures var d := Read(Some(e), size, script);
            && (d.result.Bytes? || d.result.Blocked?) && d.taken != [] && d.taken[0] == e
  {
    EncodedSize(e);
    EncodeAllAppend([], e);
    assert [] + [e] == [e] && [] + Encode(e) == Encode(e);
    ReadReturnsTaken(None, size, [e], Encode(e), script);
  }

  // Sessions

  datatype Call = Poll(milliseconds: int) | ReadCall(size: nat)

  datatype Session = Session(
    output: seq<Byte>, inFlight: seq<Event>, pending: Option<Event>, rest: seq<Answer>, stuck: bool)

  function Nanoseconds(milliseconds: int): int { if milliseconds < 0 then -1 else milliseconds * 1_000_000 }

  /** One reader making calls one after the other; a call that blocks for good ends the session. */
  function Serve(pending: Option<Event>, calls: seq<Call>, script: seq<Answer>): Session
    decreases |calls|
  {
    if calls == [] then Session([], [], pending, script, false)
    else match calls[0]
      case Poll(ms) =>
        var f := Fill(pending, Nanoseconds(ms), script);
        if f.outcome == Waiting then Session([], [], f.pending, f.rest, true) else Serve(f.pending, calls[1..], f.rest)
      case ReadCall(size) =>
        var d := Read(pending, size, script);
        if d.result.Blocked? then Session([], d.taken, d.pending, d.rest, true)
        else
          var s := Serve(d.pending, calls[1..], d.rest);
          s.(output := (if d.result.Bytes? then d.result.data else []) + s.output)
  }

  /** The events delivered by a session. */
  function Delivered(pending: Option<Event>, calls: seq<Call>, script: seq<Answer>): seq<Event>
    decreases |calls|
  {
    if calls == [] then []
    else match calls[0]
      case Poll(ms) =>
        var f := Fill(pending, Nanoseconds(ms), script);
        if f.outcome == Waiting then [] else Delivered(f.pending, calls[1..], f.rest)
      case ReadCall(size) =>
        var d := Read(pending, size, script);
        if d.result.Blocked? then [] else d.taken + Delivered(d.pending, calls[1..], d.rest)
  }

  lemma {:induction false} EncodeAllConcat(a: seq<Event>, b: seq<Event>)
    ensures EncodeAll(a + b) == EncodeAll(a) + EncodeAll(b)
  {
    if a == [] {
      assert a + b == b;
    } else {
      assert (a + b)[1..] == a[1..] + b;
      EncodeAllConcat(a[1..], b);
    }
  }

  lemma {:induction false} SessionConserves(pending: Option<Event>, calls: seq<Call>, script: seq<Answer>)
    ensures var s := Serve(pending, calls, script);
            var sent := Delivered(pending, calls, script);
            s.output == EncodeAll(sent) && sent + (s.inFlight + Left(s.pending, s.rest)) == Left(pending, script)
    decreases |calls|
  {
    if calls != [] {
      match calls[0]
      case Poll(ms) =>
        var f := Fill(pending, Nanoseconds(ms), script);
        FillConserves(pending, Nanoseconds(ms), script);
        if f.outcome != Waiting { SessionConserves(f.pending, calls[1..], f.rest); }
      case ReadCall(size) =>
        ReadConserves(pending, size, [], [], script);
        ReadReturnsTaken(pending, size, [], [], script);
        var d := Read(pending, size, script);
        if !d.result.Blocked? {
          SessionConserves(d.pending, calls[1..], d.rest);
          var s := Serve(d.pending, calls[1..], d.rest);
          var sent := Delivered(d.pending, calls[1..], d.rest);
          EncodeAllConcat(d.taken, sent);
          Regroup(d.taken, sent, s.inFlight + Left(s.pending, s.rest));
        }
    }
  }

  /** Whatever the calls and whatever the provider answers: the buffers that Read filled, one after the
      other, parse as the events the boundary passed on, in order, none lost, none twice; only the last ones
      may still be in the hands of the watcher or unread. For watches that callers know, the records mean
      these very events. */
  lemma EveryEventIsDeliveredOnce(calls: seq<Call>, answers: seq<Answer>)
    ensures var script := CheckedAll(answers);
            var s := Serve(None, calls, script);
            var sent := Delivered(None, calls, script);
            && ParseAll(s.output) == Some(Views(sent))
            && sent + (s.inFlight + Left(s.pending, s.rest)) == Events(script)
            && ((forall e :: e in Events(script) ==> e.watch <= INT32_MAX) ==>
                  Meanings(ParseAll(s.output).value) == sent)
  {
    var script := CheckedAll(answers);
    SessionConserves(None, calls, script);
    assert Left(None, script) == Events(script);
    CheckedFit(answers);
    DeliveredParses(Delivered(None, calls, script), Events(script));
  }

  lemma DeliveredParses(sent: seq<Event>, all: seq<Event>)
    requires sent <= all && forall e :: e in all ==> Acceptable(e) && Fits(e)
    ensures ParseAll(EncodeAll(sent)) == Some(Views(sent))
    ensures (forall e :: e in all ==> e.watch <= INT32_MAX) ==> Meanings(Views(sent)) == sent
  {
    forall e | e in sent ensures e in all { }
    ParseEncodedAll(sent);
    if forall e :: e in all ==> e.watch <= INT32_MAX { MeaningsOfViews(sent); }
  }
}
