/**
  The durable store of one run: an append-only journal that is authoritative, a
  snapshot of its last projection, and the receipt of a closed run.

  Process death is modelled by a fuse, the number of elementary durable writes
  the process still completes: one appended character, one truncation, or one
  atomic replacement of a file each burn one unit, and a call that needs more
  ends with `Died` and whatever it had written.
 */
module RunStore {
  import opened Prelude
  import opened Journal
  import opened LifecycleState

  datatype Projection = Projection(state: RunState, eventSequence: nat)
  datatype Event = Event(sequence: nat, kind: EventKind, projection: Projection)

  ghost predicate ValidEventCodec(c: Codec<Event>) {
    && ValidCodec(c)
    && forall e, n :: c.numbered(e, n) <==> e.sequence == n && e.projection.eventSequence == n
  }

  function NewEvent(log: seq<Event>, kind: EventKind, st: RunState): Event {
    Event(|log| + 1, kind, Projection(st, |log| + 1))
  }

  function MakeReceipt(p: Projection): (r: Projection)
    ensures r.state.protocol == "closeout-receipt/1" && r.(state := r.state.(protocol := p.state.protocol)) == p
  {
    p.(state := p.state.(protocol := "closeout-receipt/1"))
  }

  datatype Reply<+T> = Ok(value: T) | Missing | Refused | Died

  /** The four files of a run. */
  datatype Files = Files(request: Option<Request>, journal: string, snapshot: Option<Projection>,
      receipt: Option<Projection>)

  ghost predicate SnapshotOf(p: Projection, log: seq<Event>) {
    0 < p.eventSequence <= |log| && p == log[p.eventSequence - 1].projection
  }

  ghost predicate ReceiptOf(p: Projection, log: seq<Event>) {
    exists i :: 0 <= i < |log| && log[i].projection.state.lifecycle == Closed && p == MakeReceipt(log[i].projection)
  }

  /**
    The files stand for this list of committed events: the journal is its text
    plus an unterminated tail, the snapshot is never ahead of it, and a receipt
    is the receipt of one of its closed states.
   */
  ghost predicate Represents(c: Codec<Event>, f: Files, log: seq<Event>, tail: string) {
    && ValidEventCodec(c)
    && Numbered(c, log)
    && NoNewline(tail)
    && f.journal == Text(c, log) + tail
    && (f.snapshot.Some? ==> SnapshotOf(f.snapshot.value, log))
    && (f.receipt.Some? ==> ReceiptOf(f.receipt.value, log))
    && (log != [] ==> f.request.Some?)
  }

  lemma AppendRepresents(c: Codec<Event>, f: Files, log: seq<Event>, e: Event, k: nat)
    requires Represents(c, f, log, "") && c.numbered(e, |log| + 1) && f.request.Some? && k <= |Line(c, e)|
    ensures k < |Line(c, e)| ==>
      Represents(c, f.(journal := f.journal + Line(c, e)[..k]), log, Line(c, e)[..k])
    ensures k == |Line(c, e)| ==>
      Represents(c, f.(journal := f.journal + Line(c, e)[..k]), log + [e], "")
  {
    TornAppend(c, log, e, k);
    assert f.journal == Text(c, log);
    assert Text(c, log + [e]) + "" == Text(c, log + [e]);
    if f.receipt.Some? {
      var i :| 0 <= i < |log| && log[i].projection.state.lifecycle == Closed
        && f.receipt.value == MakeReceipt(log[i].projection);
      assert (log + [e])[i] == log[i];
    }
  }

  lemma TailDecides(c: Codec<Event>, f: Files, log: seq<Event>, tail: string)
    requires Represents(c, f, log, tail)
    ensures tail == "" <==> f.journal == "" || f.journal[|f.journal| - 1] == '\n'
    ensures TailStart(f.journal) == |Text(c, log)|
    ensures f.journal[TailStart(f.journal)..] == tail && f.journal[..TailStart(f.journal)] == Text(c, log)
  {
    TailStartOf(c, log, tail);
    TextEnds(c, log);
  }

  /** Decodes and checks the lines of a repaired journal. */
  method DecodeLines(c: Codec<Event>, text: string) returns (events: Option<seq<Event>>)
    ensures events == Parse(c, SplitLines(text), 1)
  {
    var lines := SplitLines(text);
    var decoded: seq<Event> := [];
    ghost var all := Parse(c, lines, 1);
    assert lines[0..] == lines;
    assert all.Some? ==> decoded + all.value == all.value;
    for i := 0 to |lines|
      invariant |decoded| == i
      invariant var rest := Parse(c, lines[i..], i + 1);
        all == if rest.None? then None else Some(decoded + rest.value)
    {
      assert lines[i..][0] == lines[i] && lines[i..][1..] == lines[i + 1..];
      var event := c.decode(lines[i]);
      if event.None? || !c.numbered(event.value, i + 1) {
        return None;
      }
      ghost var rest := Parse(c, lines[i + 1..], i + 2);
      assert rest.Some? ==> decoded + ([event.value] + rest.value) == decoded + [event.value] + rest.value;
      decoded := decoded + [event.value];
    }
    assert lines[|lines|..] == [];
    assert decoded + [] == decoded;
    return Some(decoded);
  }

  class RunStore {
    const codec: Codec<Event>
    var request: Option<Request>
    var journal: string
    var snapshot: Option<Projection>
    var receipt: Option<Projection>
    // the committed list the files stand for, and the unterminated end of the journal
    ghost var log: seq<Event>
    ghost var tail: string

    ghost function OnDisk(): Files
      reads this
    {
      Files(request, journal, snapshot, receipt)
    }

    ghost predicate Valid()
      reads this
    {
      Represents(codec, OnDisk(), log, tail)
    }

    /** The reader accepts the files as they are. */
    ghost predicate Legible()
      reads this
    {
      Readable(codec, log) && (tail == "" || codec.torn(tail))
    }

    constructor (codec: Codec<Event>)
      requires ValidEventCodec(codec)
      ensures Valid() && log == [] && request.None? && this.codec == codec
    {
      this.codec := codec;
      request, journal, snapshot, receipt := None, "", None, None;
      log, tail := [], "";
    }

    /** Removes a torn tail; any other unterminated tail is refused. */
    method RepairTail(fuse: nat) returns (r: Reply<string>, left: nat)
      requires Valid()
      modifies this`journal, this`tail
      ensures Valid() && fuse - 1 <= left <= fuse
      ensures r.Ok? ==> tail == "" && r.value == journal == Text(codec, log)
      ensures !r.Ok? ==> tail == old(tail) && journal == old(journal)
      ensures match r
        case Ok(_) => old(tail) == "" || codec.torn(old(tail))
        case Refused => old(tail) != "" && !codec.torn(old(tail))
        case Died => fuse == 0 && old(tail) != "" && codec.torn(old(tail))
        case Missing => false
    {
      left := fuse;
      TailDecides(codec, OnDisk(), log, tail);
      if journal != "" && journal[|journal| - 1] != '\n' {
        var offset := TailStart(journal);
        if !codec.torn(journal[offset..]) {
          return Refused, left;
        }
        if left == 0 {
          return Died, left;
        }
        left := left - 1;
        journal, tail := journal[..offset], "";
      }
      assert Text(codec, log) + "" == Text(codec, log);
      return Ok(journal), left;
    }

    /** Repairs a torn tail, then decodes and checks every line. */
    method ReadEvents(fuse: nat) returns (r: Reply<seq<Event>>, left: nat)
      requires Valid()
      modifies this`journal, this`tail
      ensures Valid() && fuse - 1 <= left <= fuse
      ensures match r
        case Ok(events) => events == log && tail == "" && old(Legible())
        case Refused => !old(Legible()) && !Legible()
        case Died => fuse == 0 && left == 0
        case Missing => false
    {
      var text;
      text, left := RepairTail(fuse);
      if text.Refused? {
        return Refused, left;
      }
      if text.Died? {
        return Died, left;
      }
      ReadBack(codec, log, "");
      RepairedText(codec, log, "");
      assert Text(codec, log) + "" == Text(codec, log);
      var events := DecodeLines(codec, text.value);
      if events.None? {
        return Refused, left;
      }
      return Ok(events.value), left;
    }

    /** The journal append, one character at a time. */
    method AppendLine(event: Event, fuse: nat) returns (finished: bool, left: nat)
      requires Valid() && tail == "" && event.sequence == event.projection.eventSequence == |log| + 1 && request.Some?
      modifies this`journal, this`tail, this`log
      ensures Valid()
      ensures finished <==> fuse >= |Line(codec, event)|
      ensures finished ==> log == old(log) + [event] && tail == "" && left == fuse - |Line(codec, event)|
      ensures !finished ==> log == old(log) && left == 0
    {
      var data := Line(codec, event);
      var offset := 0;
      left := fuse;
      while offset < |data| && left > 0
        invariant offset <= |data| && left + offset == fuse
        invariant journal == old(journal) + data[..offset]
        invariant log == old(log) && tail == ""
      {
        journal := journal + [data[offset]];
        offset := offset + 1;
        left := left - 1;
      }
      AppendRepresents(codec, old(OnDisk()), log, event, offset);
      finished := offset == |data|;
      if finished {
        log := log + [event];
      } else {
        tail := data[..offset];
      }
    }

    /**
      Appends the event, then replaces the snapshot, then writes the receipt of
      a closed run. Death anywhere leaves the committed list unchanged or
      extended by exactly this state.
     */
    method CommitState(kind: EventKind, st: RunState, fuse: nat) returns (r: Reply<Projection>, left: nat)
      requires Valid() && request.Some?
      modifies this`journal, this`tail, this`log, this`snapshot, this`receipt
      ensures Valid() && left <= fuse
      ensures var event := NewEvent(old(log), kind, st);
        && (r.Ok? ==>
              && r.value == event.projection
              && log == old(log) + [event] && tail == ""
              && snapshot == Some(event.projection)
              && (st.lifecycle == Closed ==> receipt == Some(MakeReceipt(event.projection)))
              && (st.lifecycle != Closed ==> receipt == old(receipt)))
        && (r.Refused? ==>
          !old(Legible()) && !Legible() && log == old(log) && snapshot == old(snapshot) && receipt == old(receipt))
        && (r.Died? ==> left == 0 && (log == old(log) || log == old(log) + [event]))
      ensures !r.Missing?
      ensures old(Legible()) && fuse >= |Line(codec, NewEvent(old(log), kind, st))| + 3 ==> r.Ok?
    {
      var events;
      events, left := ReadEvents(fuse);
      if events.Refused? {
        return Refused, left;
      }
      if !events.Ok? {
        return Died, left;
      }
      var event := NewEvent(events.value, kind, st);
      var projection := event.projection;
      var finished;
      finished, left := AppendLine(event, left);
      if !finished {
        return Died, left;
      }
      r, left := Project(projection, left);
    }

    /** The snapshot of the event just appended, and the receipt if it closed the run. */
    method Project(projection: Projection, fuse: nat) returns (r: Reply<Projection>, left: nat)
      requires Valid() && log != [] && projection == log[|log| - 1].projection && projection.eventSequence == |log|
      modifies this`snapshot, this`receipt
      ensures Valid() && left <= fuse && (r.Ok? || (r.Died? && left == 0)) && (fuse >= 2 ==> r.Ok?)
      ensures r.Ok? ==>
        && r.value == projection && snapshot == Some(projection)
        && receipt == if projection.state.lifecycle == Closed then Some(MakeReceipt(projection)) else old(receipt)
    {
      left := fuse;
      if left == 0 {
        return Died, left;
      }
      snapshot, left := Some(projection), left - 1;
      if projection.state.lifecycle == Closed {
        if left == 0 {
          return Died, left;
        }
        receipt, left := Some(MakeReceipt(projection)), left - 1;
      }
      return Ok(projection), left;
    }

    /** The run is closed and its receipt does not say what the journal does. */
    ghost predicate ReceiptDiffers(p: Projection)
      reads this
    {
      p.state.lifecycle == Closed && receipt.Some? && receipt != Some(MakeReceipt(p))
    }

    /** The effective state: the journal's last projection unless the snapshot were ahead of it. */
    method CurrentState(fuse: nat) returns (r: Reply<Projection>, left: nat)
      requires Valid()
      modifies this`journal, this`tail
      ensures Valid() && fuse - 1 <= left <= fuse
      ensures match r
        case Ok(p) => log != [] && p == log[|log| - 1].projection && tail == "" && old(Legible())
        case Missing => log == [] && tail == "" && old(Legible())
        case Refused => !old(Legible()) && !Legible()
        case Died => fuse == 0 && left == 0
    {
      var events;
      events, left := ReadEvents(fuse);
      if events.Refused? {
        return Refused, left;
      }
      if !events.Ok? {
        return Died, left;
      }
      if |events.value| > 0 {
        var last := events.value[|events.value| - 1].projection;
        var snapshotSequence := if snapshot.Some? then snapshot.value.eventSequence else 0;
        if snapshot.None? || last.eventSequence >= snapshotSequence {
          return Ok(last), left;
        }
      }
      if snapshot.Some? {
        // a snapshot ahead of the journal would be returned here
        assert false;
      }
      return Reply.Missing, left;
    }

    /** The state alone, as a caller holding the lock reads it. */
    method EffectiveState(fuse: nat) returns (r: Reply<RunState>, left: nat)
      requires Valid()
      modifies this`journal, this`tail
      ensures Valid() && left <= fuse
      ensures match r
        case Ok(st) => log != [] && st == log[|log| - 1].projection.state
        case Missing => log == []
        case Refused => !Legible()
        case Died => left == 0
    {
      var p;
      p, left := CurrentState(fuse);
      r := match p
        case Ok(projection) => Ok(projection.state)
        case Missing => Reply.Missing
        case Refused => Refused
        case Died => Died;
    }

    /**
      The public read. A closed run whose receipt is missing gets it rebuilt
      from the projection; a receipt that differs is refused.
     */
    method ReadState(fuse: nat) returns (r: Reply<Projection>, left: nat)
      requires Valid()
      modifies this`journal, this`tail, this`receipt
      ensures Valid() && left <= fuse
      ensures r.Ok? ==>
        && log != [] && r.value == log[|log| - 1].projection
        && (r.value.state.lifecycle == Closed ==> receipt == Some(MakeReceipt(r.value)))
      ensures r.Missing? ==> log == []
      ensures r.Refused? ==> !Legible() || (log != [] && ReceiptDiffers(log[|log| - 1].projection))
      ensures r.Died? ==> left == 0
      ensures (log != [] && log[|log| - 1].projection.state.lifecycle == Closed
               && old(receipt).None? && old(Legible()) && fuse >= 2) ==>
        r.Ok? && receipt == Some(MakeReceipt(log[|log| - 1].projection))
      ensures receipt != old(receipt) ==> old(receipt).None?
    {
      r, left := CurrentState(fuse);
      if r.Ok? && r.value.state.lifecycle == Closed {
        var expected := MakeReceipt(r.value);
        if receipt.None? {
          if left == 0 {
            return Died, left;
          }
          receipt, left := Some(expected), left - 1;
        } else if receipt.value != expected {
          return Refused, left;
        }
      }
    }

    /**
      Creates the run once. The same request resumes a creation that died
      before its first event; a different request for the same run is refused.
     */
    method CreateRun(req: Request, initial: RunState, fuse: nat) returns (r: Reply<Projection>, left: nat)
      requires Valid()
      modifies this
      ensures Valid() && left <= fuse
      ensures old(request).Some? ==> request == old(request)
      ensures old(request).Some? && old(request).value != req ==>
        r.Refused? && log == old(log) && journal == old(journal)
      ensures r.Ok? ==>
        && request == Some(req) && log != [] && r.value == log[|log| - 1].projection
        && (if old(log) == [] then log == [NewEvent([], RunPlanned, initial)] else log == old(log))
      ensures log == old(log) || (old(log) == [] && log == [NewEvent([], RunPlanned, initial)])
      ensures r.Refused? ==> !Legible() || (old(request).Some? && old(request).value != req)
      ensures (r.Died? ==> left == 0) && !r.Missing?
    {
      left := fuse;
      if request.Some? {
        if request.value != req {
          return Refused, left;
        }
        r, left := CurrentState(left);
        if !r.Missing? {
          return;
        }
      } else {
        if left == 0 {
          return Died, left;
        }
        request, left := Some(req), left - 1;
      }
      r, left := CommitState(RunPlanned, initial, left);
    }
  }
}
