/** The per-device monitor: a loop that fetches batches of raw input events
    from one device and prints a record for every key press and key release,
    until fetching fails. The device is modelled by the sequence of results
    its successive fetches return. */
module Monitor {
  import opened Wrappers
  import opened KeyNames
  import opened Events

  /** One raw input event. Key events carry the key and evdev's value
      (0 release, 1 press, 2 auto-repeat); every other event kind
      (synchronisation, relative motion, ...) is `NonKey`. */
  datatype InputEvent = KeyInput(key: Key, value: int) | NonKey

  /** The result of one fetch from the device. */
  datatype Fetch = Batch(events: seq<InputEvent>) | FetchError(reason: string)

  /** How a monitor loop ends within the fetches it was given: with the
      device error that stopped it, or not at all. */
  datatype MonitorEnd = DeviceError(reason: string) | StillRunning

  /** The record type for an event value: release for 0, press for 1, and
      nothing for auto-repeat (2) or any other value. */
  function EventTypeOf(value: int): (t: Option<string>)
    ensures t == Some(PressType) <==> value == 1
    ensures t == Some(ReleaseType) <==> value == 0
    ensures t == None <==> value != 0 && value != 1
  {
    match value
    case 0 => Some(ReleaseType)
    case 1 => Some(PressType)
    case _ => None
  }

  /** The record printed for one raw event, if any. */
  function RecordOf(e: InputEvent): (r: Option<Record>)
    ensures r.Some? <==> e.KeyInput? && (e.value == 0 || e.value == 1)
    ensures r.Some? ==> IsKeyRecord(r.value) && r.value.name == Some(RdevName(e.key))
    ensures r.Some? ==> (r.value.eventType == PressType <==> e.value == 1)
  {
    match e
    case NonKey => None
    case KeyInput(key, value) =>
      match EventTypeOf(value)
      case Some(t) => Some(KeyRecord(t, RdevName(key)))
      case None => None
  }

  /** The records printed for one batch, in the batch's order. */
  function Emitted(events: seq<InputEvent>): (out: seq<Record>)
    ensures |out| <= |events|
    ensures forall r :: r in out ==> IsKeyRecord(r)
  {
    if events == [] then [] else RecordsFor(events[0]) + Emitted(events[1..])
  }

  /** The records printed for one event: its record, if it has one. */
  function RecordsFor(e: InputEvent): seq<Record> {
    match RecordOf(e) case Some(r) => [r] case None => []
  }

  /** What the monitor loop prints, and how it ends, on a device whose
      successive fetches return `fetches`. */
  function Run(fetches: seq<Fetch>): (seq<Record>, MonitorEnd)
  {
    if fetches == [] then ([], StillRunning)
    else
      match fetches[0]
      case FetchError(reason) => ([], DeviceError(reason))
      case Batch(events) =>
        var rest := Run(fetches[1..]);
        (Emitted(events) + rest.0, rest.1)
  }

  /** The monitor loop: fetch a batch, print its records, repeat; a failed
      fetch ends the loop with its error. */
  method Listen(fetches: seq<Fetch>) returns (out: seq<Record>, end: MonitorEnd)
    ensures (out, end) == Run(fetches)
  {
    out := [];
    var i := 0;
    assert fetches[0..] == fetches;
    while i < |fetches|
      invariant 0 <= i <= |fetches|
      invariant out + Run(fetches[i..]).0 == Run(fetches).0
      invariant Run(fetches[i..]).1 == Run(fetches).1
    {
      RunStep(fetches, i, out);
      match fetches[i]
      case FetchError(reason) =>
        assert out + [] == out;
        return out, DeviceError(reason);
      case Batch(events) =>
        var printed := PrintBatch(events);
        out := out + printed;
      i := i + 1;
    }
    assert fetches[i..] == [];
    assert out + [] == out;
    end := StillRunning;
  }

  /** The inner loop over one fetched batch: a record for each press and
      release, in order; repeats and other events are skipped. */
  method PrintBatch(events: seq<InputEvent>) returns (out: seq<Record>)
    ensures out == Emitted(events)
  {
    out := [];
    for j := 0 to |events|
      invariant out == Emitted(events[..j])
    {
      EmittedAppend(events[..j], [events[j]]);
      assert events[..j + 1] == events[..j] + [events[j]];
      if events[j].KeyInput? {
        var eventType := EventTypeOf(events[j].value);
        if eventType.Some? {
          out := out + [KeyRecord(eventType.value, RdevName(events[j].key))];
        }
      }
    }
    assert events[..|events|] == events;
  }

  /** One step of `Run`, after the records `done` already printed: the fetch
      at position `i` either ends the loop or contributes its batch's records
      before the rest. */
  lemma RunStep(fetches: seq<Fetch>, i: nat, done: seq<Record>)
    requires i < |fetches|
    ensures fetches[i].FetchError? ==> Run(fetches[i..]) == ([], DeviceError(fetches[i].reason))
    ensures fetches[i].Batch? ==>
      && done + Emitted(fetches[i].events) + Run(fetches[i + 1..]).0 == done + Run(fetches[i..]).0
      && Run(fetches[i + 1..]).1 == Run(fetches[i..]).1
  {
  }

  /** Batches compose: the records for two batches in a row are the records
      for the first followed by those for the second. */
  lemma {:induction false} EmittedAppend(a: seq<InputEvent>, b: seq<InputEvent>)
    ensures Emitted(a + b) == Emitted(a) + Emitted(b)
  {
    if a == [] {
      assert a + b == b;
    } else {
      assert (a + b)[0] == a[0];
      assert (a + b)[1..] == a[1..] + b;
      EmittedAppend(a[1..], b);
    }
  }

  /** An event that prints nothing (an auto-repeat, an unknown value, a
      non-key event) can be removed without changing the output. */
  lemma SkippedEventVanishes(a: seq<InputEvent>, e: InputEvent, b: seq<InputEvent>)
    requires RecordOf(e) == None
    ensures Emitted(a + [e] + b) == Emitted(a + b)
  {
    EmittedAppend(a + [e], b);
    EmittedAppend(a, [e]);
    EmittedAppend(a, b);
  }

  /** When every event is a press or a release, each one is printed, in
      order, as the record for its own key. */
  lemma {:induction false} EveryPressAndReleasePrinted(events: seq<InputEvent>)
    requires forall i :: 0 <= i < |events| ==> RecordOf(events[i]).Some?
    ensures |Emitted(events)| == |events|
    ensures forall i :: 0 <= i < |events| ==> Emitted(events)[i] == RecordOf(events[i]).value
  {
    if events != [] {
      EveryPressAndReleasePrinted(events[1..]);
    }
  }

  /** The events of a sequence of successful fetches, in order. */
  function Concat(fetches: seq<Fetch>): seq<InputEvent>
    requires forall i :: 0 <= i < |fetches| ==> fetches[i].Batch?
  {
    if fetches == [] then [] else fetches[0].events + Concat(fetches[1..])
  }

  /** While fetching succeeds the loop keeps running, and the records it
      prints are those of all fetched events in order, across batches. */
  lemma {:induction false} RunWithoutErrors(fetches: seq<Fetch>)
    requires forall i :: 0 <= i < |fetches| ==> fetches[i].Batch?
    ensures Run(fetches) == (Emitted(Concat(fetches)), StillRunning)
  {
    if fetches != [] {
      RunWithoutErrors(fetches[1..]);
      EmittedAppend(fetches[0].events, Concat(fetches[1..]));
    }
  }

  /** The first failed fetch ends the loop with that fetch's error; nothing
      after it is read. */
  lemma {:induction false} RunStopsAtFirstError(done: seq<Fetch>, reason: string, later: seq<Fetch>)
    requires forall i :: 0 <= i < |done| ==> done[i].Batch?
    ensures Run(done + [FetchError(reason)] + later) == (Emitted(Concat(done)), DeviceError(reason))
  {
    if done == [] {
      assert done + [FetchError(reason)] + later == [FetchError(reason)] + later;
    } else {
      assert (done + [FetchError(reason)] + later)[1..] == done[1..] + [FetchError(reason)] + later;
      RunStopsAtFirstError(done[1..], reason, later);
      EmittedAppend(done[0].events, Concat(done[1..]));
    }
  }

  /** Everything the monitor loop prints is a key record. */
  lemma {:induction false} RunPrintsKeyRecords(fetches: seq<Fetch>)
    ensures forall r :: r in Run(fetches).0 ==> IsKeyRecord(r)
  {
    if fetches != [] && fetches[0].Batch? {
      RunPrintsKeyRecords(fetches[1..]);
    }
  }

  /** A press followed by a release of the A key prints a "KeyPress" and then
      a "KeyRelease" record, both named "KeyA". */
  lemma PressThenReleaseOfA()
    ensures Emitted([KeyInput(Letter(A), 1), KeyInput(Letter(A), 0)])
         == [KeyRecord(PressType, "KeyA"), KeyRecord(ReleaseType, "KeyA")]
  {
  }
}
