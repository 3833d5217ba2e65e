/** The listener: discover the keyboards, then monitor them. One keyboard is
    monitored on the calling thread and its error ends the session; with
    several, each gets a monitoring thread and a shared counter of active
    devices, a device failure only lowers the counter, and the session ends
    when the counter reaches zero. Threads are not modelled: each decrement
    of the counter is one indivisible step, taken in any order. */
module Listener {
  import opened Wrappers
  import opened Events
  import opened Monitor
  import opened Discovery

  const AllStoppedMessage: string := "All keyboard devices have stopped"

  /** The error record written once every device has stopped. */
  const AllDevicesFailedRecord: Record := ErrorRecord("AllDevicesFailed", AllStoppedMessage)

  /** How the listening session stands: ended with an error, or still running
      (the source's listener never returns successfully). */
  datatype SessionEnd = Ended(error: string) | Running

  /** The device numbers 0 .. n-1. */
  ghost function Range(n: nat): (r: set<nat>)
    ensures |r| == n
    ensures forall d: nat :: d in r <==> d < n
  {
    if n == 0 then {} else Range(n - 1) + {n - 1}
  }

  /** The shared count of active devices in the multi-device case, with the
      error records the monitoring threads write. */
  class ActiveCounter {
    const total: nat
    var count: nat
    /** The devices whose monitor has not failed. */
    ghost var running: set<nat>
    /** The records the monitoring threads have written to standard output. */
    var printed: seq<Record>

    /** The count is the number of devices still running, and the
        AllDevicesFailed record has been written exactly when it is zero. */
    ghost predicate Valid()
      reads this
    {
      && total >= 2
      && running <= Range(total)
      && count == |running|
      && printed == if count == 0 then [AllDevicesFailedRecord] else []
    }

    /** The counter starts at the number of keyboards; it exists only when
        there are at least two. */
    constructor (n: nat)
      requires n >= 2
      ensures Valid()
      ensures total == n && count == n && running == Range(n) && printed == []
    {
      total := n;
      count := n;
      running := Range(n);
      printed := [];
    }

    /** A monitoring thread whose device failed: decrement the counter and,
        when that leaves it at zero, write the AllDevicesFailed record. */
    method DeviceFailed(device: nat) returns (remaining: nat)
      requires Valid() && device in running
      modifies this
      ensures Valid()
      ensures running == old(running) - {device}
      ensures remaining == count == old(count) - 1
      ensures printed == old(printed) + if remaining == 0 then [AllDevicesFailedRecord] else []
    {
      count := count - 1;
      remaining := count;
      running := running - {device};
      if remaining == 0 {
        printed := printed + [AllDevicesFailedRecord];
      }
    }

    /** The main thread's periodic check: have all devices stopped? */
    method AllFailed() returns (stopped: bool)
      requires Valid()
      ensures stopped <==> running == {}
      ensures stopped ==> printed == [AllDevicesFailedRecord]
    {
      stopped := count == 0;
    }
  }

  /** `n` devices, of which the devices in `order` fail one after another,
      with the main thread checking the counter after each failure. The
      session survives every failure but the n-th, which ends it; the
      AllDevicesFailed record is written once, and only then. */
  method Supervise(n: nat, order: seq<nat>) returns (printed: seq<Record>, checks: seq<bool>)
    requires n >= 2
    requires forall k :: 0 <= k < |order| ==> order[k] < n
    requires forall k, l :: 0 <= k < l < |order| ==> order[k] != order[l]
    ensures |checks| == |order| <= n
    ensures forall k :: 0 <= k < |order| ==> (checks[k] <==> k == n - 1)
    ensures printed == if |order| == n then [AllDevicesFailedRecord] else []
  {
    var counter := new ActiveCounter(n);
    checks := [];
    for k := 0 to |order|
      invariant counter.Valid() && counter.total == n
      invariant forall d: nat :: d in counter.running <==> d < n && d !in order[..k]
      invariant counter.count + k == n
      invariant |checks| == k
      invariant forall j :: 0 <= j < k ==> (checks[j] <==> j == n - 1)
    {
      assert order[..k + 1] == order[..k] + [order[k]];
      var _ := counter.DeviceFailed(order[k]);
      var stopped := counter.AllFailed();
      checks := checks + [stopped];
    }
    printed := counter.printed;
  }

  /** The successive fetch results of keyboard `i`, in discovery order; a
      keyboard beyond the given list never returns from a fetch. */
  function Device(devices: seq<seq<Fetch>>, i: nat): seq<Fetch> {
    if i < |devices| then devices[i] else []
  }

  /** How keyboard `i`'s monitor loop ends. */
  function Fate(devices: seq<seq<Fetch>>, i: nat): MonitorEnd {
    Run(Device(devices, i)).1
  }

  predicate AllFail(devices: seq<seq<Fetch>>, n: nat) {
    forall i :: 0 <= i < n ==> Fate(devices, i).DeviceError?
  }

  /** How the first `n` keyboards' monitor loops end, in order. */
  function Fates(devices: seq<seq<Fetch>>, n: nat): (ends: seq<MonitorEnd>)
    ensures |ends| == n
  {
    if n == 0 then [] else Fates(devices, n - 1) + [Fate(devices, n - 1)]
  }

  /** Entry `j` of `Fates` is keyboard `j`'s fate. */
  lemma {:induction false} FatesAt(devices: seq<seq<Fetch>>, n: nat, j: nat)
    requires j < n
    ensures Fates(devices, n)[j] == Fate(devices, j)
  {
    if j < n - 1 {
      FatesAt(devices, n - 1, j);
    }
  }

  /** The records the listener writes and how the session stands, given the
      directory listing and the fetch results of each keyboard. With one
      keyboard these are its monitor's key records and its ending; with
      several, only the AllDevicesFailed record is collected. */
  function SessionOutcome(listing: Result<seq<DirEntry>, string>, devices: seq<seq<Fetch>>): (seq<Record>, SessionEnd) {
    match DiscoveryResult(listing)
    case Err(e) => (ErrorEvents(e), Ended(ErrorMessage(e)))
    case Ok(keyboards) =>
      if |keyboards| == 1 then
        var run := Run(Device(devices, 0));
        (run.0, match run.1 case DeviceError(reason) => Ended(reason) case StillRunning => Running)
      else if AllFail(devices, |keyboards|) then
        ([AllDevicesFailedRecord], Ended(AllStoppedMessage))
      else
        ([], Running)
  }

  /** The listener: discovery, then the single-device or the multi-device
      strategy. A single keyboard is monitored inline: its key records are
      the listener's output and its error ends the session. */
  method StartKeyboardListener(listing: Result<seq<DirEntry>, string>, devices: seq<seq<Fetch>>)
    returns (out: seq<Record>, end: SessionEnd)
    ensures (out, end) == SessionOutcome(listing, devices)
  {
    var discovered, printed := Discover(listing);
    if discovered.Err? {
      return printed, Ended(ErrorMessage(discovered.error));
    }
    var keyboards := discovered.value;
    if |keyboards| == 1 {
      var records, monitorEnd := Listen(Device(devices, 0));
      match monitorEnd
      case DeviceError(reason) =>
        return records, Ended(reason);
      case StillRunning =>
        return records, Running;
    }
    out, end := MonitorAll(|keyboards|, devices);
  }

  /** The multi-device strategy: each keyboard's monitor runs, every failed
      one decrements the counter, and the main thread's check ends the
      session once it is zero. */
  method MonitorAll(n: nat, devices: seq<seq<Fetch>>) returns (out: seq<Record>, end: SessionEnd)
    requires n >= 2
    ensures out == if AllFail(devices, n) then [AllDevicesFailedRecord] else []
    ensures end == if AllFail(devices, n) then Ended(AllStoppedMessage) else Running
  {
    var counter := new ActiveCounter(n);
    ghost var ends := RunMonitors(counter, devices);
    var stopped := counter.AllFailed();
    NoneRunningIffAllFail(counter.running, ends, devices, n);
    out := counter.printed;
    end := if stopped then Ended(AllStoppedMessage) else Running;
  }

  /** One monitoring thread per device, each reporting its failure to the
      shared counter; afterwards the devices still running are the survivors
      of how the monitors ended, which `ends` records. */
  method RunMonitors(counter: ActiveCounter, devices: seq<seq<Fetch>>) returns (ghost ends: seq<MonitorEnd>)
    requires counter.Valid() && counter.running == Range(counter.total)
    modifies counter
    ensures counter.Valid()
    ensures ends == Fates(devices, counter.total)
    ensures counter.running == Survivors(ends, counter.total)
  {
    ends := [];
    for i := 0 to counter.total
      invariant counter.Valid()
      invariant ends == Fates(devices, i)
      invariant counter.running == Survivors(ends, counter.total)
    {
      SurvivorsMembers(ends, counter.total);
      var monitorEnd := MonitorThread(counter, i, Device(devices, i));
      assert (ends + [monitorEnd])[..i] == ends;
      ends := ends + [monitorEnd];
    }
  }

  /** The devices still running once the first `|ends|` monitors have ended
      as `ends` says: those whose monitor did not fail. */
  ghost function Survivors(ends: seq<MonitorEnd>, total: nat): set<nat> {
    if ends == [] then Range(total)
    else
      var last := |ends| - 1;
      Survivors(ends[..last], total) - if ends[last].DeviceError? then {last} else {}
  }

  /** A device survives exactly when it is one of the `total` devices and its
      monitor has not ended or did not fail. */
  lemma {:induction false} SurvivorsMembers(ends: seq<MonitorEnd>, total: nat)
    requires |ends| <= total
    ensures forall j: nat :: j in Survivors(ends, total) <==> j < total && (j >= |ends| || !ends[j].DeviceError?)
  {
    if ends != [] {
      var last := |ends| - 1;
      SurvivorsMembers(ends[..last], total);
    }
  }

  /** One monitoring thread: run the device's monitor loop and, if it
      fails, report the failure to the shared counter. */
  method MonitorThread(counter: ActiveCounter, device: nat, fetches: seq<Fetch>) returns (monitorEnd: MonitorEnd)
    requires counter.Valid() && device in counter.running
    modifies counter
    ensures counter.Valid()
    ensures monitorEnd == Run(fetches).1
    ensures counter.running == if monitorEnd.DeviceError? then old(counter.running) - {device} else old(counter.running)
  {
    var _, end := Listen(fetches);
    monitorEnd := end;
    if monitorEnd.DeviceError? {
      var _ := counter.DeviceFailed(device);
    }
  }

  /** Once every device's monitor has ended or is known to be running, no
      device is running exactly when all of them failed. */
  lemma NoneRunningIffAllFail(running: set<nat>, ends: seq<MonitorEnd>, devices: seq<seq<Fetch>>, n: nat)
    requires ends == Fates(devices, n)
    requires running == Survivors(ends, n)
    ensures running == {} <==> AllFail(devices, n)
  {
    SurvivorsMembers(ends, n);
    if running == {} {
      forall j | 0 <= j < n ensures Fate(devices, j).DeviceError? {
        FatesAt(devices, n, j);
        assert j !in running;
      }
    } else {
      var j :| j in running;
      FatesAt(devices, n, j);
      assert !Fate(devices, j).DeviceError?;
    }
  }

  /** The session ends only when discovery fails, when the only keyboard's
      monitor fails, or when every one of several keyboards has failed; a
      partial failure among several keyboards is absorbed. */
  lemma SessionEndsIff(listing: Result<seq<DirEntry>, string>, devices: seq<seq<Fetch>>)
    ensures SessionOutcome(listing, devices).1.Ended? <==>
      || DiscoveryResult(listing).Err?
      || (|DiscoveryResult(listing).value| == 1 && Fate(devices, 0).DeviceError?)
      || (|DiscoveryResult(listing).value| >= 2 && AllFail(devices, |DiscoveryResult(listing).value|))
    ensures DiscoveryResult(listing).Ok? && |DiscoveryResult(listing).value| >= 2 ==>
      SessionOutcome(listing, devices).0 == [] || SessionOutcome(listing, devices).0 == [AllDevicesFailedRecord]
  {
  }

  /** With exactly one keyboard whose fetches all succeed, the listener
      prints a record for every press and release the keyboard reports, in
      order across batches, and keeps running. */
  lemma OneKeyboardPrintsEveryKey(listing: Result<seq<DirEntry>, string>, devices: seq<seq<Fetch>>)
    requires DiscoveryResult(listing).Ok? && |DiscoveryResult(listing).value| == 1
    requires forall i :: 0 <= i < |Device(devices, 0)| ==> Device(devices, 0)[i].Batch?
    ensures SessionOutcome(listing, devices) == (Emitted(Concat(Device(devices, 0))), Running)
  {
    RunWithoutErrors(Device(devices, 0));
  }

  /** When the only keyboard fails, the session ends with that device's
      error but writes no error record to standard output: everything it
      wrote is a key record. Several keyboards failing, by contrast, write
      the AllDevicesFailed record. */
  lemma OnlyKeyboardFailureWritesNoErrorRecord(listing: Result<seq<DirEntry>, string>, devices: seq<seq<Fetch>>)
    requires DiscoveryResult(listing).Ok? && |DiscoveryResult(listing).value| == 1
    requires Fate(devices, 0).DeviceError?
    ensures SessionOutcome(listing, devices).1 == Ended(Fate(devices, 0).reason)
    ensures forall r :: r in SessionOutcome(listing, devices).0 ==> IsKeyRecord(r) && r.eventType != ErrorType
  {
    RunPrintsKeyRecords(Device(devices, 0));
  }

  /** With several keyboards that all fail, the AllDevicesFailed error
      record is the one thing the listener writes. */
  lemma AllKeyboardsFailingWritesRecord(listing: Result<seq<DirEntry>, string>, devices: seq<seq<Fetch>>)
    requires DiscoveryResult(listing).Ok? && |DiscoveryResult(listing).value| >= 2
    requires AllFail(devices, |DiscoveryResult(listing).value|)
    ensures SessionOutcome(listing, devices) == ([AllDevicesFailedRecord], Ended(AllStoppedMessage))
    ensures AllDevicesFailedRecord.eventType == ErrorType
  {
  }
}
