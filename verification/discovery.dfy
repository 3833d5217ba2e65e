/** Keyboard discovery: walk the entries of /dev/input, try to open every
    "eventN" node, keep those whose supported keys make them look like a
    keyboard, and choose an error when none does. Opening a device and
    querying its keys are not performed here: each entry carries what they
    return. */
module Discovery {
  import opened Wrappers
  import opened KeyNames
  import opened Events

  const InputDir: string := "/dev/input"

  /** What opening a device node returns: the device, whose supported-key set
      may be unavailable, or a permission error, or another error. */
  datatype OpenOutcome = Opened(supportedKeys: Option<set<Key>>) | PermDenied | OtherErr

  /** One entry of the directory listing: the entry's file name (empty when
      it is not valid UTF-8) and what opening it would return; or an entry the
      listing itself failed to read. */
  datatype DirEntry = Entry(fileName: string, open: OpenOutcome) | Unreadable

  function PathOf(fileName: string): string {
    InputDir + "/" + fileName
  }

  /** Only the evdev nodes "event0", "event1", ... are considered. */
  predicate IsEventNode(fileName: string) {
    "event" <= fileName
  }

  /** The keys probed to recognise a keyboard: a letter, space, and the left
      Control and left Alt keys (the right-hand variants are not probed). */
  const ProbeKeys: set<Key> := {Letter(A), Special(Space), Modifier(LeftCtrl), Modifier(LeftAlt)}

  /** A device is a keyboard when its supported-key set is available and
      holds one of the probe keys. */
  predicate IsKeyboard(supportedKeys: Option<set<Key>>) {
    match supportedKeys
    case None => false
    case Some(keys) => Letter(A) in keys || Special(Space) in keys || Modifier(LeftCtrl) in keys || Modifier(LeftAlt) in keys
  }

  /** The keyboard test looks at nothing but the probe keys: a device is a
      keyboard exactly when its key set is known and meets `ProbeKeys`. */
  lemma IsKeyboardIffProbeKey(supportedKeys: Option<set<Key>>)
    ensures IsKeyboard(supportedKeys) <==> supportedKeys.Some? && supportedKeys.value * ProbeKeys != {}
  {
    if supportedKeys.Some? {
      var keys := supportedKeys.value;
      if Letter(A) in keys { assert Letter(A) in keys * ProbeKeys; }
      if Special(Space) in keys { assert Special(Space) in keys * ProbeKeys; }
      if Modifier(LeftCtrl) in keys { assert Modifier(LeftCtrl) in keys * ProbeKeys; }
      if Modifier(LeftAlt) in keys { assert Modifier(LeftAlt) in keys * ProbeKeys; }
      if keys * ProbeKeys != {} {
        var k :| k in keys * ProbeKeys;
      }
    }
  }

  /** A pointing device is not a keyboard, nor is a device whose only
      modifiers are right-hand ones; a device with space and left Control is. */
  lemma KeyboardExamples()
    ensures !IsKeyboard(Some({Other("BTN_LEFT"), Other("BTN_RIGHT"), Other("BTN_MIDDLE")}))
    ensures !IsKeyboard(Some({Modifier(RightCtrl), Modifier(RightAlt), Modifier(RightShift)}))
    ensures !IsKeyboard(None)
    ensures IsKeyboard(Some({Special(Space), Modifier(LeftCtrl)}))
  {
  }

  /** The path an entry adds to the keyboard list, if any. */
  function KeyboardPath(e: DirEntry): Option<string> {
    match e
    case Entry(name, Opened(keys)) =>
      if IsEventNode(name) && IsKeyboard(keys) then Some(PathOf(name)) else None
    case _ => None
  }

  /** The keyboards found among `entries`, in listing order. */
  function Accepted(entries: seq<DirEntry>): (paths: seq<string>)
    ensures |paths| <= |entries|
  {
    if entries == [] then []
    else
      var last := match KeyboardPath(entries[|entries| - 1]) case Some(p) => [p] case None => [];
      Accepted(entries[..|entries| - 1]) + last
  }

  /** Entry `i` is an event node whose opening was refused for lack of
      permission. */
  predicate PermissionDeniedAt(entries: seq<DirEntry>, i: int)
    requires 0 <= i < |entries|
  {
    entries[i].Entry? && IsEventNode(entries[i].fileName) && entries[i].open.PermDenied?
  }

  function PermissionMessage(fileName: string): string {
    "Permission denied for " + PathOf(fileName)
  }

  /** The remembered open error: the message for the last event node whose
      opening was refused for lack of permission. */
  function LastPermissionError(entries: seq<DirEntry>): Option<string> {
    if entries == [] then None
    else if PermissionDeniedAt(entries, |entries| - 1) then
      Some(PermissionMessage(entries[|entries| - 1].fileName))
    else
      LastPermissionError(entries[..|entries| - 1])
  }

  /** The enumeration loop: skip non-event names, try each event node, keep
      the keyboards in order, and remember the last permission failure. */
  method ScanDevices(entries: seq<DirEntry>) returns (keyboards: seq<string>, lastError: Option<string>)
    ensures keyboards == Accepted(entries)
    ensures lastError == LastPermissionError(entries)
  {
    keyboards, lastError := [], None;
    for i := 0 to |entries|
      invariant keyboards == Accepted(entries[..i])
      invariant lastError == LastPermissionError(entries[..i])
    {
      assert entries[..i + 1][..i] == entries[..i];
      match entries[i]
      case Unreadable =>
      case Entry(name, outcome) =>
        if IsEventNode(name) {
          match outcome
          case Opened(keys) =>
            if IsKeyboard(keys) {
              keyboards := keyboards + [PathOf(name)];
            }
          case PermDenied =>
            lastError := Some(PermissionMessage(name));
          case OtherErr =>
        }
    }
    assert entries[..|entries|] == entries;
  }

  /** Enumeration order is kept: the keyboards of two listings in a row are
      those of the first followed by those of the second. */
  lemma {:induction false} AcceptedAppend(a: seq<DirEntry>, b: seq<DirEntry>)
    ensures Accepted(a + b) == Accepted(a) + Accepted(b)
  {
    if b == [] {
      assert a + b == a;
    } else {
      var b' := b[..|b| - 1];
      assert (a + b)[..|a + b| - 1] == a + b';
      assert (a + b)[|a + b| - 1] == b[|b| - 1];
      AcceptedAppend(a, b');
    }
  }

  /** A path is accepted exactly when some entry is an event node that opened
      and was recognised as a keyboard at that path. */
  lemma {:induction false} AcceptedMembers(entries: seq<DirEntry>, p: string)
    ensures p in Accepted(entries) <==> exists i :: 0 <= i < |entries| && KeyboardPath(entries[i]) == Some(p)
  {
    if entries != [] {
      var init := entries[..|entries| - 1];
      AcceptedMembers(init, p);
      if p in Accepted(init) {
        var i :| 0 <= i < |init| && KeyboardPath(init[i]) == Some(p);
        assert entries[i] == init[i];
      }
      if exists i :: 0 <= i < |entries| && KeyboardPath(entries[i]) == Some(p) {
        var i :| 0 <= i < |entries| && KeyboardPath(entries[i]) == Some(p);
        if i < |init| {
          assert init[i] == entries[i];
        }
      }
    }
  }

  /** An entry that fails to open never ends discovery and adds no keyboard;
      only a permission failure on an event node changes the remembered
      error, and then it replaces whatever was remembered before. */
  lemma FailedOpenNotFatal(entries: seq<DirEntry>, name: string, outcome: OpenOutcome)
    requires !outcome.Opened?
    ensures Accepted(entries + [Entry(name, outcome)]) == Accepted(entries)
    ensures LastPermissionError(entries + [Entry(name, outcome)])
         == if IsEventNode(name) && outcome.PermDenied? then Some(PermissionMessage(name))
            else LastPermissionError(entries)
  {
  }

  /** The remembered error is present exactly when some event node was refused
      for lack of permission, and it names the last such node. */
  lemma {:induction false} LastPermissionErrorIsLast(entries: seq<DirEntry>)
    ensures LastPermissionError(entries).Some? <==> exists i :: 0 <= i < |entries| && PermissionDeniedAt(entries, i)
    ensures LastPermissionError(entries).Some? ==>
      exists i :: 0 <= i < |entries| && PermissionDeniedAt(entries, i)
        && LastPermissionError(entries) == Some(PermissionMessage(entries[i].fileName))
        && forall j :: i < j < |entries| ==> !PermissionDeniedAt(entries, j)
  {
    if entries != [] {
      var n := |entries| - 1;
      var init := entries[..n];
      LastPermissionErrorIsLast(init);
      assert forall i :: 0 <= i < n ==> (PermissionDeniedAt(init, i) <==> PermissionDeniedAt(entries, i));
      if !PermissionDeniedAt(entries, n) && LastPermissionError(init).Some? {
        var i :| 0 <= i < n && PermissionDeniedAt(init, i)
          && LastPermissionError(init) == Some(PermissionMessage(init[i].fileName))
          && forall j :: i < j < n ==> !PermissionDeniedAt(init, j);
        assert PermissionDeniedAt(entries, i);
      }
    }
  }

  /** Why discovery fails: the directory cannot be listed, a device was
      refused for lack of permission, or no keyboard was found. */
  datatype DiscoveryError =
    | CannotAccess(reason: string)
    | PermissionDenied(detail: string)
    | NoKeyboardFound

  const PermissionHint: string :=
    "User must be in 'input' group. Run: sudo usermod -aG input $USER, then log out and back in."
  const NoKeyboardMessage: string := "No keyboard device found in /dev/input/"

  /** The error the listener returns for a discovery failure. */
  function ErrorMessage(e: DiscoveryError): string {
    match e
    case CannotAccess(reason) => "Cannot access " + InputDir + ": " + reason
    case PermissionDenied(detail) => "Failed to access keyboard devices: " + detail
    case NoKeyboardFound => NoKeyboardMessage
  }

  /** The error record written to standard output for a discovery failure;
      an unreadable directory writes none. */
  function ErrorEvents(e: DiscoveryError): seq<Record> {
    match e
    case CannotAccess(_) => []
    case PermissionDenied(_) => [ErrorRecord("PermissionDenied", PermissionHint)]
    case NoKeyboardFound => [ErrorRecord("NoKeyboardFound", NoKeyboardMessage)]
  }

  /** The outcome of discovery for a directory listing (or the error listing
      it gave): the keyboards in order, or the error chosen when there are
      none. */
  function DiscoveryResult(listing: Result<seq<DirEntry>, string>): Result<seq<string>, DiscoveryError> {
    match listing
    case Err(reason) => Err(CannotAccess(reason))
    case Ok(entries) =>
      if Accepted(entries) != [] then Ok(Accepted(entries))
      else
        match LastPermissionError(entries)
        case Some(detail) => Err(PermissionDenied(detail))
        case None => Err(NoKeyboardFound)
  }

  /** Discovery as the listener runs it: list the directory, scan it, and when
      no keyboard is found write the error record and fail. */
  method Discover(listing: Result<seq<DirEntry>, string>) returns (result: Result<seq<string>, DiscoveryError>, out: seq<Record>)
    ensures result == DiscoveryResult(listing)
    ensures out == if result.Err? then ErrorEvents(result.error) else []
  {
    if listing.Err? {
      return Err(CannotAccess(listing.error)), [];
    }
    var keyboards, lastError := ScanDevices(listing.value);
    if keyboards == [] {
      if lastError.Some? {
        out := [ErrorRecord("PermissionDenied", PermissionHint)];
        return Err(PermissionDenied(lastError.value)), out;
      }
      out := [ErrorRecord("NoKeyboardFound", NoKeyboardMessage)];
      return Err(NoKeyboardFound), out;
    }
    return Ok(keyboards), [];
  }

  /** Discovery of a readable directory fails exactly when no keyboard is
      accepted, and then with PermissionDenied exactly when some event node
      was refused for lack of permission, even if other devices opened and
      were not keyboards; otherwise with NoKeyboardFound. */
  lemma PermissionDeniedIff(entries: seq<DirEntry>)
    ensures DiscoveryResult(Ok(entries)).Err? <==> Accepted(entries) == []
    ensures DiscoveryResult(Ok(entries)).Err? && DiscoveryResult(Ok(entries)).error.PermissionDenied?
        <==> Accepted(entries) == [] && exists i :: 0 <= i < |entries| && PermissionDeniedAt(entries, i)
    ensures DiscoveryResult(Ok(entries)) == Err(NoKeyboardFound)
        <==> Accepted(entries) == [] && forall i :: 0 <= i < |entries| ==> !PermissionDeniedAt(entries, i)
  {
    LastPermissionErrorIsLast(entries);
  }
}
