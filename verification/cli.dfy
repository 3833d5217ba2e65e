/** The command line: `<program> listen` runs the keyboard listener until it
    fails, `<program> write <text>` types the text once, and anything else
    prints the usage text. Exit status: 0 when writing succeeded, 101 when
    it failed, 1 for usage and for a failed listener. */
module Cli {
  import opened Wrappers
  import opened KeyNames
  import opened Events
  import opened Monitor
  import opened Discovery
  import opened Listener

  datatype Command = Listen | Write(text: string) | Usage(program: string)

  /** The program name used in the usage text when the argument list is empty. */
  const DefaultProgram: string := "speakmcp-rs"

  /** The command an argument list selects; `args[0]` is the program name. */
  function ParseArgs(args: seq<string>): (c: Command)
    ensures c.Listen? <==> |args| > 1 && args[1] == "listen"
    ensures c.Write? <==> |args| > 2 && args[1] == "write"
    ensures c.Write? ==> c.text == args[2]
    ensures c.Usage? ==> c.program == if args == [] then DefaultProgram else args[0]
  {
    if |args| > 1 && args[1] == "listen" then Listen
    else if |args| > 2 && args[1] == "write" then Write(args[2])
    else Usage(if |args| > 0 then args[0] else DefaultProgram)
  }

  /** The usage lines written to standard error. */
  function UsageText(program: string): seq<string> {
    [ "Usage: " + program + " [listen|write <text>]",
      "Commands:",
      "  listen       - Listen for keyboard events",
      "  write <text> - Write text using accessibility API" ]
  }

  predicate Contains(s: string, part: string) {
    exists i :: 0 <= i <= |s| && part <= s[i..]
  }

  /** Whatever the program name, the first usage line names both commands. */
  lemma UsageNamesCommands(program: string)
    ensures Contains(UsageText(program)[0], "listen")
    ensures Contains(UsageText(program)[0], "write <text>")
  {
    var head := "Usage: " + program;
    var tail := " [listen|write <text>]";
    var line := head + tail;
    assert UsageText(program)[0] == line;
    assert line[|head| + 2..] == tail[2..];
    assert "listen" <= tail[2..];
    assert line[|head| + 9..] == tail[9..];
    assert "write <text>" <= tail[9..];
  }

  /** What typing the text through the accessibility API returned. */
  datatype WriteOutcome = Written | WriteFailed(reason: string)

  /** The exit status, or None when the process does not exit (a listener
      that is still running). */
  function ExitCode(c: Command, session: SessionEnd, write: WriteOutcome): (code: Option<int>)
    ensures code == None <==> c.Listen? && session.Running?
    ensures code == Some(0) <==> c.Write? && write.Written?
    ensures code == Some(101) <==> c.Write? && write.WriteFailed?
    ensures code == Some(1) <==> c.Usage? || (c.Listen? && session.Ended?)
  {
    match c
    case Listen => if session.Ended? then Some(1) else None
    case Write(_) => if write.Written? then Some(0) else Some(101)
    case Usage(_) => Some(1)
  }

  /** One invocation: dispatch on the arguments, run the chosen command, and
      report what it wrote and how the process exits. The listener sees the
      directory listing and the fetch results of each keyboard; the write
      command sees what the accessibility API returned. */
  method Invoke(args: seq<string>, listing: Result<seq<DirEntry>, string>, devices: seq<seq<Fetch>>, write: WriteOutcome)
    returns (stdout: seq<Record>, stderr: seq<string>, exit: Option<int>)
    ensures exit == ExitCode(ParseArgs(args), SessionOutcome(listing, devices).1, write)
    ensures stdout == if ParseArgs(args).Listen? then SessionOutcome(listing, devices).0 else []
    ensures ParseArgs(args).Usage? ==> stderr == UsageText(ParseArgs(args).program)
    ensures ParseArgs(args).Listen? && SessionOutcome(listing, devices).1.Ended? ==>
      stderr == ["!error: " + SessionOutcome(listing, devices).1.error]
    ensures ParseArgs(args).Write? && write.WriteFailed? ==> stderr == ["Write command failed: " + write.reason]
    ensures exit == Some(0) || exit == None ==> stderr == []
  {
    var command := ParseArgs(args);
    stdout, stderr := [], [];
    match command
    case Listen =>
      var end;
      stdout, end := StartKeyboardListener(listing, devices);
      if end.Ended? {
        stderr := ["!error: " + end.error];
        return stdout, stderr, Some(1);
      }
      return stdout, stderr, None;
    case Write(_) =>
      if write.WriteFailed? {
        stderr := ["Write command failed: " + write.reason];
        return stdout, stderr, Some(101);
      }
      return stdout, stderr, Some(0);
    case Usage(program) =>
      stderr := UsageText(program);
      return stdout, stderr, Some(1);
  }

  /** A directory holding one keyboard, `event0`, which reports a press and
      then a release of the A key. */
  const OneKeyboard: Result<seq<DirEntry>, string> := Ok([Entry("event0", Opened(Some({Letter(A)})))])
  const PressThenReleaseOfADevice: seq<seq<Fetch>> := [[Batch([KeyInput(Letter(A), 1), KeyInput(Letter(A), 0)])]]

  /** `<program> listen` with that one keyboard prints a "KeyPress" and then
      a "KeyRelease" record, both named "KeyA", and keeps running. */
  lemma ListenPrintsPressThenReleaseOfA(program: string, write: WriteOutcome)
    ensures ParseArgs([program, "listen"]).Listen?
    ensures SessionOutcome(OneKeyboard, PressThenReleaseOfADevice)
         == ([KeyRecord(PressType, "KeyA"), KeyRecord(ReleaseType, "KeyA")], Running)
    ensures ExitCode(ParseArgs([program, "listen"]), SessionOutcome(OneKeyboard, PressThenReleaseOfADevice).1, write) == None
  {
    var entries := [Entry("event0", Opened(Some({Letter(A)})))];
    assert IsEventNode("event0");
    assert Accepted(entries) == [PathOf("event0")] by {
      assert entries[..0] == [];
    }
    assert DiscoveryResult(OneKeyboard) == Ok([PathOf("event0")]);
    OneKeyboardPrintsEveryKey(OneKeyboard, PressThenReleaseOfADevice);
    assert Concat(PressThenReleaseOfADevice[0]) == [KeyInput(Letter(A), 1), KeyInput(Letter(A), 0)];
    PressThenReleaseOfA();
  }
}
