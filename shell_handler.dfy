/**
  `C9ShellHandler`, the supervisor of the native C9 shell process, as a class
  whose fields are the handler's. Each method changes them exactly as the
  matching function of ShellModel says (`Snapshot()` is the fields as one
  `Shell` value); the properties of those functions are proved there.

  The environment drives the handler: it calls `OnStdout` with each chunk of
  the shell's output and `OnClose` when the process exits, and passes the
  operating system's answers to the native calls as `os`.
 */
module ShellHandler {
  import opened Wrappers
  import opened Text
  import opened ShellProtocol
  import opened ShellModel

  class C9ShellHandler {
    /** Whether a shell process is held (`_c9shell !== undefined`). */
    var running: bool
    var clientHwnd: nat
    const browserHwnd: nat
    var commandQueue: seq<Command>
    var lastMessage: Option<ShellMessage>
    var subscriber: Option<nat>
    var isPoppedOut: bool
    var pipeServerAvailable: bool
    var pipeName: string
    var shellTitle: Option<string>
    /** The native window calls made so far. */
    var effects: seq<Effect>
    /** The calls of the message callback so far. */
    var deliveries: seq<Delivery>
    /** The argument vectors of the shells spawned so far. */
    var launches: seq<seq<string>>
    /** The host's `--c9args=` command-line argument, if it has one. */
    const c9args: Option<string>
    /** Base64 decoding of an announced title. */
    const decodeTitle: string -> string

    ghost function Snapshot(): Shell
      reads this
    {
      Shell(running, clientHwnd, browserHwnd, commandQueue, lastMessage, subscriber, isPoppedOut,
            pipeServerAvailable, pipeName, shellTitle, effects, deliveries, launches)
    }

    /** A supervisor for host window `hwnd`, whose shell is launched at once; `guid` names its pipe. */
    constructor(hwnd: nat, guid: string, c9args: Option<string>, decodeTitle: string -> string)
      ensures Snapshot() == Initial(hwnd, guid, c9args)
      ensures this.c9args == c9args && this.decodeTitle == decodeTitle
    {
      browserHwnd := hwnd;
      this.c9args := c9args;
      this.decodeTitle := decodeTitle;
      running, clientHwnd, commandQueue := false, 0, [];
      lastMessage, subscriber := None, None;
      isPoppedOut, pipeServerAvailable := false, false;
      pipeName := PipeNamePrefix + guid;
      shellTitle := None;
      effects, deliveries, launches := [], [], [];
      new;
      LaunchC9Shell();
    }

    method IsStarted() returns (started: bool)
      ensures started == running
    {
      started := running;
    }

    /** Relaunches the shell with pipe name `symphony-<guid>`, unless one is running. */
    method StartShell(guid: string)
      modifies this
      ensures Snapshot() == ShellModel.StartShell(old(Snapshot()), guid, c9args)
    {
      if !running {
        ghost var s0 := Snapshot();
        lastMessage := None;
        clientHwnd := 0;
        isPoppedOut := false;
        pipeServerAvailable := false;
        pipeName := PipeNamePrefix + guid;
        assert Snapshot() == s0.(lastMessage := None, clientHwnd := 0, isPoppedOut := false,
                                 pipeServerAvailable := false, pipeName := PipeNamePrefix + guid);
        LaunchC9Shell();
      }
    }

    /** `_launchC9Shell`: emit `starting` and spawn the shell. */
    method LaunchC9Shell()
      modifies this
      ensures Snapshot() == Launch(old(Snapshot()), c9args)
    {
      SendMessage(ShellMessage(Starting, None));
      launches := launches + [SpawnArgs(browserHwnd, pipeName, c9args)];
      running := true;
    }

    /** The process `close` handler. */
    method OnClose()
      modifies this
      ensures Snapshot() == ProcessClosed(old(Snapshot()))
      ensures !running && lastMessage == Some(ShellMessage(Inactive, None))
    {
      running := false;
      SendMessage(ShellMessage(Inactive, None));
    }

    /** Subscribes `sub` (or nobody) to status messages; a subscriber is sent the last message at once. */
    method SetMessageCallback(sub: Option<nat>)
      modifies this
      ensures Snapshot() == ShellModel.SetMessageCallback(old(Snapshot()), sub)
      ensures deliveries == old(deliveries) +
        if sub.Some? && old(lastMessage).Some? then [Delivery(sub.value, old(lastMessage).value)] else []
    {
      subscriber := sub;
      if sub.None? {
        return;
      }
      if lastMessage.Some? {
        deliveries := deliveries + [Delivery(sub.value, lastMessage.value)];
      }
    }

    method SendMessage(m: ShellMessage)
      modifies this
      ensures Snapshot() == Emit(old(Snapshot()), m)
    {
      lastMessage := Some(m);
      if subscriber.Some? {
        deliveries := deliveries + [Delivery(subscriber.value, m)];
      }
    }

    method SendStatus()
      modifies this
      ensures Snapshot() == ShellModel.SendStatus(old(Snapshot()))
    {
      var data := StatusData(if pipeServerAvailable then Some(PipePathPrefix + pipeName) else None, shellTitle);
      SendMessage(ShellMessage(if isPoppedOut then PoppedOut else Hosted, Some(data)));
    }

    /** One native window call; `ok` is false when it fails (the code then throws). */
    method Native(e: Effect, os: Os) returns (ok: bool)
      modifies this
      ensures Step(Snapshot(), ok) == ShellModel.Native(old(Snapshot()), e, os)
    {
      effects := effects + [e];
      ok := os(e);
    }

    /** `sendCommand`; `ok` is false when a native call failed. */
    method SendCommand(cmd: Command, os: Os) returns (ok: bool)
      modifies this
      ensures Step(Snapshot(), ok) == ShellModel.SendCommand(old(Snapshot()), cmd, os)
      ensures old(clientHwnd) == 0 ==> ok && commandQueue == old(commandQueue) + [cmd] && effects == old(effects)
    {
      if clientHwnd == 0 {
        commandQueue := commandQueue + [cmd];
        return true;
      }
      match cmd
      case Hide =>
        ok := Native(SetWindowPos(clientHwnd, 0, OffScreen, OffScreen, 0, 0, HideFlags), os);
      case Show(left, top, width, height) =>
        ok := Native(SetWindowPos(clientHwnd, browserHwnd, left, top, width, height, ShowFlags), os);
      case Popout =>
        ok := true;
        if !isPoppedOut {
          ok := Native(SetWindowParent(clientHwnd, 0), os);
          if ok && !isPoppedOut {
            ok := Native(SetActiveWindow(clientHwnd), os);
          }
        }
      case Activate =>
        ok := Native(SetActiveWindow(clientHwnd), os);
    }

    /** A `C9SHELLHWND=(n)` announcement: store a nonzero handle, drain the queue, emit status. */
    method AnnounceHwnd(hwnd: nat, os: Os) returns (ok: bool)
      modifies this
      ensures Step(Snapshot(), ok) == ShellModel.AnnounceHwnd(old(Snapshot()), hwnd, os)
    {
      ok := true;
      if hwnd == 0 {
        return;
      }
      clientHwnd := hwnd;
      var queue := commandQueue;
      ghost var s1 := Snapshot();
      for i := 0 to |queue|
        invariant Snapshot() == s1.(effects := effects)
        invariant SendAll(s1, queue, os) == SendAll(Snapshot(), queue[i..], os)
      {
        assert queue[i..][0] == queue[i] && queue[i..][1..] == queue[i + 1..];
        ok := SendCommand(queue[i], os);
        if !ok {
          return;
        }
      }
      commandQueue := [];
      SendStatus();
    }

    /** One line of the shell's output, tested against the four patterns in order. */
    method HandleLine(line: string, os: Os) returns (ok: bool)
      modifies this
      ensures Step(Snapshot(), ok) == ShellModel.HandleLine(old(Snapshot()), line, os, decodeTitle)
    {
      ok := true;
      var hwndMatch := Find(line, HwndMarker, Digits);
      if hwndMatch.Some? {
        ok := AnnounceHwnd(ParseDecimal(hwndMatch.value.capture), os);
        if !ok {
          return;
        }
      }
      OnPipeReady(Includes(line, PipeMarker));
      OnPopout(Includes(line, PopoutMarker));
      var titleMatch := Find(line, TitleMarker, TitleChars);
      OnTitle(if titleMatch.Some? then Some(titleMatch.value.capture) else None);
    }

    /** The `C9SHELLSYMPHONYPIPE` branch of the line handler. */
    method OnPipeReady(ready: bool)
      modifies this
      ensures Snapshot() == MarkPipe(old(Snapshot()), ready)
    {
      if ready {
        pipeServerAvailable := true;
        SendStatus();
      }
    }

    /** The `C9SHELLPOPOUT` branch of the line handler. */
    method OnPopout(poppedOut: bool)
      modifies this
      ensures Snapshot() == MarkPopout(old(Snapshot()), poppedOut)
    {
      if poppedOut {
        isPoppedOut := true;
        SendStatus();
      }
    }

    /** The `C9SHELLTITLE=(...)` branch of the line handler. */
    method OnTitle(title: Option<string>)
      modifies this
      ensures Snapshot() == MarkTitle(old(Snapshot()), title, decodeTitle)
    {
      if title.Some? {
        shellTitle := Some(decodeTitle(title.value));
        SendStatus();
      }
    }

    /** The stdout `data` handler: each `\n`-separated line of `chunk`, in order. */
    method OnStdout(chunk: string, os: Os) returns (ok: bool)
      modifies this
      ensures Step(Snapshot(), ok) == HandleOutput(old(Snapshot()), chunk, os, decodeTitle)
    {
      var lines := Split(chunk, '\n');
      ok := true;
      for i := 0 to |lines|
        invariant HandleLines(old(Snapshot()), lines, os, decodeTitle) == HandleLines(Snapshot(), lines[i..], os, decodeTitle)
      {
        assert lines[i..][0] == lines[i] && lines[i..][1..] == lines[i + 1..];
        ok := HandleLine(lines[i], os);
        if !ok {
          return;
        }
      }
    }
  }
}
