/**
  The C9 shell supervisor as a state machine over values. `Shell` holds every
  field the supervisor keeps, together with three logs that stand for what it
  does to the outside: the native window calls it issues (`effects`), the
  status messages its subscriber receives (`deliveries`) and the argument
  vectors it spawns the shell with (`launches`). Each function below is one
  operation of the supervisor; the class in ShellHandler is proved to change
  its fields exactly as these functions say.

  A native window call can fail; the code then throws, which abandons the rest
  of whatever was running (the rest of a queue drain, of a line, of a chunk of
  output). The environment's answers are an oracle `os`: `os(e)` is false when
  call `e` fails.
 */
module ShellModel {
  import opened Wrappers
  import opened Text
  import opened ShellProtocol

  /** SWP_NOSIZE | SWP_NOZORDER | SWP_NOACTIVATE | SWP_HIDEWINDOW */
  const HideFlags := 0x95
  /** SWP_NOACTIVATE | SWP_SHOWWINDOW */
  const ShowFlags := 0x50
  /** Where a hidden window is parked, in logical pixels. */
  const OffScreen := -10000
  /** `\\?\pipe\`, the namespace of Windows named pipes. */
  const PipePathPrefix := "\\\\?\\pipe\\"
  const PipeNamePrefix := "symphony-"

  datatype Command = Hide | Show(left: int, top: int, width: int, height: int) | Popout | Activate

  /** A call into user32, at the level of the three private helpers. */
  datatype Effect =
    | SetWindowPos(hwnd: nat, parentHwnd: nat, x: int, y: int, width: int, height: int, flags: int)
    | SetWindowParent(hwnd: nat, parentHwnd: nat)
    | SetActiveWindow(hwnd: nat)

  /** Whether the operating system accepts a call. */
  type Os = Effect -> bool

  datatype MessageKind = Inactive | Starting | Hosted | PoppedOut
  datatype StatusData = StatusData(pipeName: Option<string>, shellTitle: Option<string>)
  datatype ShellMessage = ShellMessage(message: MessageKind, data: Option<StatusData>)

  /** One invocation of the subscriber callback; subscribers are told apart by number. */
  datatype Delivery = Delivery(subscriber: nat, message: ShellMessage)

  datatype Shell = Shell(
    running: bool,
    clientHwnd: nat,
    browserHwnd: nat,
    commandQueue: seq<Command>,
    lastMessage: Option<ShellMessage>,
    subscriber: Option<nat>,
    isPoppedOut: bool,
    pipeServerAvailable: bool,
    pipeName: string,
    shellTitle: Option<string>,
    effects: seq<Effect>,
    deliveries: seq<Delivery>,
    launches: seq<seq<string>>)

  /** The state after an operation, and whether it finished without a throw. */
  datatype Step = Step(shell: Shell, ok: bool)

  // ---------------------------------------------------------------- messages

  /** `_sendMessage`: remember the message and hand it to the subscriber, if any. */
  function Emit(s: Shell, m: ShellMessage): Shell {
    s.(lastMessage := Some(m),
       deliveries := s.deliveries + if s.subscriber.Some? then [Delivery(s.subscriber.value, m)] else [])
  }

  /** The message `_sendStatus` builds from the current fields. */
  function StatusOf(s: Shell): ShellMessage {
    ShellMessage(
      if s.isPoppedOut then PoppedOut else Hosted,
      Some(StatusData(
        if s.pipeServerAvailable then Some(PipePathPrefix + s.pipeName) else None,
        s.shellTitle)))
  }

  function SendStatus(s: Shell): Shell {
    Emit(s, StatusOf(s))
  }

  /** `setMessageCallback`: replace the subscriber and replay the last message to it. */
  function SetMessageCallback(s: Shell, subscriber: Option<nat>): Shell {
    var s1 := s.(subscriber := subscriber);
    if subscriber.Some? && s.lastMessage.Some? then
      s1.(deliveries := s1.deliveries + [Delivery(subscriber.value, s.lastMessage.value)])
    else s1
  }

  // ---------------------------------------------------------------- commands

  /** Issue one native call. */
  function Native(s: Shell, e: Effect, os: Os): Step {
    Step(s.(effects := s.effects + [e]), os(e))
  }

  /** The `switch` of `sendCommand`, reached once the client window handle is known. */
  function Dispatch(s: Shell, cmd: Command, os: Os): Step {
    var hwnd := s.clientHwnd;
    match cmd
    case Hide => Native(s, SetWindowPos(hwnd, 0, OffScreen, OffScreen, 0, 0, HideFlags), os)
    case Show(left, top, width, height) =>
      Native(s, SetWindowPos(hwnd, s.browserHwnd, left, top, width, height, ShowFlags), os)
    case Popout =>
      if s.isPoppedOut then Step(s, true)
      else
        var parented := Native(s, SetWindowParent(hwnd, 0), os);
        // the first, synchronous round of `awaitPopout`
        if !parented.ok then parented else Native(parented.shell, SetActiveWindow(hwnd), os)
    case Activate => Native(s, SetActiveWindow(hwnd), os)
  }

  /** `sendCommand`: queue the command until the handle is known, else dispatch it. */
  function SendCommand(s: Shell, cmd: Command, os: Os): Step {
    if s.clientHwnd == 0 then Step(s.(commandQueue := s.commandQueue + [cmd]), true)
    else Dispatch(s, cmd, os)
  }

  /** `sendCommand` on each command in turn, abandoned at the first throw. */
  function SendAll(s: Shell, cmds: seq<Command>, os: Os): Step
    decreases |cmds|
  {
    if cmds == [] then Step(s, true)
    else
      var first := SendCommand(s, cmds[0], os);
      if !first.ok then first else SendAll(first.shell, cmds[1..], os)
  }

  // --------------------------------------------- reference plan of the calls

  /** The native calls a command makes when every one of them succeeds. */
  function CommandPlan(cmd: Command, hwnd: nat, browserHwnd: nat, poppedOut: bool): seq<Effect> {
    match cmd
    case Hide => [SetWindowPos(hwnd, 0, OffScreen, OffScreen, 0, 0, HideFlags)]
    case Show(left, top, width, height) => [SetWindowPos(hwnd, browserHwnd, left, top, width, height, ShowFlags)]
    case Popout => if poppedOut then [] else [SetWindowParent(hwnd, 0), SetActiveWindow(hwnd)]
    case Activate => [SetActiveWindow(hwnd)]
  }

  /** The plans of a sequence of commands, concatenated in submission order. */
  function QueuePlan(cmds: seq<Command>, hwnd: nat, browserHwnd: nat, poppedOut: bool): seq<Effect>
    decreases |cmds|
  {
    if cmds == [] then []
    else CommandPlan(cmds[0], hwnd, browserHwnd, poppedOut) + QueuePlan(cmds[1..], hwnd, browserHwnd, poppedOut)
  }

  /** Every call of `plan` succeeds. */
  predicate Accepts(os: Os, plan: seq<Effect>)
    decreases |plan|
  {
    plan == [] || (os(plan[0]) && Accepts(os, plan[1..]))
  }

  /** The calls of `plan` actually made: all of them, or up to and including the first that fails. */
  function Issued(os: Os, plan: seq<Effect>): seq<Effect>
    decreases |plan|
  {
    if plan == [] then []
    else if !os(plan[0]) then [plan[0]]
    else [plan[0]] + Issued(os, plan[1..])
  }

  lemma {:induction false} IssuedConcat(os: Os, a: seq<Effect>, b: seq<Effect>)
    ensures Accepts(os, a + b) <==> Accepts(os, a) && Accepts(os, b)
    ensures Issued(os, a + b) == if Accepts(os, a) then a + Issued(os, b) else Issued(os, a)
    decreases |a|
  {
    if a == [] {
      assert a + b == b;
    } else {
      var ab := a + b;
      assert ab != [] && ab[0] == a[0];
      assert ab[1..] == a[1..] + b;
      if os(a[0]) {
        IssuedConcat(os, a[1..], b);
        assert Accepts(os, ab) == Accepts(os, a[1..] + b);
        assert Issued(os, ab) == [a[0]] + Issued(os, a[1..] + b);
        if Accepts(os, a[1..]) {
          assert [a[0]] + (a[1..] + Issued(os, b)) == a + Issued(os, b);
        }
      } else {
        assert !Accepts(os, ab) && !Accepts(os, a);
        assert Issued(os, ab) == [a[0]] == Issued(os, a);
      }
    }
  }

  lemma {:induction false} IssuedAccepted(os: Os, plan: seq<Effect>)
    ensures Accepts(os, plan) ==> Issued(os, plan) == plan
    decreases |plan|
  {
    if plan != [] && Accepts(os, plan) {
      IssuedAccepted(os, plan[1..]);
    }
  }

  /** The outcome of making the calls of `plan` in order, abandoned after the first failure. */
  function RunPlan(s: Shell, plan: seq<Effect>, os: Os): Step {
    Step(s.(effects := s.effects + Issued(os, plan)), Accepts(os, plan))
  }

  /** Running two plans in a row is running their concatenation. */
  lemma RunPlanConcat(s: Shell, a: seq<Effect>, b: seq<Effect>, os: Os)
    ensures Accepts(os, a) ==> RunPlan(s, a + b, os) == RunPlan(RunPlan(s, a, os).shell, b, os)
    ensures !Accepts(os, a) ==> RunPlan(s, a + b, os) == RunPlan(s, a, os)
  {
    IssuedConcat(os, a, b);
    if Accepts(os, a) {
      IssuedAccepted(os, a);
      assert s.effects + a + Issued(os, b) == s.effects + (a + Issued(os, b));
    }
  }

  /**
    Dispatching a command makes the calls of its plan in order, stopping after
    the first that fails; it touches nothing but the effect log. In particular
    `popout` sets the parent before it activates and activates only if that
    worked, and `popout` of a popped-out window makes no call.
   */
  lemma {:induction false} DispatchFollowsPlan(s: Shell, cmd: Command, os: Os)
    ensures Dispatch(s, cmd, os) == RunPlan(s, CommandPlan(cmd, s.clientHwnd, s.browserHwnd, s.isPoppedOut), os)
  {
    var hwnd := s.clientHwnd;
    match cmd
    case Hide => NativeIsPlan(s, SetWindowPos(hwnd, 0, OffScreen, OffScreen, 0, 0, HideFlags), os);
    case Show(left, top, width, height) =>
      NativeIsPlan(s, SetWindowPos(hwnd, s.browserHwnd, left, top, width, height, ShowFlags), os);
    case Activate => NativeIsPlan(s, SetActiveWindow(hwnd), os);
    case Popout =>
      if s.isPoppedOut {
        assert s.effects + [] == s.effects;
      } else {
        var parent, activate := SetWindowParent(hwnd, 0), SetActiveWindow(hwnd);
        NativeIsPlan(s, parent, os);
        NativeIsPlan(Native(s, parent, os).shell, activate, os);
        RunPlanConcat(s, [parent], [activate], os);
        assert [parent] + [activate] == [parent, activate];
      }
  }

  /** One native call is the plan of that one call. */
  lemma NativeIsPlan(s: Shell, e: Effect, os: Os)
    ensures Native(s, e, os) == RunPlan(s, [e], os)
  {
    assert [e][1..] == [] && [e] + [] == [e];
    assert Issued(os, [e]) == [e];
    assert Accepts(os, [e]) == os(e);
    assert s.(effects := s.effects + [e]) == RunPlan(s, [e], os).shell;
  }

  /**
    Draining: with the handle known, sending a sequence of commands makes the
    calls of their plans in submission order, stopping after the first failed
    call, and changes nothing but the effect log.
   */
  lemma {:induction false} SendAllFollowsPlan(s: Shell, cmds: seq<Command>, os: Os)
    requires s.clientHwnd != 0
    ensures SendAll(s, cmds, os) == RunPlan(s, QueuePlan(cmds, s.clientHwnd, s.browserHwnd, s.isPoppedOut), os)
    decreases |cmds|
  {
    var hwnd, hb, po := s.clientHwnd, s.browserHwnd, s.isPoppedOut;
    if cmds == [] {
      assert s.effects + [] == s.effects;
    } else {
      var head := CommandPlan(cmds[0], hwnd, hb, po);
      var tail := QueuePlan(cmds[1..], hwnd, hb, po);
      assert QueuePlan(cmds, hwnd, hb, po) == head + tail;
      DispatchFollowsPlan(s, cmds[0], os);
      RunPlanConcat(s, head, tail, os);
      var first := Dispatch(s, cmds[0], os);
      if first.ok {
        SendAllFollowsPlan(first.shell, cmds[1..], os);
      }
    }
  }

  /** While the handle is unknown, commands are queued at the end, in order, and no call is made. */
  lemma {:induction false} SendAllQueues(s: Shell, cmds: seq<Command>, os: Os)
    requires s.clientHwnd == 0
    ensures SendAll(s, cmds, os) == Step(s.(commandQueue := s.commandQueue + cmds), true)
    decreases |cmds|
  {
    if cmds != [] {
      var first := SendCommand(s, cmds[0], os);
      SendAllQueues(first.shell, cmds[1..], os);
      assert s.commandQueue + [cmds[0]] + cmds[1..] == s.commandQueue + cmds;
    }
  }

  // ------------------------------------------------------------------ output

  /** A `C9SHELLHWND=(n)` announcement. */
  function AnnounceHwnd(s: Shell, hwnd: nat, os: Os): Step {
    if hwnd == 0 then Step(s, true)
    else
      var drained := SendAll(s.(clientHwnd := hwnd), s.commandQueue, os);
      if !drained.ok then drained
      else Step(SendStatus(drained.shell.(commandQueue := [])), true)
  }

  /** The handlers of the four patterns, in the order the code tests them. */
  function ApplyEvents(s: Shell, ev: LineEvents, os: Os, decodeTitle: string -> string): Step {
    var announced := if ev.hwnd.Some? then AnnounceHwnd(s, ev.hwnd.value, os) else Step(s, true);
    if !announced.ok then announced
    else Step(ApplyMarkers(announced.shell, ev, decodeTitle), true)
  }

  /** The pipe, popout and title handlers, which never throw. */
  function ApplyMarkers(s: Shell, ev: LineEvents, decodeTitle: string -> string): Shell {
    MarkTitle(MarkPopout(MarkPipe(s, ev.pipeReady), ev.poppedOut), ev.title, decodeTitle)
  }

  /** `C9SHELLSYMPHONYPIPE`: the pipe server is listening. */
  function MarkPipe(s: Shell, ready: bool): Shell {
    if ready then SendStatus(s.(pipeServerAvailable := true)) else s
  }

  /** `C9SHELLPOPOUT`: the shell left the host window. */
  function MarkPopout(s: Shell, poppedOut: bool): Shell {
    if poppedOut then SendStatus(s.(isPoppedOut := true)) else s
  }

  /** `C9SHELLTITLE=(...)`: the decoded title of the shell window. */
  function MarkTitle(s: Shell, title: Option<string>, decodeTitle: string -> string): Shell {
    if title.Some? then SendStatus(s.(shellTitle := Some(decodeTitle(title.value)))) else s
  }

  function HandleLine(s: Shell, line: string, os: Os, decodeTitle: string -> string): Step {
    ApplyEvents(s, Decode(line), os, decodeTitle)
  }

  function HandleLines(s: Shell, lines: seq<string>, os: Os, decodeTitle: string -> string): Step
    decreases |lines|
  {
    if lines == [] then Step(s, true)
    else
      var first := HandleLine(s, lines[0], os, decodeTitle);
      if !first.ok then first else HandleLines(first.shell, lines[1..], os, decodeTitle)
  }

  /** The stdout `data` handler: every `\n`-separated line of the chunk, in order. */
  function HandleOutput(s: Shell, chunk: string, os: Os, decodeTitle: string -> string): Step {
    HandleLines(s, Split(chunk, '\n'), os, decodeTitle)
  }

  // --------------------------------------------------------------- lifecycle

  /** The extra arguments of `--c9args=`: everything after that prefix, split on spaces. */
  function CustomArgs(c9args: Option<string>): seq<string> {
    match c9args
    case None => []
    case Some(arg) => if arg == "" then [] else Split(if |arg| >= 9 then arg[9..] else "", ' ')
  }

  /** The argument vector the shell is spawned with. */
  function SpawnArgs(browserHwnd: nat, pipeName: string, c9args: Option<string>): seq<string> {
    ["--allowmultiproc", "--symphonyHost", NatToString(browserHwnd) + "," + pipeName] + CustomArgs(c9args)
  }

  /** `_launchC9Shell`: announce `starting`, then spawn the shell. */
  function Launch(s: Shell, c9args: Option<string>): Shell {
    var s1 := Emit(s, ShellMessage(Starting, None));
    s1.(running := true, launches := s1.launches + [SpawnArgs(s.browserHwnd, s.pipeName, c9args)])
  }

  /** The constructor: a supervisor for host window `browserHwnd`, launched at once. */
  function Initial(browserHwnd: nat, guid: string, c9args: Option<string>): Shell {
    Launch(Shell(false, 0, browserHwnd, [], None, None, false, false, PipeNamePrefix + guid, None, [], [], []), c9args)
  }

  /** `startShell`: relaunch with a fresh pipe name, unless a process is held. */
  function StartShell(s: Shell, guid: string, c9args: Option<string>): Shell {
    if s.running then s
    else
      Launch(s.(lastMessage := None, clientHwnd := 0, isPoppedOut := false,
                pipeServerAvailable := false, pipeName := PipeNamePrefix + guid), c9args)
  }

  /** The process `close` handler. */
  function ProcessClosed(s: Shell): Shell {
    Emit(s.(running := false), ShellMessage(Inactive, None))
  }

  /** Everything the environment can do to the supervisor. */
  datatype Input =
    | Start(guid: string)
    | Send(cmd: Command, os: Os)
    | Subscribe(subscriber: Option<nat>)
    | Output(chunk: string, os: Os)
    | Exit

  function Next(s: Shell, input: Input, c9args: Option<string>, decodeTitle: string -> string): Step {
    match input
    case Start(guid) => Step(StartShell(s, guid, c9args), true)
    case Send(cmd, os) => SendCommand(s, cmd, os)
    case Subscribe(subscriber) => Step(SetMessageCallback(s, subscriber), true)
    case Output(chunk, os) => HandleOutput(s, chunk, os, decodeTitle)
    case Exit => Step(ProcessClosed(s), true)
  }

  // ------------------------------------------------------------- properties

  /** Commands wait in the queue only while the client window handle is unknown. */
  ghost predicate QueueInvariant(s: Shell) {
    s.clientHwnd != 0 ==> s.commandQueue == []
  }

  /**
    A nonzero handle announcement stores the handle, makes the calls of every
    queued command in submission order, empties the queue and then emits one
    status -- provided every call succeeds. If one fails, the rest of the queue
    is abandoned and the queue is left as it was, with the handle already set:
    the only way QueueInvariant can break.
   */
  lemma AnnounceHwndDrains(s: Shell, hwnd: nat, os: Os)
    requires hwnd != 0
    ensures var plan := QueuePlan(s.commandQueue, hwnd, s.browserHwnd, s.isPoppedOut);
      var r := AnnounceHwnd(s, hwnd, os);
      && (r.ok <==> Accepts(os, plan))
      && (r.ok ==> r.shell == SendStatus(s.(clientHwnd := hwnd, commandQueue := [], effects := s.effects + plan)))
      && (!r.ok ==> (r.shell.clientHwnd == hwnd && r.shell.commandQueue == s.commandQueue
                     && r.shell.deliveries == s.deliveries))
  {
    var plan := QueuePlan(s.commandQueue, hwnd, s.browserHwnd, s.isPoppedOut);
    SendAllFollowsPlan(s.(clientHwnd := hwnd), s.commandQueue, os);
    IssuedAccepted(os, plan);
  }

  /** A zero handle announcement changes nothing. */
  lemma AnnounceZeroIgnored(s: Shell, os: Os)
    ensures AnnounceHwnd(s, 0, os) == Step(s, true)
  {
  }

  /** The number of statuses a line's events emit: one per marker, a zero handle excepted. */
  function StatusCount(ev: LineEvents): nat {
    (if ev.hwnd.Some? && ev.hwnd.value != 0 then 1 else 0)
    + (if ev.pipeReady then 1 else 0) + (if ev.poppedOut then 1 else 0) + (if ev.title.Some? then 1 else 0)
  }

  /** One status emission while subscribed: the status of the current fields is delivered to the subscriber and remembered. */
  lemma SendStatusDelivers(s: Shell)
    requires s.subscriber.Some?
    ensures var r := SendStatus(s);
      && r.deliveries == s.deliveries + [Delivery(s.subscriber.value, StatusOf(s))]
      && StatusOf(r) == StatusOf(s) && r.lastMessage == Some(StatusOf(r))
      && r == s.(lastMessage := r.lastMessage, deliveries := r.deliveries)
  {
  }

  /** `after` is `before` followed by deliveries to `subscriber` only. */
  ghost predicate DeliveredTo(before: seq<Delivery>, after: seq<Delivery>, subscriber: nat) {
    && |before| <= |after| && after[..|before|] == before
    && forall j :: |before| <= j < |after| ==> after[j].subscriber == subscriber
  }

  lemma DeliveredToNothing(a: seq<Delivery>, subscriber: nat)
    ensures DeliveredTo(a, a, subscriber)
  {
    assert a[..|a|] == a;
  }

  lemma DeliveredToOne(a: seq<Delivery>, d: Delivery)
    ensures DeliveredTo(a, a + [d], d.subscriber)
  {
    assert (a + [d])[..|a|] == a;
  }

  lemma DeliveredToTrans(a: seq<Delivery>, b: seq<Delivery>, c: seq<Delivery>, subscriber: nat)
    requires DeliveredTo(a, b, subscriber) && DeliveredTo(b, c, subscriber)
    ensures DeliveredTo(a, c, subscriber)
  {
    assert c[..|a|] == c[..|b|][..|a|];
    forall j | |a| <= j < |c| ensures c[j].subscriber == subscriber {
      if j < |b| {
        assert c[j] == c[..|b|][j] == b[j];
      }
    }
  }

  /**
    Handlers taking `x` to `y` while `subscriber` listens emitted `n`
    statuses: `n` deliveries to the subscriber are appended, the last of them
    describing the new state and remembered; with none, nothing changes.
   */
  ghost predicate StatusSteps(x: Shell, y: Shell, n: nat, subscriber: nat) {
    && DeliveredTo(x.deliveries, y.deliveries, subscriber)
    && |y.deliveries| == |x.deliveries| + n
    && (n > 0 ==> y.deliveries[|y.deliveries| - 1] == Delivery(subscriber, StatusOf(y))
                  && y.lastMessage == Some(StatusOf(y)))
    && (n == 0 ==> y == x)
    && y.subscriber == x.subscriber
  }

  /** A status emission, after a change of fields that leaves the subscriber, is a step that fired. */
  lemma SendStatusStep(x: Shell, changed: Shell)
    requires x.subscriber.Some? && changed.subscriber == x.subscriber && changed.deliveries == x.deliveries
    ensures StatusSteps(x, SendStatus(changed), 1, x.subscriber.value)
  {
    SendStatusDelivers(changed);
    DeliveredToOne(x.deliveries, Delivery(x.subscriber.value, StatusOf(changed)));
  }

  lemma MarkPipeStep(s: Shell, ready: bool)
    requires s.subscriber.Some?
    ensures StatusSteps(s, MarkPipe(s, ready), if ready then 1 else 0, s.subscriber.value)
  {
    if ready { SendStatusStep(s, s.(pipeServerAvailable := true)); } else { DeliveredToNothing(s.deliveries, s.subscriber.value); }
  }

  lemma MarkPopoutStep(s: Shell, poppedOut: bool)
    requires s.subscriber.Some?
    ensures StatusSteps(s, MarkPopout(s, poppedOut), if poppedOut then 1 else 0, s.subscriber.value)
  {
    if poppedOut { SendStatusStep(s, s.(isPoppedOut := true)); } else { DeliveredToNothing(s.deliveries, s.subscriber.value); }
  }

  lemma MarkTitleStep(s: Shell, title: Option<string>, decodeTitle: string -> string)
    requires s.subscriber.Some?
    ensures StatusSteps(s, MarkTitle(s, title, decodeTitle), if title.Some? then 1 else 0, s.subscriber.value)
  {
    if title.Some? {
      SendStatusStep(s, s.(shellTitle := Some(decodeTitle(title.value))));
    } else {
      DeliveredToNothing(s.deliveries, s.subscriber.value);
    }
  }

  /** Handlers in a row: their statuses in order, the last of them describing the final state. */
  lemma StatusStepsCompose(a: Shell, b: Shell, c: Shell, m: nat, n: nat, subscriber: nat)
    requires StatusSteps(a, b, m, subscriber) && StatusSteps(b, c, n, subscriber)
    ensures StatusSteps(a, c, m + n, subscriber)
  {
    DeliveredToTrans(a.deliveries, b.deliveries, c.deliveries, subscriber);
  }

  /** The number of statuses the pipe, popout and title markers emit. */
  function MarkerCount(ev: LineEvents): nat {
    (if ev.pipeReady then 1 else 0) + (if ev.poppedOut then 1 else 0) + (if ev.title.Some? then 1 else 0)
  }

  /**
    The k-th status a line emits after leaving `s`, counting from 0, when `h`
    (0 or 1) handle statuses come first. The handle status describes `s`.
    The pipe status comes next and shows the pipe. The popout status follows
    and shows the pop-out. The title status is the `last` one and shows the
    decoded title.
   */
  function ExpectedStatus(s: Shell, ev: LineEvents, decodeTitle: string -> string, k: int, h: nat, last: bool): ShellMessage {
    var p := if ev.pipeReady then 1 else 0;
    ShellMessage(
      if s.isPoppedOut || (ev.poppedOut && k >= h + p) then PoppedOut else Hosted,
      Some(StatusData(
        if s.pipeServerAvailable || (ev.pipeReady && k >= h) then Some(PipePathPrefix + s.pipeName) else None,
        if ev.title.Some? && last then Some(decodeTitle(ev.title.value)) else s.shellTitle)))
  }

  /** The deliveries from `base` on are the statuses of a line leaving `s`, in the code's order. */
  ghost predicate StatusesInOrder(s: Shell, ds: seq<Delivery>, base: nat, h: nat, ev: LineEvents, decodeTitle: string -> string) {
    forall j :: base <= j < |ds| ==> ds[j].message == ExpectedStatus(s, ev, decodeTitle, j - base, h, j == |ds| - 1)
  }

  /** The statuses before the title's do not show the new title. */
  ghost predicate StatusesBeforeTitle(s: Shell, ds: seq<Delivery>, base: nat, h: nat, ev: LineEvents, decodeTitle: string -> string) {
    forall j :: base <= j < |ds| ==> ds[j].message == ExpectedStatus(s, ev, decodeTitle, j - base, h, false)
  }

  /**
    Starting from `x`, whose status fields are those of `s` and which already
    carries the `h` handle statuses, the pipe, popout and title handlers
    append their statuses in that order, each reflecting its own marker.
   */
  lemma ApplyMarkersInOrder(s: Shell, x: Shell, ev: LineEvents, decodeTitle: string -> string, base: nat, h: nat)
    requires x.subscriber.Some?
    requires |x.deliveries| == base + h
    requires x.isPoppedOut == s.isPoppedOut && x.pipeServerAvailable == s.pipeServerAvailable
    requires x.pipeName == s.pipeName && x.shellTitle == s.shellTitle
    requires StatusesBeforeTitle(s, x.deliveries, base, h, ev, decodeTitle)
    ensures StatusesInOrder(s, ApplyMarkers(x, ev, decodeTitle).deliveries, base, h, ev, decodeTitle)
  {
    var x2 := MarkPipe(x, ev.pipeReady);
    MarkPipeInOrder(s, x, ev, decodeTitle, base, h);
    var x3 := MarkPopout(x2, ev.poppedOut);
    MarkPopoutInOrder(s, x2, ev, decodeTitle, base, h);
    MarkTitleInOrder(s, x3, ev, decodeTitle, base, h);
  }

  lemma MarkPipeInOrder(s: Shell, x: Shell, ev: LineEvents, decodeTitle: string -> string, base: nat, h: nat)
    requires x.subscriber.Some?
    requires |x.deliveries| == base + h
    requires x.isPoppedOut == s.isPoppedOut && x.pipeServerAvailable == s.pipeServerAvailable
    requires x.pipeName == s.pipeName && x.shellTitle == s.shellTitle
    requires StatusesBeforeTitle(s, x.deliveries, base, h, ev, decodeTitle)
    ensures var r := MarkPipe(x, ev.pipeReady);
      && r.subscriber == x.subscriber && |r.deliveries| == base + h + (if ev.pipeReady then 1 else 0)
      && r.isPoppedOut == s.isPoppedOut && r.pipeServerAvailable == (s.pipeServerAvailable || ev.pipeReady)
      && r.pipeName == s.pipeName && r.shellTitle == s.shellTitle
      && StatusesBeforeTitle(s, r.deliveries, base, h, ev, decodeTitle)
  {
    if ev.pipeReady {
      var r := MarkPipe(x, ev.pipeReady);
      var d := Delivery(x.subscriber.value, StatusOf(x.(pipeServerAvailable := true)));
      assert r.deliveries == x.deliveries + [d];
      assert d.message == ExpectedStatus(s, ev, decodeTitle, h, h, false);
      forall j | base <= j < |r.deliveries|
        ensures r.deliveries[j].message == ExpectedStatus(s, ev, decodeTitle, j - base, h, false)
      {
        if j < |x.deliveries| { assert r.deliveries[j] == x.deliveries[j]; }
      }
    }
  }

  lemma MarkPopoutInOrder(s: Shell, x: Shell, ev: LineEvents, decodeTitle: string -> string, base: nat, h: nat)
    requires x.subscriber.Some?
    requires |x.deliveries| == base + h + (if ev.pipeReady then 1 else 0)
    requires x.isPoppedOut == s.isPoppedOut && x.pipeServerAvailable == (s.pipeServerAvailable || ev.pipeReady)
    requires x.pipeName == s.pipeName && x.shellTitle == s.shellTitle
    requires StatusesBeforeTitle(s, x.deliveries, base, h, ev, decodeTitle)
    ensures var r := MarkPopout(x, ev.poppedOut);
      && r.subscriber == x.subscriber
      && |r.deliveries| == base + h + (if ev.pipeReady then 1 else 0) + (if ev.poppedOut then 1 else 0)
      && r.isPoppedOut == (s.isPoppedOut || ev.poppedOut) && r.pipeServerAvailable == (s.pipeServerAvailable || ev.pipeReady)
      && r.pipeName == s.pipeName && r.shellTitle == s.shellTitle
      && StatusesBeforeTitle(s, r.deliveries, base, h, ev, decodeTitle)
  {
    if ev.poppedOut {
      var r := MarkPopout(x, ev.poppedOut);
      var d := Delivery(x.subscriber.value, StatusOf(x.(isPoppedOut := true)));
      assert r.deliveries == x.deliveries + [d];
      assert d.message == ExpectedStatus(s, ev, decodeTitle, |x.deliveries| - base, h, false);
      forall j | base <= j < |r.deliveries|
        ensures r.deliveries[j].message == ExpectedStatus(s, ev, decodeTitle, j - base, h, false)
      {
        if j < |x.deliveries| { assert r.deliveries[j] == x.deliveries[j]; }
      }
    }
  }

  lemma MarkTitleInOrder(s: Shell, x: Shell, ev: LineEvents, decodeTitle: string -> string, base: nat, h: nat)
    requires x.subscriber.Some?
    requires |x.deliveries| == base + h + (if ev.pipeReady then 1 else 0) + (if ev.poppedOut then 1 else 0)
    requires x.isPoppedOut == (s.isPoppedOut || ev.poppedOut) && x.pipeServerAvailable == (s.pipeServerAvailable || ev.pipeReady)
    requires x.pipeName == s.pipeName && x.shellTitle == s.shellTitle
    requires StatusesBeforeTitle(s, x.deliveries, base, h, ev, decodeTitle)
    ensures StatusesInOrder(s, MarkTitle(x, ev.title, decodeTitle).deliveries, base, h, ev, decodeTitle)
  {
    var r := MarkTitle(x, ev.title, decodeTitle);
    if ev.title.Some? {
      var d := Delivery(x.subscriber.value, StatusOf(x.(shellTitle := Some(decodeTitle(ev.title.value)))));
      assert r.deliveries == x.deliveries + [d];
      assert d.message == ExpectedStatus(s, ev, decodeTitle, |x.deliveries| - base, h, true);
      forall j | base <= j < |r.deliveries|
        ensures r.deliveries[j].message == ExpectedStatus(s, ev, decodeTitle, j - base, h, j == |r.deliveries| - 1)
      {
        if j < |x.deliveries| { assert r.deliveries[j] == x.deliveries[j]; }
      }
    } else {
      forall j | base <= j < |r.deliveries|
        ensures r.deliveries[j].message == ExpectedStatus(s, ev, decodeTitle, j - base, h, j == |r.deliveries| - 1)
      {
        assert ExpectedStatus(s, ev, decodeTitle, j - base, h, false) == ExpectedStatus(s, ev, decodeTitle, j - base, h, true);
      }
    }
  }

  /**
    The marker handlers emit one status each to the subscriber, appended to
    what it was sent before, the last of which describes the final state;
    each sets its own field and none of them touches the window handle, the
    queue or the subscriber.
   */
  lemma ApplyMarkersEmits(s: Shell, ev: LineEvents, decodeTitle: string -> string)
    requires s.subscriber.Some?
    ensures var r := ApplyMarkers(s, ev, decodeTitle);
      && StatusSteps(s, r, MarkerCount(ev), s.subscriber.value)
      && (ev.pipeReady ==> r.pipeServerAvailable)
      && (ev.poppedOut ==> r.isPoppedOut)
      && (ev.title.Some? ==> r.shellTitle == Some(decodeTitle(ev.title.value)))
      && StatusesInOrder(s, r.deliveries, |s.deliveries|, 0, ev, decodeTitle)
      && (!ev.pipeReady ==> r.pipeServerAvailable == s.pipeServerAvailable)
      && (!ev.poppedOut ==> r.isPoppedOut == s.isPoppedOut)
      && (ev.title.None? ==> r.shellTitle == s.shellTitle)
      && r.clientHwnd == s.clientHwnd && r.commandQueue == s.commandQueue
      && r.effects == s.effects && r.running == s.running && r.pipeName == s.pipeName
      && r.launches == s.launches && r.browserHwnd == s.browserHwnd
  {
    ApplyMarkersSteps(s, ev, decodeTitle);
    ApplyMarkersSets(s, ev, decodeTitle);
    ApplyMarkersInOrder(s, s, ev, decodeTitle, |s.deliveries|, 0);
  }

  lemma ApplyMarkersSteps(s: Shell, ev: LineEvents, decodeTitle: string -> string)
    requires s.subscriber.Some?
    ensures StatusSteps(s, ApplyMarkers(s, ev, decodeTitle), MarkerCount(ev), s.subscriber.value)
  {
    var sub := s.subscriber.value;
    var s2 := MarkPipe(s, ev.pipeReady);
    MarkPipeStep(s, ev.pipeReady);
    var s3 := MarkPopout(s2, ev.poppedOut);
    MarkPopoutStep(s2, ev.poppedOut);
    var r := MarkTitle(s3, ev.title, decodeTitle);
    MarkTitleStep(s3, ev.title, decodeTitle);
    StatusStepsCompose(s, s2, s3, if ev.pipeReady then 1 else 0, if ev.poppedOut then 1 else 0, sub);
    StatusStepsCompose(s, s3, r, (if ev.pipeReady then 1 else 0) + (if ev.poppedOut then 1 else 0),
                       if ev.title.Some? then 1 else 0, sub);
  }

  lemma ApplyMarkersSets(s: Shell, ev: LineEvents, decodeTitle: string -> string)
    ensures var r := ApplyMarkers(s, ev, decodeTitle);
      && (MarkerCount(ev) == 0 ==> r == s)
      && (ev.pipeReady ==> r.pipeServerAvailable)
      && (ev.poppedOut ==> r.isPoppedOut)
      && (ev.title.Some? ==> r.shellTitle == Some(decodeTitle(ev.title.value)))
      && r.subscriber == s.subscriber && r.clientHwnd == s.clientHwnd && r.commandQueue == s.commandQueue
      && (!ev.pipeReady ==> r.pipeServerAvailable == s.pipeServerAvailable)
      && (!ev.poppedOut ==> r.isPoppedOut == s.isPoppedOut)
      && (ev.title.None? ==> r.shellTitle == s.shellTitle)
      && r.effects == s.effects && r.running == s.running && r.pipeName == s.pipeName
      && r.launches == s.launches && r.browserHwnd == s.browserHwnd
  {
    var s2 := MarkPipe(s, ev.pipeReady);
    assert s2.subscriber == s.subscriber && s2.clientHwnd == s.clientHwnd && s2.commandQueue == s.commandQueue;
    var s3 := MarkPopout(s2, ev.poppedOut);
    assert s3.subscriber == s.subscriber && s3.clientHwnd == s.clientHwnd && s3.commandQueue == s.commandQueue;
    assert ev.pipeReady ==> s3.pipeServerAvailable;
  }

  /**
    A line with k markers (a zero handle not counted) emits k statuses to the
    subscriber, appended to what it was sent before: first the handle's, then
    the pipe's, the popout's and the title's, each showing its own marker and
    those before it, the last one describing the final state. Its pipe,
    popout and title markers set their fields, and nothing else changes but
    what the handle's drain does.
   */
  lemma ApplyEventsEmits(s: Shell, ev: LineEvents, os: Os, decodeTitle: string -> string)
    requires s.subscriber.Some?
    ensures var r := ApplyEvents(s, ev, os, decodeTitle);
      var announces := ev.hwnd.Some? && ev.hwnd.value != 0;
      r.ok ==>
        && StatusSteps(s, r.shell, StatusCount(ev), s.subscriber.value)
        && StatusesInOrder(s, r.shell.deliveries, |s.deliveries|, if announces then 1 else 0, ev, decodeTitle)
        && (ev.pipeReady ==> r.shell.pipeServerAvailable)
        && (ev.poppedOut ==> r.shell.isPoppedOut)
        && (ev.title.Some? ==> r.shell.shellTitle == Some(decodeTitle(ev.title.value)))
        && LineFrame(s, r.shell, ev)
  {
    var announced := if ev.hwnd.Some? then AnnounceHwnd(s, ev.hwnd.value, os) else Step(s, true);
    var k := if ev.hwnd.Some? && ev.hwnd.value != 0 then 1 else 0;
    AnnounceSteps(s, ev, os);
    if announced.ok {
      var s1 := announced.shell;
      var r := ApplyMarkers(s1, ev, decodeTitle);
      ApplyMarkersSteps(s1, ev, decodeTitle);
      StatusStepsCompose(s, s1, r, k, MarkerCount(ev), s.subscriber.value);
      ApplyMarkersSets(s1, ev, decodeTitle);
      assert ApplyEvents(s, ev, os, decodeTitle) == Step(r, true);
    }
    ApplyEventsInOrder(s, ev, os, decodeTitle);
    ApplyEventsFrame(s, ev, os, decodeTitle);
  }

  /**
    What a completed line leaves as it was: the fields no marker announced,
    the process, the pipe name, the spawns, the host window and the
    subscriber. The handle, the queue and the effects change only by a
    nonzero handle's drain, which makes exactly the queued commands' calls.
   */
  ghost predicate LineFrame(s: Shell, r: Shell, ev: LineEvents) {
    var announces := ev.hwnd.Some? && ev.hwnd.value != 0;
    && (!ev.pipeReady ==> r.pipeServerAvailable == s.pipeServerAvailable)
    && (!ev.poppedOut ==> r.isPoppedOut == s.isPoppedOut)
    && (ev.title.None? ==> r.shellTitle == s.shellTitle)
    && r.running == s.running && r.pipeName == s.pipeName && r.launches == s.launches
    && r.browserHwnd == s.browserHwnd && r.subscriber == s.subscriber
    && r.clientHwnd == (if announces then ev.hwnd.value else s.clientHwnd)
    && r.commandQueue == (if announces then [] else s.commandQueue)
    && r.effects == s.effects + (if announces then QueuePlan(s.commandQueue, ev.hwnd.value, s.browserHwnd, s.isPoppedOut) else [])
  }

  lemma ApplyEventsFrame(s: Shell, ev: LineEvents, os: Os, decodeTitle: string -> string)
    ensures var r := ApplyEvents(s, ev, os, decodeTitle); r.ok ==> LineFrame(s, r.shell, ev)
  {
    var announced := if ev.hwnd.Some? then AnnounceHwnd(s, ev.hwnd.value, os) else Step(s, true);
    if ev.hwnd.Some? && ev.hwnd.value != 0 {
      AnnounceHwndDrains(s, ev.hwnd.value, os);
    }
    if announced.ok {
      ApplyMarkersSets(announced.shell, ev, decodeTitle);
    }
  }

  lemma ApplyEventsInOrder(s: Shell, ev: LineEvents, os: Os, decodeTitle: string -> string)
    requires s.subscriber.Some?
    ensures var r := ApplyEvents(s, ev, os, decodeTitle);
      r.ok ==> StatusesInOrder(s, r.shell.deliveries, |s.deliveries|, if ev.hwnd.Some? && ev.hwnd.value != 0 then 1 else 0, ev, decodeTitle)
  {
    var announced := if ev.hwnd.Some? then AnnounceHwnd(s, ev.hwnd.value, os) else Step(s, true);
    AnnounceInOrder(s, ev, os, decodeTitle);
    if announced.ok {
      ApplyMarkersInOrder(s, announced.shell, ev, decodeTitle, |s.deliveries|, if ev.hwnd.Some? && ev.hwnd.value != 0 then 1 else 0);
    }
  }

  /** A completed handle announcement sends the status of `s` itself, and changes no status field. */
  lemma AnnounceInOrder(s: Shell, ev: LineEvents, os: Os, decodeTitle: string -> string)
    requires s.subscriber.Some?
    ensures var announced := if ev.hwnd.Some? then AnnounceHwnd(s, ev.hwnd.value, os) else Step(s, true);
      var h := if ev.hwnd.Some? && ev.hwnd.value != 0 then 1 else 0;
      announced.ok ==>
        && announced.shell.subscriber == s.subscriber && |announced.shell.deliveries| == |s.deliveries| + h
        && announced.shell.isPoppedOut == s.isPoppedOut && announced.shell.pipeServerAvailable == s.pipeServerAvailable
        && announced.shell.pipeName == s.pipeName && announced.shell.shellTitle == s.shellTitle
        && StatusesBeforeTitle(s, announced.shell.deliveries, |s.deliveries|, h, ev, decodeTitle)
  {
    if ev.hwnd.Some? && ev.hwnd.value != 0 {
      AnnounceSendsOwnStatus(s, ev.hwnd.value, os);
      assert StatusOf(s) == ExpectedStatus(s, ev, decodeTitle, 0, 1, false);
    }
  }

  /** The status a completed nonzero announcement sends is that of `s`: the drain changes no status field. */
  lemma AnnounceSendsOwnStatus(s: Shell, hwnd: nat, os: Os)
    requires s.subscriber.Some? && hwnd != 0
    ensures var r := AnnounceHwnd(s, hwnd, os);
      r.ok ==>
        && r.shell.deliveries == s.deliveries + [Delivery(s.subscriber.value, StatusOf(s))]
        && r.shell.subscriber == s.subscriber
        && r.shell.isPoppedOut == s.isPoppedOut && r.shell.pipeServerAvailable == s.pipeServerAvailable
        && r.shell.pipeName == s.pipeName && r.shell.shellTitle == s.shellTitle
  {
    AnnounceHwndDrains(s, hwnd, os);
  }


  /** The handle announcement of a line emits one status when the handle is nonzero and the drain succeeds. */
  lemma AnnounceSteps(s: Shell, ev: LineEvents, os: Os)
    requires s.subscriber.Some?
    ensures var announced := if ev.hwnd.Some? then AnnounceHwnd(s, ev.hwnd.value, os) else Step(s, true);
      announced.ok ==> StatusSteps(s, announced.shell, if ev.hwnd.Some? && ev.hwnd.value != 0 then 1 else 0, s.subscriber.value)
  {
    if ev.hwnd.Some? && ev.hwnd.value != 0 {
      AnnounceHwndDrains(s, ev.hwnd.value, os);
      var plan := QueuePlan(s.commandQueue, ev.hwnd.value, s.browserHwnd, s.isPoppedOut);
      SendStatusStep(s, s.(clientHwnd := ev.hwnd.value, commandQueue := [], effects := s.effects + plan));
    } else {
      DeliveredToNothing(s.deliveries, s.subscriber.value);
    }
  }

  /**
    Handlers taking `x` to `y` while nobody listens emitted `n` statuses:
    nothing is delivered, and the last status, describing the new state, is
    remembered for a later subscriber; with none, nothing changes.
   */
  ghost predicate SilentSteps(x: Shell, y: Shell, n: nat) {
    && y.deliveries == x.deliveries
    && (n > 0 ==> y.lastMessage == Some(StatusOf(y)))
    && (n == 0 ==> y == x)
    && y.subscriber == x.subscriber
  }

  /** Silent handlers in a row: still nothing delivered, the last status remembered describing the final state. */
  lemma SilentStepsCompose(a: Shell, b: Shell, c: Shell, m: nat, n: nat)
    requires SilentSteps(a, b, m) && SilentSteps(b, c, n)
    ensures SilentSteps(a, c, m + n)
  {
  }

  /** Without a subscriber the marker handlers deliver nothing and remember the last status. */
  lemma ApplyMarkersSilent(s: Shell, ev: LineEvents, decodeTitle: string -> string)
    requires s.subscriber.None?
    ensures SilentSteps(s, ApplyMarkers(s, ev, decodeTitle), MarkerCount(ev))
  {
    var p := if ev.pipeReady then 1 else 0;
    var q := if ev.poppedOut then 1 else 0;
    var s2 := MarkPipe(s, ev.pipeReady);
    assert SilentSteps(s, s2, p);
    var s3 := MarkPopout(s2, ev.poppedOut);
    assert SilentSteps(s2, s3, q);
    SilentStepsCompose(s, s2, s3, p, q);
    var r := MarkTitle(s3, ev.title, decodeTitle);
    assert SilentSteps(s3, r, if ev.title.Some? then 1 else 0);
    SilentStepsCompose(s, s3, r, p + q, if ev.title.Some? then 1 else 0);
  }

  /**
    A line that arrives before anyone subscribes delivers nothing; when it
    announced anything, the status of the final state is remembered. Its
    pipe, popout and title markers set their fields as when subscribed, and
    it leaves the rest as `LineFrame` says.
   */
  lemma ApplyEventsUnsubscribed(s: Shell, ev: LineEvents, os: Os, decodeTitle: string -> string)
    requires s.subscriber.None?
    ensures var r := ApplyEvents(s, ev, os, decodeTitle);
      r.ok ==>
        && SilentSteps(s, r.shell, StatusCount(ev))
        && (ev.pipeReady ==> r.shell.pipeServerAvailable)
        && (ev.poppedOut ==> r.shell.isPoppedOut)
        && (ev.title.Some? ==> r.shell.shellTitle == Some(decodeTitle(ev.title.value)))
        && LineFrame(s, r.shell, ev)
  {
    ApplyEventsFrame(s, ev, os, decodeTitle);
    var announced := if ev.hwnd.Some? then AnnounceHwnd(s, ev.hwnd.value, os) else Step(s, true);
    var k := if ev.hwnd.Some? && ev.hwnd.value != 0 then 1 else 0;
    AnnounceSilent(s, ev, os);
    if announced.ok {
      var r := ApplyMarkers(announced.shell, ev, decodeTitle);
      ApplyMarkersSilent(announced.shell, ev, decodeTitle);
      SilentStepsCompose(s, announced.shell, r, k, MarkerCount(ev));
      ApplyMarkersSets(announced.shell, ev, decodeTitle);
      assert ApplyEvents(s, ev, os, decodeTitle) == Step(r, true);
    }
  }

  /** The handle announcement of a line, while nobody listens, remembers its status and delivers nothing. */
  lemma AnnounceSilent(s: Shell, ev: LineEvents, os: Os)
    requires s.subscriber.None?
    ensures var announced := if ev.hwnd.Some? then AnnounceHwnd(s, ev.hwnd.value, os) else Step(s, true);
      announced.ok ==> SilentSteps(s, announced.shell, if ev.hwnd.Some? && ev.hwnd.value != 0 then 1 else 0)
  {
    if ev.hwnd.Some? && ev.hwnd.value != 0 {
      AnnounceHwndDrains(s, ev.hwnd.value, os);
    }
  }

  /** The number of statuses a sequence of output lines announces. */
  function LinesStatusCount(lines: seq<string>): nat
    decreases |lines|
  {
    if lines == [] then 0 else StatusCount(Decode(lines[0])) + LinesStatusCount(lines[1..])
  }

  /** Output handled before anyone subscribes delivers nothing and remembers the last status. */
  lemma {:induction false} HandleLinesUnsubscribed(s: Shell, lines: seq<string>, os: Os, decodeTitle: string -> string)
    requires s.subscriber.None?
    ensures var r := HandleLines(s, lines, os, decodeTitle);
      r.ok ==> SilentSteps(s, r.shell, LinesStatusCount(lines))
    decreases |lines|
  {
    if lines != [] {
      var first := HandleLine(s, lines[0], os, decodeTitle);
      ApplyEventsUnsubscribed(s, Decode(lines[0]), os, decodeTitle);
      if first.ok {
        HandleLinesUnsubscribed(first.shell, lines[1..], os, decodeTitle);
        var r := HandleLines(first.shell, lines[1..], os, decodeTitle);
        if r.ok {
          SilentStepsCompose(s, first.shell, r.shell, StatusCount(Decode(lines[0])), LinesStatusCount(lines[1..]));
        }
      }
    }
  }

  /**
    A subscriber that arrives after the shell's output was handled is sent,
    at once and only, the status describing the state that output left.
   */
  lemma LateSubscriberReplayed(s: Shell, lines: seq<string>, os: Os, decodeTitle: string -> string, subscriber: nat)
    requires s.subscriber.None?
    ensures var r := HandleLines(s, lines, os, decodeTitle);
      r.ok && LinesStatusCount(lines) > 0 ==>
        SetMessageCallback(r.shell, Some(subscriber)).deliveries == s.deliveries + [Delivery(subscriber, StatusOf(r.shell))]
  {
    HandleLinesUnsubscribed(s, lines, os, decodeTitle);
  }

  /** Handling one line's events without a throw keeps QueueInvariant. */
  lemma ApplyEventsKeepsInvariant(s: Shell, ev: LineEvents, os: Os, decodeTitle: string -> string)
    requires QueueInvariant(s)
    ensures var r := ApplyEvents(s, ev, os, decodeTitle); r.ok ==> QueueInvariant(r.shell)
  {
    var announced := if ev.hwnd.Some? then AnnounceHwnd(s, ev.hwnd.value, os) else Step(s, true);
    if ev.hwnd.Some? && ev.hwnd.value != 0 {
      AnnounceHwndDrains(s, ev.hwnd.value, os);
    }
    if announced.ok {
      assert QueueInvariant(announced.shell);
      ApplyMarkersSets(announced.shell, ev, decodeTitle);
    }
  }

  lemma {:induction false} HandleLinesKeepsInvariant(s: Shell, lines: seq<string>, os: Os, decodeTitle: string -> string)
    requires QueueInvariant(s)
    ensures var r := HandleLines(s, lines, os, decodeTitle); r.ok ==> QueueInvariant(r.shell)
    decreases |lines|
  {
    if lines != [] {
      ApplyEventsKeepsInvariant(s, Decode(lines[0]), os, decodeTitle);
      var first := HandleLine(s, lines[0], os, decodeTitle);
      if first.ok {
        HandleLinesKeepsInvariant(first.shell, lines[1..], os, decodeTitle);
      }
    }
  }

  /** Every input that completes without a throw keeps QueueInvariant. */
  lemma NextKeepsInvariant(s: Shell, input: Input, c9args: Option<string>, decodeTitle: string -> string)
    requires QueueInvariant(s)
    ensures var r := Next(s, input, c9args, decodeTitle); r.ok ==> QueueInvariant(r.shell)
  {
    match input
    case Send(cmd, os) =>
      if s.clientHwnd != 0 {
        DispatchFollowsPlan(s, cmd, os);
      }
    case Output(chunk, os) =>
      HandleLinesKeepsInvariant(s, Split(chunk, '\n'), os, decodeTitle);
    case _ =>
  }

  /** A chunk is handled line by line: joining lines with `\n` and handling the chunk is handling the lines. */
  lemma ChunkIsLines(s: Shell, lines: seq<string>, os: Os, decodeTitle: string -> string)
    requires |lines| >= 1 && forall i :: 0 <= i < |lines| ==> '\n' !in lines[i]
    ensures HandleOutput(s, Join(lines, '\n'), os, decodeTitle) == HandleLines(s, lines, os, decodeTitle)
  {
    SplitJoin(lines, '\n');
  }

  /**
    The announcements HWND=(0), HWND=(n), POPOUT, HWND=(0), one per line, from
    a freshly started session: the zero handles are ignored, the session ends
    with handle n and popped out.
   */
  lemma HandleAnnouncementSequence(s: Shell, n: nat, os: Os, decodeTitle: string -> string)
    requires n != 0 && s.clientHwnd == 0
    requires Accepts(os, QueuePlan(s.commandQueue, n, s.browserHwnd, s.isPoppedOut))
    ensures
      var zero := LineEvents(Some(0), false, false, None);
      var r1 := ApplyEvents(s, zero, os, decodeTitle);
      var r2 := ApplyEvents(r1.shell, LineEvents(Some(n), false, false, None), os, decodeTitle);
      var r3 := ApplyEvents(r2.shell, LineEvents(None, false, true, None), os, decodeTitle);
      var r4 := ApplyEvents(r3.shell, zero, os, decodeTitle);
      r1.ok && r2.ok && r3.ok && r4.ok
      && r4.shell.clientHwnd == n && r4.shell.isPoppedOut && r4.shell.commandQueue == []
      && r1.shell == s && r4.shell == r3.shell
  {
    AnnounceZeroIgnored(s, os);
    AnnounceHwndDrains(s, n, os);
  }

  /**
    The same sequence as the lines the shell prints: each line decodes to the
    events above, so the handled lines end with handle n, popped out, and an
    empty queue.
   */
  lemma HandleAnnouncementLines(s: Shell, n: nat, os: Os, decodeTitle: string -> string)
    requires n != 0 && s.clientHwnd == 0
    requires Accepts(os, QueuePlan(s.commandQueue, n, s.browserHwnd, s.isPoppedOut))
    ensures
      var r := HandleLines(s, [HwndLine(0), HwndLine(n), PopoutMarker, HwndLine(0)], os, decodeTitle);
      r.ok && r.shell.clientHwnd == n && r.shell.isPoppedOut && r.shell.commandQueue == []
  {
    var lines := [HwndLine(0), HwndLine(n), PopoutMarker, HwndLine(0)];
    DecodeHwndLineOnly(0);
    DecodeHwndLineOnly(n);
    DecodePopoutLine();
    HandleAnnouncementSequence(s, n, os, decodeTitle);
    var r1 := HandleLine(s, lines[0], os, decodeTitle);
    var r2 := HandleLine(r1.shell, lines[1], os, decodeTitle);
    var r3 := HandleLine(r2.shell, lines[2], os, decodeTitle);
    var r4 := HandleLine(r3.shell, lines[3], os, decodeTitle);
    assert lines[1..][1..][1..][1..] == [];
    assert HandleLines(r3.shell, lines[3..], os, decodeTitle) == HandleLines(r4.shell, [], os, decodeTitle);
    assert HandleLines(r2.shell, lines[2..], os, decodeTitle) == HandleLines(r3.shell, lines[3..], os, decodeTitle);
    assert HandleLines(r1.shell, lines[1..], os, decodeTitle) == HandleLines(r2.shell, lines[2..], os, decodeTitle);
    assert HandleLines(s, lines, os, decodeTitle) == HandleLines(r1.shell, lines[1..], os, decodeTitle);
  }

  /**
    The status reflects the fields: `popped-out` exactly when popped out, the
    pipe path exactly when the pipe server is ready, and the stored title.
   */
  lemma StatusReflectsFields(s: Shell)
    ensures var m := StatusOf(s);
      && (m.message == PoppedOut <==> s.isPoppedOut)
      && (m.message == Hosted <==> !s.isPoppedOut)
      && m.data.Some?
      && (m.data.value.pipeName.Some? <==> s.pipeServerAvailable)
      && (s.pipeServerAvailable ==> m.data.value.pipeName == Some(PipePathPrefix + s.pipeName))
      && m.data.value.shellTitle == s.shellTitle
  {
  }

  /** Every message is remembered, and delivered exactly when someone is subscribed. */
  lemma EmitRemembers(s: Shell, m: ShellMessage)
    ensures Emit(s, m).lastMessage == Some(m)
    ensures s.subscriber.Some? ==> Emit(s, m).deliveries == s.deliveries + [Delivery(s.subscriber.value, m)]
    ensures s.subscriber.None? ==> Emit(s, m).deliveries == s.deliveries
  {
  }

  /** A new subscriber is sent the last message at once, if there is one; nobody else is. */
  lemma SubscriberGetsReplay(s: Shell, subscriber: Option<nat>)
    ensures var r := SetMessageCallback(s, subscriber);
      && r.subscriber == subscriber && r.lastMessage == s.lastMessage
      && r.deliveries == s.deliveries +
           (if subscriber.Some? && s.lastMessage.Some? then [Delivery(subscriber.value, s.lastMessage.value)] else [])
  {
  }

  /**
    `startShell` does nothing while a process is held; otherwise it resets the
    session, takes the new pipe name, emits `starting` and spawns the shell,
    leaving the queue and the title alone. A process exit then clears the
    running flag and emits `inactive`.
   */
  lemma StartShellResets(s: Shell, guid: string, c9args: Option<string>)
    ensures s.running ==> StartShell(s, guid, c9args) == s
    ensures !s.running ==>
      var r := StartShell(s, guid, c9args);
      && r.running && r.clientHwnd == 0 && !r.isPoppedOut && !r.pipeServerAvailable
      && r.pipeName == PipeNamePrefix + guid
      && r.lastMessage == Some(ShellMessage(Starting, None))
      && r.commandQueue == s.commandQueue && r.shellTitle == s.shellTitle
      && r.launches == s.launches + [SpawnArgs(s.browserHwnd, PipeNamePrefix + guid, c9args)]
      && r.deliveries == s.deliveries + (if s.subscriber.Some? then [Delivery(s.subscriber.value, ShellMessage(Starting, None))] else [])
      && r.subscriber == s.subscriber && r.effects == s.effects && r.browserHwnd == s.browserHwnd
    ensures var c := ProcessClosed(s);
      && !c.running && c.lastMessage == Some(ShellMessage(Inactive, None))
      && c.deliveries == s.deliveries + (if s.subscriber.Some? then [Delivery(s.subscriber.value, ShellMessage(Inactive, None))] else [])
      && c == s.(running := false, lastMessage := c.lastMessage, deliveries := c.deliveries)
  {
  }

  /**
    Hide, show and activate sent before the handle is known make no call and
    wait in the queue; the handle's announcement then makes their calls, in
    that order, and empties the queue, when the calls succeed.
   */
  lemma {:induction false} QueuedCommandsReplayed(s: Shell, n: nat, left: int, top: int, width: int, height: int, os: Os)
    requires s.clientHwnd == 0 && s.commandQueue == [] && n != 0
    requires os(SetWindowPos(n, 0, OffScreen, OffScreen, 0, 0, HideFlags))
    requires os(SetWindowPos(n, s.browserHwnd, left, top, width, height, ShowFlags))
    requires os(SetActiveWindow(n))
    ensures var cmds := [Hide, Show(left, top, width, height), Activate];
      var queued := SendAll(s, cmds, os);
      var r := AnnounceHwnd(queued.shell, n, os);
      && queued.ok && queued.shell.commandQueue == cmds && queued.shell.effects == s.effects
      && r.ok && r.shell.clientHwnd == n && r.shell.commandQueue == []
      && r.shell.effects == s.effects + [
           SetWindowPos(n, 0, OffScreen, OffScreen, 0, 0, HideFlags),
           SetWindowPos(n, s.browserHwnd, left, top, width, height, ShowFlags),
           SetActiveWindow(n)]
  {
    var cmds := [Hide, Show(left, top, width, height), Activate];
    SendAllQueues(s, cmds, os);
    var queued := SendAll(s, cmds, os);
    AnnounceHwndDrains(queued.shell, n, os);
    var hb := s.browserHwnd;
    var po := s.isPoppedOut;
    var e1, e2, e3 := SetWindowPos(n, 0, OffScreen, OffScreen, 0, 0, HideFlags),
      SetWindowPos(n, hb, left, top, width, height, ShowFlags), SetActiveWindow(n);
    var plan := QueuePlan(cmds, n, hb, po);
    assert cmds[1..][1..][1..] == [];
    assert QueuePlan(cmds[1..][1..], n, hb, po) == [e3];
    assert QueuePlan(cmds[1..], n, hb, po) == [e2, e3];
    assert plan == [e1, e2, e3];
    assert Accepts(os, [e3]) by { assert [e3][1..] == []; }
    assert Accepts(os, [e2, e3]) by { assert [e2, e3][1..] == [e3]; }
    assert Accepts(os, plan) by { assert plan[1..] == [e2, e3]; }
  }

  /** The `host,pipe` argument reads back as the host window handle and the pipe name. */
  lemma SpawnArgsCarryHostAndPipe(browserHwnd: nat, pipeName: string, c9args: Option<string>)
    requires ',' !in pipeName
    ensures var args := SpawnArgs(browserHwnd, pipeName, c9args);
      && args[..2] == ["--allowmultiproc", "--symphonyHost"]
      && Split(args[2], ',') == [NatToString(browserHwnd), pipeName]
      && ParseDecimal(Split(args[2], ',')[0]) == browserHwnd
  {
    var parts := [NatToString(browserHwnd), pipeName];
    assert ',' !in NatToString(browserHwnd) by {
      assert AllDigits(NatToString(browserHwnd));
    }
    assert Join(parts, ',') == NatToString(browserHwnd) + "," + pipeName;
    SplitJoin(parts, ',');
    ParseDecimalOfNatToString(browserHwnd);
  }
}
