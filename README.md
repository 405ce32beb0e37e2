# C9 integration of Symphony Electron, in Dafny

This project models three parts of the Symphony desktop client that host the
Cloud9 ("C9") trading shell inside the browser window, and proves properties
of the model.

- **The C9 shell supervisor** (`C9ShellHandler`). It spawns the native shell
  process and reads a line protocol from the shell's standard output. The
  protocol carries four announcements: the client window handle, pipe server
  readiness, pop-out confirmation, and a base64 title. The supervisor queues
  window commands (`hide`, `show`, `popout`, `activate`) until the handle is
  known, then drains them in order through native window calls. It reports
  its status to one subscriber and replays the last status to a new one.
- **The C9 extension gateway** (`C9ExtensionHandler`).
  - It intercepts the web client's request for its extensions list and
    redirects it to `c9shell://<id>/`.
  - It fetches the list again itself, with a marked referrer so that the
    fetch is not intercepted in turn. The fetch forwards the allowed headers
    captured from the bootstrap request.
  - It inserts the bundled integration extension into the list, unless a
    development build is installed.
  - It then serves the results from a table of pending requests.
- **The net handler** (`NetHandler`). It opens named-pipe connections only
  to paths that match `\\?\pipe\symphony-[a-z0-9-]+`. Each connection gets a
  key `net<n>` from a counter that only grows. The handler forwards each
  socket's events to the web contents that asked for the connection.

Files:

- `text.dfy`: the string operations the three handlers use, with their round
  trips: split and join, and decimal printing and `parseInt`.
- `shell_protocol.dfy`: the stdout line decoder. The two capturing patterns
  (handle and title) are proved to take the leftmost match of a declarative
  `MatchAt`; the pipe and popout tests are proved against `Contains`.
- `shell_model.dfy`: the supervisor as pure transitions on a `Shell` value,
  with the lemmas.
- `shell_handler.dfy`: the class `C9ShellHandler`. Each method is proved to
  change its fields as the matching transition says.
- `extension_model.dfy`: the gateway as pure functions and lemmas.
- `extension_handler.dfy`: the class `C9ExtensionHandler`. Its methods are
  proved against those functions.
- `net_handler.dfy`: the classes `Sender`, `Socket` and `NetHandler`.
- `wiring.dfy`: the pipe path announced by the supervisor, checked against
  the net handler's allow-list.

Two kinds of external input are passed in as parameters:

- **Native window calls.** Their results are an oracle `os: Effect -> bool`,
  where false means the call failed and the code threw.
- **Random ids and the outcomes of asynchronous work.** The re-fetched list,
  the bundled script read from disk, and the random ids are parameters of
  the interception.

## Model

| member | source | states |
|---|---|---|
| ShellHandler.C9ShellHandler.constructor | src/app/c9-shell-handler.ts:41-45 | The supervisor starts with handle 0, an empty queue, pipe name `symphony-<guid>`, and the shell launched (`starting` emitted, one spawn). |
| ShellHandler.C9ShellHandler.IsStarted | src/app/c9-shell-handler.ts:50-52 | True exactly while a shell process is held. |
| ShellHandler.C9ShellHandler.StartShell | src/app/c9-shell-handler.ts:57-66 | The fields change as `ShellModel.StartShell` says. |
| ShellModel.StartShellResets | src/app/c9-shell-handler.ts:57-66 | No-op while running. Otherwise it resets the last message, the handle, and the popped-out and pipe flags, takes the new pipe name and spawns. It emits `starting`: that message becomes the last one and is delivered to the subscriber, if any, after the old deliveries. Queue, title, subscriber, effects and host window are untouched. A process exit clears `running` and emits `inactive` the same way, changing nothing else. |
| ShellHandler.C9ShellHandler.OnClose | src/app/c9-shell-handler.ts:244-248 | After the process closes, `isStarted()` is false and `inactive` is emitted. |
| ShellHandler.C9ShellHandler.SendCommand | src/app/c9-shell-handler.ts:71-121 | With handle 0, the command is appended to the queue and no native call is made. Otherwise the command is dispatched as `ShellModel.SendCommand` says. |
| ShellModel.SendAllQueues | src/app/c9-shell-handler.ts:71-79 | While the handle is 0, any sequence of commands is appended to the queue in order, every call succeeds, and nothing else changes. |
| ShellModel.DispatchFollowsPlan | src/app/c9-shell-handler.ts:82-120 | With a handle, dispatch makes exactly the calls of the command's plan, in order, up to and including the first failure; only the effect log changes. The plans: hide is `SetWindowPos(h,0,-10000,-10000,0,0,0x95)`. Show is `SetWindowPos(h,browser,l,t,w,h,0x50)`. Activate is `SetActiveWindow(h)`. Popout is `SetWindowParent(h,0)` then activate, or nothing when already popped out. |
| ShellModel.IssuedConcat | src/app/c9-shell-handler.ts:176-178 | A call sequence succeeds iff both halves do. The calls made are all of the first half followed by those of the second, or the first half cut at its failure. |
| ShellModel.RunPlanConcat | src/app/c9-shell-handler.ts:176-178 | Running two call plans one after the other is running their concatenation; a failure in the first abandons the second. |
| ShellModel.NativeIsPlan | src/app/c9-shell-handler.ts:149-207 | One native call is the plan made of that call alone. |
| ShellModel.IssuedAccepted | src/app/c9-shell-handler.ts:176-178 | When every call succeeds, all of them are made. |
| ShellModel.SendAllFollowsPlan | src/app/c9-shell-handler.ts:260-262 | Draining a queue with the handle known makes the calls of the commands' plans in submission order, stopping at the first throw. |
| ShellHandler.C9ShellHandler.AnnounceHwnd | src/app/c9-shell-handler.ts:255-267 | A handle announcement changes the fields exactly as `ShellModel.AnnounceHwnd` says; the drain is a loop over the queue. |
| ShellModel.AnnounceHwndDrains | src/app/c9-shell-handler.ts:258-264 | For n ≠ 0: if the calls succeed, the handle becomes n, every queued call is made in order, the queue is emptied and one status is emitted. If a call fails, the handle is set, the queue is kept and nothing is emitted. |
| ShellModel.AnnounceZeroIgnored | src/app/c9-shell-handler.ts:258-267 | A zero handle changes nothing. |
| ShellModel.QueuedCommandsReplayed | src/app/c9-shell-handler.ts:254-264 | Hide, show and activate sent before the handle are queued with no call. The announcement then makes their three calls in that order and empties the queue. |
| ShellModel.HandleLinesKeepsInvariant | src/app/c9-shell-handler.ts:253-287 | Handling output lines keeps `clientHwnd ≠ 0 ⇒ queue empty` whenever no native call throws. |
| ShellModel.NextKeepsInvariant | src/app/c9-shell-handler.ts:244-288 | Every input to the supervisor that completes without a throw keeps the queue invariant. |
| ShellProtocol.FindFrom | src/app/c9-shell-handler.ts:254 | The result is the leftmost index at which `marker(class+)\)` matches, with its capture; there is no match earlier. |
| ShellProtocol.CaptureAtMatches | src/app/c9-shell-handler.ts:281 | The computed capture at an index is `Some(c)` iff the pattern matches there capturing c. |
| ShellProtocol.DecodeMatches | src/app/c9-shell-handler.ts:254-283 | A line announces a handle iff the hwnd pattern matches somewhere, and likewise for the title. It announces the pipe (resp. popout) iff it contains `C9SHELLSYMPHONYPIPE` (resp. `C9SHELLPOPOUT`). A title capture is a nonempty run of `[A-Za-z0-9=]`. |
| ShellProtocol.DecodeHwndLine | src/app/c9-shell-handler.ts:254-256 | `C9SHELLHWND=(n)` is found at 0 and decodes back to the handle n. |
| ShellProtocol.DecodeTitleLine | src/app/c9-shell-handler.ts:281-283 | `C9SHELLTITLE=(t)` decodes to the capture t for any nonempty t over the title alphabet. |
| ShellHandler.C9ShellHandler.HandleLine | src/app/c9-shell-handler.ts:254-286 | One line is handled as `ShellModel.HandleLine` says: hwnd, pipe, popout and title, in that order. |
| ShellHandler.C9ShellHandler.OnPipeReady | src/app/c9-shell-handler.ts:269-274 | On the pipe marker, the pipe flag is set and a status emitted, as `ShellModel.MarkPipe` says. |
| ShellHandler.C9ShellHandler.OnPopout | src/app/c9-shell-handler.ts:275-280 | On the popout marker, the popped-out flag is set and a status emitted, as `ShellModel.MarkPopout` says. |
| ShellHandler.C9ShellHandler.OnTitle | src/app/c9-shell-handler.ts:281-286 | On a title capture, the decoded title is stored and a status emitted, as `ShellModel.MarkTitle` says. |
| ShellModel.ApplyMarkersEmits | src/app/c9-shell-handler.ts:269-286 | With a subscriber, the pipe, popout and title markers each append one delivery to it after the old ones. The deliveries come in that order, and each is the status after its own marker and those before it (`StatusesInOrder`): the pipe status shows the pipe but not yet the pop-out, and only the title status shows the new title. With no marker nothing changes. Each marker sets its own field. Unannounced fields, the handle, the queue, the effects, the process, the pipe name, the spawns and the host window stay as they were. |
| ShellModel.ApplyMarkersInOrder | src/app/c9-shell-handler.ts:269-286 | After the handle statuses, the pipe, popout and title handlers append their statuses in that order, each equal to `ExpectedStatus` for its position. |
| ShellModel.MarkPipeInOrder | src/app/c9-shell-handler.ts:269-274 | The pipe status comes right after the handle status and shows the pipe path, the old pop-out state and the old title. |
| ShellModel.MarkPopoutInOrder | src/app/c9-shell-handler.ts:275-280 | The popout status follows the pipe status and shows `popped-out`, the pipe as set so far and the old title. |
| ShellModel.MarkTitleInOrder | src/app/c9-shell-handler.ts:281-286 | The title status is the last of the line and the only one showing the new decoded title; without a title, no status shows a new one. |
| ShellModel.ApplyMarkersSets | src/app/c9-shell-handler.ts:269-286 | Each marker sets its own field and no other: unannounced flags and the title, the handle, queue, effects, process, pipe name, spawns, host window and subscriber are unchanged; with no marker the state is unchanged. |
| ShellModel.ApplyEventsKeepsInvariant | src/app/c9-shell-handler.ts:254-286 | Handling one line's events without a throw keeps `clientHwnd ≠ 0 ⇒ queue empty`. |
| ShellModel.ApplyEventsEmits | src/app/c9-shell-handler.ts:253-287 | A line with k announcements (a zero handle not counted) that completes without a throw appends exactly k deliveries after the old ones, all to the subscriber. They come in the order handle, pipe, popout, title, and each is the status after its own announcement and those before it. The handle's status describes the state before the line. If k > 0 the last delivery is the status of the final state and is the last message. The announced fields are set; the rest changes only as `LineFrame` says. |
| ShellModel.ApplyEventsInOrder | src/app/c9-shell-handler.ts:253-287 | The statuses a completed line delivers are, in order, the handle's, the pipe's, the popout's and the title's, each equal to `ExpectedStatus` for its position. |
| ShellModel.AnnounceInOrder | src/app/c9-shell-handler.ts:254-267 | A completed nonzero announcement delivers one status describing the state before the line, and changes no status field. |
| ShellModel.AnnounceSendsOwnStatus | src/app/c9-shell-handler.ts:258-265 | The status sent after a successful drain is exactly the status of the shell before it: the drain touches no field a status shows. |
| ShellModel.ApplyEventsFrame | src/app/c9-shell-handler.ts:253-287 | A completed line leaves unannounced fields, the process, the pipe name, the spawns, the host window and the subscriber alone. A nonzero handle sets the handle, empties the queue and adds exactly its drain plan to the effects; otherwise all three are kept. |
| ShellModel.ApplyEventsUnsubscribed | src/app/c9-shell-handler.ts:139-144 | A line handled before anyone subscribes, and completing without a throw, delivers nothing and keeps the subscriber unset. If it announced anything, the status of the final state is the last message; if not, nothing changes. It sets the fields it announces and leaves the rest as `LineFrame` says. |
| ShellModel.AnnounceSilent | src/app/c9-shell-handler.ts:254-267 | Unsubscribed, a completed announcement of a nonzero handle delivers nothing and remembers its status; a zero handle changes nothing. |
| ShellModel.SilentStepsCompose | src/app/c9-shell-handler.ts:139-144 | Unsubscribed handlers in a row still deliver nothing, and the last status remembered describes the final state. |
| ShellModel.HandleLinesUnsubscribed | src/app/c9-shell-handler.ts:250-288 | Output handled before anyone subscribes delivers nothing, and when its lines announced anything, the last message is the status of the final state. |
| ShellModel.LateSubscriberReplayed | src/app/c9-shell-handler.ts:126-144 | A subscriber that arrives after such output is sent exactly one delivery: the status describing the state that output left. |
| ShellModel.StatusStepsCompose | src/app/c9-shell-handler.ts:253-287 | m status deliveries followed by n more are m + n deliveries with the same guarantees: prefix kept, all to the subscriber, last one describing the final state. |
| ShellModel.AnnounceSteps | src/app/c9-shell-handler.ts:254-267 | A handle announcement that completes delivers one status to the subscriber (none for a zero handle), keeping the old deliveries as a prefix. |
| ShellModel.HandleAnnouncementSequence | src/app/c9-shell-handler.ts:254-280 | The events of HWND=(0), HWND=(n), POPOUT, HWND=(0) all complete and leave handle n, popped out and an empty queue. Both zero handles change nothing: the first leaves `s` as it was, the trailing one the state before it. |
| ShellModel.HandleAnnouncementLines | src/app/c9-shell-handler.ts:253-280 | Handling the printed lines `C9SHELLHWND=(0)`, `C9SHELLHWND=(n)`, `C9SHELLPOPOUT`, `C9SHELLHWND=(0)` completes and leaves handle n, popped out and an empty queue. |
| ShellProtocol.DecodeHwndLineOnly | src/app/c9-shell-handler.ts:254-283 | The line `C9SHELLHWND=(n)` announces handle n and nothing else. |
| ShellProtocol.DecodePopoutLine | src/app/c9-shell-handler.ts:254-283 | The line `C9SHELLPOPOUT` announces the popout and nothing else. |
| ShellHandler.C9ShellHandler.OnStdout | src/app/c9-shell-handler.ts:250-288 | A chunk is split on `\n` and its lines are handled in order by a loop, stopping at the first throw. |
| ShellModel.ChunkIsLines | src/app/c9-shell-handler.ts:253 | Handling lines joined by `\n` as one chunk is handling the lines one by one. |
| Text.JoinSplit | src/app/c9-shell-handler.ts:253 | Joining the pieces of a split with the separator gives the original string. |
| Text.SplitJoin | src/app/c9-shell-handler.ts:253 | Splitting a join of separator-free pieces gives the pieces back. |
| Text.Includes | src/app/c9-shell-handler.ts:269-275 | The substring search is true iff the pattern occurs somewhere. |
| Text.ParseDecimalOfNatToString | src/app/c9-shell-handler.ts:256 | `parseInt` of the decimal printing of n is n. |
| Text.NatToStringInjective | src/app/c9-shell-handler.ts:237 | Different numbers print differently. |
| ShellModel.StatusReflectsFields | src/app/c9-shell-handler.ts:299-309 | The status is `popped-out` iff popped out, else `hosted`. It carries the pipe path `\\?\pipe\` + name iff the pipe server is ready, and the stored title. |
| ShellModel.SendStatusDelivers | src/app/c9-shell-handler.ts:299-309 | With a subscriber, sending the status appends exactly the delivery of `StatusOf(s)` to that subscriber after the old deliveries, and it becomes the last message; nothing else changes. |
| ShellModel.EmitRemembers | src/app/c9-shell-handler.ts:139-144 | Every message becomes the last message, and it is delivered iff a subscriber is set. |
| ShellHandler.C9ShellHandler.SendMessage | src/app/c9-shell-handler.ts:139-144 | The fields change as `ShellModel.Emit` says. |
| ShellHandler.C9ShellHandler.SendStatus | src/app/c9-shell-handler.ts:299-309 | Emits `StatusOf` of the current fields. |
| ShellHandler.C9ShellHandler.SetMessageCallback | src/app/c9-shell-handler.ts:126-134 | The subscriber is replaced, and it receives the last message at once iff there is one. |
| ShellModel.SubscriberGetsReplay | src/app/c9-shell-handler.ts:126-134 | The same as a property of the pure transition; the last message itself is unchanged. |
| ShellHandler.C9ShellHandler.LaunchC9Shell | src/app/c9-shell-handler.ts:212-243 | Emits `starting`, records one spawn with the argument vector, and marks the process held. |
| ShellModel.SpawnArgsCarryHostAndPipe | src/app/c9-shell-handler.ts:234-239 | The spawn vector starts `--allowmultiproc --symphonyHost`. Its third argument splits on `,` into the decimal host handle and the pipe name, and the handle parses back. |
| ShellHandler.C9ShellHandler.Native | src/app/c9-shell-handler.ts:149-207 | A native call is logged and reports whether the OS accepted it. |
| ExtensionModel.Forwarded | src/app/c9-extension-handler.ts:144-149 | A header is forwarded iff it is a known header whose lower-cased name is `symphony-anonymous-id`, `x-symphony-csrf-token` or `cookie`; values are unchanged. |
| ExtensionModel.ForwardedAppend | src/app/c9-extension-handler.ts:144-149 | The filter works header by header: it distributes over concatenation, so order is kept. |
| ExtensionModel.HeaderCaseIgnored | src/app/c9-extension-handler.ts:145 | A header name is forwarded iff its lower-case form is: case never matters. |
| ExtensionModel.HeaderExamples | src/app/c9-extension-handler.ts:145 | `Cookie` and `COOKIE` are forwarded; `Authorization` is not. |
| ExtensionHandler.C9ExtensionHandler.ForwardHeaders | src/app/c9-extension-handler.ts:144-149 | The header loop yields exactly `Forwarded` of the known headers, in their order. |
| ExtensionHandler.C9ExtensionHandler.FetchUrl | src/app/c9-extension-handler.ts:144-153 | One request is sent: the forwarded headers in order, then `Referer` set to the marked referrer; the pending table and known headers are untouched. |
| ExtensionModel.MarkReferrer | src/app/c9-extension-handler.ts:150-153 | The marked referrer starts with the original. It continues with `&` if the original contains `?`, else `?`, and ends with `c9shell=true`, so it passes the guard. |
| ExtensionModel.FetchIsNotIntercepted | src/app/c9-extension-handler.ts:150-153 | The gateway's own fetch, sent with its marked referrer, is let through unchanged when it is seen again. |
| ExtensionModel.InternalRequestPassesThrough | src/app/c9-extension-handler.ts:86-90 | A request whose referrer ends with `c9shell=true` gets `{cancel:false}` and changes nothing. |
| ExtensionModel.ExternalRequestRedirected | src/app/c9-extension-handler.ts:92-100 | Any other request is redirected to `c9shell://<id>/` and sends one fetch; the known headers are kept. The pending table gains `id`, holding the manifest outcome, plus `id2`, holding the script outcome, only when the list was rewritten. Every other entry is unchanged, including one already under `id2` when no script was registered. |
| ExtensionHandler.C9ExtensionHandler.InterceptExtensionsRequest | src/app/c9-extension-handler.ts:81-101 | The fields and the response are as `ExtensionModel.InterceptExtensions` says. |
| ExtensionModel.BootstrapReplacesHeaders | src/app/c9-extension-handler.ts:106-113 | After a bootstrap request, the next fetch forwards only that request's allowed headers. |
| ExtensionHandler.C9ExtensionHandler.InterceptBootstrapRequest | src/app/c9-extension-handler.ts:106-113 | The fields change as `InterceptBootstrap` says. |
| ExtensionModel.FirstIndexOf | src/app/c9-extension-handler.ts:163-165 | The first index whose id matches, or -1 when there is none; no earlier entry matches. |
| ExtensionModel.InsertExtensionOutcome | src/app/c9-extension-handler.ts:161-196 | The list is kept as it came iff its first C9 entry's version ends in `automatic`. Otherwise the result ends with the descriptor `C9 Integration`, `@symphony/symphony-c9`, `1`, `1.0.0-injected`, active, `c9shell://<id2>/`. |
| ExtensionModel.InjectedKeepsOthers | src/app/c9-extension-handler.ts:166-190 | In the rewritten list, only the first C9 entry is removed; every other entry keeps its relative order. |
| ExtensionModel.InjectedIntoPlainList | src/app/c9-extension-handler.ts:182-190 | A list without a C9 entry becomes the list plus the descriptor. |
| ExtensionModel.InsertReplacesDescriptor | src/app/c9-extension-handler.ts:163-190 | Inserting into an already rewritten list replaces the descriptor instead of adding a second one. |
| ExtensionHandler.C9ExtensionHandler.InsertExtension | src/app/c9-extension-handler.ts:161-196 | Removes the first C9 entry and pushes the descriptor. It registers the script under id2 unless a development build was kept, and resolves to the list that `ManifestOutcome` gives. |
| ExtensionModel.Answer | src/app/c9-extension-handler.ts:51-76 | An unknown id gets error 500, a failed result gets error 500, and a known successful result gets its body. |
| ExtensionHandler.C9ExtensionHandler.HandleRequest | src/app/c9-extension-handler.ts:51-76 | Answers as `Answer` says and changes no field, so repeated requests get the same answer. |
| ExtensionModel.HostOfVirtualUrl | src/app/c9-extension-handler.ts:56 | The host of `c9shell://<id>/`, for a hex id, is the id. |
| ExtensionModel.InterceptedRequestAnswered | src/app/c9-extension-handler.ts:56-76 | After an interception with distinct ids: the redirect address serves the rewritten list, or the list as it came for a development build, or 500 if the fetch failed. The descriptor's address serves the script, or 500. |
| ExtensionModel.EarlierAnswersStable | src/app/c9-extension-handler.ts:98 | An interception under fresh ids never changes the answer for an earlier id; entries are never removed. |
| Net.AllowList | src/app/net-handler.ts:4 | Accepted iff the path is `\\?\pipe\symphony-` followed by one or more characters of `[a-z0-9-]`. |
| Net.AllPipeNameChars | src/app/net-handler.ts:4 | True iff every character is in `[a-z0-9-]`. |
| Net.KeyForInjective | src/app/net-handler.ts:21 | `net<m>` = `net<n>` only when m = n, so keys from the counter never repeat. |
| Net.NetHandler.Connect | src/app/net-handler.ts:16-47 | A rejected path changes nothing: no counter value, no entry. An accepted one returns `net<n>` for the old counter n (a key not yet mapped), increments the counter, and maps the key to a fresh socket; other entries are unchanged. |
| Net.NetHandler.Write | src/app/net-handler.ts:54-56 | Writes the payload to the connection under the key, and to nothing else; the socket's connected and destroyed flags are unchanged; no-op for an unknown key. |
| Net.NetHandler.Close | src/app/net-handler.ts:62-65 | Destroys the connection under the key, if any, leaving its connected flag and written payloads as they were, and removes the key; other keys are untouched, so a second close is a no-op. |
| Net.Socket.OnConnected | src/app/net-handler.ts:23-26 | Sets `connectionSuccess` and sends `connected` with the key. |
| Net.Socket.OnData | src/app/net-handler.ts:29-31 | Sends `data` with the key and the payload unchanged. |
| Net.Socket.OnClose | src/app/net-handler.ts:32-34 | Sends `close` with the key, whether or not the key is still mapped. |
| Net.Socket.OnError | src/app/net-handler.ts:35-44 | Sends `connection-failed` with the message iff the connection was never established. |
| Wiring.AnnouncedPathAllowed | src/app/net-handler.ts:4 | The pipe path `\\?\pipe\symphony-<guid>` that the supervisor announces is accepted iff the guid is a nonempty run of `[a-z0-9-]`. |
| Wiring.StatusPipeConnectable | src/app/c9-shell-handler.ts:299-309 | Once the pipe server of a session started with such a guid is ready, the status names that pipe and the net handler accepts its path. |
| Wiring.UpperCasePipeRefused | spec/netHandler.spec.ts:26-36 | `/some/thing` and `\\?\pipe\c9Controller` are refused, as are an upper-case guid and an empty one; `symphony-0f3a-77` is accepted. |

## Left out

- Native window calls are abstract effects. Out of scope: DPI lookup, the floating-point scaling of geometry (including the 32-pixel vertical offset), and the `SetWindowPos` that `_setActiveWindow` makes before `SetForegroundWindow`. Only the failure that throws is modelled.
- Native calls are an oracle on the call itself, so two identical calls within one input get the same answer (a queue `[Activate, Activate]` cannot have its first call succeed and its second fail). No property here depends on that.
- The popout polling loop is a chain of `setTimeout` calls. Only its first, synchronous round is modelled.
- Spawning is recorded as the argument vector only. Out of scope: executable path selection (`isDevEnv`, `app.getPath`), stdio streams, and stderr logging. `getGuid` and `getCommandLineArgs` (src/common/utils.ts) are not part of this model; their results, the guid and the `--c9args=` argument, are parameters.
- Output chunks that split a marker across reads are not reassembled, as in the code.
- Base64 decoding of the title is an uninterpreted function (`decodeTitle`).
- ShellProtocol.Decode: `parseInt` is exact here. In the code, a handle of more than about 15 digits loses precision as a JavaScript number.
- Text.ToLower: only ASCII letters are lowered. JavaScript's full Unicode case mapping is not modelled.
- JSON parsing and serialisation are left out. The list is given already parsed as records with the six descriptor fields; other JSON fields of an entry are not modelled.
  - Entries always carry the six descriptor fields as strings and a bool; a list entry lacking one cannot be represented. A malformed body, and the throw of `installed.version.endsWith` when the first C9 entry has no string `version`, are both modelled as a failed fetch.
  - The development-build passthrough returns the original text. The model returns the parsed list, so the difference in formatting against re-serialisation is not visible.
- `net.request` streaming, its response and error events, and `fs.readFile` are outcome parameters (`Ok` or `Failed`) of the interception.
- Asynchrony is collapsed. The fetch, the insertion and the read of the script complete at once, in the order of the code. Other requests between them are not interleaved.
- Random ids (`randomBytes(32)`) are parameters. The code does not check them for collisions. The end-to-end lemmas assume the ids are distinct hex strings.
- ExtensionModel.HostOf: URL parsing is reduced to taking the text after `c9shell://` up to the first `/`, `?`, `#` or `:`. Userinfo, percent-decoding and WHATWG host rules are not modelled.
- Protocol and scheme registration, and the URL filters of the session listeners, are left out. So are module singletons and logger calls.
- Sockets are objects the environment drives by calling the four callback methods. Out of scope: connection establishment, timing, and the order in which Node emits `error` and `close`.
- `NetHandler` has no `closeAll`; a `close` event is forwarded whether or not the key is still mapped.
- Pending gateway entries are never consumed or deleted, so a repeated request for an id gets the same answer.
- `show` reads `command.data.left` and its siblings (src/app/c9-shell-handler.ts:98-101). A `show` without data throws a TypeError there, and JavaScript allows non-integer coordinates; the model's `Show` always carries four integers, so neither case is represented.
- `close` destroys the connection and then deletes the key, as the code does.
- The tests at spec/netHandler.spec.ts:32-55 expect `\\?\pipe\c9Controller` to connect, but the allow-list refuses it. The model follows the allow-list (`Wiring.UpperCasePipeRefused`).
