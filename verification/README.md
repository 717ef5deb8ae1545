# Robotics Application Manager — session orchestrator core, in Dafny

This project models the core of the Robotics Application Manager. The manager
is a session orchestrator for a robotics simulation container. A client sends
it commands. The manager drives a session through a fixed lifecycle: connect,
launch a world, attach a visualization, then run, pause, resume and terminate
a user application. It also rewrites submitted code so that its main loop
runs at a fixed cadence, and it relays GUI telemetry to one websocket peer.

The model has three parts:

- **The lifecycle and its dispatcher** (`Lifecycle`, `Manager`, `SessionFacts`).
  - The six states and the eleven-trigger table.
  - The `before` action of every trigger, with its effect on the four
    optional handles: world launcher, visualization launcher, application
    process and GUI relay server.
  - The transition semantics. The action runs first. If it raises, the state
    stays. If it completes, the state moves and a state-changed notice goes
    out.
  - The dispatcher. A `gui` command bypasses the machine. Any other command
    is acknowledged with the resulting state, or answered with an error that
    carries the command's id. The machine also accepts the FSM library's
    automatic `to_<state>` events. `Manager.Dispatch` models the machine as
    built. `Manager.DispatchTableOnly` models one that fires only the table.
- **The code instrumenter** (`Strings`, `LoopHeader`, `Instrument`).
  - `add_frequency_control`, with a hand-written recognizer for its
    infinite-loop regular expression. The recognizer is proved equal to the
    backtracking meaning of the expression and to be leftmost.
  - The string helpers around it: the import compatibility `replace`s, the
    `data:` URL payload extraction through `partition("base64,")`, and the
    template folder chosen by ROS distribution.
- **The relay's peer tracker** (`Relay`). `on_open`, `on_close`, `send` and
  `on_message` over a trace of events.

The outside world enters as data:

- Everything the manager asks of its collaborators for one command is a
  `Manager.Env`. That covers configuration validation, archive extraction,
  launcher outcomes, process termination, the linter, whether the template
  folder holds `exercise.py`, and the ROS distribution string.
- Everything the manager does to the outside world is a `Manager.Effect`, in
  order. That covers spawning, suspending and stopping processes, simulator
  service calls, file writes, console writes, the relay send and the
  self-restart.

### Where the code departs from the intended behaviour (the model follows the code)

The intended behaviour of the orchestrator is a lifecycle in which every
trigger runs its action and every resource kind has at most one live handle.
The code departs from that in these places:

- `disconnect` stops only the handles that are populated. The intended
  teardown attempts all three regardless. After the teardown the process replaces
  itself, so no state-changed notice and no acknowledgement are ever sent.
  The model returns the initial session with no outbound messages.
- `terminate_visualization` and `terminate_universe` do not clear their
  launcher handles, although a terminated launcher is meant to be forgotten.
  `terminate_visualization`
  clears only the relay server.
- `terminate_application` uses a single `try`. If the stop fails, the
  handle is kept and the pause and reset calls are skipped, where the
  sub-steps are meant to be independent.
- `launch_world` swallows `ValueError`s. An invalid configuration still
  fails, because the unbound configuration is used afterwards; the model
  reports that as `ConfigRejected`, with no launcher created. An undecodable
  base64 upload raises a `ValueError` (`binascii.Error`) and is swallowed
  too, so the world launches without the upload.
- The packaged-application shape is recognised by `type == "bt-studio"`. Any
  failure on that path is swallowed, and the inline-code path then runs on
  the same payload.
- `run_application` is admitted from `paused` (manager.py:73). It spawns a
  new process and overwrites the handle without stopping or resuming the
  suspended one, which is orphaned. The same happens from
  `visualization_ready` after a `terminate_application` whose stop failed,
  because that keeps the handle. The model's handle is a flag, so it records
  only that a process is held; `SessionFacts.RunWhilePausedOrphansProcess`
  shows that no stop or resume precedes the new spawn.
- The machine is built without switching off the FSM library's automatic
  events (manager.py:127-134). So `to_idle`, `to_connected`, …,
  `to_paused` are accepted commands that jump to their state from anywhere,
  run no action, and are reported and acknowledged. They bypass the table
  and break the handle invariant; see "## Findings".

## Model

| member | source | states |
|---|---|---|
| `Lifecycle.ParseTrigger` | manager/manager/manager.py:48-123 | Among the table's eleven triggers, a command name selects the trigger of that name, and a name no table trigger has selects nothing |
| `Lifecycle.ParseJump` | manager/manager/manager.py:39-46 | Among the automatic events, a command name selects the state it is `to_` plus the name of; any other name selects nothing |
| `Lifecycle.ParseEvent` | manager/manager/manager.py:127-134 | A command name is a table trigger exactly when the table has it, an automatic event only when those are switched on, and no event when it is neither |
| `Lifecycle.ParseJumpName` | manager/manager/manager.py:39-46 | Each `to_<state>` name finds its own state, clashes with no trigger name, and is an event only when automatic events are on |
| `Lifecycle.ParseTriggerName` | manager/manager/manager.py:48-123 | Trigger names are distinct: each trigger is found again from its own name |
| `Lifecycle.TableHasOneRowPerTrigger` | manager/manager/manager.py:48-123 | The table has exactly one row per trigger, in the order the triggers are listed |
| `Lifecycle.RowOf` | manager/manager/manager.py:48-123 | Every trigger has a row in the table, and it is that trigger's row |
| `Lifecycle.TableIsLifecycle` | manager/manager/manager.py:48-108 | For every state and trigger, the table admits exactly the listed sources and lands in the listed destination; every other pair is rejected |
| `Lifecycle.DisconnectFromEveryState` | manager/manager/manager.py:110-115 | `disconnect` is admitted from all six states and lands in `idle` |
| `Lifecycle.StyleCheckStays` | manager/manager/manager.py:116-122 | `style_check` is admitted everywhere and its destination is the current state |
| `Lifecycle.LifecycleIsALadder` | manager/manager/manager.py:48-123 | Apart from `disconnect`, no trigger moves more than one level up or down the lifecycle, and only `disconnect` reaches `idle` from another state |
| `Manager.TriggerData` | manager/manager/manager.py:498 | Empty text and an empty mapping reach the trigger as no data; any other payload is passed unchanged |
| `Manager.Lookup` | manager/manager/manager.py:369-371 | Indexing a payload succeeds exactly on a mapping holding the key; otherwise it is a key error on a mapping and a type error on anything else |
| `Manager.HasKey` | manager/manager/manager.py:213 | `"zip" in data` is key membership on a mapping, a substring test on text, and a type error on no data |
| `Manager.SimCallByDistribution` | manager/manager/manager.py:512-539 | Both distributions call the same service `S` (`/pause_physics`, `/unpause_physics` or `/reset_world` for the three operations): ROS 1 as the service `/gazebo` + `S`, ROS 2 as the command line `ros2 service call S std_srvs/srv/Empty` |
| `Manager.TemplateFolder` | manager/manager/manager.py:373-377 | The template folder extends the template path with `/ros1_noetic/` when the distribution names noetic, else with `/ros2_humble/` |
| `Manager.UnpackUniverse` | manager/manager/manager.py:228-246 | An upload is unpacked under its `name` exactly when the payload maps both `zip` and `name` and `zip` is a `data:` URL; only a corrupt archive then raises; otherwise a missing key, a non-mapping or a non-`data:` URL raises before anything is unpacked |
| `Manager.StartWorldLauncher` | manager/manager/manager.py:223-226 | A launcher that is constructed has its handle stored before it runs, so the handle is set unless construction was rejected; the action completes exactly when the launcher runs; the failure names the step that failed |
| `Manager.OnConnect` | manager/manager/manager.py:166-188 | `connect` completes, sending the introspection message, with no effect and no handle change |
| `Manager.OnLaunchWorld` | manager/manager/manager.py:210-246 | Only the world handle can change; completion implies a world handle; an invalid configuration raises before anything starts |
| `Manager.OnPrepareVisualization` | manager/manager/manager.py:248-262 | Only the visualization handle and the relay can change; the relay starts on port 2303 only when the action completes with type `gazebo_rae` |
| `Manager.RunInline` | manager/manager/manager.py:369-410 | The inline path changes only the application handle; it is set only on completion; a refusal keeps the session and the effects already performed |
| `Manager.RunPackaged` | manager/manager/manager.py:415-437 | A packaged application runs exactly when its `code` is a `data:` URL whose archive unpacks; it is unpacked and its own entry point spawned; a failure reports only the unpack already attempted |
| `Manager.OnRunApplication` | manager/manager/manager.py:341-437 | Running an application changes only the application handle; completion sets it and spawns a process; no existing process is ever stopped or resumed |
| `Manager.OnPause` | manager/manager/manager.py:502-505 | `pause` completes exactly when an application process exists, and changes no handle |
| `Manager.OnResume` | manager/manager/manager.py:507-510 | `resume` completes exactly when an application process exists, and changes no handle |
| `Manager.OnTerminateApplication` | manager/manager/manager.py:439-449 | Terminating the application never raises; the handle is cleared exactly when there was one and its stop succeeded |
| `Manager.OnTerminateVisualization` | manager/manager/manager.py:451-456 | Completes exactly when a visualization handle exists and terminates; completion clears only the relay |
| `Manager.OnTerminateUniverse` | manager/manager/manager.py:458-460 | Completes exactly when a world handle exists and terminates; no handle is cleared |
| `Manager.OnDisconnect` | manager/manager/manager.py:462-491 | `disconnect` always restarts the process: the consumer is stopped first, then a stop for exactly the populated handles, then the restart |
| `Manager.OnStyleCheck` | manager/manager/manager.py:294-339 | The style check never changes the session; it completes exactly for a packaged application, with no effects |
| `Manager.Action` | manager/manager/manager.py:48-123 | No action moves the state itself; only `disconnect` restarts the process |
| `Manager.Fire` | manager/manager/manager.py:127-159 | A trigger the table does not admit raises and changes nothing; a completed one lands in the table's destination and ends with the state-changed notice; a raising one keeps the state |
| `Manager.Serve` | manager/manager/manager.py:493-500 | A `gui` command leaves the session alone and is relayed verbatim when a relay exists, and is otherwise answered with an error carrying its id; a name that is no event is answered with an error and changes nothing |
| `Manager.Dispatch` | manager/manager/manager.py:127-134 | As the machine is built, a `to_<state>` command jumps to that state from anywhere with no action, a state-changed notice and an acknowledgement; every other command is answered as on a table-only machine |
| `Manager.DispatchTableOnly` | manager/manager/manager.py:493-500 | On a machine that fires only the table's triggers, a name no trigger has, `to_<state>` included, is answered with an error and changes nothing |
| `SessionFacts.DispatchFollowsTable` | manager/manager/manager.py:590-605 | A name that is no event, or a trigger the state does not admit, gets one error carrying its id and changes nothing; an automatic event jumps and is acknowledged; an admitted trigger either lands in the table's destination and is acknowledged with it, or keeps the state and gets one error carrying the id |
| `SessionFacts.ActionKeepsConsistent` | manager/manager/manager.py:190-510 | Every admitted action, whether it completes or raises, keeps the handles consistent with the state |
| `SessionFacts.DispatchKeepsConsistent` | manager/manager/manager.py:493-500 | On a machine that fires only the table's triggers, any command on a consistent session leaves it consistent: world from `world_ready` on, visualization from `visualization_ready` on, application while running or paused, relay only beside a visualization, nothing in `idle` |
| `SessionFacts.AutomaticJumpBreaksConsistency` | manager/manager/manager.py:127-134 | As the machine is built, `to_application_running` from a fresh session is acknowledged in `application_running` with no process, an inconsistent session, and a following `pause` fails for want of a process |
| `SessionFacts.RunWhilePausedOrphansProcess` | manager/manager/manager.py:341-413 | `run_application` from `paused` never stops or resumes the suspended process; the handle stays set, and a run that completes spawns a new process |
| `SessionFacts.ReplayKeepsConsistent` | manager/manager/manager.py:590-597 | On a machine that fires only the table's triggers, over any sequence of commands processed one at a time, the session stays consistent |
| `SessionFacts.InitialConsistent` | manager/manager/manager.py:127-142 | The initial session (`idle`, no handles) is consistent |
| `SessionFacts.DisconnectRestarts` | manager/manager/manager.py:462-491 | From any session, `disconnect` restarts into the initial session and sends nothing; the consumer is stopped first and the restart comes last |
| `SessionFacts.TeardownCounts` | manager/manager/manager.py:462-491 | The teardown stops each populated handle exactly once and touches nothing else |
| `SessionFacts.StyleCheckNeverMoves` | manager/manager/manager.py:294-339 | `style_check` never changes the session; a packaged application is acknowledged in place, and inline code always gets an error carrying the id |
| `SessionFacts.StyleCheckReport` | manager/manager/manager.py:321-339 | Refused inline code carries the style report, or "No errors found" when the report is empty, and that text is written to the consoles |
| `SessionFacts.PauseResumeRoundTrip` | manager/manager/manager.py:502-528 | `pause` suspends the application and pauses physics, `resume` resumes it and unpauses physics, and the pair gives back the original session |
| `SessionFacts.LintRejectionKeepsSession` | manager/manager/manager.py:386-410 | A non-empty lint report refuses `run_application` with that report; the session, including the application handle, is unchanged and only the console write happens |
| `SessionFacts.InlineRunStartsInstrumentedCode` | manager/manager/manager.py:369-403 | Clean code is instrumented and written to `academy.py`, the template folder is copied, the entry point is spawned, physics is unpaused, and the session is running with an application handle |
| `SessionFacts.MissingLoopHeaderRefused` | manager/manager/manager.py:386-392 | Clean code without a loop header is refused and nothing is started |
| `SessionFacts.GuiServerStartedOnlyForRae` | manager/manager/manager.py:258-260 | The relay appears exactly when `prepare_visualization` completes from `world_ready` with type `gazebo_rae` |
| `SessionFacts.TerminateVisualizationStopsGuiServer` | manager/manager/manager.py:451-456 | A completed `terminate_visualization` stops and forgets the relay and keeps the visualization handle |
| `SessionFacts.GuiServerClearedOnlyByTeardown` | manager/manager/manager.py:451-491 | Only `terminate_visualization` and `disconnect` ever clear a running relay |
| `SessionFacts.LaunchWorldStoresHandleFirst` | manager/manager/manager.py:223-226 | The world handle is set before the launcher runs, so a run failure leaves it set while the state stays `connected` |
| `SessionFacts.LaunchWorldWithUpload` | manager/manager/manager.py:210-246 | An upload is unpacked under its name before launching; an undecodable one is ignored and the world still launches; an unextractable one refuses the command with no launcher |
| `SessionFacts.PackagedRunSpawnsEntry` | manager/manager/manager.py:415-437 | A packaged application is unpacked and its own entry point spawned, with no lint and no instrumentation |
| `SessionFacts.PackagedFailureFallsThrough` | manager/manager/manager.py:363-369 | A failed packaged run is swallowed and the inline path runs on the same payload, failing on the missing `template` field |
| `SessionFacts.TerminateUniverseKeepsHandle` | manager/manager/manager.py:458-460 | `terminate_universe` returns to `connected` and keeps the world handle |
| `SessionFacts.TerminateApplicationAlwaysCompletes` | manager/manager/manager.py:439-449 | `terminate_application` always lands in `visualization_ready`; it clears the handle, pauses and resets only when the stop succeeded |
| `SessionFacts.ConnectAnnounces` | manager/manager/manager.py:156-188 | From a fresh session `connect` sends introspection, then the state-changed notice, then the acknowledgement naming `connected` |
| `Strings.Partition` | manager/manager/manager.py:232 | The three parts concatenate back to the input; the separator found is the first occurrence, or the input is returned whole when it is absent |
| `Strings.DataUrlPayload` | manager/manager/manager.py:230-232 | A payload exists exactly for `data:` URLs, and it is the text after the first `base64,` (empty when there is none) |
| `Strings.ReplaceAbsent` | manager/manager/manager.py:383-384 | Replacing a pattern that does not occur leaves the text unchanged |
| `Strings.ReplaceLeading` | manager/manager/manager.py:383-384 | A leading occurrence is replaced and the rest is rewritten independently |
| `Strings.ReplaceShrinks` | manager/manager/manager.py:383-384 | Replacing by a text no longer never lengthens the input |
| `Strings.CompatImports` | manager/manager/manager.py:382-384 | The compatibility rewrite never lengthens the code |
| `Strings.CompatImportsKeepsModernCode` | manager/manager/manager.py:382-384 | Code without the legacy imports passes unchanged |
| `Strings.CompatImportsLeadingGui` | manager/manager/manager.py:382-384 | A leading `from GUI import GUI` becomes `import GUI` |
| `LoopHeader.ScanFindsAllEnds` | manager/manager/manager.py:271-274 | On a token list where every whitespace run is followed by a non-space literal, the greedy scan finds exactly the ends a backtracking matcher can reach |
| `LoopHeader.AtMostOneAlternative` | manager/manager/manager.py:272 | At any start at most one of the four alternatives matches |
| `LoopHeader.MatchAtIsRegex` | manager/manager/manager.py:271-274 | At every start the recognizer's answer is exactly the set of ends the regular expression can reach, which has at most one element |
| `LoopHeader.NoMatchAtSpace` | manager/manager/manager.py:272 | No header match starts at a space |
| `LoopHeader.SearchFrom` | manager/manager/manager.py:271-274 | The search returns the first start at or after `i` where the recognizer matches, or reports that none does |
| `LoopHeader.SearchIsLeftmostMatch` | manager/manager/manager.py:271-274 | The search result is the regular expression's leftmost match and its only end; with no result, no start matches |
| `LoopHeader.MatchShape` | manager/manager/manager.py:272 | A match starts at a non-space followed by `while` |
| `LoopHeader.BareTrueAccepted` | manager/manager/manager.py:272 | `while True:` with any whitespace inside is a header ending after the colon |
| `LoopHeader.BareOneAccepted` | manager/manager/manager.py:272 | `while 1:` with any whitespace inside is a header ending after the colon |
| `LoopHeader.ParenTrueAccepted` | manager/manager/manager.py:272 | `while (True):` with any whitespace inside is a header ending after the colon |
| `LoopHeader.ParenOneAccepted` | manager/manager/manager.py:272 | `while (1):` with any whitespace inside is a header ending after the colon |
| `Instrument.HeaderPosition` | manager/manager/manager.py:270-272 | In the prefixed program a header's `while` always lies in the submitted code, and its match ends after the import block |
| `Instrument.AddFrequencyControl` | manager/manager/manager.py:264-292 | Fails exactly when no start matches; otherwise it uses the leftmost match and inserts the timestamp at its end, after the import block, and appends the sleep block |
| `Instrument.InstrumentedFrame` | manager/manager/manager.py:265-291 | The output opens with the import block, closes with the sleep block, and is longer than the code by exactly the three fragments |
| `Instrument.StripRecoversInput` | manager/manager/manager.py:278-282 | Cutting out the two inserted fragments gives back the prefixed input exactly |
| `Instrument.SpaceIndentedLoopsRejected` | manager/manager/manager.py:271-279 | Code whose every `while` follows a space cannot be instrumented |
| `Instrument.LeadingLoopInstrumented` | manager/manager/manager.py:264-292 | Code opening with `while True:` is instrumented right after that header, the newline of the import block serving as the required non-space |
| `Relay.OnOpen` | manager/libs/applications/compatibility/server.py:54-57 | A newly opened client becomes current, replacing any previous one |
| `Relay.OnClose` | manager/libs/applications/compatibility/server.py:48-52 | Closing the current client clears it; closing any other client changes nothing |
| `Relay.OnSend` | manager/libs/applications/compatibility/server.py:37-40 | Sending delivers the data once to the current client, and does nothing when there is none |
| `Relay.OnMessage` | manager/libs/applications/compatibility/server.py:42-44 | An inbound message calls the update callback exactly once with its decoded payload and leaves the peer alone |
| `Relay.CurrentIsLastOpened` | manager/libs/applications/compatibility/server.py:48-57 | After any trace from a fresh relay, the current peer is exactly the client opened last that has not closed since |
| `Relay.SendReachesLastOpened` | manager/libs/applications/compatibility/server.py:37-57 | After any trace, a send reaches only the client opened last that has not closed since, and is dropped when there is none |
| `Relay.EveryMessageUpdatesOnce` | manager/libs/applications/compatibility/server.py:42-44 | Over any trace, the update callbacks are exactly the inbound payloads, once each and in order |

## Left out

- Process control is reduced to effects: `subprocess.Popen`, `psutil` suspend and resume, `stop_process_and_children` and the `os.execl` self-restart. Spawning, suspending and resuming are assumed not to fail. A process that has already died is not modelled.
- ROS service calls are reduced to the service or command line chosen. `rosservice.call_service` and `subprocess.call` are assumed not to raise.
- Filesystem and archive work is reduced to effects or `Env` outcomes. This covers workspace directory creation, base64 decoding, zip extraction, writing `academy.py`, `shutil.copytree` and the `/dev/pts` console discovery. The test for `exercise.py` in the template folder is `Env.hasExercise`.
- Configuration validation, the launchers and the linter are `Env` answers. `LauncherWorld` and `LauncherVisualization` are reduced to rejected, failed to run, or running. The content of the introspection message (image tag, ROS version, GPU check) is not modelled.
- Failures of `gui_server.stop()`, of the relay's constructor and of `consumer.stop()` are not modelled. The last is swallowed in the source anyway.
- The dispatch loop's queue polling and sleep are left out, as is the error report with a fresh `uuid4` id. That report applies only when no message was dequeued, so it concerns the queue, not a command.
- The SIGINT handler in `start` is left out: it is signal-context concurrency.
- The relay thread, `threading.Lock`, `run_forever`, `shutdown_gracefully` and JSON decoding are left out. `Relay.OnMessage` receives the payload already decoded. A frame that is not JSON raises inside the websocket library, and that case is not modelled.
- The manager's `update` forwarding of relay payloads to the consumer is represented only by `Relay`'s `Updated` output.
- The runtime arithmetic of the injected timing code is left out: to the instrumenter it is text.
- `Lifecycle.Target` has no contract of its own. Its behaviour is stated by `Lifecycle.TableIsLifecycle`, `Lifecycle.DisconnectFromEveryState` and `Lifecycle.StyleCheckStays`.
- `Strings.CompatImports`: its own contract only bounds the length. What it does to code is stated by `Strings.CompatImportsKeepsModernCode` and `Strings.CompatImportsLeadingGui`.
- The `*` destination of `style_check` is read as "stay in the current state", the intended reading. The `transitions` library spells a stay-in-place destination `=`. It takes `*` as the name of a state, and no state has that name. So committing a `style_check` whose action returned raises `ValueError` after the action. Under the library's reading a packaged style check would be answered with an error and no state-changed notice, not acknowledged in place.
- `Manager.SimCall` has no contract of its own. What it calls is stated by `Manager.SimCallByDistribution`.
- `LoopHeader.MatchAt` has no contract of its own. It is stated against the regular expression by `LoopHeader.MatchAtIsRegex`, `LoopHeader.AtMostOneAlternative` and `LoopHeader.NoMatchAtSpace`.
- `Strings.ReplaceAll` has no contract of its own. Its behaviour is stated by `Strings.ReplaceAbsent`, `Strings.ReplaceLeading` and `Strings.ReplaceShrinks`; no lemma proves it equal to an independent definition of `str.replace`.
- `SessionFacts.DispatchKeepsConsistent` is stated for `Manager.DispatchTableOnly`. For the machine as built (`Manager.Dispatch`) it is false, because the automatic events are accepted; see "## Findings".
- `SessionFacts.ReplayKeepsConsistent` replays `Manager.DispatchTableOnly` for the same reason. `SessionFacts.AutomaticJumpBreaksConsistency` shows the failure for `Manager.Dispatch`.
- `\s` is the fixed set of characters that Python's `str.isspace` accepts. Python's `re` module matches `\s` against the Unicode whitespace set, which is the same set for these characters.

## Findings

| source | as written | input that shows it | evidently intended | confidence | as-written member | corrected member |
|---|---|---|---|---|---|---|
| manager/manager/manager.py:127-134 | The machine is built with the library's automatic `to_<state>` events on, so any client can jump to any state with no action | `to_application_running` from a fresh session, then `pause`: the jump is acknowledged, no process exists, and `pause` fails | Only the eleven table triggers fire (automatic events switched off), which keeps every handle consistent with the state | medium; not executed | `SessionFacts.AutomaticJumpBreaksConsistency` | `SessionFacts.ReplayKeepsConsistent` |
