/**
 * The orchestrator's session: the lifecycle state, the four optional
 * resource handles, the `before` actions of the eleven triggers, and the
 * dispatcher that turns one inbound command into a new session, a list of
 * side effects and the outbound messages.
 *
 * Everything the orchestrator asks of the outside world (configuration
 * validation, archive extraction, launchers, process teardown, the linter,
 * the template directory) is an `Env` of outcomes supplied with the command;
 * everything it does to the outside world is an `Effect`.
 */
module Manager {
  import opened Base
  import opened Strings
  import opened Instrument
  import opened Lifecycle

  /** A command's payload: none, a plain string, or a mapping of string fields. */
  datatype Payload = NoData | Text(text: string) | Fields(fields: map<string, string>)

  datatype Command = Command(id: string, name: string, data: Payload)

  /** Why an action (or the dispatcher) raised. */
  datatype Fault =
    | UnknownTrigger(name: string)              // no trigger has this name
    | InvalidTrigger(trigger: Trigger, state: State)  // the trigger's row does not admit the state
    | MissingField(key: string)                 // key error on the payload mapping
    | NotAMapping                               // the payload is text or none where a mapping is indexed
    | ConfigRejected                            // the world configuration did not validate
    | LauncherRejected                          // a launcher refused its arguments
    | LaunchFailed                              // a launcher failed to run
    | NotDataUrl                                // an archive field without the `data:` prefix
    | ArchiveFailed                             // a decoded archive could not be extracted
    | TerminateFailed                           // a launcher failed to terminate
    | NoHandle                                  // the action needs a handle that is absent
    | LintFailed(report: string)                // the linter's report, or "No errors found"
    | LoopHeaderMissing                         // the submitted code has no infinite-loop header
    | NoGuiServer                               // a `gui` command while no relay is running

  /** What the orchestrator does to the outside world, in order. */
  datatype SimOp = PausePhysics | UnpausePhysics | ResetWorld

  datatype Effect =
    | UnpackWorld(name: string, archive: string)
    | StartWorld
    | StartVisualization(kind: Payload)
    | StartGuiServer(port: nat)
    | StopGuiServer
    | UnpackApplication(archive: string)
    | WriteCode(path: string, text: string)
    | CopyTemplate(folder: string)
    | SpawnApplication(path: string)
    | WriteConsoles(text: string)
    | RosService(service: string)
    | Shell(command: string)
    | SuspendApplication
    | ResumeApplication
    | StopApplication
    | StopVisualization
    | StopWorld
    | StopConsumer
    | RelaySend(data: Payload)
    | Restart

  /** Messages to the client. */
  datatype Outbound =
    | Introspection
    | StateChanged(state: State)
    | Ack(id: string, state: State)     // "Exercise state changed to <state>"
    | Error(id: string, reason: Fault)

  /** Outcome of decoding and extracting an uploaded archive. */
  datatype Unpack = Unpacked | UndecodableBase64 | CorruptArchive

  /** Outcome of building and running a launcher. */
  datatype Launch = Running | RunFailed | Rejected

  /** The answers of the collaborators for one command. */
  datatype Env = Env(
    rosVersion: string,
    validConfig: Payload -> bool,
    archive: Unpack,
    launch: Launch,
    terminateOk: bool,
    hasExercise: string -> bool,           // does the template folder hold `exercise.py`
    lint: (string, string) -> string,      // report on (code, exercise id); empty when clean
    styleLint: (string, string) -> string) // the same with the style checker's rule set

  /** The session: lifecycle state plus which handles are populated. */
  datatype Session = Session(
    state: State,
    worldLauncher: bool,
    visualizationLauncher: bool,
    applicationProcess: bool,
    guiServer: bool)

  const Initial: Session := Session(Idle, false, false, false, false)

  const GuiPort: nat := 2303
  const RaeVisualization: string := "gazebo_rae"
  const PackagedType: string := "bt-studio"
  const AcademyPath: string := "/workspace/code/academy.py"
  const ExercisePath: string := "/workspace/code/exercise.py"
  const PackagedEntry: string := "/workspace/code/execute_docker.py"
  const CleanReport: string := "No errors found"

  /** What an action did: completed, raised part-way, or replaced the process. */
  datatype Step =
    | Done(session: Session, effects: seq<Effect>, out: seq<Outbound>)
    | Raised(session: Session, effects: seq<Effect>, fault: Fault)
    | Restarted(effects: seq<Effect>)

  /** What one command produced. */
  datatype Reply = Reply(session: Session, effects: seq<Effect>, out: seq<Outbound>)

  // ---------------------------------------------------------------------
  // Payload access, with Python's behaviour on each kind of payload

  /** Empty text and an empty mapping are falsy, so they reach the trigger as no data. */
  function TriggerData(p: Payload): (r: Payload)
    ensures r.NoData? <==> p.NoData? || p == Text("") || p == Fields(map[])
    ensures !r.NoData? ==> r == p
  {
    if p == Text("") || p == Fields(map[]) then NoData else p
  }

  /** Indexing the payload by `key`. */
  function Lookup(p: Payload, key: string): (r: Result<string, Fault>)
    ensures r.Success? <==> p.Fields? && key in p.fields
    ensures r.Success? ==> r.value == p.fields[key]
    ensures r.Failure? ==> r.error == (if p.Fields? then MissingField(key) else NotAMapping)
  {
    match p
    case Fields(m) => if key in m then Success(m[key]) else Failure(MissingField(key))
    case _ => Failure(NotAMapping)
  }

  /** The membership test `key in payload`: a key of a mapping, a substring of text. */
  function HasKey(p: Payload, key: string): (r: Result<bool, Fault>)
    ensures r.Failure? <==> p.NoData?
    ensures p.Fields? ==> r == Success(key in p.fields)
    ensures p.Text? ==> r == Success(Contains(p.text, key))
  {
    match p
    case NoData => Failure(NotAMapping)
    case Text(s) => Success(Contains(s, key))
    case Fields(m) => Success(key in m)
  }

  /** Does the payload declare a packaged (behaviour-tree studio) application? */
  predicate IsPackaged(p: Payload) {
    Lookup(p, "type") == Success(PackagedType)
  }

  // ---------------------------------------------------------------------
  // ROS distribution dependent choices

  predicate IsNoetic(rosVersion: string) {
    Contains(rosVersion, "noetic")
  }

  function ServiceName(op: SimOp, rosVersion: string): string {
    var base := match op
      case PausePhysics => "/pause_physics"
      case UnpausePhysics => "/unpause_physics"
      case ResetWorld => "/reset_world";
    if IsNoetic(rosVersion) then "/gazebo" + base else base
  }

  /** The simulator call: a ROS 1 service call, or a `ros2 service call` shell command. */
  function SimCall(op: SimOp, rosVersion: string): Effect {
    if IsNoetic(rosVersion) then RosService(ServiceName(op, rosVersion))
    else Shell("ros2 service call " + ServiceName(op, rosVersion) + " std_srvs/srv/Empty")
  }

  /**
   * Both distributions call the same physics service; ROS 1 reaches it
   * under the `/gazebo` namespace, ROS 2 through the command line.
   */
  lemma SimCallByDistribution(op: SimOp, noetic: string, other: string)
    requires IsNoetic(noetic) && !IsNoetic(other)
    ensures var service := ServiceName(op, other);
      && SimCall(op, noetic) == RosService("/gazebo" + service)
      && SimCall(op, other) == Shell("ros2 service call " + service + " std_srvs/srv/Empty")
    ensures op == PausePhysics ==> ServiceName(op, other) == "/pause_physics"
    ensures op == UnpausePhysics ==> ServiceName(op, other) == "/unpause_physics"
    ensures op == ResetWorld ==> ServiceName(op, other) == "/reset_world"
  {
    var service := ServiceName(op, other);
    assert ServiceName(op, noetic) == "/gazebo" + service;
    var shell := "ros2 service call " + service + " std_srvs/srv/Empty";
    assert SimCall(op, other) == Shell(shell);
  }

  /** The template folder for the installed distribution. */
  function TemplateFolder(template: string, rosVersion: string): (r: string)
    ensures StartsWith(r, template)
    ensures IsNoetic(rosVersion) ==> r[|template|..] == "/ros1_noetic/"
    ensures !IsNoetic(rosVersion) ==> r[|template|..] == "/ros2_humble/"
  {
    var r := template + (if IsNoetic(rosVersion) then "/ros1_noetic/" else "/ros2_humble/");
    assert r[..|template|] == template;
    r
  }

  // ---------------------------------------------------------------------
  // The `before` actions.  None of them moves the lifecycle state.

  function OnConnect(sess: Session): (r: Step)
    ensures r.Done? && r.session == sess && r.effects == []
    ensures r.out == [Introspection]
  {
    Done(sess, [], [Introspection])
  }

  /**
   * Unpacking an uploaded world: the effects performed and the fault that
   * escapes, if any.  An undecodable base64 payload raises a value error,
   * which the world action swallows, so it is not a fault here.
   */
  function UnpackUniverse(data: Payload, env: Env): (r: (seq<Effect>, Option<Fault>))
    ensures r.0 != [] <==>
      data.Fields? && "zip" in data.fields && "name" in data.fields && StartsWith(data.fields["zip"], DataScheme)
    ensures r.0 != [] ==> r.0 == [UnpackWorld(data.fields["name"], DataUrlPayload(data.fields["zip"]).value)]
    ensures r.1.None? <==> r.0 != [] && env.archive != CorruptArchive
    ensures r.0 != [] && r.1.Some? ==> r.1.value == ArchiveFailed
    ensures r.0 == [] ==> r.1 in {Some(NotAMapping), Some(MissingField("zip")), Some(MissingField("name")), Some(NotDataUrl)}
  {
    match Lookup(data, "zip")
    case Failure(f) => ([], Some(f))
    case Success(zip) =>
      match Lookup(data, "name")
      case Failure(f) => ([], Some(f))
      case Success(name) =>
        match DataUrlPayload(zip)
        case None => ([], Some(NotDataUrl))
        case Some(archive) =>
          ([UnpackWorld(name, archive)], if env.archive == CorruptArchive then Some(ArchiveFailed) else None)
  }

  /** Building and running the world launcher; the handle is stored before it runs. */
  function StartWorldLauncher(sess: Session, pre: seq<Effect>, env: Env): (r: Step)
    ensures !r.Restarted?
    ensures r.session == (if env.launch == Rejected then sess else sess.(worldLauncher := true))
    ensures r.Done? <==> env.launch == Running
    ensures r.Done? ==> r.out == []
    ensures r.Raised? ==> r.fault == (if env.launch == Rejected then LauncherRejected else LaunchFailed)
    ensures r.effects == (if env.launch == Rejected then pre else pre + [StartWorld])
  {
    match env.launch
    case Rejected => Raised(sess, pre, LauncherRejected)
    case RunFailed => Raised(sess.(worldLauncher := true), pre + [StartWorld], LaunchFailed)
    case Running => Done(sess.(worldLauncher := true), pre + [StartWorld], [])
  }

  function OnLaunchWorld(sess: Session, data: Payload, env: Env): (r: Step)
    ensures !r.Restarted?
    ensures r.session == sess || r.session == sess.(worldLauncher := true)
    ensures r.Done? ==> r.session.worldLauncher && r.out == []
    ensures !env.validConfig(data) ==> r == Raised(sess, [], ConfigRejected)
  {
    if !env.validConfig(data) then Raised(sess, [], ConfigRejected)
    else
      match HasKey(data, "zip")
      case Failure(f) => Raised(sess, [], f)
      case Success(false) => StartWorldLauncher(sess, [], env)
      case Success(true) =>
        var (pre, fault) := UnpackUniverse(data, env);
        if fault.Some? then Raised(sess, pre, fault.value)
        else StartWorldLauncher(sess, pre, env)
  }

  function OnPrepareVisualization(sess: Session, data: Payload, env: Env): (r: Step)
    ensures !r.Restarted?
    ensures r.session.(guiServer := sess.guiServer) in {sess, sess.(visualizationLauncher := true)}
    ensures r.Done? ==> r.session.visualizationLauncher && r.out == []
    ensures r.session.guiServer != sess.guiServer ==>
      r.Done? && data == Text(RaeVisualization) && r.session.guiServer && StartGuiServer(GuiPort) in r.effects
  {
    match env.launch
    case Rejected => Raised(sess, [], LauncherRejected)
    case RunFailed => Raised(sess.(visualizationLauncher := true), [StartVisualization(data)], LaunchFailed)
    case Running =>
      var s := sess.(visualizationLauncher := true);
      if data == Text(RaeVisualization) then
        Done(s.(guiServer := true), [StartVisualization(data), StartGuiServer(GuiPort)], [])
      else Done(s, [StartVisualization(data)], [])
  }

  /**
   * The packaged-application path: `Success` when it completes, `Failure`
   * with the effects performed so far when it raises (the caller swallows
   * that and falls through to the inline path).
   */
  function RunPackaged(sess: Session, data: Payload, env: Env): (r: Result<Step, seq<Effect>>)
    ensures r.Success? <==>
      Lookup(data, "code").Success? && StartsWith(Lookup(data, "code").value, DataScheme) && env.archive == Unpacked
    ensures r.Success? ==> r.value.Done? && r.value.session == sess.(applicationProcess := true) && r.value.out == []
    ensures r.Success? ==>
      (|r.value.effects| == 3 && r.value.effects[..2] ==
       [UnpackApplication(DataUrlPayload(Lookup(data, "code").value).value), SpawnApplication(PackagedEntry)])
    ensures r.Failure? && r.error != [] ==>
      && Lookup(data, "code").Success? && StartsWith(Lookup(data, "code").value, DataScheme)
      && r.error == [UnpackApplication(DataUrlPayload(Lookup(data, "code").value).value)]
  {
    match Lookup(data, "code")
    case Failure(_) => Failure([])
    case Success(code) =>
      match DataUrlPayload(code)
      case None => Failure([])
      case Some(archive) =>
        if env.archive != Unpacked then Failure([UnpackApplication(archive)])
        else Success(Done(sess.(applicationProcess := true),
          [UnpackApplication(archive), SpawnApplication(PackagedEntry), SimCall(UnpausePhysics, env.rosVersion)], []))
  }

  /** The inline-code path: compat rewrite, lint, instrument, write, copy the template, spawn. */
  function RunInline(sess: Session, data: Payload, env: Env, pre: seq<Effect>): (r: Step)
    ensures !r.Restarted?
    ensures r.session == sess || r.session == sess.(applicationProcess := true)
    ensures r.Done? ==> r.session.applicationProcess && r.out == []
    ensures r.Raised? ==> r.session == sess
    ensures |pre| <= |r.effects| && r.effects[..|pre|] == pre
    ensures forall k :: |pre| <= k < |r.effects| ==> r.effects[k] != StopApplication && r.effects[k] != ResumeApplication
    ensures r.Done? ==> exists path :: SpawnApplication(path) in r.effects
  {
    match Lookup(data, "template")
    case Failure(f) => Raised(sess, pre, f)
    case Success(template) =>
      match Lookup(data, "exercise_id")
      case Failure(f) => Raised(sess, pre, f)
      case Success(exerciseId) =>
        match Lookup(data, "code")
        case Failure(f) => Raised(sess, pre, f)
        case Success(code) =>
          var folder := TemplateFolder(template, env.rosVersion);
          var codePath := if env.hasExercise(folder) then ExercisePath else AcademyPath;
          var compat := CompatImports(code);
          var report := env.lint(compat, exerciseId);
          if report == "" then
            match AddFrequencyControl(compat)
            case Failure(_) => Raised(sess, pre, LoopHeaderMissing)
            case Success(instrumented) =>
              var effects := pre + [WriteCode(AcademyPath, instrumented), CopyTemplate(folder),
                                    SpawnApplication(codePath), SimCall(UnpausePhysics, env.rosVersion)];
              assert effects[|pre| + 2] == SpawnApplication(codePath);
              Done(sess.(applicationProcess := true), effects, [])
          else Raised(sess, pre + [WriteConsoles(report + "\n\n")], LintFailed(report))
  }

  function OnRunApplication(sess: Session, data: Payload, env: Env): (r: Step)
    ensures !r.Restarted?
    ensures r.session == sess || r.session == sess.(applicationProcess := true)
    ensures r.Done? ==> r.session.applicationProcess && r.out == []
    ensures r.Done? ==> exists path :: SpawnApplication(path) in r.effects
    ensures StopApplication !in r.effects && ResumeApplication !in r.effects
  {
    var packaged := if IsPackaged(data) then RunPackaged(sess, data, env) else Failure([]);
    match packaged
    case Success(step) =>
      assert step.effects[1] == SpawnApplication(PackagedEntry);
      step
    case Failure(pre) =>
      var r := RunInline(sess, data, env, pre);
      assert forall k :: 0 <= k < |r.effects| ==> r.effects[k] != StopApplication && r.effects[k] != ResumeApplication by {
        forall k | 0 <= k < |r.effects|
          ensures r.effects[k] != StopApplication && r.effects[k] != ResumeApplication
        {
          if k < |pre| {
            assert r.effects[k] == pre[k];
          }
        }
      }
      r
  }

  function OnPause(sess: Session, env: Env): (r: Step)
    ensures !r.Restarted? && r.session == sess
    ensures r.Done? <==> sess.applicationProcess
  {
    if !sess.applicationProcess then Raised(sess, [], NoHandle)
    else Done(sess, [SuspendApplication, SimCall(PausePhysics, env.rosVersion)], [])
  }

  function OnResume(sess: Session, env: Env): (r: Step)
    ensures !r.Restarted? && r.session == sess
    ensures r.Done? <==> sess.applicationProcess
  {
    if !sess.applicationProcess then Raised(sess, [], NoHandle)
    else Done(sess, [ResumeApplication, SimCall(UnpausePhysics, env.rosVersion)], [])
  }

  /** Stopping the application never raises: a failed stop is logged and the handle kept. */
  function OnTerminateApplication(sess: Session, env: Env): (r: Step)
    ensures r.Done? && r.out == []
    ensures r.session == sess.(applicationProcess := sess.applicationProcess && !env.terminateOk)
  {
    if !sess.applicationProcess then Done(sess, [], [])
    else if !env.terminateOk then Done(sess, [StopApplication], [])
    else Done(sess.(applicationProcess := false),
      [StopApplication, SimCall(PausePhysics, env.rosVersion), SimCall(ResetWorld, env.rosVersion)], [])
  }

  /** The visualization handle itself is kept; only the relay is cleared. */
  function OnTerminateVisualization(sess: Session, env: Env): (r: Step)
    ensures !r.Restarted?
    ensures r.Done? <==> sess.visualizationLauncher && env.terminateOk
    ensures r.Done? ==> r.session == sess.(guiServer := false) && r.out == []
    ensures r.Raised? ==> r.session == sess
  {
    if !sess.visualizationLauncher then Raised(sess, [], NoHandle)
    else if !env.terminateOk then Raised(sess, [StopVisualization], TerminateFailed)
    else if sess.guiServer then Done(sess.(guiServer := false), [StopVisualization, StopGuiServer], [])
    else Done(sess, [StopVisualization], [])
  }

  /** The world handle is kept after termination. */
  function OnTerminateUniverse(sess: Session, env: Env): (r: Step)
    ensures !r.Restarted? && r.session == sess
    ensures r.Done? <==> sess.worldLauncher && env.terminateOk
    ensures r.Done? ==> r.out == []
  {
    if !sess.worldLauncher then Raised(sess, [], NoHandle)
    else if !env.terminateOk then Raised(sess, [StopWorld], TerminateFailed)
    else Done(sess, [StopWorld], [])
  }

  /** Every failure while tearing down is swallowed; then the process replaces itself. */
  function OnDisconnect(sess: Session): (r: Step)
    ensures r.Restarted? && |r.effects| >= 2
    ensures r.effects[0] == StopConsumer && r.effects[|r.effects| - 1] == Restart
    ensures StopApplication in r.effects <==> sess.applicationProcess
    ensures StopVisualization in r.effects <==> sess.visualizationLauncher
    ensures StopWorld in r.effects <==> sess.worldLauncher
    ensures forall k :: 0 < k < |r.effects| - 1 ==> r.effects[k] in {StopApplication, StopVisualization, StopWorld}
  {
    Restarted([StopConsumer]
      + (if sess.applicationProcess then [StopApplication] else [])
      + (if sess.visualizationLauncher then [StopVisualization] else [])
      + (if sess.worldLauncher then [StopWorld] else [])
      + [Restart])
  }

  /** A style check of inline code always raises, with the report or the clean-report text. */
  function OnStyleCheck(sess: Session, data: Payload, env: Env): (r: Step)
    ensures !r.Restarted? && r.session == sess
    ensures r.Done? <==> IsPackaged(data)
    ensures r.Done? ==> r.effects == [] && r.out == []
  {
    if IsPackaged(data) then Done(sess, [], [])
    else
      match Lookup(data, "exercise_id")
      case Failure(f) => Raised(sess, [], f)
      case Success(exerciseId) =>
        match Lookup(data, "code")
        case Failure(f) => Raised(sess, [], f)
        case Success(code) =>
          var errors := env.styleLint(CompatImports(code), exerciseId);
          var report := if errors == "" then CleanReport else errors;
          Raised(sess, [WriteConsoles(report + "\n\n")], LintFailed(report))
  }

  /** The `before` action of each trigger. */
  function Action(t: Trigger, sess: Session, data: Payload, env: Env): (r: Step)
    ensures r.Restarted? <==> t == Disconnect
    ensures !r.Restarted? ==> r.session.state == sess.state
  {
    match t
    case Connect => OnConnect(sess)
    case LaunchWorld => OnLaunchWorld(sess, data, env)
    case PrepareVisualization => OnPrepareVisualization(sess, data, env)
    case RunApplication => OnRunApplication(sess, data, env)
    case Pause => OnPause(sess, env)
    case Resume => OnResume(sess, env)
    case TerminateApplication => OnTerminateApplication(sess, env)
    case TerminateVisualization => OnTerminateVisualization(sess, env)
    case TerminateUniverse => OnTerminateUniverse(sess, env)
    case Disconnect => OnDisconnect(sess)
    case StyleCheck => OnStyleCheck(sess, data, env)
  }

  /**
   * Firing a trigger: rejected unless the table admits the current state;
   * otherwise the action runs first, and only when it completes does the
   * state move to the row's destination and a state-changed notice go out.
   */
  function Fire(sess: Session, t: Trigger, data: Payload, env: Env): (r: Step)
    ensures Target(sess.state, t).None? ==> r == Raised(sess, [], InvalidTrigger(t, sess.state))
    ensures r.Done? ==> Target(sess.state, t) == Some(r.session.state)
    ensures r.Done? ==> |r.out| > 0 && r.out[|r.out| - 1] == StateChanged(r.session.state)
    ensures r.Raised? ==> r.session.state == sess.state
    ensures r.Restarted? <==> t == Disconnect
  {
    match Target(sess.state, t)
    case None => Raised(sess, [], InvalidTrigger(t, sess.state))
    case Some(dest) =>
      match Action(t, sess, data, env)
      case Done(s, effects, out) => Done(s.(state := dest), effects, out + [StateChanged(dest)])
      case other => other
  }

  /**
   * One inbound command, on a machine whose automatic `to_<state>` events
   * are on or off.  `gui` bypasses the lifecycle and is relayed to the relay
   * server (its absence raises).  Any other name fires its event with the
   * normalised payload; completion is acknowledged with the resulting state,
   * a fault becomes an error carrying the command's id, and a disconnect
   * replaces the process, so nothing is sent.  An automatic event runs no
   * action: it moves to its state, reports it and acknowledges it.
   */
  function Serve(sess: Session, cmd: Command, env: Env, autoTransitions: bool): (r: Reply)
    ensures cmd.name == "gui" ==> r.session == sess
    ensures cmd.name == "gui" && sess.guiServer ==> r.effects == [RelaySend(cmd.data)] && r.out == []
    ensures cmd.name == "gui" && !sess.guiServer ==> r.effects == [] && r.out == [Error(cmd.id, NoGuiServer)]
    ensures cmd.name != "gui" && ParseEvent(cmd.name, autoTransitions).None? ==>
      r == Reply(sess, [], [Error(cmd.id, UnknownTrigger(cmd.name))])
  {
    if cmd.name == "gui" then
      if sess.guiServer then Reply(sess, [RelaySend(cmd.data)], [])
      else Reply(sess, [], [Error(cmd.id, NoGuiServer)])
    else
      match ParseEvent(cmd.name, autoTransitions)
      case None => Reply(sess, [], [Error(cmd.id, UnknownTrigger(cmd.name))])
      case Some(JumpTo(s)) => Reply(sess.(state := s), [], [StateChanged(s), Ack(cmd.id, s)])
      case Some(Fires(t)) => Answer(cmd.id, Fire(sess, t, TriggerData(cmd.data), env))
  }

  /**
   * The reply to a fired trigger: completion is acknowledged with the
   * resulting state, a fault becomes an error carrying the command's id, and
   * a restart sends nothing and starts afresh.
   */
  function Answer(id: string, step: Step): (r: Reply)
    ensures step.Done? ==> r.session == step.session && r.out == step.out + [Ack(id, step.session.state)]
    ensures step.Raised? ==> r.session == step.session && r.out == [Error(id, step.fault)]
    ensures step.Restarted? ==> r.session == Initial && r.out == []
    ensures r.effects == step.effects
  {
    match step
    case Done(s, effects, out) => Reply(s, effects, out + [Ack(id, s.state)])
    case Raised(s, effects, fault) => Reply(s, effects, [Error(id, fault)])
    case Restarted(effects) => Reply(Initial, effects, [])
  }

  /**
   * The dispatcher as the orchestrator builds its machine: automatic events
   * on.  It differs from the table-only dispatcher exactly on their names,
   * where it jumps to the named state from anywhere without running an action.
   */
  function Dispatch(sess: Session, cmd: Command, env: Env): (r: Reply)
    ensures ParseJump(cmd.name).None? ==> r == DispatchTableOnly(sess, cmd, env)
    ensures ParseJump(cmd.name).Some? ==>
      var s := ParseJump(cmd.name).value;
      r == Reply(sess.(state := s), [], [StateChanged(s), Ack(cmd.id, s)])
  {
    if ParseJump(cmd.name).Some? then
      ParseJumpName(ParseJump(cmd.name).value);
      Serve(sess, cmd, env, true)
    else Serve(sess, cmd, env, true)
  }

  /** The dispatcher of a machine that fires only the table's eleven triggers. */
  function DispatchTableOnly(sess: Session, cmd: Command, env: Env): (r: Reply)
    ensures cmd.name != "gui" && ParseTrigger(cmd.name).None? ==>
      r == Reply(sess, [], [Error(cmd.id, UnknownTrigger(cmd.name))])
    ensures ParseJump(cmd.name).Some? ==> r.session == sess && r.out == [Error(cmd.id, UnknownTrigger(cmd.name))]
  {
    if ParseJump(cmd.name).Some? then
      ParseJumpName(ParseJump(cmd.name).value);
      Serve(sess, cmd, env, false)
    else Serve(sess, cmd, env, false)
  }
}
