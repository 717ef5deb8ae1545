/**
 * What the dispatcher guarantees about the session: the lifecycle table is
 * obeyed, the handles stay consistent with the state over any sequence of
 * commands, and the individual triggers do what their actions promise.
 */
module SessionFacts {
  import opened Base
  import opened Strings
  import opened Instrument
  import opened Lifecycle
  import opened Manager

  /**
   * Handles that the state implies: a world from `world_ready` on, a
   * visualization from `visualization_ready` on, an application while running
   * or paused, a relay only next to a visualization, and nothing at all in
   * `idle`.
   */
  predicate Consistent(s: Session) {
    && (s.state in {WorldReady, VisualizationReady, ApplicationRunning, Paused} ==> s.worldLauncher)
    && (s.state in {VisualizationReady, ApplicationRunning, Paused} ==> s.visualizationLauncher)
    && (s.state in {ApplicationRunning, Paused} ==> s.applicationProcess)
    && (s.guiServer ==> s.visualizationLauncher && s.state in {VisualizationReady, ApplicationRunning, Paused})
    && (s.state == Idle ==> !s.worldLauncher && !s.visualizationLauncher && !s.applicationProcess && !s.guiServer)
  }

  /** One command together with the collaborators' answers while it runs. */
  datatype Turn = Turn(cmd: Command, env: Env)

  /** The session after dispatching `turns` in order on a machine that fires only the table's triggers. */
  function Replay(sess: Session, turns: seq<Turn>): Session
    decreases |turns|
  {
    if turns == [] then sess
    else Replay(DispatchTableOnly(sess, turns[0].cmd, turns[0].env).session, turns[1..])
  }

  lemma InitialConsistent()
    ensures Consistent(Initial)
  {
  }

  lemma TriggerByName(cmd: Command, t: Trigger)
    requires cmd.name == TriggerName(t)
    ensures cmd.name != "gui" && ParseTrigger(cmd.name) == Some(t)
    ensures ParseJump(cmd.name).None?
  {
    ParseTriggerName(t);
    NotAJump(cmd, t);
  }

  /** A table trigger's command is answered from what firing the trigger did. */
  lemma FiredByName(sess: Session, cmd: Command, env: Env, t: Trigger)
    requires cmd.name == TriggerName(t)
    ensures Dispatch(sess, cmd, env) == Answer(cmd.id, Fire(sess, t, TriggerData(cmd.data), env))
  {
    TriggerByName(cmd, t);
  }

  /** A trigger the table admits completes exactly when its action does. */
  lemma FireCompletes(sess: Session, t: Trigger, data: Payload, env: Env, dest: State, step: Step)
    requires Target(sess.state, t) == Some(dest) && Action(t, sess, data, env) == step && step.Done?
    ensures Fire(sess, t, data, env) == Done(step.session.(state := dest), step.effects, step.out + [StateChanged(dest)])
  {
  }

  /** A trigger the table admits raises whatever its action raises, in the state it was fired in. */
  lemma FireRaises(sess: Session, t: Trigger, data: Payload, env: Env, step: Step)
    requires Target(sess.state, t).Some? && Action(t, sess, data, env) == step && step.Raised?
    ensures Fire(sess, t, data, env) == step
  {
  }

  /** A completed action keeps the handle implications that its destination needs. */
  lemma ActionKeepsConsistent(sess: Session, t: Trigger, data: Payload, env: Env)
    requires Consistent(sess)
    requires Target(sess.state, t).Some?
    ensures var r := Fire(sess, t, data, env);
      (r.Done? || r.Raised?) ==> Consistent(r.session)
  {
    TableIsLifecycle(sess.state, t);
    var r := Fire(sess, t, data, env);
    match t
    case RunApplication =>
      var packaged := if IsPackaged(data) then RunPackaged(sess, data, env) else Failure([]);
      if packaged.Failure? {
        var step := RunInline(sess, data, env, packaged.error);
        assert !step.Restarted? && step.session.guiServer == sess.guiServer;
      }
    case _ =>
  }

  /**
   * On a machine that fires only the table's triggers, dispatching any
   * command from a consistent session leaves it consistent.
   */
  lemma DispatchKeepsConsistent(sess: Session, cmd: Command, env: Env)
    requires Consistent(sess)
    ensures Consistent(DispatchTableOnly(sess, cmd, env).session)
  {
    if cmd.name != "gui" {
      match ParseTrigger(cmd.name)
      case None =>
      case Some(t) =>
        if Target(sess.state, t).Some? {
          ActionKeepsConsistent(sess, t, TriggerData(cmd.data), env);
        }
    }
  }

  /**
   * The machine as built also fires the automatic `to_<state>` events, and
   * they break the invariant: from a fresh session, `to_application_running`
   * is acknowledged in `application_running` with no application process,
   * and a following `pause` then fails for want of one.
   */
  lemma AutomaticJumpBreaksConsistency(jump: Command, pause: Command, env1: Env, env2: Env)
    requires jump.name == "to_application_running" && pause.name == "pause"
    ensures var r1 := Dispatch(Initial, jump, env1);
      && Consistent(Initial)
      && r1 == Reply(Initial.(state := ApplicationRunning), [], [StateChanged(ApplicationRunning), Ack(jump.id, ApplicationRunning)])
      && !Consistent(r1.session)
      && Dispatch(r1.session, pause, env2) == Reply(r1.session, [], [Error(pause.id, NoHandle)])
  {
    var running := Initial.(state := ApplicationRunning);
    assert JumpName(ApplicationRunning) == jump.name;
    JumpLands(Initial, jump, env1, ApplicationRunning);
    PauseWithoutHandle(running, pause, env2);
  }

  /** An automatic event lands in its state from anywhere, with no action run. */
  lemma JumpLands(sess: Session, cmd: Command, env: Env, s: State)
    requires cmd.name == JumpName(s)
    ensures Dispatch(sess, cmd, env) == Reply(sess.(state := s), [], [StateChanged(s), Ack(cmd.id, s)])
  {
    ParseJumpName(s);
  }

  /** `pause` in `application_running` without an application handle raises and changes nothing. */
  lemma PauseWithoutHandle(sess: Session, cmd: Command, env: Env)
    requires sess.state == ApplicationRunning && !sess.applicationProcess && cmd.name == "pause"
    ensures Dispatch(sess, cmd, env) == Reply(sess, [], [Error(cmd.id, NoHandle)])
  {
    FiredByName(sess, cmd, env, Pause);
    assert Target(sess.state, Pause) == Some(Paused);
    assert Action(Pause, sess, TriggerData(cmd.data), env) == Raised(sess, [], NoHandle);
    assert Fire(sess, Pause, TriggerData(cmd.data), env) == Raised(sess, [], NoHandle);
  }

  /**
   * `run_application` while paused spawns a second application without
   * stopping or resuming the suspended one; the single handle is simply
   * overwritten.
   */
  lemma RunWhilePausedOrphansProcess(sess: Session, cmd: Command, env: Env)
    requires sess.state == Paused && sess.applicationProcess
    requires cmd.name == "run_application"
    ensures var r := Dispatch(sess, cmd, env);
      && StopApplication !in r.effects && ResumeApplication !in r.effects
      && r.session.applicationProcess
      && (r.session.state == ApplicationRunning ==> exists path :: SpawnApplication(path) in r.effects)
  {
    FiredByName(sess, cmd, env, RunApplication);
    TableIsLifecycle(sess.state, RunApplication);
  }

  /** A trigger's name is not the name of an automatic event. */
  lemma NotAJump(cmd: Command, t: Trigger)
    requires cmd.name == TriggerName(t)
    ensures ParseJump(cmd.name).None?
  {
    if ParseJump(cmd.name).Some? {
      ParseJumpName(ParseJump(cmd.name).value);
    }
  }

  /**
   * Over any sequence of commands on a machine that fires only the table's
   * triggers, the handles stay consistent with the state.
   */
  lemma {:induction false} ReplayKeepsConsistent(sess: Session, turns: seq<Turn>)
    requires Consistent(sess)
    ensures Consistent(Replay(sess, turns))
    decreases |turns|
  {
    if turns != [] {
      DispatchKeepsConsistent(sess, turns[0].cmd, turns[0].env);
      ReplayKeepsConsistent(DispatchTableOnly(sess, turns[0].cmd, turns[0].env).session, turns[1..]);
    }
  }

  /**
   * The dispatcher obeys the table.  A name that is no event, or a state
   * the trigger's row does not admit, is answered with an error and changes
   * nothing; an automatic event jumps to its state and acknowledges it.  An admitted trigger either completes, landing in the row's
   * destination and ending its reply with the state-changed notice and an
   * acknowledgement naming that state, or raises, keeping the state and
   * answering with one error carrying the command's id.
   */
  lemma DispatchFollowsTable(sess: Session, cmd: Command, env: Env)
    requires cmd.name != "gui"
    ensures var r := Dispatch(sess, cmd, env);
      && (ParseEvent(cmd.name, true).None? ==>
            r == Reply(sess, [], [Error(cmd.id, UnknownTrigger(cmd.name))]))
      && (ParseEvent(cmd.name, true).Some? && ParseEvent(cmd.name, true).value.JumpTo? ==>
            var s := ParseEvent(cmd.name, true).value.state;
            r == Reply(sess.(state := s), [], [StateChanged(s), Ack(cmd.id, s)]))
      && (ParseTrigger(cmd.name).Some? && Target(sess.state, ParseTrigger(cmd.name).value).None? ==>
            r == Reply(sess, [], [Error(cmd.id, InvalidTrigger(ParseTrigger(cmd.name).value, sess.state))]))
      && (ParseTrigger(cmd.name).Some? && ParseTrigger(cmd.name).value != Disconnect
          && Target(sess.state, ParseTrigger(cmd.name).value).Some? ==>
            var dest := Target(sess.state, ParseTrigger(cmd.name).value).value;
            || (&& r.session.state == dest
                && |r.out| >= 2
                && r.out[|r.out| - 2..] == [StateChanged(dest), Ack(cmd.id, dest)])
            || (&& r.session.state == sess.state
                && |r.out| == 1 && r.out[0].Error? && r.out[0].id == cmd.id))
  {
    match ParseTrigger(cmd.name)
    case None =>
      var e := ParseEvent(cmd.name, true);
      if e.Some? {
        ParseJumpName(e.value.state);
      }
    case Some(t) =>
      NotAJump(cmd, t);
      var step := Fire(sess, t, TriggerData(cmd.data), env);
      if step.Done? {
        assert Dispatch(sess, cmd, env).out == step.out + [Ack(cmd.id, step.session.state)];
      }
  }

  /**
   * `disconnect` from any session: the process restarts into the initial
   * session without sending anything; the consumer is stopped first, each
   * populated handle is torn down exactly once, and nothing else is touched.
   */
  lemma DisconnectRestarts(sess: Session, cmd: Command, env: Env)
    requires cmd.name == "disconnect"
    ensures var r := Dispatch(sess, cmd, env);
      && r.session == Initial
      && r.out == []
      && r.effects[0] == StopConsumer
      && r.effects[|r.effects| - 1] == Restart
      && Count(r.effects, StopApplication) == (if sess.applicationProcess then 1 else 0)
      && Count(r.effects, StopVisualization) == (if sess.visualizationLauncher then 1 else 0)
      && Count(r.effects, StopWorld) == (if sess.worldLauncher then 1 else 0)
      && |r.effects| == 2 + Count(r.effects, StopApplication)
           + Count(r.effects, StopVisualization) + Count(r.effects, StopWorld)
  {
    FiredByName(sess, cmd, env, Disconnect);
    DisconnectFromEveryState(sess.state);
    assert Dispatch(sess, cmd, env) == Reply(Initial, OnDisconnect(sess).effects, []);
    TeardownCounts(sess);
  }

  /** How many times `x` occurs in `s`. */
  function Count<T(==)>(s: seq<T>, x: T): nat
    decreases |s|
  {
    if s == [] then 0 else (if s[0] == x then 1 else 0) + Count(s[1..], x)
  }

  lemma {:induction false} CountConcat<T>(a: seq<T>, b: seq<T>, x: T)
    ensures Count(a + b, x) == Count(a, x) + Count(b, x)
    decreases |a|
  {
    if a == [] {
      assert a + b == b;
    } else {
      assert (a + b)[0] == a[0];
      assert (a + b)[1..] == a[1..] + b;
      CountConcat(a[1..], b, x);
    }
  }

  /** The teardown list: consumer first, restart last, one stop per populated handle. */
  lemma TeardownCounts(sess: Session)
    ensures var e := OnDisconnect(sess).effects;
      && e[0] == StopConsumer
      && e[|e| - 1] == Restart
      && Count(e, StopApplication) == (if sess.applicationProcess then 1 else 0)
      && Count(e, StopVisualization) == (if sess.visualizationLauncher then 1 else 0)
      && Count(e, StopWorld) == (if sess.worldLauncher then 1 else 0)
      && |e| == 2 + Count(e, StopApplication) + Count(e, StopVisualization) + Count(e, StopWorld)
  {
    TeardownCount(sess, StopApplication);
    TeardownCount(sess, StopVisualization);
    TeardownCount(sess, StopWorld);
  }

  lemma TeardownCount(sess: Session, x: Effect)
    requires x != StopConsumer && x != Restart
    ensures Count(OnDisconnect(sess).effects, x) ==
        (if x == StopApplication && sess.applicationProcess then 1 else 0)
        + (if x == StopVisualization && sess.visualizationLauncher then 1 else 0)
        + (if x == StopWorld && sess.worldLauncher then 1 else 0)
  {
    var a: seq<Effect> := if sess.applicationProcess then [StopApplication] else [];
    var v: seq<Effect> := if sess.visualizationLauncher then [StopVisualization] else [];
    var w: seq<Effect> := if sess.worldLauncher then [StopWorld] else [];
    var e := OnDisconnect(sess).effects;
    assert e == [StopConsumer] + a + v + w + [Restart];
    CountConcat([StopConsumer], a, x);
    CountConcat([StopConsumer] + a, v, x);
    CountConcat([StopConsumer] + a + v, w, x);
    CountConcat([StopConsumer] + a + v + w, [Restart], x);
    CountSingleton(StopConsumer, x);
    CountSingleton(Restart, x);
    if a != [] { CountSingleton(StopApplication, x); }
    if v != [] { CountSingleton(StopVisualization, x); }
    if w != [] { CountSingleton(StopWorld, x); }
  }

  lemma CountSingleton<T>(y: T, x: T)
    ensures Count([y], x) == if y == x then 1 else 0
  {
    assert [y][1..] == [];
  }

  /**
   * `style_check` never moves the session.  A packaged application is
   * acknowledged in place; inline code is always refused, with the style
   * report or the clean-report text, and the error carries the command's id.
   */
  lemma StyleCheckNeverMoves(sess: Session, cmd: Command, env: Env)
    requires cmd.name == "style_check"
    ensures var r := Dispatch(sess, cmd, env);
      && r.session == sess
      && (IsPackaged(TriggerData(cmd.data)) ==>
            r.effects == [] && r.out == [StateChanged(sess.state), Ack(cmd.id, sess.state)])
      && (!IsPackaged(TriggerData(cmd.data)) ==>
            |r.out| == 1 && r.out[0].Error? && r.out[0].id == cmd.id)
  {
    FiredByName(sess, cmd, env, StyleCheck);
    StyleCheckStays(sess.state);
  }

  /** For inline code with both fields present, the refusal carries the report and it is never empty. */
  lemma StyleCheckReport(sess: Session, cmd: Command, env: Env, exerciseId: string, code: string)
    requires cmd.name == "style_check"
    requires !IsPackaged(TriggerData(cmd.data))
    requires Lookup(TriggerData(cmd.data), "exercise_id") == Success(exerciseId)
    requires Lookup(TriggerData(cmd.data), "code") == Success(code)
    ensures var errors := env.styleLint(CompatImports(code), exerciseId);
      var report := if errors == "" then CleanReport else errors;
      && report != ""
      && Dispatch(sess, cmd, env) == Reply(sess, [WriteConsoles(report + "\n\n")], [Error(cmd.id, LintFailed(report))])
  {
    FiredByName(sess, cmd, env, StyleCheck);
    StyleCheckStays(sess.state);
  }

  /**
   * `pause` then `resume` from a consistent running session: the first
   * suspends the application and pauses the simulation, the second resumes
   * and unpauses it, and the session is back where it started.
   */
  lemma PauseResumeRoundTrip(sess: Session, pause: Command, resume: Command, env1: Env, env2: Env)
    requires Consistent(sess) && sess.state == ApplicationRunning
    requires pause.name == "pause" && resume.name == "resume"
    ensures var r1 := Dispatch(sess, pause, env1);
      var r2 := Dispatch(r1.session, resume, env2);
      && r1.session == sess.(state := Paused)
      && r1.effects == [SuspendApplication, SimCall(PausePhysics, env1.rosVersion)]
      && r1.out == [StateChanged(Paused), Ack(pause.id, Paused)]
      && r2.session == sess
      && r2.effects == [ResumeApplication, SimCall(UnpausePhysics, env2.rosVersion)]
      && r2.out == [StateChanged(ApplicationRunning), Ack(resume.id, ApplicationRunning)]
  {
    PauseSuspends(sess, pause, env1);
    ResumeContinues(sess.(state := Paused), resume, env2);
  }

  /** `pause` on a running session that holds an application handle. */
  lemma PauseSuspends(sess: Session, cmd: Command, env: Env)
    requires sess.state == ApplicationRunning && sess.applicationProcess && cmd.name == "pause"
    ensures Dispatch(sess, cmd, env) == Reply(sess.(state := Paused),
      [SuspendApplication, SimCall(PausePhysics, env.rosVersion)], [StateChanged(Paused), Ack(cmd.id, Paused)])
  {
    FiredByName(sess, cmd, env, Pause);
    var effects := [SuspendApplication, SimCall(PausePhysics, env.rosVersion)];
    assert Target(ApplicationRunning, Pause) == Some(Paused);
    assert Action(Pause, sess, TriggerData(cmd.data), env) == Done(sess, effects, []);
    assert Fire(sess, Pause, TriggerData(cmd.data), env) == Done(sess.(state := Paused), effects, [StateChanged(Paused)]);
  }

  /** `resume` on a paused session that holds an application handle. */
  lemma ResumeContinues(sess: Session, cmd: Command, env: Env)
    requires sess.state == Paused && sess.applicationProcess && cmd.name == "resume"
    ensures Dispatch(sess, cmd, env) == Reply(sess.(state := ApplicationRunning),
      [ResumeApplication, SimCall(UnpausePhysics, env.rosVersion)],
      [StateChanged(ApplicationRunning), Ack(cmd.id, ApplicationRunning)])
  {
    FiredByName(sess, cmd, env, Resume);
    var effects := [ResumeApplication, SimCall(UnpausePhysics, env.rosVersion)];
    assert Target(Paused, Resume) == Some(ApplicationRunning);
    assert Action(Resume, sess, TriggerData(cmd.data), env) == Done(sess, effects, []);
    assert Fire(sess, Resume, TriggerData(cmd.data), env) == Done(sess.(state := ApplicationRunning), effects, [StateChanged(ApplicationRunning)]);
  }

  /**
   * A non-empty lint report on inline code refuses `run_application`: no
   * handle changes (the application is never started), the report goes to
   * the consoles, and the error carries it.
   */
  lemma LintRejectionKeepsSession(sess: Session, cmd: Command, env: Env, exerciseId: string, code: string)
    requires cmd.name == "run_application" && Target(sess.state, RunApplication).Some?
    requires !IsPackaged(TriggerData(cmd.data))
    requires Lookup(TriggerData(cmd.data), "template").Success?
    requires Lookup(TriggerData(cmd.data), "exercise_id") == Success(exerciseId)
    requires Lookup(TriggerData(cmd.data), "code") == Success(code)
    requires env.lint(CompatImports(code), exerciseId) != ""
    ensures var report := env.lint(CompatImports(code), exerciseId);
      Dispatch(sess, cmd, env) == Reply(sess, [WriteConsoles(report + "\n\n")], [Error(cmd.id, LintFailed(report))])
  {
    FiredByName(sess, cmd, env, RunApplication);
  }

  /**
   * Clean inline code with a loop header runs: the instrumented program is
   * written to `academy.py`, the distribution's template folder is copied,
   * the entry point (the template's `exercise.py` when it has one) is
   * spawned, the simulation is unpaused, and the session is running with an
   * application handle.
   */
  lemma InlineRunStartsInstrumentedCode(sess: Session, cmd: Command, env: Env, template: string, exerciseId: string, code: string)
    requires cmd.name == "run_application" && Target(sess.state, RunApplication).Some?
    requires !IsPackaged(TriggerData(cmd.data))
    requires Lookup(TriggerData(cmd.data), "template") == Success(template)
    requires Lookup(TriggerData(cmd.data), "exercise_id") == Success(exerciseId)
    requires Lookup(TriggerData(cmd.data), "code") == Success(code)
    requires env.lint(CompatImports(code), exerciseId) == ""
    requires AddFrequencyControl(CompatImports(code)).Success?
    ensures var folder := TemplateFolder(template, env.rosVersion);
      var entry := if env.hasExercise(folder) then ExercisePath else AcademyPath;
      Dispatch(sess, cmd, env) == Reply(
        sess.(state := ApplicationRunning, applicationProcess := true),
        [WriteCode(AcademyPath, AddFrequencyControl(CompatImports(code)).value), CopyTemplate(folder),
         SpawnApplication(entry), SimCall(UnpausePhysics, env.rosVersion)],
        [StateChanged(ApplicationRunning), Ack(cmd.id, ApplicationRunning)])
  {
    FiredByName(sess, cmd, env, RunApplication);
    InlineRunFires(sess, TriggerData(cmd.data), env, template, exerciseId, code);
  }

  /** The step `run_application` takes on clean inline code with a loop header. */
  lemma InlineRunFires(sess: Session, data: Payload, env: Env, template: string, exerciseId: string, code: string)
    requires Target(sess.state, RunApplication).Some? && !IsPackaged(data)
    requires Lookup(data, "template") == Success(template)
    requires Lookup(data, "exercise_id") == Success(exerciseId)
    requires Lookup(data, "code") == Success(code)
    requires env.lint(CompatImports(code), exerciseId) == ""
    requires AddFrequencyControl(CompatImports(code)).Success?
    ensures var folder := TemplateFolder(template, env.rosVersion);
      var entry := if env.hasExercise(folder) then ExercisePath else AcademyPath;
      Fire(sess, RunApplication, data, env) == Done(
        sess.(state := ApplicationRunning, applicationProcess := true),
        [WriteCode(AcademyPath, AddFrequencyControl(CompatImports(code)).value), CopyTemplate(folder),
         SpawnApplication(entry), SimCall(UnpausePhysics, env.rosVersion)],
        [StateChanged(ApplicationRunning)])
  {
    TableIsLifecycle(sess.state, RunApplication);
    var folder := TemplateFolder(template, env.rosVersion);
    var entry := if env.hasExercise(folder) then ExercisePath else AcademyPath;
    var effects := [WriteCode(AcademyPath, AddFrequencyControl(CompatImports(code)).value), CopyTemplate(folder),
                    SpawnApplication(entry), SimCall(UnpausePhysics, env.rosVersion)];
    var started := sess.(applicationProcess := true);
    InlineRunCompletes(sess, data, env, template, exerciseId, code);
    assert OnRunApplication(sess, data, env) == Done(started, effects, []);
    assert Target(sess.state, RunApplication) == Some(ApplicationRunning);
  }

  /** The inline branch of `run_application` on clean code with a loop header. */
  lemma InlineRunCompletes(sess: Session, data: Payload, env: Env, template: string, exerciseId: string, code: string)
    requires Lookup(data, "template") == Success(template)
    requires Lookup(data, "exercise_id") == Success(exerciseId)
    requires Lookup(data, "code") == Success(code)
    requires env.lint(CompatImports(code), exerciseId) == ""
    requires AddFrequencyControl(CompatImports(code)).Success?
    ensures var folder := TemplateFolder(template, env.rosVersion);
      var entry := if env.hasExercise(folder) then ExercisePath else AcademyPath;
      RunInline(sess, data, env, []) == Done(sess.(applicationProcess := true),
        [WriteCode(AcademyPath, AddFrequencyControl(CompatImports(code)).value), CopyTemplate(folder),
         SpawnApplication(entry), SimCall(UnpausePhysics, env.rosVersion)], [])
  {
    var folder := TemplateFolder(template, env.rosVersion);
    var entry := if env.hasExercise(folder) then ExercisePath else AcademyPath;
    var instrumented := AddFrequencyControl(CompatImports(code)).value;
    assert [] + [WriteCode(AcademyPath, instrumented), CopyTemplate(folder), SpawnApplication(entry), SimCall(UnpausePhysics, env.rosVersion)]
      == [WriteCode(AcademyPath, instrumented), CopyTemplate(folder), SpawnApplication(entry), SimCall(UnpausePhysics, env.rosVersion)];
  }

  /** Clean inline code without a loop header cannot be instrumented: refused, nothing started. */
  lemma MissingLoopHeaderRefused(sess: Session, cmd: Command, env: Env, exerciseId: string, code: string)
    requires cmd.name == "run_application" && Target(sess.state, RunApplication).Some?
    requires !IsPackaged(TriggerData(cmd.data))
    requires Lookup(TriggerData(cmd.data), "template").Success?
    requires Lookup(TriggerData(cmd.data), "exercise_id") == Success(exerciseId)
    requires Lookup(TriggerData(cmd.data), "code") == Success(code)
    requires env.lint(CompatImports(code), exerciseId) == ""
    requires AddFrequencyControl(CompatImports(code)).Failure?
    ensures Dispatch(sess, cmd, env) == Reply(sess, [], [Error(cmd.id, LoopHeaderMissing)])
  {
    FiredByName(sess, cmd, env, RunApplication);
  }

  /**
   * The relay is started by one thing only: a `prepare_visualization` that
   * completes with the visualization type `gazebo_rae`.
   */
  lemma GuiServerStartedOnlyForRae(sess: Session, cmd: Command, env: Env)
    requires !sess.guiServer
    ensures var r := Dispatch(sess, cmd, env);
      r.session.guiServer <==>
        && cmd.name == "prepare_visualization"
        && sess.state == WorldReady
        && env.launch == Running
        && cmd.data == Text(RaeVisualization)
  {
    if ParseJump(cmd.name).Some? {
      ParseJumpName(ParseJump(cmd.name).value);
      assert TriggerName(PrepareVisualization) != cmd.name;
    } else {
      GuiServerStartedOnlyForRaeTableOnly(sess, cmd, env);
    }
  }

  lemma GuiServerStartedOnlyForRaeTableOnly(sess: Session, cmd: Command, env: Env)
    requires !sess.guiServer
    ensures var r := DispatchTableOnly(sess, cmd, env);
      r.session.guiServer <==>
        && cmd.name == "prepare_visualization"
        && sess.state == WorldReady
        && env.launch == Running
        && cmd.data == Text(RaeVisualization)
  {
    if cmd.name == "prepare_visualization" {
      TriggerByName(cmd, PrepareVisualization);
      TableIsLifecycle(sess.state, PrepareVisualization);
    } else if cmd.name != "gui" && ParseTrigger(cmd.name).Some? {
      var t := ParseTrigger(cmd.name).value;
      assert t != PrepareVisualization;
      if Target(sess.state, t).Some? && t == RunApplication {
        var data := TriggerData(cmd.data);
        var packaged := if IsPackaged(data) then RunPackaged(sess, data, env) else Failure([]);
        if packaged.Failure? {
          var step := RunInline(sess, data, env, packaged.error);
          assert !step.Restarted? && step.session.guiServer == sess.guiServer;
        }
      }
    }
  }

  /**
   * Once running, the relay is stopped and forgotten by a completed
   * `terminate_visualization`, which takes the session back to `world_ready`
   * but keeps the visualization handle.
   */
  lemma TerminateVisualizationStopsGuiServer(sess: Session, cmd: Command, env: Env)
    requires Consistent(sess) && sess.guiServer && sess.state == VisualizationReady
    requires cmd.name == "terminate_visualization" && env.terminateOk
    ensures var r := Dispatch(sess, cmd, env);
      && r.session == sess.(state := WorldReady, guiServer := false)
      && r.effects == [StopVisualization, StopGuiServer]
      && r.out == [StateChanged(WorldReady), Ack(cmd.id, WorldReady)]
  {
    FiredByName(sess, cmd, env, TerminateVisualization);
    assert Target(VisualizationReady, TerminateVisualization) == Some(WorldReady);
    var step := OnTerminateVisualization(sess, env);
    assert step == Done(sess.(guiServer := false), [StopVisualization, StopGuiServer], []);
    FireCompletes(sess, TerminateVisualization, TriggerData(cmd.data), env, WorldReady, step);
  }

  /** Only `terminate_visualization` and `disconnect` ever clear a running relay. */
  lemma GuiServerClearedOnlyByTeardown(sess: Session, cmd: Command, env: Env)
    requires sess.guiServer
    ensures var r := Dispatch(sess, cmd, env);
      !r.session.guiServer ==> cmd.name == "terminate_visualization" || cmd.name == "disconnect"
  {
    var r := Dispatch(sess, cmd, env);
    if cmd.name != "gui" && ParseTrigger(cmd.name).Some? {
      var t := ParseTrigger(cmd.name).value;
      if Target(sess.state, t).Some? && t == RunApplication {
        var data := TriggerData(cmd.data);
        var packaged := if IsPackaged(data) then RunPackaged(sess, data, env) else Failure([]);
        if packaged.Failure? {
          var step := RunInline(sess, data, env, packaged.error);
          assert !step.Restarted? && step.session.guiServer == sess.guiServer;
        }
      }
    }
  }

  /**
   * `launch_world` from `connected` with a valid configuration and no
   * uploaded archive: the world launcher is stored before it runs, so a run
   * failure leaves the handle populated while the state stays `connected`.
   */
  lemma LaunchWorldStoresHandleFirst(sess: Session, cmd: Command, env: Env)
    requires sess.state == Connected && cmd.name == "launch_world"
    requires env.validConfig(TriggerData(cmd.data))
    requires HasKey(TriggerData(cmd.data), "zip") == Success(false)
    requires env.launch != Rejected
    ensures var r := Dispatch(sess, cmd, env);
      && r.session.worldLauncher
      && r.effects == [StartWorld]
      && (env.launch == Running ==> r.session.state == WorldReady && r.out == [StateChanged(WorldReady), Ack(cmd.id, WorldReady)])
      && (env.launch == RunFailed ==> r.session.state == Connected && r.out == [Error(cmd.id, LaunchFailed)])
  {
    FiredByName(sess, cmd, env, LaunchWorld);
    var data := TriggerData(cmd.data);
    var step := StartWorldLauncher(sess, [], env);
    assert OnLaunchWorld(sess, data, env) == step;
    assert Target(Connected, LaunchWorld) == Some(WorldReady);
    if env.launch == Running {
      FireCompletes(sess, LaunchWorld, data, env, WorldReady, step);
    } else {
      FireRaises(sess, LaunchWorld, data, env, step);
    }
  }

  /**
   * A world upload: the archive text after `base64,` is unpacked under the
   * requested name before the launcher starts.  An undecodable payload is a
   * value error that the action swallows, so the world launches anyway; an
   * archive that cannot be extracted refuses the command before any
   * launcher exists.
   */
  lemma LaunchWorldWithUpload(sess: Session, cmd: Command, env: Env, zip: string, name: string)
    requires sess.state == Connected && cmd.name == "launch_world"
    requires env.validConfig(TriggerData(cmd.data)) && env.launch == Running
    requires cmd.data.Fields? && "zip" in cmd.data.fields && "name" in cmd.data.fields
    requires cmd.data.fields["zip"] == zip && cmd.data.fields["name"] == name
    requires StartsWith(zip, DataScheme)
    ensures var r := Dispatch(sess, cmd, env);
      && (env.archive != CorruptArchive ==>
            && r.session == sess.(state := WorldReady, worldLauncher := true)
            && r.effects == [UnpackWorld(name, DataUrlPayload(zip).value), StartWorld])
      && (env.archive == CorruptArchive ==>
            r == Reply(sess, [UnpackWorld(name, DataUrlPayload(zip).value)], [Error(cmd.id, ArchiveFailed)]))
  {
    FiredByName(sess, cmd, env, LaunchWorld);
    assert TriggerData(cmd.data) == cmd.data;
  }

  /**
   * A packaged application whose archive unpacks is spawned from its own
   * entry point with no lint and no instrumentation, and the simulation is
   * unpaused.
   */
  lemma PackagedRunSpawnsEntry(sess: Session, cmd: Command, env: Env, code: string)
    requires cmd.name == "run_application" && Target(sess.state, RunApplication).Some?
    requires IsPackaged(TriggerData(cmd.data))
    requires Lookup(TriggerData(cmd.data), "code") == Success(code) && StartsWith(code, DataScheme)
    requires env.archive == Unpacked
    ensures Dispatch(sess, cmd, env) == Reply(
      sess.(state := ApplicationRunning, applicationProcess := true),
      [UnpackApplication(DataUrlPayload(code).value), SpawnApplication(PackagedEntry), SimCall(UnpausePhysics, env.rosVersion)],
      [StateChanged(ApplicationRunning), Ack(cmd.id, ApplicationRunning)])
  {
    FiredByName(sess, cmd, env, RunApplication);
    TableIsLifecycle(sess.state, RunApplication);
    var data := TriggerData(cmd.data);
    var step := Done(sess.(applicationProcess := true),
      [UnpackApplication(DataUrlPayload(code).value), SpawnApplication(PackagedEntry), SimCall(UnpausePhysics, env.rosVersion)], []);
    assert RunPackaged(sess, data, env) == Success(step);
    assert OnRunApplication(sess, data, env) == step;
    FireCompletes(sess, RunApplication, data, env, ApplicationRunning, step);
  }

  /**
   * A packaged application whose archive does not unpack is not reported as
   * such: the failure is swallowed and the inline path runs on the same
   * payload, which then fails for want of a `template` field.
   */
  lemma PackagedFailureFallsThrough(sess: Session, cmd: Command, env: Env, code: string)
    requires cmd.name == "run_application" && Target(sess.state, RunApplication).Some?
    requires IsPackaged(TriggerData(cmd.data))
    requires Lookup(TriggerData(cmd.data), "code") == Success(code) && StartsWith(code, DataScheme)
    requires env.archive != Unpacked
    requires Lookup(TriggerData(cmd.data), "template").Failure?
    ensures Dispatch(sess, cmd, env) ==
      Reply(sess, [UnpackApplication(DataUrlPayload(code).value)], [Error(cmd.id, MissingField("template"))])
  {
    FiredByName(sess, cmd, env, RunApplication);
  }

  /** `terminate_universe` returns to `connected` but keeps the world handle populated. */
  lemma TerminateUniverseKeepsHandle(sess: Session, cmd: Command, env: Env)
    requires Consistent(sess) && sess.state == WorldReady
    requires cmd.name == "terminate_universe" && env.terminateOk
    ensures var r := Dispatch(sess, cmd, env);
      && r.session == sess.(state := Connected)
      && r.session.worldLauncher
      && r.effects == [StopWorld]
  {
    FiredByName(sess, cmd, env, TerminateUniverse);
  }

  /**
   * `terminate_application` never raises: from any admitted state it
   * completes in `visualization_ready`; the handle is cleared (and the
   * simulation paused and reset) only when the stop succeeded.
   */
  lemma TerminateApplicationAlwaysCompletes(sess: Session, cmd: Command, env: Env)
    requires cmd.name == "terminate_application"
    requires sess.state in {VisualizationReady, ApplicationRunning, Paused}
    ensures var r := Dispatch(sess, cmd, env);
      && r.session.state == VisualizationReady
      && r.out[|r.out| - 1] == Ack(cmd.id, VisualizationReady)
      && r.session.applicationProcess == (sess.applicationProcess && !env.terminateOk)
      && (sess.applicationProcess && env.terminateOk ==>
            r.effects == [StopApplication, SimCall(PausePhysics, env.rosVersion), SimCall(ResetWorld, env.rosVersion)])
  {
    FiredByName(sess, cmd, env, TerminateApplication);
  }

  /**
   * `connect` from a fresh session announces the backend, then reports the
   * new state and acknowledges it.
   */
  lemma ConnectAnnounces(cmd: Command, env: Env)
    requires cmd.name == "connect"
    ensures Dispatch(Initial, cmd, env) ==
      Reply(Initial.(state := Connected), [], [Introspection, StateChanged(Connected), Ack(cmd.id, Connected)])
  {
    FiredByName(Initial, cmd, env, Connect);
  }
}
