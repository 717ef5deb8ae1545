/**
 * The session lifecycle: six states and the static table of eleven triggers.
 * A trigger fires only from a state its row lists (or from any state when the
 * row says `*`), and lands in the row's destination (or stays put when the
 * destination is `*`).
 */
module Lifecycle {
  import opened Base

  datatype State = Idle | Connected | WorldReady | VisualizationReady | ApplicationRunning | Paused

  datatype Trigger =
    | Connect | LaunchWorld | PrepareVisualization | RunApplication | Pause | Resume
    | TerminateApplication | TerminateVisualization | TerminateUniverse | Disconnect | StyleCheck

  /** The state names as the orchestrator reports them. */
  function StateName(s: State): string {
    match s
    case Idle => "idle"
    case Connected => "connected"
    case WorldReady => "world_ready"
    case VisualizationReady => "visualization_ready"
    case ApplicationRunning => "application_running"
    case Paused => "paused"
  }

  /** The command name that fires each trigger. */
  function TriggerName(t: Trigger): string {
    match t
    case Connect => "connect"
    case LaunchWorld => "launch_world"
    case PrepareVisualization => "prepare_visualization"
    case RunApplication => "run_application"
    case Pause => "pause"
    case Resume => "resume"
    case TerminateApplication => "terminate_application"
    case TerminateVisualization => "terminate_visualization"
    case TerminateUniverse => "terminate_universe"
    case Disconnect => "disconnect"
    case StyleCheck => "style_check"
  }

  const AllTriggers: seq<Trigger> := [
    Connect, LaunchWorld, PrepareVisualization, RunApplication, Pause, Resume,
    TerminateApplication, TerminateVisualization, TerminateUniverse, Disconnect, StyleCheck
  ]

  /** The position of each trigger in `AllTriggers` and in the table. */
  function Index(t: Trigger): (k: nat)
    ensures k < |AllTriggers| && AllTriggers[k] == t
  {
    match t
    case Connect => 0 case LaunchWorld => 1 case PrepareVisualization => 2
    case RunApplication => 3 case Pause => 4 case Resume => 5
    case TerminateApplication => 6 case TerminateVisualization => 7
    case TerminateUniverse => 8 case Disconnect => 9 case StyleCheck => 10
  }

  /** Looking a command name up among the triggers; unknown names find nothing. */
  function ParseTrigger(name: string): (r: Option<Trigger>)
    ensures r.Some? ==> TriggerName(r.value) == name
    ensures r.None? ==> forall t: Trigger :: TriggerName(t) != name
  {
    FindTrigger(name, AllTriggers)
  }

  function FindTrigger(name: string, ts: seq<Trigger>): (r: Option<Trigger>)
    ensures r.Some? ==> TriggerName(r.value) == name
    ensures r.None? ==> forall k :: 0 <= k < |ts| ==> TriggerName(ts[k]) != name
    ensures ts == AllTriggers && r.None? ==> forall t: Trigger :: TriggerName(t) != name
  {
    if ts == [] then None
    else if TriggerName(ts[0]) == name then Some(ts[0])
    else
      var r := FindTrigger(name, ts[1..]);
      assert r.None? ==> forall k :: 0 <= k < |ts| ==> TriggerName(ts[k]) != name by {
        if r.None? {
          forall k | 0 <= k < |ts|
            ensures TriggerName(ts[k]) != name
          {
            if k > 0 {
              assert ts[k] == ts[1..][k - 1];
            }
          }
        }
      }
      assert ts == AllTriggers && r.None? ==> forall t: Trigger :: TriggerName(t) != name by {
        if ts == AllTriggers && r.None? {
          forall t: Trigger
            ensures TriggerName(t) != name
          {
            assert ts[Index(t)] == t;
          }
        }
      }
      r
  }

  /**
   * The machine's events.  Besides the table's triggers, the FSM library
   * gives every state `s` an event `to_<s>` that fires from any state, lands
   * in `s` and runs no action, unless the machine is built with automatic
   * transitions switched off.
   */
  datatype Event = Fires(trigger: Trigger) | JumpTo(state: State)

  /** The name of the automatic event into `s`. */
  function JumpName(s: State): string {
    "to_" + StateName(s)
  }

  /** Looking a command name up among the automatic events. */
  function ParseJump(name: string): (r: Option<State>)
    ensures r.Some? ==> JumpName(r.value) == name
    ensures r.None? ==> forall s: State :: JumpName(s) != name
  {
    if |name| < 3 || name[0] != 't' || name[1] != 'o' || name[2] != '_' then
      assert forall s: State :: JumpName(s)[..3] == "to_";
      None
    else
      var rest := name[3..];
      assert forall s: State :: JumpName(s) == name <==> StateName(s) == rest;
      if rest == StateName(Idle) then Some(Idle)
      else if rest == StateName(Connected) then Some(Connected)
      else if rest == StateName(WorldReady) then Some(WorldReady)
      else if rest == StateName(VisualizationReady) then Some(VisualizationReady)
      else if rest == StateName(ApplicationRunning) then Some(ApplicationRunning)
      else if rest == StateName(Paused) then Some(Paused)
      else None
  }

  /**
   * Looking a command name up among the machine's events: the table's
   * triggers, and the automatic jumps when `autoTransitions` is on.  A name
   * that is neither is no event.
   */
  function ParseEvent(name: string, autoTransitions: bool): (r: Option<Event>)
    ensures r.Some? && r.value.Fires? <==> ParseTrigger(name).Some?
    ensures r.Some? && r.value.Fires? ==> TriggerName(r.value.trigger) == name
    ensures r.Some? && r.value.JumpTo? ==> autoTransitions && JumpName(r.value.state) == name
    ensures r.None? <==>
      (forall t: Trigger :: TriggerName(t) != name) && (autoTransitions ==> forall s: State :: JumpName(s) != name)
  {
    match ParseTrigger(name)
    case Some(t) => Some(Fires(t))
    case None =>
      if !autoTransitions then None
      else match ParseJump(name)
        case Some(s) => Some(JumpTo(s))
        case None => None
  }

  /** The automatic events' names are distinct and differ from every trigger name. */
  lemma ParseJumpName(s: State)
    ensures ParseJump(JumpName(s)) == Some(s)
    ensures forall t: Trigger :: TriggerName(t) != JumpName(s)
    ensures ParseEvent(JumpName(s), true) == Some(JumpTo(s))
    ensures ParseEvent(JumpName(s), false).None?
  {
    var r := ParseJump(JumpName(s));
    assert r.Some?;
    if r.value != s {
      JumpNamesDiffer(r.value, s);
    }
    forall t: Trigger
      ensures TriggerName(t) != JumpName(s)
    {
      TriggerNamesAvoidTo(t);
      assert JumpName(s)[0] == 't' && JumpName(s)[1] == 'o';
    }
  }

  /** Two states' jump names differ at the first letter of the state name. */
  lemma JumpNamesDiffer(a: State, b: State)
    requires a != b
    ensures JumpName(a) != JumpName(b)
  {
    assert JumpName(a)[3] == StateName(a)[0];
    assert JumpName(b)[3] == StateName(b)[0];
  }

  /** No trigger name begins with `to`. */
  lemma TriggerNamesAvoidTo(t: Trigger)
    ensures |TriggerName(t)| >= 2 && (TriggerName(t)[0] != 't' || TriggerName(t)[1] != 'o')
  {
  }

  /** Trigger names are distinct: every trigger is found again from its own name. */
  lemma ParseTriggerName(t: Trigger)
    ensures ParseTrigger(TriggerName(t)) == Some(t)
  {
    var r := ParseTrigger(TriggerName(t));
    assert r.Some?;
    assert TriggerName(r.value) == TriggerName(t);
  }

  /** Where a row may fire from: `*`, or a listed set of states. */
  datatype Source = AnyState | From(states: set<State>)

  /** Where a row lands: `*` (stay), or a fixed state. */
  datatype Dest = SameState | To(state: State)

  datatype Transition = Transition(trigger: Trigger, source: Source, dest: Dest)

  /** The transition table, row for row. */
  const Transitions: seq<Transition> := [
    Transition(Connect, From({Idle}), To(Connected)),
    Transition(LaunchWorld, From({Connected}), To(WorldReady)),
    Transition(PrepareVisualization, From({WorldReady}), To(VisualizationReady)),
    Transition(RunApplication, From({VisualizationReady, Paused}), To(ApplicationRunning)),
    Transition(Pause, From({ApplicationRunning}), To(Paused)),
    Transition(Resume, From({Paused}), To(ApplicationRunning)),
    Transition(TerminateApplication, From({VisualizationReady, ApplicationRunning, Paused}), To(VisualizationReady)),
    Transition(TerminateVisualization, From({VisualizationReady}), To(WorldReady)),
    Transition(TerminateUniverse, From({WorldReady}), To(Connected)),
    Transition(Disconnect, AnyState, To(Idle)),
    Transition(StyleCheck, AnyState, SameState)
  ]

  /** Every trigger has exactly one row. */
  lemma TableHasOneRowPerTrigger()
    ensures |Transitions| == |AllTriggers|
    ensures forall k :: 0 <= k < |Transitions| ==> Transitions[k].trigger == AllTriggers[k]
    ensures forall i, j :: 0 <= i < j < |AllTriggers| ==> AllTriggers[i] != AllTriggers[j]
  {
  }

  /** The row of `t`. */
  function RowOf(t: Trigger): (r: Transition)
    ensures r in Transitions && r.trigger == t
  {
    TableHasOneRowPerTrigger();
    Transitions[Index(t)]
  }

  /** The state `t` leads to from `s`, or nothing when the row does not list `s`. */
  function Target(s: State, t: Trigger): Option<State> {
    var row := RowOf(t);
    var admitted := match row.source
      case AnyState => true
      case From(states) => s in states;
    if !admitted then None
    else match row.dest
      case SameState => Some(s)
      case To(d) => Some(d)
  }

  /**
   * The lifecycle written out trigger by trigger, independently of the table:
   * the sources each trigger admits and the state it lands in.
   */
  function ExpectedTarget(s: State, t: Trigger): Option<State> {
    match t
    case Connect => if s == Idle then Some(Connected) else None
    case LaunchWorld => if s == Connected then Some(WorldReady) else None
    case PrepareVisualization => if s == WorldReady then Some(VisualizationReady) else None
    case RunApplication => if s == VisualizationReady || s == Paused then Some(ApplicationRunning) else None
    case Pause => if s == ApplicationRunning then Some(Paused) else None
    case Resume => if s == Paused then Some(ApplicationRunning) else None
    case TerminateApplication =>
      if s == VisualizationReady || s == ApplicationRunning || s == Paused then Some(VisualizationReady) else None
    case TerminateVisualization => if s == VisualizationReady then Some(WorldReady) else None
    case TerminateUniverse => if s == WorldReady then Some(Connected) else None
    case Disconnect => Some(Idle)
    case StyleCheck => Some(s)
  }

  /** The table and the written-out lifecycle agree on every state and trigger. */
  lemma TableIsLifecycle(s: State, t: Trigger)
    ensures Target(s, t) == ExpectedTarget(s, t)
  {
  }

  /** `disconnect` is admitted from all six states and always lands in `idle`. */
  lemma DisconnectFromEveryState(s: State)
    ensures Target(s, Disconnect) == Some(Idle)
  {
  }

  /** `style_check` is admitted everywhere and never moves the machine. */
  lemma StyleCheckStays(s: State)
    ensures Target(s, StyleCheck) == Some(s)
  {
  }

  /**
   * How deep into the lifecycle a state is: connected, a world, a
   * visualization, an application (running or paused).
   */
  function Depth(s: State): nat {
    match s
    case Idle => 0
    case Connected => 1
    case WorldReady => 2
    case VisualizationReady => 3
    case ApplicationRunning => 4
    case Paused => 4
  }

  /**
   * The lifecycle is a ladder: apart from `disconnect`, no trigger skips a
   * level, and only `disconnect` (or a `style_check` that is already there)
   * reaches `idle`.
   */
  lemma LifecycleIsALadder(s: State, t: Trigger)
    requires Target(s, t).Some?
    ensures t != Disconnect ==> -1 <= Depth(Target(s, t).value) - Depth(s) <= 1
    ensures Target(s, t).value == Idle ==> t == Disconnect || (t == StyleCheck && s == Idle)
  {
    TableIsLifecycle(s, t);
  }
}
