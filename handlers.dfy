/**
 * What the worker does with one event (the dispatch on the current state
 * and the three per-state handlers), and what its loop does with a whole
 * queue.
 */
module Handlers {
  import opened Types

  /**
   * The observable work a handler branch performs (a console message in
   * the program). A Run speed is reported here and kept nowhere else.
   */
  datatype Effect =
    | BeginIdling                  // startup adopted the configuration
    | StartupShutdown              // disabled while starting up
    | BeginRunning(speed: Speed)   // idle machine starts running
    | IdleShutdown                 // disabled while idle
    | ContinueRunning(speed: Speed)// running machine told to run again
    | RunningShutdown              // disabled while running
    | StopRunning                  // running machine told to idle
    | Reenable                     // the enable helper of the Disabled case

  /** The result of handling one event: new state, new configuration, work done. */
  datatype Step = Step(state: State, config: Config, effects: seq<Effect>)

  /**
   * The state diagram: each (from, event kind, to) that a handler acts on.
   * Every pair of state and kind not listed here is ignored.
   */
  const Edges: set<(State, EventType, State)> := {
    (Startup, Enable, Idling), (Startup, Disable, Disabled),
    (Idling, Run, Running), (Idling, Disable, Disabled),
    (Running, Run, Running), (Running, Idle, Idling), (Running, Disable, Disabled)
  }

  /** Handler for the Startup state: Enable adopts its configuration, Disable shuts down. */
  function InStartup(config: Config, e: Event): Step
  {
    match e
    case EnableEvent(c, _) => Step(Idling, c, [BeginIdling])
    case DisableEvent(_) => Step(Disabled, config, [StartupShutdown])
    case _ => Step(Startup, config, [])
  }

  /** Handler for the Idling state: Run starts running, Disable shuts down. */
  function WhileIdle(config: Config, e: Event): Step
  {
    match e
    case RunEvent(speed, _) => Step(Running, config, [BeginRunning(speed)])
    case DisableEvent(_) => Step(Disabled, config, [IdleShutdown])
    case _ => Step(Idling, config, [])
  }

  /** Handler for the Running state: Run keeps running, Disable shuts down, Idle goes idle. */
  function WhileActive(config: Config, e: Event): Step
  {
    match e
    case RunEvent(speed, _) => Step(Running, config, [ContinueRunning(speed)])
    case DisableEvent(_) => Step(Disabled, config, [RunningShutdown])
    case IdleEvent(_) => Step(Idling, config, [StopRunning])
    case _ => Step(Running, config, [])
  }

  /**
   * The switch on the current state, including its case for Disabled, in
   * which an Enable would re-enable the machine into Startup.
   */
  function Dispatch(state: State, config: Config, e: Event): Step
  {
    match state
    case Running => WhileActive(config, e)
    case Idling => WhileIdle(config, e)
    case Startup => InStartup(config, e)
    case Disabled =>
      if e.EnableEvent? then Step(Startup, config, [Reenable]) else Step(Disabled, config, [])
  }

  /**
   * handleEvent: a Disabled machine ignores every event before the switch
   * is reached; otherwise the handler of the current state runs.
   */
  function Transition(state: State, config: Config, e: Event): (r: Step)
    // a handler branch does work exactly on the edges of the diagram, and
    // moves to that edge's target; every other pair changes nothing
    ensures (state, e.Type(), r.state) in Edges <==> r.effects != []
    ensures r.effects == [] ==> r.state == state && r.config == config
    ensures |r.effects| <= 1
    // Disabled is absorbing, Enable included
    ensures state == Disabled ==> r == Step(Disabled, config, [])
    // Disable is handled in every other state
    ensures state != Disabled && e.DisableEvent? ==> r.state == Disabled
    // only an Enable handled at startup writes the configuration
    ensures r.config != config ==> state == Startup && e.EnableEvent? && r.config == e.config
    // each edge of the diagram is taken, with the work its branch performs
    ensures state == Startup && e.EnableEvent? ==> r == Step(Idling, e.config, [BeginIdling])
    ensures state == Startup && e.DisableEvent? ==> r == Step(Disabled, config, [StartupShutdown])
    ensures state == Idling && e.RunEvent? ==> r == Step(Running, config, [BeginRunning(e.speed)])
    ensures state == Idling && e.DisableEvent? ==> r == Step(Disabled, config, [IdleShutdown])
    ensures state == Running && e.RunEvent? ==> r == Step(Running, config, [ContinueRunning(e.speed)])
    ensures state == Running && e.IdleEvent? ==> r == Step(Idling, config, [StopRunning])
    ensures state == Running && e.DisableEvent? ==> r == Step(Disabled, config, [RunningShutdown])
  {
    if state == Disabled then Step(state, config, []) else Dispatch(state, config, e)
  }

  /** The re-entry branch of the switch exists, but handleEvent never reaches it. */
  lemma ReenableIsUnreachable(config: Config, e: Event)
    requires e.EnableEvent?
    ensures Dispatch(Disabled, config, e).state == Startup
    ensures Transition(Disabled, config, e).state == Disabled
  {
  }

  /** What the worker owns: the state it dispatches on, the configuration, the work done so far. */
  datatype Core = Core(state: State, config: Config, log: seq<Effect>)

  /** One handleEvent call on the worker's view. */
  function Apply(m: Core, e: Event): (r: Core)
    ensures m.state == Disabled ==> r == m
    ensures |m.log| <= |r.log| <= |m.log| + 1 && r.log[..|m.log|] == m.log
  {
    var s := Transition(m.state, m.config, e);
    Core(s.state, s.config, m.log + s.effects)
  }

  /** handleEvent applied to every event of q, head first. */
  function Replay(m: Core, q: seq<Event>): Core
    decreases |q|
  {
    if q == [] then m else Replay(Apply(m, q[0]), q[1..])
  }

  /** What the worker loop leaves: its view, and the events it did not take. */
  datatype Drained = Drained(core: Core, rest: seq<Event>)

  /**
   * The worker loop run on a fixed queue: while the state is not Disabled
   * and an event is waiting, take the head and handle it.
   */
  function Consume(m: Core, q: seq<Event>): (r: Drained)
    // events are taken from the head only: what is left is a suffix of q
    ensures |r.rest| <= |q| && r.rest == q[|q| - |r.rest|..]
    // the loop only leaves events behind once it has exited
    ensures r.rest != [] ==> r.core.state == Disabled
    // an exited worker handles nothing
    ensures m.state == Disabled ==> r == Drained(m, q)
    decreases |q|
  {
    if m.state == Disabled || q == [] then Drained(m, q) else Consume(Apply(m, q[0]), q[1..])
  }

  /** Once Disabled, handling further events changes nothing. */
  lemma {:induction false} ReplayFromDisabled(m: Core, q: seq<Event>)
    requires m.state == Disabled
    ensures Replay(m, q) == m
    decreases |q|
  {
    if q != [] {
      ReplayFromDisabled(Apply(m, q[0]), q[1..]);
    }
  }

  /**
   * Leaving the loop at Disabled loses nothing observable: the worker ends
   * exactly as if it had handled every queued event in order, and what it
   * handled is exactly the first events of the queue.
   */
  lemma {:induction false} ConsumeIsReplay(m: Core, q: seq<Event>)
    ensures Consume(m, q).core == Replay(m, q)
    ensures Consume(m, q).core == Replay(m, q[..|q| - |Consume(m, q).rest|])
    decreases |q|
  {
    var r := Consume(m, q);
    if m.state == Disabled {
      ReplayFromDisabled(m, q);
      assert q[..|q| - |r.rest|] == [];
    } else if q != [] {
      ConsumeIsReplay(Apply(m, q[0]), q[1..]);
      var k := |q| - |r.rest|;
      assert q[..k][1..] == q[1..][..k - 1];
    }
  }

  /**
   * Stopping a live worker: whatever is queued, appending a Disable makes
   * the loop end in Disabled. (That the events before it are handled in
   * order follows from Consume's contract and ConsumeIsReplay.)
   */
  lemma {:induction false} DisableStopsWorker(m: Core, q: seq<Event>, p: Promise)
    requires m.state != Disabled
    ensures Consume(m, q + [DisableEvent(p)]).core.state == Disabled
    ensures Replay(m, q + [DisableEvent(p)]).state == Disabled
    decreases |q|
  {
    var q' := q + [DisableEvent(p)];
    if q == [] {
      assert q'[1..] == [];
    } else {
      var m' := Apply(m, q[0]);
      assert q'[1..] == q[1..] + [DisableEvent(p)];
      if m'.state != Disabled {
        DisableStopsWorker(m', q[1..], p);
      } else {
        ReplayFromDisabled(m', q'[1..]);
      }
    }
  }

  /**
   * The configuration after any run of events is the starting one or the
   * payload of one of the Enable events in it.
   */
  lemma {:induction false} ConfigComesFromEnable(m: Core, q: seq<Event>)
    ensures var c := Replay(m, q).config;
      c == m.config || exists i :: 0 <= i < |q| && q[i].EnableEvent? && q[i].config == c
    decreases |q|
  {
    if q != [] {
      var m' := Apply(m, q[0]);
      ConfigComesFromEnable(m', q[1..]);
      var c := Replay(m, q).config;
      if c != m'.config {
        var i :| 0 <= i < |q[1..]| && q[1..][i].EnableEvent? && q[1..][i].config == c;
        assert q[i + 1] == q[1..][i];
      } else if c != m.config {
        assert q[0].EnableEvent? && q[0].config == c;
      }
    }
  }
}
