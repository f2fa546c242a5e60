/**
 * The state machine object: the producer operations callers use, one
 * iteration of the worker loop, and the stop / destroy lifecycle.
 *
 * Callers and the single worker take turns: WorkerStep is the worker taking
 * one event off the queue, handling it and re-checking its loop condition.
 */
module Machine {
  import opened Types
  import opened Handlers

  class StateMachine {
    var state: State
    var config: Config
    var queue: seq<Event>
    /** The worker thread has not yet left its loop. */
    var workerAlive: bool
    /** The worker thread has been joined (it is no longer joinable). */
    var threadJoined: bool
    /** The work the handlers have performed, in order. */
    var log: seq<Effect>

    /**
     * A live worker sees a state other than Disabled and has not been
     * joined; only a start call ever attaches a promise, and only to Enable.
     */
    ghost predicate Valid()
      reads this
    {
      (workerAlive ==> state != Disabled && !threadJoined) &&
      (forall e :: e in queue ==> e.finished == Null || e.EnableEvent?)
    }

    /** The part of the object the worker reads and writes. */
    function Worker(): Core
      reads this
    {
      Core(state, config, log)
    }

    /** A new machine is in Startup with an empty queue and a worker waiting on it. */
    constructor (initial: Config)
      ensures Valid()
      ensures state == Startup && config == initial && queue == []
      ensures workerAlive && !threadJoined && log == []
    {
      state := Startup;
      config := initial;
      queue := [];
      workerAlive := true;
      threadJoined := false;
      log := [];
    }

    /** The current state; nothing changes. */
    method GetState() returns (s: State)
      ensures s == state
    {
      s := state;
    }

    /** Appends one event at the tail; the events already queued stay as they are. */
    method QueueEvent(e: Event)
      modifies this`queue
      ensures queue == old(queue) + [e]
    {
      queue := queue + [e];
    }

    /**
     * Asynchronous start: only in Startup or Disabled, resets the state to
     * Startup and queues Enable with the configuration and no promise.
     */
    method QueueStartEvent(newConfig: Config)
      requires Valid()
      modifies this`state, this`queue
      ensures Valid()
      ensures old(state) in {Startup, Disabled} ==>
        state == Startup && queue == old(queue) + [EnableEvent(newConfig, Null)]
      ensures old(state) !in {Startup, Disabled} ==>
        state == old(state) && queue == old(queue)
    {
      if !(state == Startup || state == Disabled) {
        return;
      }
      state := Startup;
      QueueEvent(EnableEvent(newConfig, Null));
    }

    /**
     * The queueing half of the blocking start: as QueueStartEvent, but the
     * Enable carries the address of the caller's promise.
     */
    method Start(newConfig: Config, promise: nat)
      requires Valid()
      modifies this`state, this`queue
      ensures Valid()
      ensures old(state) in {Startup, Disabled} ==>
        state == Startup && queue == old(queue) + [EnableEvent(newConfig, PromiseAt(promise))]
      ensures old(state) !in {Startup, Disabled} ==>
        state == old(state) && queue == old(queue)
    {
      if !(state == Startup || state == Disabled) {
        return;
      }
      state := Startup;
      QueueEvent(EnableEvent(newConfig, PromiseAt(promise)));
    }

    /** Queues Idle, only in Startup or Running. */
    method QueueIdleEvent()
      requires Valid()
      modifies this`queue
      ensures Valid()
      ensures old(state) in {Startup, Running} ==> queue == old(queue) + [IdleEvent(Null)]
      ensures old(state) !in {Startup, Running} ==> queue == old(queue)
    {
      if !(state == Startup || state == Running) {
        return;
      }
      QueueEvent(IdleEvent(Null));
    }

    /** Queues Run with the speed, only when Idling. */
    method QueueRunEvent(speed: Speed)
      requires Valid()
      modifies this`queue
      ensures Valid()
      ensures old(state) == Idling ==> queue == old(queue) + [RunEvent(speed, Null)]
      ensures old(state) != Idling ==> queue == old(queue)
    {
      if state != Idling {
        return;
      }
      QueueEvent(RunEvent(speed, Null));
    }

    /** Queues Disable in every state but Disabled. */
    method QueueDisableEvent()
      requires Valid()
      modifies this`queue
      ensures Valid()
      ensures old(state) != Disabled ==> queue == old(queue) + [DisableEvent(Null)]
      ensures old(state) == Disabled ==> queue == old(queue)
    {
      if state == Disabled {
        return;
      }
      QueueEvent(DisableEvent(Null));
    }

    /**
     * One iteration of the worker loop: take the head of the queue, handle
     * it, and leave the loop once the state is Disabled.
     */
    method WorkerStep() returns (handled: Event)
      requires Valid() && workerAlive && queue != []
      modifies this`state, this`config, this`queue, this`workerAlive, this`log
      ensures Valid()
      ensures handled == old(queue[0]) && queue == old(queue[1..])
      // only an Enable queued by start carries a promise to fulfil
      ensures handled.finished != Null ==> handled.EnableEvent?
      ensures Worker() == Apply(old(Worker()), handled)
      ensures workerAlive <==> state != Disabled
    {
      handled := queue[0];
      queue := queue[1..];
      var s := Transition(state, config, handled);
      state, config, log := s.state, s.config, log + s.effects;
      workerAlive := state != Disabled;
    }

    /**
     * Joining the worker thread: blocks until the worker leaves its loop,
     * which a live worker does once it has handled a Disable. A worker that
     * has already left returns at once and handles nothing.
     */
    method JoinWorker()
      requires Valid() && !threadJoined
      requires workerAlive ==> queue != [] && queue[|queue| - 1].DisableEvent?
      modifies this`state, this`config, this`queue, this`workerAlive, this`log, this`threadJoined
      ensures Valid() && threadJoined && !workerAlive
      ensures old(workerAlive) ==> Drained(Worker(), queue) == Consume(old(Worker()), old(queue))
      ensures !old(workerAlive) ==> Worker() == old(Worker()) && queue == old(queue)
    {
      ghost var wasAlive := workerAlive;
      while workerAlive && queue != []
        invariant Valid() && !threadJoined
        invariant workerAlive ==> queue != [] && queue[|queue| - 1].DisableEvent?
        invariant wasAlive ==> (workerAlive <==> state != Disabled)
        invariant wasAlive ==> Consume(Worker(), queue) == Consume(old(Worker()), old(queue))
        invariant !wasAlive ==> !workerAlive && Worker() == old(Worker()) && queue == old(queue)
        decreases |queue|
      {
        var _ := WorkerStep();
      }
      threadJoined := true;
    }

    /**
     * stop: unless already Disabled, queue Disable, join the worker (which
     * handles the queue until it reaches Disabled), then discard whatever
     * is still queued.
     */
    method Stop()
      requires Valid()
      modifies this
      ensures Valid()
      ensures old(state) == Disabled ==>
        Worker() == old(Worker()) && queue == old(queue) &&
        workerAlive == old(workerAlive) && threadJoined == old(threadJoined)
      ensures old(state) != Disabled ==> queue == [] && !workerAlive && threadJoined
      // a live worker handles every queued event, then the Disable, in order
      ensures old(state) != Disabled && old(workerAlive) ==>
        Worker() == Replay(old(Worker()), old(queue) + [DisableEvent(Null)]) &&
        state == Disabled
      // a worker that has already left its loop handles nothing
      ensures old(state) != Disabled && !old(workerAlive) ==> Worker() == old(Worker())
    {
      if state == Disabled {
        return;
      }
      QueueEvent(DisableEvent(Null));
      ghost var start, pending := Worker(), queue;
      if !threadJoined {
        JoinWorker();
      }
      if old(workerAlive) {
        ConsumeIsReplay(start, pending);
        DisableStopsWorker(start, old(queue), Null);
      }
      queue := [];
    }

    /**
     * The destructor as written: stop unless already Disabled. The result
     * tells whether the worker thread is still joinable when the object is
     * torn down, which makes the thread's own destructor terminate the
     * process.
     */
    method Destroy() returns (aborted: bool)
      requires Valid()
      modifies this
      ensures Valid()
      ensures old(state) != Disabled && old(workerAlive) ==>
        Worker() == Replay(old(Worker()), old(queue) + [DisableEvent(Null)])
      ensures old(state) == Disabled ==>
        Worker() == old(Worker()) && queue == old(queue) &&
        workerAlive == old(workerAlive) && threadJoined == old(threadJoined)
      ensures old(state) != Disabled ==> queue == [] && !workerAlive && threadJoined
      ensures old(state) != Disabled && !old(workerAlive) ==> Worker() == old(Worker())
      ensures aborted == !threadJoined
      ensures aborted <==> old(state) == Disabled && !old(threadJoined)
    {
      if state != Disabled {
        Stop();
      }
      aborted := !threadJoined;
    }

    /**
     * The destructor with the missing join: when the machine is already
     * Disabled the worker has left its loop, so joining it cannot block.
     */
    method DestroyJoining() returns (aborted: bool)
      requires Valid()
      modifies this
      ensures Valid()
      ensures old(state) != Disabled && old(workerAlive) ==>
        Worker() == Replay(old(Worker()), old(queue) + [DisableEvent(Null)])
      ensures old(state) == Disabled ==> Worker() == old(Worker()) && queue == old(queue)
      ensures old(state) != Disabled && !old(workerAlive) ==> Worker() == old(Worker())
      ensures old(state) != Disabled ==> queue == [] && !workerAlive
      ensures threadJoined && aborted == !threadJoined
      ensures !aborted
    {
      if state != Disabled {
        Stop();
      } else if !threadJoined {
        threadJoined := true;
      }
      aborted := !threadJoined;
    }
  }

  /**
   * A machine whose worker has handled a queued Disable is destroyed with
   * its thread still joinable.
   */
  method DisableThenDestroyAborts() returns (aborted: bool, joinable: bool)
    ensures aborted && joinable
  {
    var sm := new StateMachine(DefaultConfig);
    sm.QueueDisableEvent();
    var e := sm.WorkerStep();
    aborted := sm.Destroy();
    joinable := !sm.threadJoined;
  }

  /** The corrected destructor joins in the same situation. */
  method DisableThenDestroyJoins() returns (aborted: bool, joinable: bool)
    ensures !aborted && !joinable
  {
    var sm := new StateMachine(DefaultConfig);
    sm.QueueDisableEvent();
    var e := sm.WorkerStep();
    aborted := sm.DestroyJoining();
    joinable := !sm.threadJoined;
  }

  /**
   * Start asynchronously, run at speed 10, go back to idle and stop, with
   * the worker handling each event before the next call; the states seen
   * after each handled event.
   */
  method StartRunIdleStop() returns (seen: seq<State>)
    ensures seen == [Idling, Running, Idling, Disabled]
  {
    var sm := new StateMachine(DefaultConfig);
    sm.QueueStartEvent(DefaultConfig);
    var e := sm.WorkerStep();
    var s1 := sm.GetState();
    sm.QueueRunEvent(10);
    e := sm.WorkerStep();
    var s2 := sm.GetState();
    sm.QueueIdleEvent();
    e := sm.WorkerStep();
    var s3 := sm.GetState();
    sm.Stop();
    var s4 := sm.GetState();
    seen := [s1, s2, s3, s4];
  }

  /** Asking a machine still in Startup to run queues nothing and changes nothing. */
  method RunDuringStartupIsDropped() returns (s: State, pending: nat)
    ensures s == Startup && pending == 0
  {
    var sm := new StateMachine(DefaultConfig);
    sm.QueueRunEvent(10);
    s := sm.GetState();
    pending := |sm.queue|;
  }
}
