# Asynchronous state machine, modelled in Dafny

This project models the core of a small C++ state machine. The machine has four
phases (`Startup`, `Idling`, `Running`, `Disabled`). Callers queue events
(`Enable`, `Run`, `Idle`, `Disable`) after checking the current state. A single
background worker takes the events off the queue in arrival order and applies
the handler for the current state. `stop` queues a `Disable`, joins the worker
and discards what is left in the queue.

The model is sequential: callers and the single worker take turns.
`StateMachine.WorkerStep` is one iteration of the worker loop: pop the head,
handle it, and leave the loop once the state is `Disabled`. Because there is
only one consumer, the order of events in the queue decides everything the
worker does.

- `types.dfy` (module `Types`): the value types of `state_machine.h`. These are
  `State`, `EventType`, `Config` (with `DefaultConfig`, both settings false),
  `Speed` (a newtype bounded to `0 .. 2^32-1`, the range of `uint32_t`) and
  `Event`. `Event` is a tagged datatype instead of the union. Every event carries
  a `finished` completion pointer (`Null` or the address of a caller's promise).
- `handlers.dfy` (module `Handlers`): `handleEvent` and its three per-state
  handlers as pure functions. `Transition` is the early return for `Disabled`
  followed by `Dispatch`, the switch.
  - The state diagram is written out separately as `Edges`.
  - Every handler branch also records which branch fired, as an `Effect`. The
    program prints a console line at that point. A `Run` speed appears only in
    the `Effect`; it is never stored.
  - `Consume` is the worker loop run over a fixed queue. `Replay` applies the
    handler to every event of a queue in order.
- `machine.dfy` (module `Machine`): the class `StateMachine`. Its fields are
  `state`, `config`, `queue: seq<Event>`, `workerAlive`, `threadJoined` and
  `log`.
  - The producer methods check the current state and then append exactly one
    event at the tail, or do nothing.
  - The class also has `WorkerStep`, `JoinWorker`, `Stop` and the destructor
    `Destroy`.
  - Client methods at the end run a few usage scenarios. Each scenario follows
    one chosen interleaving, in which the worker handles every queued event
    before the caller's next call.

Notes on how the code is followed:

- `handleEvent` returns before its switch when the state is `Disabled`
  (state_machine.cpp:143-146). The switch's `Disabled` case, where `Enable`
  would re-enable the machine, therefore never runs. The model keeps that case
  in `Dispatch`, but `Transition` makes `Disabled` absorbing for every event,
  `Enable` included. `ReenableIsUnreachable` states both facts.
- The worker exits its loop once it sees `Disabled` and is never restarted.
  `queueStartEvent` still resets a `Disabled` machine to `Startup` and queues
  an `Enable`, but no worker ever handles it. In the model, `WorkerStep`
  requires a live worker, and `Stop` on such a machine discards the queue
  without handling it.
- The header and the .cpp disagree. The header declares a default constructor,
  `bool` handler results and a `queue<EventType>`, and lacks `queueStartEvent`
  and `handleEventInStartup`. The .cpp has a constructor taking a `Config`. The
  model takes behaviour from the .cpp and type shapes from the header.
  `DefaultConfig` is the configuration the header's default constructor would
  give.

## Model

| member | source | states |
|---|---|---|
| `Types.ExactlyFour` | state_machine.h:15-51 | there are exactly four states and exactly four event kinds |
| `Handlers.Transition` | state_machine.cpp:140-234 | each of the seven edges is taken with its own work: Startup+Enable→Idling adopting the carried config, Startup+Disable→Disabled, Idling+Run(speed)→Running reporting the speed, Idling+Disable→Disabled, Running+Run(speed)→Running reporting the new speed, Running+Idle→Idling, Running+Disable→Disabled; a branch does work exactly when (state, event kind, new state) is an edge of the diagram; every other pair leaves state and config unchanged and does no work; Disabled ignores every event; Disable leads to Disabled from every other state; only Enable handled in Startup writes the config, and it writes the carried one |
| `Handlers.ReenableIsUnreachable` | state_machine.cpp:143-164 | the switch's Disabled case would move an Enable to Startup, but handleEvent keeps a Disabled machine Disabled |
| `Handlers.Apply` | state_machine.cpp:140-166 | handling one event leaves a Disabled worker untouched, and adds at most one entry to the work log while keeping the earlier entries |
| `Handlers.Consume` | state_machine.cpp:114-129 | the worker loop takes events only from the head (what it leaves is a suffix of the queue), leaves events behind only after reaching Disabled, and handles nothing once Disabled |
| `Handlers.ReplayFromDisabled` | state_machine.cpp:143-146 | once Disabled, any further sequence of events changes nothing |
| `Handlers.ConsumeIsReplay` | state_machine.cpp:114-138 | the worker loop ends exactly as if every queued event had been handled in enqueue order, and what it handled is exactly the first events of the queue |
| `Handlers.DisableStopsWorker` | state_machine.cpp:180-234 | from any state but Disabled, appending a Disable to any queue makes the worker loop end in Disabled |
| `Handlers.ConfigComesFromEnable` | state_machine.cpp:220-227 | after any sequence of events the config is the initial one or the payload of one of the Enable events in it |
| `Machine.StateMachine.constructor` | state_machine.cpp:7-12 | a new machine is Startup, holds the given config, has an empty queue and a live, unjoined worker |
| `Machine.StateMachine.GetState` | state_machine.h:38-41 | returns the current state and changes nothing |
| `Machine.StateMachine.QueueEvent` | state_machine.cpp:131-138 | appends the event at the tail; the entries already queued are untouched |
| `Machine.StateMachine.QueueStartEvent` | state_machine.cpp:62-75 | in Startup or Disabled: state becomes Startup and exactly Enable(config) without promise is appended; otherwise state and queue are unchanged; config is never written |
| `Machine.StateMachine.Start` | state_machine.cpp:22-36 | the queueing half of start: in Startup or Disabled, state becomes Startup and exactly Enable(config) carrying the caller's promise is appended; otherwise nothing changes |
| `Machine.StateMachine.QueueIdleEvent` | state_machine.cpp:77-87 | appends Idle only in Startup or Running, otherwise the queue is unchanged; state and config are never written |
| `Machine.StateMachine.QueueRunEvent` | state_machine.cpp:89-100 | appends Run(speed) only in Idling, otherwise the queue is unchanged; state and config are never written |
| `Machine.StateMachine.QueueDisableEvent` | state_machine.cpp:102-112 | appends Disable in every state but Disabled, otherwise the queue is unchanged; state and config are never written |
| `Machine.StateMachine.WorkerStep` | state_machine.cpp:114-129 | removes exactly the head of the queue, applies handleEvent to it, and the worker stays alive exactly when the new state is not Disabled; a handled event carries a promise only if it is an Enable |
| `Machine.StateMachine.JoinWorker` | state_machine.cpp:52-55 | a live worker with a Disable at the tail of its queue runs the loop to its end; a worker that already left handles nothing; afterwards the thread is joined and not alive |
| `Machine.StateMachine.Stop` | state_machine.cpp:41-60 | on a Disabled machine nothing changes; otherwise the queue ends empty and the worker joined; a live worker handles every queued event and then the Disable, in order, and ends Disabled; an exited worker handles nothing |
| `Machine.StateMachine.Destroy` | state_machine.cpp:14-20 | a machine that is not Disabled is stopped (queue emptied, worker exited and joined): a live worker first handles every queued event and the Disable in order, while a worker that had already exited handles nothing, so state, config and log stay as they were; an already Disabled machine is left entirely unchanged, so its thread is not joined; the result is whether the thread is still joinable at teardown (which terminates the process), which happens exactly when the machine was already Disabled and its worker never joined |
| `Machine.StateMachine.DestroyJoining` | state_machine.cpp:14-20 | the destructor with the missing join: same effect on state, config, log and queue as the one as written in each of the three cases (live worker, exited worker, already Disabled), and afterwards the thread is always joined, so it is never left joinable |
| `Machine.DisableThenDestroyAborts` | state_machine.cpp:14-20 | a machine whose worker has handled a queued Disable is torn down with its thread still joinable, so the process terminates |
| `Machine.DisableThenDestroyJoins` | state_machine.cpp:14-20 | in the same situation the corrected destructor leaves the thread joined and does not terminate the process |
| `Machine.StartRunIdleStop` | state_machine_app.cpp:20-44 | queue start, run at speed 10, idle, stop, with the worker handling each event before the next call: the states seen are Idling, Running, Idling, Disabled |
| `Machine.RunDuringStartupIsDropped` | state_machine.cpp:89-100 | a Run requested in Startup queues nothing and the state stays Startup |

## Left out

- Thread machinery is not modelled: thread creation, the mutex, the condition-variable wait and notify, and the atomics. The single worker is the explicit `WorkerStep` interleaving. A thread's joinability is kept as the flag `threadJoined`.
- The race between a caller's state check and its enqueue is not modelled, because each caller operation is one atomic step. So is the race where the worker handles a Disable and, before it re-checks its loop condition, a caller's `queueStartEvent` resets the state to Startup. `WorkerStep` handles the event and re-checks in one step.
- Machine.StateMachine.Start: only the queueing half is modelled. As written, `start` then waits on its promise. No handler ever fulfils the promise, so `start` never returns, and no completion is promised.
- The console output of the handlers and of the `enable`/`disable` helpers is reduced to the `Effect` log. `disable` is never called. `enable` is reached only from the dead `Disabled` branch, where it appears as the `Reenable` effect.
- The header's default constructor has no definition. It is represented by constructing with `DefaultConfig`.
- The demo driver's printing and its final sleep are left out. Its scenarios appear only as the client methods above. They use the asynchronous start, because the blocking one never returns.
- Machine.StartRunIdleStop: follows one interleaving only, in which the worker handles each event before the next call. The driver calls `queueIdleEvent` right after `queueRunEvent`. If the worker has not yet handled the Run, the state is still Idling and the Idle is dropped. So the driver need not see Idling, Running, Idling. The other client methods (`DisableThenDestroyAborts`, `DisableThenDestroyJoins`, `RunDuringStartupIsDropped`) are scenarios the driver does not contain.

## Findings

| source | as written | input that shows it | evidently intended | confidence | as-written member | corrected member |
|---|---|---|---|---|---|---|
| state_machine.cpp:14-20 | the destructor calls `stop()` only when the state is not Disabled, so it never joins a worker that has already exited; the joinable `std::thread` member is then destroyed, which calls `std::terminate` | construct, `queueDisableEvent()`, let the worker handle the Disable, destroy the machine | join the exited worker whenever the thread is still joinable | high, not executed | `Machine.DisableThenDestroyAborts` | `Machine.StateMachine.DestroyJoining` |
