/**
 * The value types of the state machine: its phases, the kinds of event it
 * accepts, the configuration it adopts and the tagged event that travels
 * through its queue.
 */
module Types {

  /** The mutually exclusive phases of the machine. A new machine is in Startup. */
  datatype State = Startup | Idling | Running | Disabled

  /** The kinds of event a caller can queue. */
  datatype EventType = Enable | Run | Idle | Disable

  const AllStates: set<State> := {Startup, Idling, Running, Disabled}
  const AllEventTypes: set<EventType> := {Enable, Run, Idle, Disable}

  /** Both enumerations are closed: four phases and four event kinds, no more. */
  lemma ExactlyFour()
    ensures forall s: State :: s in AllStates
    ensures forall k: EventType :: k in AllEventTypes
    ensures |AllStates| == 4 && |AllEventTypes| == 4
  {
    forall s: State ensures s in AllStates {
      assert s.Startup? || s.Idling? || s.Running? || s.Disabled?;
    }
    forall k: EventType ensures k in AllEventTypes {
      assert k.Enable? || k.Run? || k.Idle? || k.Disable?;
    }
  }

  /** The two settings adopted when an Enable event is handled at startup. */
  datatype Config = Config(settingA: bool, settingB: bool)

  /** The value-initialised configuration: both settings off. */
  const DefaultConfig: Config := Config(false, false)

  /** A running speed is an unsigned 32-bit integer. */
  newtype Speed = x: int | 0 <= x < 0x1_0000_0000

  /**
   * The completion pointer an event carries: null, or the address of the
   * promise a blocking `start` call waits on.
   */
  datatype Promise = Null | PromiseAt(address: nat)

  /**
   * An event, as a tagged union: the payload (a configuration for Enable,
   * a speed for Run, nothing otherwise) is tied to the kind, and every event
   * has a completion pointer.
   */
  datatype Event =
    | EnableEvent(config: Config, finished: Promise)
    | RunEvent(speed: Speed, finished: Promise)
    | IdleEvent(finished: Promise)
    | DisableEvent(finished: Promise)
  {
    /** The kind tag of the event. */
    function Type(): EventType
    {
      match this
      case EnableEvent(_, _) => Enable
      case RunEvent(_, _) => Run
      case IdleEvent(_) => Idle
      case DisableEvent(_) => Disable
    }
  }
}
