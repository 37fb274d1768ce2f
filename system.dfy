/**
  System descriptors: the constructors `startup`, `event_callback`, `timed`
  and `update`. The callback is kept as an opaque value; the random uuid
  and the `Instant::now()` stamp are passed in by the caller.
 */
module Systems {
  import opened Wrappers

  /** `EventCallbackType`. */
  datatype EventCallbackType = WindowResize | ShutDown

  /** `SystemType`; a `Duration` is a number of clock units. */
  datatype SystemType = Update | Startup | Timed(duration: nat) | EventCallback(event: EventCallbackType)

  /** `System`: name, callback, uuid, policy, last-run stamp and optional scene name. */
  datatype System<Run> = System(
    name: string,
    update: Run,
    uuid: nat,
    systemType: SystemType,
    lastRun: nat,
    scene: Option<string>)

  /** `System::startup`: a startup system bound to no scene. */
  function NewStartup<Run>(name: string, run: Run, uuid: nat, now: nat): (s: System<Run>)
    ensures s.systemType == Startup && s.scene == None
    ensures s.name == name && s.update == run && s.uuid == uuid && s.lastRun == now
  {
    System(name, run, uuid, Startup, now, None)
  }

  /**
    `System::event_callback`: a system for one event kind, bound to no
    scene; it is not a system for any other kind.
   */
  function NewEventCallback<Run>(name: string, run: Run, eventType: EventCallbackType, uuid: nat, now: nat): (s: System<Run>)
    ensures s.systemType == EventCallback(eventType) && s.scene == None
    ensures forall other: EventCallbackType :: other != eventType ==> s.systemType != EventCallback(other)
    ensures s.name == name && s.update == run && s.uuid == uuid && s.lastRun == now
  {
    System(name, run, uuid, EventCallback(eventType), now, None)
  }

  /** `System::timed`: a timed system with the scene given by the caller. */
  function NewTimed<Run>(name: string, scene: Option<string>, run: Run, duration: nat, uuid: nat, now: nat): (s: System<Run>)
    ensures s.systemType == Timed(duration) && s.scene == scene
    ensures s.name == name && s.update == run && s.uuid == uuid && s.lastRun == now
  {
    System(name, run, uuid, Timed(duration), now, scene)
  }

  /** `System::update`: a per-frame system with the scene given by the caller. */
  function NewUpdate<Run>(name: string, scene: Option<string>, run: Run, uuid: nat, now: nat): (s: System<Run>)
    ensures s.systemType == Update && s.scene == scene
    ensures s.name == name && s.update == run && s.uuid == uuid && s.lastRun == now
  {
    System(name, run, uuid, Update, now, scene)
  }

  /** `#[derive(PartialEq)]` on `EventCallbackType` tells the two kinds apart. */
  lemma EventKindsDiffer()
    ensures WindowResize != ShutDown
    ensures EventCallback(WindowResize) != EventCallback(ShutDown)
  {
  }
}
