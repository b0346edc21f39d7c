/** `GrovePiBus`: the public face of the bus. There is at most one, shared
    through a static property, and it rests on the shared Arduino bus. */
module Bus {
  import opened Common
  import opened AnyPortLabel
  import ArduinoBus

  class GrovePiBus {
    /** The Arduino bus every call is delegated to. */
    const busDelegate: ArduinoBus.GrovePiArduinoBus

    /** `init`: the shared Arduino bus, obtained by the caller. */
    constructor(busDelegate: ArduinoBus.GrovePiArduinoBus)
      ensures this.busDelegate == busDelegate
    {
      this.busDelegate := busDelegate;
    }

    /** `disconnect(from:)`: `DisconnectedBus` when there is no shared bus
        any more, and otherwise the Arduino bus's `disconnect(from:)`. */
    method DisconnectFrom(registry: GrovePiBusRegistry, portLabel: LabelArgument) returns (outcome: Outcome)
      requires busDelegate.Valid()
      modifies busDelegate, busDelegate.scanner, busDelegate.scanner.scheduler, ArduinoBus.Footprints(busDelegate.portMap)
      ensures busDelegate.Valid() && busDelegate.trace == old(busDelegate.trace)
      ensures registry.bus == null ==> outcome == Fail(DisconnectedBus) && busDelegate.portMap == old(busDelegate.portMap)
      ensures registry.bus != null ==> outcome.Pass? && busDelegate.portMap == old(busDelegate.portMap) - {Erase(portLabel)}
    {
      if registry.bus == null {
        return Fail(DisconnectedBus);
      }
      outcome := busDelegate.DisconnectFrom(portLabel);
    }
  }

  /** The static `bus` of `GrovePiBus`, next to the static bus of the
      Arduino bus class that it is built on. */
  class GrovePiBusRegistry {
    var bus: GrovePiBus?
    const arduinoBuses: ArduinoBus.BusSingleton

    /** A shared bus delegates to the shared Arduino bus. */
    ghost predicate Valid()
      reads this, bus, arduinoBuses
    {
      bus != null ==> arduinoBuses.bus == bus.busDelegate
    }

    constructor()
      ensures Valid() && bus == null && fresh(arduinoBuses) && arduinoBuses.bus == null
    {
      bus := null;
      arduinoBuses := new ArduinoBus.BusSingleton();
    }

    /** `connectBus`: the first successful call creates the bus on top of
        the shared Arduino bus (opening it if there is none yet); every
        later call returns that same bus. When opening fails, no bus is
        kept. */
    method ConnectBus(openErrno: Option<int>, ioctlErrno: Option<int>) returns (r: Result<GrovePiBus>)
      requires Valid()
      modifies this, arduinoBuses
      ensures Valid()
      ensures old(bus) != null ==> bus == old(bus) && r.Ok? && r.value == bus && arduinoBuses.bus == old(arduinoBuses.bus)
      ensures old(bus) == null && old(arduinoBuses.bus) != null ==>
        bus != null && fresh(bus) && r.Ok? && r.value == bus && bus.busDelegate == old(arduinoBuses.bus)
        && arduinoBuses.bus == old(arduinoBuses.bus)
      ensures old(bus) == null && old(arduinoBuses.bus) == null ==>
        if openErrno.Some? || ioctlErrno.Some? then
          bus == null && arduinoBuses.bus == null
          && r == Err(if openErrno.Some? then OpenError(openErrno.value) else IOError(ioctlErrno.value))
        else
          bus != null && r.Ok? && r.value == bus && fresh(bus.busDelegate)
          && bus.busDelegate.Valid() && bus.busDelegate.portMap == map[] && bus.busDelegate.fdOpen
    {
      if bus == null {
        var delegate := arduinoBuses.ConnectBus(openErrno, ioctlErrno);
        if delegate.Err? {
          return Err(delegate.error);
        }
        bus := new GrovePiBus(delegate.value);
      }
      r := Ok(bus as GrovePiBus);
    }

    /** `disconnectBus`: nothing without a bus; otherwise the bus is
        cleared first and then the shared Arduino bus is disconnected, so
        the bus is gone even when closing the device file fails. */
    method DisconnectBus(closeErrno: Option<int>) returns (outcome: Outcome)
      requires Valid() && (arduinoBuses.bus != null ==> arduinoBuses.bus.Valid())
      modifies this, arduinoBuses, arduinoBuses.BusFrame()
      ensures Valid() && bus == null
      ensures old(bus) == null ==> outcome.Pass? && arduinoBuses.bus == old(arduinoBuses.bus)
      ensures old(bus) != null ==>
        arduinoBuses.bus == null
        && old(bus).busDelegate.portMap == map[] && !old(bus).busDelegate.fdOpen
        && outcome == (if old(bus.busDelegate.fdOpen) && closeErrno.Some? then Fail(CloseError(closeErrno.value)) else Pass)
    {
      if bus == null {
        return Pass;
      }
      bus := null;
      outcome := arduinoBuses.DisconnectBus(closeErrno);
    }
  }
}
