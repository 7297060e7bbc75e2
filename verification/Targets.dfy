/** Machines with a limited number of CPU cores. */
module Targets {
  import opened Wrappers

  class Target {
    const numOfCores: int
    var availableCores: int

    /** A machine as parsed: without a core count it is given one core, which is however never made available. */
    constructor (cores: Option<int>)
      ensures cores.Some? ==> numOfCores == cores.value && availableCores == cores.value
      ensures cores.None? ==> numOfCores == 1 && availableCores == 0
    {
      numOfCores := if cores.Some? then cores.value else 1;
      availableCores := if cores.Some? then cores.value else 0;
    }

    /** Takes a core if there is one. */
    method RequestAvailableTargetCore() returns (granted: bool)
      modifies this`availableCores
      ensures granted <==> old(availableCores) > 0
      ensures availableCores == if granted then old(availableCores) - 1 else old(availableCores)
    {
      if availableCores > 0 {
        availableCores := availableCores - 1;
        return true;
      } else {
        return false;
      }
    }

    /** Gives a core back. */
    method SignalAvailableTargetCore()
      modifies this`availableCores
      ensures availableCores == old(availableCores) + 1
    {
      availableCores := availableCores + 1;
    }
  }
}
