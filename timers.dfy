/** The delay and sound timers (src/chip8/timers.rs): two independent 8-bit
    registers with getters and setters. The countdown that `run` calls is not
    defined in that file and is not part of this model. */
module Chip8Timers {

  class Timers {
    var delay: bv8
    var sound: bv8

    /** `Timers::new`: both timers start at 0. */
    constructor ()
      ensures Delay() == 0 && Sound() == 0
    {
      delay := 0;
      sound := 0;
    }

    /** `sound()`: reading changes nothing. */
    function Sound(): bv8
      reads this
    {
      sound
    }

    /** `delay()`: reading changes nothing. */
    function Delay(): bv8
      reads this
    {
      delay
    }

    /** `set_delay`: the delay timer becomes `value`; the sound timer keeps its value. */
    method SetDelay(value: bv8)
      modifies this
      ensures Delay() == value && Sound() == old(Sound())
    {
      delay := value;
    }

    /** `set_sound`: the sound timer becomes `value`; the delay timer keeps its value. */
    method SetSound(value: bv8)
      modifies this
      ensures Sound() == value && Delay() == old(Delay())
    {
      sound := value;
    }
  }
}
