/**
 * The motion sensor (components/gyroscope.py): three values overwritten by
 * every decoded report, with no change detection and no callbacks.
 */
module Gyroscopes {

  class Gyroscope {
    var roll: int
    var pitch: int
    var yaw: int

    /** A new gyroscope reads zero on every axis; the `roll`, `pitch` and `yaw` properties read these fields. */
    constructor ()
      ensures roll == 0 && pitch == 0 && yaw == 0
    {
      roll, pitch, yaw := 0, 0, 0;
    }

    /** `update((roll, pitch, yaw))`: the three values are stored unconditionally. */
    method Update(rpy: (int, int, int))
      modifies this
      ensures roll == rpy.0 && pitch == rpy.1 && yaw == rpy.2
    {
      roll, pitch, yaw := rpy.0, rpy.1, rpy.2;
    }
  }
}
