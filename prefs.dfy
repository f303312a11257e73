/** The persisted key-value store, reduced to the two keys this core reads and writes.
    Both the activity and the overlay hold the same instance. */
module Prefs {

  class Preferences {
    /** Settings.isBlockingEnabled: the content-blocking ("turbo") toggle. */
    var isBlockingEnabled: bool
    /** The integer under "show_upin_toast_counter" (read with default 0). */
    var unpinToastCounter: int

    constructor (blocking: bool, counter: int)
      ensures isBlockingEnabled == blocking && unpinToastCounter == counter
    {
      isBlockingEnabled := blocking;
      unpinToastCounter := counter;
    }
  }
}
