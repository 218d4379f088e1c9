/** The receiving half of a shutdown channel. */
module Oneshot {

  /** The `oneshot::Receiver` of the shutdown signal, which must not be polled
      again once it has delivered. */
  class ShutdownReceiver {
    var delivered: bool

    constructor ()
      ensures !delivered
    {
      delivered := false;
    }

    method Deliver()
      requires !delivered
      modifies this
      ensures delivered
    {
      delivered := true;
    }
  }
}
