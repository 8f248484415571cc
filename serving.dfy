/**
 * What the TCP and UDP accept/read loops have in common: each turn of
 * `for { select { case <-quit: ... default: ... } }` either observes the closed
 * quit channel or performs one blocking socket call whose outcome is given.
 */
module Serving {
  import opened Wrappers

  /** One turn of a listener loop: quit observed, or one socket call with outcome `outcome`. */
  datatype Event<T> = Quit | Io(outcome: T)

  /** How a listener loop stands once its events are used up: returned, or still serving. */
  datatype LoopExit = Returned(err: Option<string>) | Serving

  /** The socket held in a server's `server` field: not yet set (or nil), listening, closed. */
  datatype Socket = Unset | Open | Shut

  /** The error text of closing an already closed socket (opaque to the model). */
  const ClosedError := "use of closed network connection"

  /** The number of turns before the first one that observes quit. */
  function StopAt<T>(events: seq<Event<T>>): (k: nat)
    ensures k <= |events|
    ensures forall i :: 0 <= i < k ==> events[i].Io?
    ensures k < |events| ==> events[k].Quit?
  {
    if events == [] || events[0].Quit? then 0 else 1 + StopAt(events[1..])
  }

  /**
   * How a listener loop stands after `events`: it has returned exactly when some
   * turn observed quit, and it then returned a nil error.
   */
  function ExitAfter<T>(events: seq<Event<T>>): (e: LoopExit)
    ensures e.Returned? <==> exists i :: 0 <= i < |events| && events[i].Quit?
    ensures e.Returned? ==> e.err == None
  {
    var k := StopAt(events);
    if k < |events| then
      assert events[k].Quit?;
      Returned(None)
    else
      Serving
  }
}
