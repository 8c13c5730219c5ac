/**
 * The enabled/disabled state of the form's three buttons (generate, clear and
 * read text).  Each of the three handlers that touch them overwrites all three
 * "disabled" flags, so the state after an event depends on that event alone.
 */
module Buttons {

  /** The "disabled" flags of the submit (generate), clear and read-text buttons. */
  datatype Flags = Flags(submitDisabled: bool, clearDisabled: bool, readDisabled: bool)

  /** The events whose handlers set the flags. */
  datatype Event = ImageLoaded | Submitted | ClearClicked

  /** Clear and read are enabled together, and exactly when generate is disabled. */
  predicate Consistent(f: Flags)
  {
    f.clearDisabled == f.readDisabled == !f.submitDisabled
  }

  /** Idle: an image can be captioned, there is nothing to clear or read. */
  const Idle := Flags(false, true, true)
  /** Generated: the caption is drawn; it can be cleared or read, not drawn again. */
  const Generated := Flags(true, false, false)

  /**
   * The flags right after an event's handler: image load and clear return to
   * Idle, submit moves to Generated.
   */
  function After(e: Event): (f: Flags)
    ensures Consistent(f)
    ensures f.submitDisabled <==> e == Submitted
  {
    match e
    case ImageLoaded => Idle
    case Submitted => Generated
    case ClearClicked => Idle
  }

  /** The flags after the handlers of `events` run in order, starting from `init`. */
  function Replay(init: Flags, events: seq<Event>): Flags
    decreases |events|
  {
    if events == [] then init else Replay(After(events[0]), events[1..])
  }

  /** Only the last event of a non-empty run decides the flags. */
  lemma {:induction false} ReplayLastEventDecides(init: Flags, events: seq<Event>)
    requires events != []
    ensures Replay(init, events) == After(events[|events| - 1])
    decreases |events|
  {
    if |events| > 1 {
      ReplayLastEventDecides(After(events[0]), events[1..]);
    }
  }

  /** Every state reachable from a consistent start is consistent, and is Idle or Generated. */
  lemma ReachableConsistent(init: Flags, events: seq<Event>)
    requires Consistent(init)
    ensures Consistent(Replay(init, events))
    ensures events != [] ==> Replay(init, events) in {Idle, Generated}
  {
    if events != [] {
      ReplayLastEventDecides(init, events);
    }
  }

  /** A click on clear after a clear changes nothing. */
  lemma ClearIdempotent(init: Flags, events: seq<Event>)
    ensures Replay(init, events + [ClearClicked, ClearClicked]) == Replay(init, events + [ClearClicked])
  {
    ReplayLastEventDecides(init, events + [ClearClicked, ClearClicked]);
    ReplayLastEventDecides(init, events + [ClearClicked]);
  }

  /** Loading an image and clicking clear leave the buttons in the same state. */
  lemma LoadSameAsClear(init: Flags, events: seq<Event>)
    ensures Replay(init, events + [ImageLoaded]) == Replay(init, events + [ClearClicked])
    ensures Replay(init, events + [ImageLoaded]) == Idle
  {
    ReplayLastEventDecides(init, events + [ImageLoaded]);
    ReplayLastEventDecides(init, events + [ClearClicked]);
  }
}
