/** The optional-value datatype used throughout the model for C#'s nullable references,
    and the identities that stand for the callbacks (C# `Action` / `Func<bool>` delegates)
    whose bodies are outside the model. */
module Wrappers {

  datatype Option<+T> = None | Some(value: T)

  /** The value of `o`, or `default` when there is none. */
  function GetOr<T>(o: Option<T>, default: T): (r: T)
    ensures o.Some? ==> r == o.value
    ensures o.None? ==> r == default
  {
    match o
    case Some(v) => v
    case None => default
  }

  /** Identifies an `Action` delegate stored in a hook slot. */
  type ActionId = nat

  /** Identifies a `Func<bool>` guard delegate. */
  type GuardId = nat

  /** What `slot?.Invoke()` runs: the action in the slot, or nothing when the slot is null. */
  function Invoked(slot: Option<ActionId>): (r: seq<ActionId>)
    ensures |r| <= 1
    ensures slot.None? ==> r == []
    ensures slot.Some? ==> r == [slot.value]
  {
    match slot
    case Some(a) => [a]
    case None => []
  }
}
