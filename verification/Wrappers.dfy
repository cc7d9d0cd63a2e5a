/** The two failure-carrying types used across the model, and channels with room for one value. */
module Wrappers {
  datatype Option<+T> = None | Some(value: T)

  datatype Result<+T> = Success(value: T) | Failure(reason: string)

  /** What a channel with room for one value holds. */
  function Waiting<T>(slot: Option<T>): seq<T> { if slot.Some? then [slot.value] else [] }

  /** One step of such a channel: `taken` has left it and `owed` has been due, before and after. */
  lemma OneMoreOwed<T>(
      taken: seq<T>, slot: Option<T>, owed: seq<T>, taken': seq<T>, slot': Option<T>, owed': seq<T>)
    requires taken + Waiting(slot) == owed && taken <= taken' && owed <= owed'
    requires taken'[|taken|..] + Waiting(slot') == Waiting(slot) + owed'[|owed|..]
    ensures taken' + Waiting(slot') == owed'
  {
    assert taken' == taken + taken'[|taken|..] && owed' == owed + owed'[|owed|..];
    assert taken' + Waiting(slot') == taken + (taken'[|taken|..] + Waiting(slot'));
    assert taken + (Waiting(slot) + owed'[|owed|..]) == owed + owed'[|owed|..];
  }
}
