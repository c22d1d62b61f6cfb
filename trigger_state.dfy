/**
 * The render-facing state of a trigger (TriggerState): the item's name and
 * how far the trigger is pushed down. The render bridge compares a new state
 * with the one it applied last and skips the update when they are equal.
 */
module Trigger {
  import opened Wrappers

  datatype TriggerState = TriggerState(name: string, heightOffset: real)

  /** The constructor: the height offset defaults to 0. */
  function NewTriggerState(name: string, heightOffset: real := 0.0): (s: TriggerState)
    ensures s.name == name && s.heightOffset == heightOffset
  {
    TriggerState(name, heightOffset)
  }

  /** equals: no state equals a missing one; otherwise only the height offsets are compared. */
  function Equals(s: TriggerState, other: Option<TriggerState>): (eq: bool)
    ensures other.None? ==> !eq
    ensures other.Some? ==> (eq <==> other.value.heightOffset == s.heightOffset)
  {
    match other
    case None => false
    case Some(o) => o.heightOffset == s.heightOffset
  }

  /** clone: a new state with the same name and height offset, equal to the original. */
  function Clone(s: TriggerState): (c: TriggerState)
    ensures c.name == s.name && c.heightOffset == s.heightOffset
    ensures Equals(c, Some(s)) && Equals(s, Some(c))
  {
    NewTriggerState(s.name, s.heightOffset)
  }

  lemma EqualsIsReflexive(s: TriggerState)
    ensures Equals(s, Some(s))
  {
  }

  lemma EqualsIsSymmetric(s: TriggerState, t: TriggerState)
    ensures Equals(s, Some(t)) == Equals(t, Some(s))
  {
  }

  lemma EqualsIsTransitive(s: TriggerState, t: TriggerState, u: TriggerState)
    requires Equals(s, Some(t)) && Equals(t, Some(u))
    ensures Equals(s, Some(u))
  {
  }

  /** Two states that differ only in their names are equal. */
  lemma EqualsIgnoresName(s: TriggerState, name: string)
    ensures Equals(s, Some(s.(name := name)))
  {
  }

  /** A fresh state compares equal to one with the default offset exactly when its offset is 0. */
  lemma DefaultOffsetIsZero(name: string, s: TriggerState)
    ensures Equals(NewTriggerState(name), Some(s)) <==> s.heightOffset == 0.0
  {
  }
}
