/**
 * An ordered chain of form-field checks, each of which either passes or
 * reports one error. Both submit handlers of the sign-in pages run such a
 * chain with an early return per check, so only the FIRST failing check is
 * ever reported. This module is the reference the handlers are proved
 * against.
 */
module Checks {

  /** One check of a chain: whether it fails, and the error it reports then. */
  datatype Check<E> = Check(fails: bool, error: E)

  /** The position of the first failing check, or |checks| when all pass. */
  function FirstFailing<E>(checks: seq<Check<E>>): (i: nat)
    ensures i <= |checks|
    ensures forall j :: 0 <= j < i ==> !checks[j].fails
    ensures i < |checks| ==> checks[i].fails
  {
    if checks == [] then 0
    else if checks[0].fails then 0
    else 1 + FirstFailing(checks[1..])
  }

  /**
   * The first failing position is the only one with no failing check
   * before it and a failing check (or the end of the chain) at it.
   */
  lemma FirstFailingUnique<E>(checks: seq<Check<E>>, i: nat)
    requires i <= |checks|
    requires forall j :: 0 <= j < i ==> !checks[j].fails
    requires i < |checks| ==> checks[i].fails
    ensures FirstFailing(checks) == i
  {
  }
}
