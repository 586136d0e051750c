/** The booking lifecycle as the admin bookings page lays it out: pending moves to approved or
    cancelled, approved moves to completed, and completed and cancelled are final. This is the
    reference the pages' offered actions and the server's update are compared against. */
module Lifecycle {
  import opened Common
  import opened Schema

  predicate Forward(from: Status, to: Status) {
    || (from == Pending && to == Approved)
    || (from == Pending && to == Cancelled)
    || (from == Approved && to == Completed)
  }

  /** A move between two stored status strings that the table allows. */
  predicate Allowed(from: string, to: string) {
    ParseStatus(from).Some? && ParseStatus(to).Some?
    && Forward(ParseStatus(from).value, ParseStatus(to).value)
  }

  /** How far along the lifecycle a status string is; strings outside the enum come last. */
  function Stage(s: string): (n: nat)
    ensures n <= 3
    ensures n == 0 <==> s == StatusName(Pending)
    ensures n == 1 <==> s == StatusName(Approved)
    ensures n == 2 <==> s == StatusName(Completed) || s == StatusName(Cancelled)
    ensures n == 3 <==> ParseStatus(s).None?
  {
    match ParseStatus(s)
    case Some(Pending) => 0
    case Some(Approved) => 1
    case Some(Completed) => 2
    case Some(Cancelled) => 2
    case None => 3
  }

  /** Every allowed move goes strictly forward and ends at a known status. */
  lemma AllowedAdvances(from: string, to: string)
    requires Allowed(from, to)
    ensures Stage(from) < Stage(to) <= 2
  {
  }
}
