/** `GET /api/admin/reports`: the number of bookings, the sum of all payment amounts and the
    number of bookings per status (the two `$group` aggregations of server.js). */
module Reports {
  import opened Schema
  import opened Tables

  /** `$sum: '$amount'` over every payment, whatever its status; 0 for no payments. */
  function Revenue(payments: seq<Payment>): (r: int)
    ensures payments == [] ==> r == 0
    ensures (forall p :: p in payments ==> p.amount >= 0) ==> r >= 0
    decreases |payments|
  {
    if payments == [] then 0 else payments[0].amount + Revenue(payments[1..])
  }

  /** The number of bookings whose status is `status` (the independent count the groups are
      checked against). */
  function CountStatus(bookings: seq<Booking>, status: string): nat
    decreases |bookings|
  {
    if bookings == [] then 0
    else (if bookings[0].status == status then 1 else 0) + CountStatus(bookings[1..], status)
  }

  /** A tally of bookings per status: one `(status, count)` pair per group. */
  type Tally = seq<(string, nat)>

  /** Counts one more booking with `status`: the group's count goes up, or a new group opens. */
  function Bump(t: Tally, status: string): (r: Tally)
    ensures |t| <= |r| <= |t| + 1
    decreases |t|
  {
    if t == [] then [(status, 1)]
    else if t[0].0 == status then [(status, t[0].1 + 1)] + t[1..]
    else [t[0]] + Bump(t[1..], status)
  }

  /** `$group: { _id: '$status', count: { $sum: 1 } }`. Group order is not specified by the
      database; this model lists the groups in the order of a scan from the last booking. */
  function GroupByStatus(bookings: seq<Booking>): (r: Tally)
    ensures |r| <= |bookings|
    ensures r == [] <==> bookings == []
    decreases |bookings|
  {
    if bookings == [] then [] else Bump(GroupByStatus(bookings[1..]), bookings[0].status)
  }

  function Total(t: Tally): nat
    decreases |t|
  {
    if t == [] then 0 else t[0].1 + Total(t[1..])
  }

  /** The count recorded for `status`, 0 when it has no group. */
  function Lookup(t: Tally, status: string): nat
    decreases |t|
  {
    if t == [] then 0 else if t[0].0 == status then t[0].1 else Lookup(t[1..], status)
  }

  predicate DistinctGroups(t: Tally) {
    forall i, j :: 0 <= i < j < |t| ==> t[i].0 != t[j].0
  }

  predicate NonEmptyGroups(t: Tally) {
    forall i :: 0 <= i < |t| ==> t[i].1 >= 1
  }

  datatype Report = Report(totalBookings: nat, totalRevenue: int, bookingsByStatus: Tally)

  function Summary(bookings: seq<Booking>, payments: seq<Payment>): (r: Report)
    ensures r.totalBookings == |bookings|
  {
    Report(|bookings|, Revenue(payments), GroupByStatus(bookings))
  }

  lemma {:induction false} BumpTotal(t: Tally, status: string)
    ensures Total(Bump(t, status)) == Total(t) + 1
    decreases |t|
  {
    if t != [] && t[0].0 != status {
      BumpTotal(t[1..], status);
      assert Bump(t, status)[1..] == Bump(t[1..], status);
    }
  }

  lemma {:induction false} BumpLookup(t: Tally, status: string, s: string)
    ensures Lookup(Bump(t, status), s) == Lookup(t, s) + (if s == status then 1 else 0)
    decreases |t|
  {
    if t != [] && t[0].0 != status {
      BumpLookup(t[1..], status, s);
      assert Bump(t, status)[1..] == Bump(t[1..], status);
    }
  }

  lemma {:induction false} BumpKeys(t: Tally, status: string)
    ensures forall i :: 0 <= i < |Bump(t, status)| ==>
      Bump(t, status)[i].0 == status || exists j :: 0 <= j < |t| && t[j].0 == Bump(t, status)[i].0
    ensures DistinctGroups(t) ==> DistinctGroups(Bump(t, status))
    ensures NonEmptyGroups(t) ==> NonEmptyGroups(Bump(t, status))
    decreases |t|
  {
    if t != [] && t[0].0 != status {
      var b, rest := Bump(t, status), Bump(t[1..], status);
      BumpKeys(t[1..], status);
      assert b == [t[0]] + rest;
      forall i | 0 <= i < |b|
        ensures b[i].0 == status || exists j :: 0 <= j < |t| && t[j].0 == b[i].0
      {
        if i > 0 {
          assert b[i] == rest[i - 1];
          if rest[i - 1].0 != status {
            var j :| 0 <= j < |t[1..]| && t[1..][j].0 == rest[i - 1].0;
            assert t[j + 1].0 == b[i].0;
          }
        }
      }
    }
  }

  /** The per-status counts add up to the total number of bookings. */
  lemma {:induction false} GroupsAddUp(bookings: seq<Booking>)
    ensures Total(GroupByStatus(bookings)) == |bookings|
    decreases |bookings|
  {
    if bookings != [] {
      GroupsAddUp(bookings[1..]);
      BumpTotal(GroupByStatus(bookings[1..]), bookings[0].status);
    }
  }

  /** Each status's group holds exactly the number of bookings with that status (0 meaning
      no group), and no status has two groups or an empty one. */
  lemma {:induction false} GroupsCount(bookings: seq<Booking>, status: string)
    ensures Lookup(GroupByStatus(bookings), status) == CountStatus(bookings, status)
    ensures DistinctGroups(GroupByStatus(bookings)) && NonEmptyGroups(GroupByStatus(bookings))
    decreases |bookings|
  {
    if bookings != [] {
      GroupsCount(bookings[1..], status);
      BumpLookup(GroupByStatus(bookings[1..]), bookings[0].status, status);
      BumpKeys(GroupByStatus(bookings[1..]), bookings[0].status);
    }
  }

  /** The revenue counts pending and failed payments as well as completed ones: it is the
      completed revenue plus the revenue of every other payment. */
  lemma {:induction false} RevenueIgnoresStatus(payments: seq<Payment>)
    ensures Revenue(payments) ==
      Revenue(Filter(payments, (p: Payment) => p.status == PaymentCompleted))
      + Revenue(Filter(payments, (p: Payment) => p.status != PaymentCompleted))
    decreases |payments|
  {
    if payments != [] {
      RevenueIgnoresStatus(payments[1..]);
    }
  }

  /** Recording a payment raises the revenue by its amount. */
  lemma {:induction false} RevenueAppend(payments: seq<Payment>, p: Payment)
    ensures Revenue(payments + [p]) == Revenue(payments) + p.amount
    decreases |payments|
  {
    if payments != [] {
      assert (payments + [p])[1..] == payments[1..] + [p];
      RevenueAppend(payments[1..], p);
    }
  }
}
