/** The status badge both bookings pages draw: its colour and its label. */
module Badge {

  datatype Colour = Green | Yellow | Red

  /** Green for approved, yellow for pending, red for every other status string. */
  function BadgeColour(status: string): (c: Colour)
    ensures c == Green <==> status == "approved"
    ensures c == Yellow <==> status == "pending"
    ensures c == Red <==> status != "approved" && status != "pending"
  {
    if status == "approved" then Green
    else if status == "pending" then Yellow
    else Red
  }

  /** `toUpperCase` on one character, for the ASCII letters the statuses are written in. */
  function Upper(c: char): (u: char)
    ensures 'a' <= c <= 'z' ==> u as int == c as int - 32
    ensures !('a' <= c <= 'z') ==> u == c
  {
    if 'a' <= c <= 'z' then (c as int - 32) as char else c
  }

  /** `status.charAt(0).toUpperCase() + status.slice(1)`. */
  function Label(status: string): (r: string)
    ensures |r| == |status|
    ensures status != [] ==> r[0] == Upper(status[0]) && r[1..] == status[1..]
  {
    if status == [] then [] else [Upper(status[0])] + status[1..]
  }

  lemma StatusLabels()
    ensures Label("pending") == "Pending" && Label("approved") == "Approved"
    ensures Label("completed") == "Completed" && Label("cancelled") == "Cancelled"
  {
    assert Upper('p') == 'P' && Upper('a') == 'A' && Upper('c') == 'C';
    assert Label("pending") == ['P'] + "ending";
    assert Label("approved") == ['A'] + "pproved";
    assert Label("completed") == ['C'] + "ompleted";
    assert Label("cancelled") == ['C'] + "ancelled";
  }
}
