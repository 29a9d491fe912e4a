/**
 * What the two ticket pages (app/consultant-dashboard/page.tsx and
 * app/my-tickets/page.tsx) share, written identically in both: the ticket
 * record, the badge colours of a priority and of a status, chosen without
 * regard to letter case, and the per-status tallies.
 */
module TicketViews {
  import opened Common

  datatype Ticket = Ticket(ticketId: string, title: string, description: string, category: string,
                           createdBy: string, statusName: string, priorityName: string)

  const Green: string := "bg-green-100 text-green-800"
  const Yellow: string := "bg-yellow-100 text-yellow-800"
  const Orange: string := "bg-orange-100 text-orange-800"
  const Red: string := "bg-red-100 text-red-800"
  const Blue: string := "bg-blue-100 text-blue-800"
  const Gray: string := "bg-gray-100 text-gray-800"

  /** `getPriorityColor`: the `switch` on the lower-cased priority name. */
  function PriorityColor(priorityName: string): (r: string)
    ensures ToLower(priorityName) == "low" ==> r == Green
    ensures ToLower(priorityName) == "medium" ==> r == Yellow
    ensures ToLower(priorityName) == "high" ==> r == Orange
    ensures ToLower(priorityName) == "urgent" ==> r == Red
    ensures ToLower(priorityName) !in {"low", "medium", "high", "urgent"} ==> r == Gray
  {
    var p := ToLower(priorityName);
    if p == "low" then Green
    else if p == "medium" then Yellow
    else if p == "high" then Orange
    else if p == "urgent" then Red
    else Gray
  }

  /** `getStatusColor`: the `switch` on the lower-cased status name; a closed ticket is gray like an unknown one. */
  function StatusColor(statusName: string): (r: string)
    ensures ToLower(statusName) == "pending" ==> r == Blue
    ensures ToLower(statusName) == "responded" ==> r == Green
    ensures ToLower(statusName) !in {"pending", "responded"} ==> r == Gray
  {
    var s := ToLower(statusName);
    if s == "pending" then Blue
    else if s == "responded" then Green
    else if s == "closed" then Gray
    else Gray
  }

  /** Lower-casing twice is lower-casing once. */
  lemma ToLowerIdempotent(s: string)
    ensures ToLower(ToLower(s)) == ToLower(s)
  {
    var t := ToLower(s);
    assert forall i :: 0 <= i < |t| ==> LowerChar(t[i]) == t[i];
  }

  /** The colours depend only on the lower-cased name: "HIGH", "High" and "high" look the same. */
  lemma ColorsIgnoreCase(name: string)
    ensures PriorityColor(name) == PriorityColor(ToLower(name))
    ensures StatusColor(name) == StatusColor(ToLower(name))
  {
    ToLowerIdempotent(name);
  }

  /** Names that differ only in letter case get the same colours. */
  lemma SameColorsUpToCase(a: string, b: string)
    requires ToLower(a) == ToLower(b)
    ensures PriorityColor(a) == PriorityColor(b) && StatusColor(a) == StatusColor(b)
  {
  }

  /** Two different priorities among the four get different colours, and neither gets the default gray. */
  lemma PriorityColorsDistinct(a: string, b: string)
    requires ToLower(a) in {"low", "medium", "high", "urgent"} && ToLower(b) in {"low", "medium", "high", "urgent"}
    requires ToLower(a) != ToLower(b)
    ensures PriorityColor(a) != PriorityColor(b) && PriorityColor(a) != Gray
  {
    assert PriorityColor(a)[3] != PriorityColor(b)[3];
  }

  /** `t.statusName.toLowerCase() === name`. */
  function HasStatusName(name: string): Ticket -> bool {
    (t: Ticket) => ToLower(t.statusName) == name
  }

  /** `tickets.filter(t => t.statusName.toLowerCase() === name).length`. */
  function StatusTally(tickets: seq<Ticket>, name: string): (n: nat)
    ensures n <= |tickets|
    ensures n == Count(tickets, HasStatusName(name))
  {
    FilterLength(tickets, HasStatusName(name));
    |Filter(tickets, HasStatusName(name))|
  }

  /** Tickets whose status is none of the three. */
  function OtherStatus(t: Ticket): bool {
    ToLower(t.statusName) !in {"pending", "responded", "closed"}
  }

  /** Each ticket is counted under at most one status. */
  lemma {:induction false} TalliesPartition(tickets: seq<Ticket>)
    ensures Count(tickets, HasStatusName("pending")) + Count(tickets, HasStatusName("responded"))
            + Count(tickets, HasStatusName("closed")) + Count(tickets, OtherStatus) == |tickets|
  {
    if tickets != [] {
      TalliesPartition(tickets[1..]);
    }
  }

  /** The pending, responded and closed tallies add up to at most the number of tickets. */
  lemma TalliesBounded(tickets: seq<Ticket>)
    ensures StatusTally(tickets, "pending") + StatusTally(tickets, "responded") + StatusTally(tickets, "closed")
            <= |tickets|
  {
    TalliesPartition(tickets);
  }
}
