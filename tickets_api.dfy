/**
 * The ticket table behind the placeholder API: `issueTicket` appends, the getters
 * filter and find. Issuing checks neither the booking nor the seat.
 */
module TicketsApi {
  import opened Wrappers
  import opened Types
  import Strings
  import Seqs

  /** The seed rows of `placeholderTickets`. */
  const SeedTickets: seq<Ticket> := [
    Ticket("T001", "U001", "B001", "12A", "Issued", "2025-05-20"),
    Ticket("T002", "U002", "B002", "15B", "Issued", "2025-05-21")
  ]

  /** The ticket `issueTicket` appends to a table of the given length; `today` is the issue date. */
  function NewTicket(bookingId: string, customerId: string, seatNumber: string, length: nat, today: string): (t: Ticket)
    ensures t.ticketId == Strings.GeneratedId("T", length)
    ensures t.bookingId == bookingId && t.customerId == customerId && t.seatNumber == seatNumber
    ensures t.ticketStatus == "Issued" && t.issueDate == today
  {
    Ticket(Strings.GeneratedId("T", length), customerId, bookingId, seatNumber, "Issued", today)
  }

  /** The module-level `placeholderTickets` array. */
  class TicketTable {
    var tickets: seq<Ticket>

    constructor ()
      ensures tickets == SeedTickets
    {
      tickets := SeedTickets;
    }

    /** `getTicketsByBookingId`: exactly the tickets of the booking, in table order. */
    function GetTicketsByBookingId(bookingId: string): (r: seq<Ticket>)
      reads this
      ensures Seqs.IsSubseq(r, tickets)
      ensures forall i :: 0 <= i < |r| ==> r[i] in tickets && r[i].bookingId == bookingId
      ensures forall i :: 0 <= i < |tickets| && tickets[i].bookingId == bookingId ==> tickets[i] in r
      ensures |r| == Seqs.Count(tickets, (t: Ticket) => t.bookingId == bookingId)
    {
      Seqs.Filter(tickets, (t: Ticket) => t.bookingId == bookingId)
    }

    /** `getTicketById`: the first ticket with the identifier, or null. */
    function GetTicketById(ticketId: string): (r: Option<Ticket>)
      reads this
      ensures r.None? <==> forall i :: 0 <= i < |tickets| ==> tickets[i].ticketId != ticketId
      ensures r.Some? ==>
        exists i :: 0 <= i < |tickets| && tickets[i] == r.value && r.value.ticketId == ticketId &&
          forall j :: 0 <= j < i ==> tickets[j].ticketId != ticketId
    {
      Seqs.Find(tickets, (t: Ticket) => t.ticketId == ticketId)
    }

    /** `issueTicket`: appends one issued ticket and returns it; it never returns null. */
    method IssueTicket(bookingId: string, customerId: string, seatNumber: string, today: string)
      returns (r: Option<Ticket>)
      modifies this
      ensures tickets == old(tickets) + [NewTicket(bookingId, customerId, seatNumber, |old(tickets)|, today)]
      ensures r == Some(NewTicket(bookingId, customerId, seatNumber, |old(tickets)|, today))
    {
      var t := NewTicket(bookingId, customerId, seatNumber, |tickets|, today);
      tickets := tickets + [t];
      r := Some(t);
    }
  }

  /** Nothing stops two tickets from holding the same seat: issuing the same seat twice
      yields two tickets with different identifiers and equal seat numbers. */
  method SameSeatTwice(table: TicketTable, bookingId: string, customerId: string, seatNumber: string, today: string)
    returns (first: Ticket, second: Ticket)
    modifies table
    ensures first in table.tickets && second in table.tickets
    ensures first.seatNumber == second.seatNumber == seatNumber
    ensures first.ticketId != second.ticketId
  {
    var a := table.IssueTicket(bookingId, customerId, seatNumber, today);
    var b := table.IssueTicket(bookingId, customerId, seatNumber, today);
    first, second := a.value, b.value;
    assert table.tickets[|table.tickets| - 2] == first;
    if first.ticketId == second.ticketId {
      Strings.GeneratedIdInjective("T", |table.tickets| - 2, |table.tickets| - 1);
    }
  }
}
