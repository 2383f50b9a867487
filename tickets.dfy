/** app/dashboard/tickets/page.tsx: the ticket list, loaded once without filters, searched on
    the client by reference number. */
module TicketsPage {
  import opened Types
  import opened Text
  import opened Listing
  import ApiClient

  /** A ticket is shown when its reference number contains the term, letters compared
      without case. */
  function Matches(t: Ticket, term: string): (matched: bool)
    ensures matched <==> exists i :: Occurs(Lower(term), Lower(t.referenceNumber), i)
    ensures matched ==> |term| <= |t.referenceNumber|
  {
    Contains(Lower(t.referenceNumber), Lower(term))
  }

  /** `filteredTickets`: the loaded tickets whose reference number contains the term,
      letters compared without case, in their loaded order. */
  function FilterTickets(tickets: seq<Ticket>, term: string): (shown: seq<Ticket>)
    ensures |shown| <= |tickets|
    ensures forall i :: 0 <= i < |shown| ==> shown[i] in tickets && Matches(shown[i], term)
    ensures forall i :: 0 <= i < |tickets| && Matches(tickets[i], term) ==> tickets[i] in shown
  {
    Filter(tickets, t => Matches(t, term))
  }

  lemma EmptySearchShowsAll(tickets: seq<Ticket>)
    ensures FilterTickets(tickets, "") == tickets
  {
    forall i | 0 <= i < |tickets|
      ensures Matches(tickets[i], "")
    {
      assert Lower("") == "";
      assert StartsWith(Lower(tickets[i].referenceNumber), "");
    }
    FilterKeepsAll(tickets, t => Matches(t, ""));
  }

  lemma SearchIgnoresCase(tickets: seq<Ticket>, term: string)
    ensures FilterTickets(tickets, Lower(term)) == FilterTickets(tickets, term)
  {
    LowerIdempotent(term);
    FilterCongruent(tickets, t => Matches(t, Lower(term)), t => Matches(t, term));
  }

  /** The header counts every loaded ticket, so it never falls below the rows shown. */
  function HeaderTotal(tickets: seq<Ticket>): (n: nat)
    ensures n == |tickets|
    ensures forall term :: n >= |FilterTickets(tickets, term)|
  {
    |tickets|
  }

  datatype ProcessedCell = Dash | ProcessedAt(when: string)

  /** The Processed column: a dash when `processed_at` is missing or empty. */
  function ProcessedCellOf(t: Ticket): (c: ProcessedCell)
    ensures c.Dash? <==> t.processedAt.None? || t.processedAt.value == ""
    ensures c.ProcessedAt? ==> t.processedAt == Some(c.when)
  {
    if t.processedAt.Some? && t.processedAt.value != "" then ProcessedAt(t.processedAt.value) else Dash
  }

  class TicketsPage {
    var tickets: seq<Ticket>
    var searchTerm: string

    constructor ()
      ensures tickets == [] && searchTerm == ""
    {
      tickets := [];
      searchTerm := "";
    }

    /** The rows on screen: loaded tickets that match the term, every loaded one when the
        term is empty. */
    function Displayed(): (shown: seq<Ticket>)
      reads this
      ensures |shown| <= |tickets|
      ensures forall i :: 0 <= i < |shown| ==> shown[i] in tickets && Matches(shown[i], searchTerm)
      ensures forall i :: 0 <= i < |tickets| && Matches(tickets[i], searchTerm) ==> tickets[i] in shown
      ensures searchTerm == "" ==> shown == tickets
    {
      if searchTerm == "" then EmptySearchShowsAll(tickets); FilterTickets(tickets, searchTerm)
      else FilterTickets(tickets, searchTerm)
    }

    /** `loadTickets`: the wrapper is called without filters, so its defaults apply; a
        successful envelope replaces the tickets (`[]` when data is absent). */
    method LoadTickets(out: Outcome<seq<Ticket>>) returns (sent: ApiClient.Request)
      modifies this
      ensures sent == ApiClient.GetTickets(ApiClient.NO_TICKET_FILTERS)
      ensures Succeeded(out) ==> tickets == ListOrEmpty(out.envelope.data)
      ensures !Succeeded(out) ==> tickets == old(tickets)
      ensures searchTerm == old(searchTerm)
    {
      sent := ApiClient.GetTickets(ApiClient.NO_TICKET_FILTERS);
      if Succeeded(out) {
        tickets := ListOrEmpty(out.envelope.data);
      }
    }

    method SetSearchTerm(term: string)
      modifies this
      ensures searchTerm == term && tickets == old(tickets)
      ensures Displayed() == FilterTickets(old(tickets), term)
    {
      searchTerm := term;
    }
  }
}
