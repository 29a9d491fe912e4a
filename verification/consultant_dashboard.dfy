/**
 * The consultant's ticket dashboard (app/consultant-dashboard/page.tsx): the
 * pending tickets and all tickets, loaded together; two tabs choosing which
 * list is shown; the stats cards; and the response modal, opened from a
 * pending ticket, whose answer is posted and followed by a reload.
 */
module ConsultantDashboard {
  import opened Common
  import opened Auth
  import opened TicketViews

  /** The two tabs, `'pending' | 'all'`. */
  datatype Tab = PendingTab | AllTab

  const LoadFailed: string := "❌ Có lỗi xảy ra khi tải danh sách ticket"
  const ResponseRequired: string := "Vui lòng nhập phản hồi"
  const ResponseSent: string := "✅ Phản hồi đã được gửi thành công!"
  const ResponseFailed: string := "❌ Có lỗi xảy ra khi gửi phản hồi"

  /** The requests the page sends, with their `Authorization` header. */
  datatype Request =
    | ListPending(authorization: string)
    | ListAll(authorization: string)
    | Respond(authorization: string, ticketId: string, response: string)

  /** The requests of one load: the pending list, then the full list unless the first request threw. */
  function LoadRequests(authorization: string, pendingReply: Reply<ListBody<Ticket>>): seq<Request> {
    if pendingReply.Threw? then [ListPending(authorization)]
    else [ListPending(authorization), ListAll(authorization)]
  }

  /** `currentTickets`: the list of the active tab. */
  function CurrentTickets(tab: Tab, pending: seq<Ticket>, all: seq<Ticket>): (r: seq<Ticket>)
    ensures tab == PendingTab ==> r == pending
    ensures tab == AllTab ==> r == all
  {
    if tab == PendingTab then pending else all
  }

  /** A ticket row carries the "Phản hồi" button exactly when its status reads "pending" in any letter case. */
  predicate RespondOffered(t: Ticket) {
    ToLower(t.statusName) == "pending"
  }

  /** The modal's submit button is enabled when nothing is being sent and the answer is not blank. */
  predicate SubmitEnabled(isSubmitting: bool, response: string) {
    !isSubmitting && !IsBlank(response)
  }

  /** The four stats cards: pending, responded, closed and all tickets. */
  datatype Stats = Stats(pending: nat, responded: nat, closed: nat, total: nat)

  /**
   * The stats cards: the length of the pending list, the responded and closed
   * tallies of the full list, and its length; the two tallies never exceed
   * the total.
   */
  function DashboardStats(pending: seq<Ticket>, all: seq<Ticket>): (s: Stats)
    ensures s.pending == |pending| && s.total == |all|
    ensures s.responded == Count(all, HasStatusName("responded"))
    ensures s.closed == Count(all, HasStatusName("closed"))
    ensures s.responded + s.closed <= s.total
  {
    TalliesBounded(all);
    Stats(|pending|, StatusTally(all, "responded"), StatusTally(all, "closed"), |all|)
  }

  class Dashboard {
    var pendingTickets: seq<Ticket>
    var allTickets: seq<Ticket>
    var activeTab: Tab
    var isLoading: bool
    var errorMessage: string
    var selectedTicket: Option<Ticket>
    var response: string
    var isSubmitting: bool
    /** Where `router.push` sent the browser, if anywhere. */
    var navigation: Option<string>
    /** The last `alert` shown, if any. */
    var alert: Option<string>
    /** Every request sent, in order. */
    var requests: seq<Request>

    /** The response modal is only ever open over a pending ticket. */
    ghost predicate Valid()
      reads this
    {
      selectedTicket.Some? ==> RespondOffered(selectedTicket.value)
    }

    constructor()
      ensures Valid()
      ensures pendingTickets == [] && allTickets == [] && activeTab == PendingTab && !isLoading
      ensures errorMessage == "" && selectedTicket.None? && response == "" && !isSubmitting
      ensures navigation.None? && alert.None? && requests == []
    {
      pendingTickets := [];
      allTickets := [];
      activeTab := PendingTab;
      isLoading := false;
      errorMessage := "";
      selectedTicket := None;
      response := "";
      isSubmitting := false;
      navigation := None;
      alert := None;
      requests := [];
    }

    /** The mount effect: an unauthenticated visitor goes to the login page, anyone else loads the tickets. */
    method Mount(store: Store, now: int, pendingReply: Reply<ListBody<Ticket>>, allReply: Reply<ListBody<Ticket>>)
      requires Valid()
      modifies this
      ensures Valid()
      ensures !IsAuthenticated(store, now) ==>
                navigation == Some("/login") && requests == old(requests) && pendingTickets == old(pendingTickets)
                && allTickets == old(allTickets) && errorMessage == old(errorMessage) && isLoading == old(isLoading)
      ensures IsAuthenticated(store, now) ==>
                navigation == old(navigation) && !isLoading
                && requests == old(requests) + LoadRequests(Bearer(store), pendingReply)
      ensures IsAuthenticated(store, now) ==>
                if pendingReply.Reply? && pendingReply.ok && allReply.Reply? && allReply.ok
                then errorMessage == "" && pendingTickets == ArrayOrEmpty(pendingReply.body)
                     && allTickets == ArrayOrEmpty(allReply.body)
                else errorMessage == LoadFailed && pendingTickets == old(pendingTickets) && allTickets == old(allTickets)
      ensures activeTab == old(activeTab) && selectedTicket == old(selectedTicket) && response == old(response)
      ensures isSubmitting == old(isSubmitting) && alert == old(alert)
    {
      if !IsAuthenticated(store, now) {
        navigation := Some("/login");
        return;
      }
      FetchTickets(store, pendingReply, allReply);
    }

    /**
     * `fetchTickets`: clear the error and request the pending list, then the
     * full list (a failed first request stops there). Both replies `ok`
     * replace each list by its body when that is an array and by [] when it
     * is not; any failure sets the load error and keeps both lists. Loading
     * ends on every path.
     */
    method FetchTickets(store: Store, pendingReply: Reply<ListBody<Ticket>>, allReply: Reply<ListBody<Ticket>>)
      requires Valid()
      modifies this
      ensures Valid() && !isLoading
      ensures requests == old(requests) + LoadRequests(Bearer(store), pendingReply)
      ensures if pendingReply.Reply? && pendingReply.ok && allReply.Reply? && allReply.ok
              then errorMessage == "" && pendingTickets == ArrayOrEmpty(pendingReply.body)
                   && allTickets == ArrayOrEmpty(allReply.body)
              else errorMessage == LoadFailed && pendingTickets == old(pendingTickets) && allTickets == old(allTickets)
      ensures activeTab == old(activeTab) && selectedTicket == old(selectedTicket) && response == old(response)
      ensures isSubmitting == old(isSubmitting) && navigation == old(navigation) && alert == old(alert)
    {
      isLoading := true;
      errorMessage := "";
      var authorization := Bearer(store);
      requests := requests + [ListPending(authorization)];
      if pendingReply.Threw? {
        errorMessage := LoadFailed;
        isLoading := false;
        return;
      }
      requests := requests + [ListAll(authorization)];
      if allReply.Threw? || !pendingReply.ok || !allReply.ok {
        errorMessage := LoadFailed;
        isLoading := false;
        return;
      }
      pendingTickets := ArrayOrEmpty(pendingReply.body);
      allTickets := ArrayOrEmpty(allReply.body);
      isLoading := false;
    }

    /** A tab button. */
    method SetTab(tab: Tab)
      requires Valid()
      modifies this
      ensures Valid() && activeTab == tab
      ensures pendingTickets == old(pendingTickets) && allTickets == old(allTickets) && isLoading == old(isLoading)
      ensures errorMessage == old(errorMessage) && selectedTicket == old(selectedTicket) && response == old(response)
      ensures isSubmitting == old(isSubmitting) && navigation == old(navigation) && alert == old(alert)
      ensures requests == old(requests)
    {
      activeTab := tab;
    }

    /** The "Phản hồi" button of a row, which only a pending ticket has: open the modal on it. */
    method SelectTicket(t: Ticket)
      requires Valid()
      modifies this
      ensures Valid()
      ensures selectedTicket == if RespondOffered(t) then Some(t) else old(selectedTicket)
      ensures pendingTickets == old(pendingTickets) && allTickets == old(allTickets) && isLoading == old(isLoading)
      ensures errorMessage == old(errorMessage) && activeTab == old(activeTab) && response == old(response)
      ensures isSubmitting == old(isSubmitting) && navigation == old(navigation) && alert == old(alert)
      ensures requests == old(requests)
    {
      if RespondOffered(t) {
        selectedTicket := Some(t);
      }
    }

    /** Typing in the answer box. */
    method SetResponse(text: string)
      requires Valid()
      modifies this
      ensures Valid() && response == text
      ensures pendingTickets == old(pendingTickets) && allTickets == old(allTickets) && isLoading == old(isLoading)
      ensures errorMessage == old(errorMessage) && activeTab == old(activeTab) && selectedTicket == old(selectedTicket)
      ensures isSubmitting == old(isSubmitting) && navigation == old(navigation) && alert == old(alert)
      ensures requests == old(requests)
    {
      response := text;
    }

    /** The close button and "Hủy" of the modal: drop the selection and the typed answer. */
    method CloseModal()
      requires Valid()
      modifies this
      ensures Valid() && selectedTicket.None? && response == ""
      ensures pendingTickets == old(pendingTickets) && allTickets == old(allTickets) && isLoading == old(isLoading)
      ensures errorMessage == old(errorMessage) && activeTab == old(activeTab)
      ensures isSubmitting == old(isSubmitting) && navigation == old(navigation) && alert == old(alert)
      ensures requests == old(requests)
    {
      selectedTicket := None;
      response := "";
    }

    /**
     * `handleRespond(ticketId)`: a blank answer only alerts. Otherwise post
     * the answer; an `ok` reply alerts success, closes the modal, clears the
     * answer and reloads both lists, and a failed one alerts the failure and
     * keeps the modal and the answer. Submitting ends on every path.
     */
    method HandleRespond(store: Store, ticketId: string, reply: Reply<()>,
                         pendingReply: Reply<ListBody<Ticket>>, allReply: Reply<ListBody<Ticket>>)
      requires Valid()
      modifies this
      ensures Valid()
      ensures IsBlank(old(response)) ==>
                alert == Some(ResponseRequired) && requests == old(requests) && isSubmitting == old(isSubmitting)
                && selectedTicket == old(selectedTicket) && response == old(response)
                && pendingTickets == old(pendingTickets) && allTickets == old(allTickets)
                && errorMessage == old(errorMessage) && isLoading == old(isLoading)
      ensures SubmitEnabled(old(isSubmitting), old(response)) ==> alert != Some(ResponseRequired)
      ensures !IsBlank(old(response)) ==> !isSubmitting
      ensures !IsBlank(old(response)) && reply.Reply? && reply.ok ==>
                alert == Some(ResponseSent) && selectedTicket.None? && response == "" && !isLoading
                && requests == old(requests) + [Respond(Bearer(store), ticketId, old(response))]
                                             + LoadRequests(Bearer(store), pendingReply)
      ensures !IsBlank(old(response)) && reply.Reply? && reply.ok ==>
                if pendingReply.Reply? && pendingReply.ok && allReply.Reply? && allReply.ok
                then errorMessage == "" && pendingTickets == ArrayOrEmpty(pendingReply.body)
                     && allTickets == ArrayOrEmpty(allReply.body)
                else errorMessage == LoadFailed && pendingTickets == old(pendingTickets) && allTickets == old(allTickets)
      ensures !IsBlank(old(response)) && !(reply.Reply? && reply.ok) ==>
                alert == Some(ResponseFailed) && requests == old(requests) + [Respond(Bearer(store), ticketId, old(response))]
                && selectedTicket == old(selectedTicket) && response == old(response)
                && pendingTickets == old(pendingTickets) && allTickets == old(allTickets)
                && errorMessage == old(errorMessage) && isLoading == old(isLoading)
      ensures activeTab == old(activeTab) && navigation == old(navigation)
    {
      if IsBlank(response) {
        alert := Some(ResponseRequired);
        return;
      }
      isSubmitting := true;
      requests := requests + [Respond(Bearer(store), ticketId, response)];
      if reply.Reply? && reply.ok {
        alert := Some(ResponseSent);
        selectedTicket := None;
        response := "";
        FetchTickets(store, pendingReply, allReply);
      } else {
        alert := Some(ResponseFailed);
      }
      isSubmitting := false;
    }
  }
}
