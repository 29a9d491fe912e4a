/**
 * The ticket request form (app/request-tickets/page.tsx): who the student
 * is (from `localStorage`, with a fallback to the cached profile that also
 * fills the storage in), the list of the student's tickets, and the
 * submission of a new ticket with its priority turned into an id.
 */
module RequestTickets {
  import opened Common
  import opened Auth
  import opened Services
  import opened TicketViews

  const StudentIdKey: string := "student_id"
  const UserIdKey: string := "user_id"

  const MissingIdentity: string := "⚠️ Không tìm thấy thông tin người dùng. Vui lòng đăng nhập lại."
  const SubmitFailed: string := "❌ Có lỗi xảy ra khi gửi ticket. Vui lòng thử lại!"
  const SubmitSucceeded: string := "🎉 Ticket đã được gửi thành công!"

  /** The four options of the priority select, in their order. */
  const PriorityOptions: seq<string> := ["Low", "Medium", "High", "Urgent"]

  /** `mapPriorityToId`: the four priorities are 1 to 4 in order; anything else counts as "Medium". */
  function MapPriorityToId(priority: string): (id: int)
    ensures 1 <= id <= 4
    ensures priority !in PriorityOptions ==> id == 2
  {
    if priority == "Low" then 1
    else if priority == "Medium" then 2
    else if priority == "High" then 3
    else if priority == "Urgent" then 4
    else 2
  }

  /** Each option gets the id of its position, so the id names the option back. */
  lemma PriorityIdsRoundTrip(priority: string)
    requires priority in PriorityOptions
    ensures PriorityOptions[MapPriorityToId(priority) - 1] == priority
  {
  }

  /** Different options get different ids. */
  lemma PriorityIdsDistinct(i: int, j: int)
    requires 0 <= i < |PriorityOptions| && 0 <= j < |PriorityOptions| && i != j
    ensures MapPriorityToId(PriorityOptions[i]) != MapPriorityToId(PriorityOptions[j])
  {
    assert MapPriorityToId(PriorityOptions[i]) == i + 1;
    assert MapPriorityToId(PriorityOptions[j]) == j + 1;
  }

  /**
   * What the page reads from a parsed cached profile: its `userId` and
   * `email`, each missing or not. A profile that does not parse, or parses to
   * something whose members cannot be read, is `None`.
   */
  datatype ProfileFields = ProfileFields(userId: Option<string>, email: Option<string>)

  /** Who the page thinks the student is, and the storage after working it out. */
  datatype Identity = Identity(studentId: Option<string>, createdBy: Option<string>, store: Store)

  /** `if (v) localStorage.setItem(key, v)`. */
  function WriteIfTruthy(store: Store, key: string, v: Option<string>): (r: Store)
    ensures Truthy(v) ==> r == store[key := v.value]
    ensures !Truthy(v) ==> r == store
  {
    if Truthy(v) then store[key := v.value] else store
  }

  /**
   * The first mount effect: `student_id` and `user_id` from storage; when
   * either is missing or empty and a cached profile parses, both are
   * replaced by its `userId` and `email`, and each is stored if non-empty.
   */
  function ResolveIdentity(store: Store, decode: string -> Option<ProfileFields>): (r: Identity)
    ensures Truthy(Get(store, StudentIdKey)) && Truthy(Get(store, UserIdKey)) ==>
              r == Identity(Get(store, StudentIdKey), Get(store, UserIdKey), store)
    ensures forall k :: k != StudentIdKey && k != UserIdKey ==> Get(r.store, k) == Get(store, k)
    ensures Truthy(r.studentId) ==> Get(r.store, StudentIdKey) == r.studentId
    ensures Truthy(r.createdBy) ==> Get(r.store, UserIdKey) == r.createdBy
    ensures !(Truthy(Get(store, StudentIdKey)) && Truthy(Get(store, UserIdKey))) && Truthy(Get(store, UserProfileKey))
            && decode(store[UserProfileKey]).Some? ==>
              var p := decode(store[UserProfileKey]).value;
              && r.studentId == p.userId && r.createdBy == p.email
              && r.store == WriteIfTruthy(WriteIfTruthy(store, StudentIdKey, p.userId), UserIdKey, p.email)
    ensures !Truthy(Get(store, UserProfileKey)) || decode(store[UserProfileKey]).None? ==>
              r == Identity(Get(store, StudentIdKey), Get(store, UserIdKey), store)
  {
    var sid := Get(store, StudentIdKey);
    var uid := Get(store, UserIdKey);
    var raw := Get(store, UserProfileKey);
    if (Truthy(sid) && Truthy(uid)) || !Truthy(raw) then Identity(sid, uid, store)
    else match decode(raw.value)
      case None => Identity(sid, uid, store)
      case Some(p) =>
        Identity(p.userId, p.email, WriteIfTruthy(WriteIfTruthy(store, StudentIdKey, p.userId), UserIdKey, p.email))
  }

  /**
   * Working the identity out again on the storage it left changes the
   * storage no further, and gives the same identity whenever the first pass
   * found both ids.
   */
  lemma ResolveIdentityStable(store: Store, decode: string -> Option<ProfileFields>)
    ensures ResolveIdentity(ResolveIdentity(store, decode).store, decode).store == ResolveIdentity(store, decode).store
    ensures var r := ResolveIdentity(store, decode);
            Truthy(r.studentId) && Truthy(r.createdBy) ==> ResolveIdentity(r.store, decode) == r
  {
    var r := ResolveIdentity(store, decode);
    var raw := Get(store, UserProfileKey);
    assert Get(r.store, UserProfileKey) == raw;
    var sid := Get(store, StudentIdKey);
    var uid := Get(store, UserIdKey);
    if !((Truthy(sid) && Truthy(uid)) || !Truthy(raw)) && decode(raw.value).Some? {
      var p := decode(raw.value).value;
      assert StudentIdKey != UserIdKey && UserProfileKey != StudentIdKey && UserProfileKey != UserIdKey;
      var written := WriteIfTruthy(WriteIfTruthy(store, StudentIdKey, p.userId), UserIdKey, p.email);
      assert r == Identity(p.userId, p.email, written);
      assert WriteIfTruthy(WriteIfTruthy(written, StudentIdKey, p.userId), UserIdKey, p.email) == written;
      assert decode(Get(written, UserProfileKey).value) == Some(p);
    }
  }

  /**
   * The fallback replaces both ids even when only one is missing: a stored
   * student id is dropped on a visit whose cached profile has an email but
   * no `userId`, and read again on the next visit, which then finds both.
   */
  lemma FallbackDropsStoredStudentId(decode: string -> Option<ProfileFields>)
    requires decode("{}") == Some(ProfileFields(None, Some("a@b")))
    ensures var store := map[StudentIdKey := "S1", UserProfileKey := "{}"];
            var first := ResolveIdentity(store, decode);
            && first.studentId.None? && first.createdBy == Some("a@b")
            && ResolveIdentity(first.store, decode).studentId == Some("S1")
  {
    var store := map[StudentIdKey := "S1", UserProfileKey := "{}"];
    assert StudentIdKey != UserIdKey && UserProfileKey != StudentIdKey && UserProfileKey != UserIdKey;
    assert Get(store, UserIdKey).None?;
    var first := ResolveIdentity(store, decode);
    assert first.store == store[UserIdKey := "a@b"];
  }

  /**
   * The list shown for the student: a bare array, else the object's
   * `tickets` array, else nothing (also when the body is `null`, whose
   * member access throws and is caught).
   */
  function NormalizeTickets(body: ListBody<Ticket>): (r: seq<Ticket>)
    ensures body.ArrayBody? ==> r == body.items
    ensures body.ObjectBody? && body.tickets.Some? ==> r == body.tickets.value
    ensures body.NullBody? || (body.ObjectBody? && body.tickets.None?) ==> r == []
  {
    match body
    case ArrayBody(items) => items
    case ObjectBody(tickets) => tickets.GetOr([])
    case NullBody => []
  }

  /** The form's four fields. */
  datatype TicketForm = TicketForm(title: string, description: string, priority: string, category: string)

  const InitialForm: TicketForm := TicketForm("", "", "Medium", "General")

  /** The body of the create request. */
  datatype TicketPayload = TicketPayload(studentId: string, title: string, description: string, priorityId: int,
                                         category: string, createdBy: string)

  /** The requests the page sends. */
  datatype Request =
    | ListForStudent(url: string, authorization: string)
    | CreateTicket(authorization: string, payload: TicketPayload)

  class RequestTicketPage {
    var form: TicketForm
    var isLoading: bool
    var studentId: Option<string>
    var createdBy: Option<string>
    var errorMessage: string
    var ticketList: seq<Ticket>
    var isLoadingList: bool
    /** Where `router.push` sent the browser, if anywhere. */
    var navigation: Option<string>
    /** The last `alert` shown, if any. */
    var alert: Option<string>
    /** Every request sent, in order. */
    var requests: seq<Request>

    constructor()
      ensures form == InitialForm && !isLoading && studentId.None? && createdBy.None? && errorMessage == ""
      ensures ticketList == [] && !isLoadingList && navigation.None? && alert.None? && requests == []
    {
      form := InitialForm;
      isLoading := false;
      studentId := None;
      createdBy := None;
      errorMessage := "";
      ticketList := [];
      isLoadingList := false;
      navigation := None;
      alert := None;
      requests := [];
    }

    /**
     * The two mount effects: work out the identity (writing the fallback
     * into the browser's storage), then list the student's tickets when a
     * student id is known.
     */
    method Mount(browser: Browser, decode: string -> Option<ProfileFields>, listReply: Reply<ListBody<Ticket>>)
      modifies this, browser
      ensures var r := ResolveIdentity(old(browser.storage), decode);
              && browser.storage == r.store && studentId == r.studentId && createdBy == r.createdBy
              && (!Truthy(r.studentId) ==>
                    requests == old(requests) && ticketList == old(ticketList) && isLoadingList == old(isLoadingList))
              && (Truthy(r.studentId) ==>
                    requests == old(requests) + [ListForStudent(RequestTicketService + "/request-tickets?studentId="
                                                                + r.studentId.value, Bearer(r.store))]
                    && ticketList == (if listReply.Reply? && listReply.ok then NormalizeTickets(listReply.body) else [])
                    && !isLoadingList)
      ensures browser.location == old(browser.location)
      ensures form == old(form) && isLoading == old(isLoading) && errorMessage == old(errorMessage)
      ensures navigation == old(navigation) && alert == old(alert)
    {
      var r := ResolveIdentity(browser.storage, decode);
      browser.storage := r.store;
      studentId := r.studentId;
      createdBy := r.createdBy;
      if Truthy(studentId) {
        FetchTicketList(studentId.value, browser.storage, listReply);
      }
    }

    /** The list effect: request the student's tickets; anything but an `ok` reply leaves the list empty. */
    method FetchTicketList(sid: string, store: Store, reply: Reply<ListBody<Ticket>>)
      modifies this
      ensures requests == old(requests) + [ListForStudent(RequestTicketService + "/request-tickets?studentId=" + sid,
                                                          Bearer(store))]
      ensures ticketList == if reply.Reply? && reply.ok then NormalizeTickets(reply.body) else []
      ensures !isLoadingList
      ensures form == old(form) && isLoading == old(isLoading) && errorMessage == old(errorMessage)
      ensures studentId == old(studentId) && createdBy == old(createdBy)
      ensures navigation == old(navigation) && alert == old(alert)
    {
      isLoadingList := true;
      requests := requests + [ListForStudent(RequestTicketService + "/request-tickets?studentId=" + sid, Bearer(store))];
      if reply.Reply? && reply.ok {
        ticketList := NormalizeTickets(reply.body);
      } else {
        ticketList := [];
      }
      isLoadingList := false;
    }

    /** Typing in the form. */
    method Edit(f: TicketForm)
      modifies this
      ensures form == f
      ensures isLoading == old(isLoading) && studentId == old(studentId) && createdBy == old(createdBy)
      ensures errorMessage == old(errorMessage) && ticketList == old(ticketList) && isLoadingList == old(isLoadingList)
      ensures navigation == old(navigation) && alert == old(alert) && requests == old(requests)
    {
      form := f;
    }

    /**
     * `handleSubmit`: clear the error; an unauthenticated visitor goes to the
     * login page; a missing student id or creator sets an error; otherwise
     * post the ticket with its priority id. An `ok` reply alerts success and
     * goes to the ticket list when the student asks to see it (`viewList`,
     * the answer to the `confirm`) and home otherwise; any failure sets the
     * error. Loading ends on every path.
     */
    method HandleSubmit(store: Store, now: int, reply: Reply<()>, viewList: bool)
      modifies this
      ensures !IsAuthenticated(store, now) ==>
                errorMessage == "" && navigation == Some("/login") && requests == old(requests)
                && alert == old(alert) && isLoading == old(isLoading)
      ensures IsAuthenticated(store, now) && !(Truthy(old(studentId)) && Truthy(old(createdBy))) ==>
                errorMessage == MissingIdentity && navigation == old(navigation) && requests == old(requests)
                && alert == old(alert) && isLoading == old(isLoading)
      ensures IsAuthenticated(store, now) && Truthy(old(studentId)) && Truthy(old(createdBy)) ==>
                !isLoading
                && requests == old(requests) + [CreateTicket(Bearer(store), TicketPayload(
                     old(studentId).value, old(form).title, old(form).description,
                     MapPriorityToId(old(form).priority), old(form).category, old(createdBy).value))]
                && (reply.Reply? && reply.ok ==>
                      errorMessage == "" && alert == Some(SubmitSucceeded)
                      && navigation == Some(if viewList then "/my-tickets" else "/"))
                && (!(reply.Reply? && reply.ok) ==>
                      errorMessage == SubmitFailed && alert == old(alert) && navigation == old(navigation))
      ensures form == old(form) && studentId == old(studentId) && createdBy == old(createdBy)
      ensures ticketList == old(ticketList) && isLoadingList == old(isLoadingList)
    {
      errorMessage := "";
      if !IsAuthenticated(store, now) {
        navigation := Some("/login");
        return;
      }
      if !Truthy(studentId) || !Truthy(createdBy) {
        errorMessage := MissingIdentity;
        return;
      }
      var payload := TicketPayload(studentId.value, form.title, form.description, MapPriorityToId(form.priority),
                                   form.category, createdBy.value);
      isLoading := true;
      requests := requests + [CreateTicket(Bearer(store), payload)];
      if reply.Reply? && reply.ok {
        alert := Some(SubmitSucceeded);
        if viewList {
          navigation := Some("/my-tickets");
        } else {
          navigation := Some("/");
        }
      } else {
        errorMessage := SubmitFailed;
      }
      isLoading := false;
    }

    /**
     * The form's submit event: the browser lets it through only when the
     * two `required` fields, title and description, are non-empty.
     */
    method Submit(store: Store, now: int, reply: Reply<()>, viewList: bool)
      modifies this
      ensures old(form).title == "" || old(form).description == "" ==>
                errorMessage == old(errorMessage) && requests == old(requests) && navigation == old(navigation)
                && alert == old(alert) && isLoading == old(isLoading)
      ensures old(form).title != "" && old(form).description != "" && !IsAuthenticated(store, now) ==>
                errorMessage == "" && navigation == Some("/login") && requests == old(requests)
                && alert == old(alert) && isLoading == old(isLoading)
      ensures old(form).title != "" && old(form).description != "" && IsAuthenticated(store, now)
              && !(Truthy(old(studentId)) && Truthy(old(createdBy))) ==>
                errorMessage == MissingIdentity && navigation == old(navigation) && requests == old(requests)
                && alert == old(alert) && isLoading == old(isLoading)
      ensures old(form).title != "" && old(form).description != "" && IsAuthenticated(store, now)
              && Truthy(old(studentId)) && Truthy(old(createdBy)) ==>
                !isLoading
                && requests == old(requests) + [CreateTicket(Bearer(store), TicketPayload(
                     old(studentId).value, old(form).title, old(form).description,
                     MapPriorityToId(old(form).priority), old(form).category, old(createdBy).value))]
                && (reply.Reply? && reply.ok ==>
                      errorMessage == "" && alert == Some(SubmitSucceeded)
                      && navigation == Some(if viewList then "/my-tickets" else "/"))
                && (!(reply.Reply? && reply.ok) ==>
                      errorMessage == SubmitFailed && alert == old(alert) && navigation == old(navigation))
      ensures |requests| >= |old(requests)| && requests[..|old(requests)|] == old(requests)
      ensures forall k :: |old(requests)| <= k < |requests| ==>
                requests[k].CreateTicket? && requests[k].payload.title != "" && requests[k].payload.description != ""
                && 1 <= requests[k].payload.priorityId <= 4
      ensures form == old(form) && studentId == old(studentId) && createdBy == old(createdBy)
      ensures ticketList == old(ticketList) && isLoadingList == old(isLoadingList)
    {
      if form.title != "" && form.description != "" {
        HandleSubmit(store, now, reply, viewList);
      }
    }
  }
}
