/**
 * The consultant's page of paid appointments (app/consultant/page.tsx): it
 * loads every appointment, keeps the paid ones, and lays them out on the
 * day x slot grid with one appointment (the first) per cell.
 */
module ConsultantPage {
  import opened Common
  import opened ScheduleGrid
  import opened Auth

  /** What an appointment carries besides its day, slot and status. */
  datatype Booking = Booking(id: string, counselorId: string, appointmentDate: string, userEmail: string)

  type Appointment = Entry<Booking>

  /** The `status` of a paid appointment. */
  const Paid: int := 2

  const NotLoggedIn: string := "Bạn chưa đăng nhập."
  const NoAppointments: string := "Không có lịch hẹn nào."
  const LoadFailed: string := "Có lỗi xảy ra khi tải lịch hẹn."

  function IsPaid(a: Appointment): bool {
    a.status == Paid
  }

  /** `items.filter(item => item.status === 2)`: the paid appointments, in their order. */
  function PaidOnly(items: seq<Appointment>): (r: seq<Appointment>)
    ensures |r| <= |items|
    ensures forall a :: a in r <==> a in items && a.status == Paid
  {
    Filter(items, IsPaid)
  }

  /** Keeping the paid appointments of two lists one after the other keeps each list's order. */
  lemma PaidOnlyAppend(a: seq<Appointment>, b: seq<Appointment>)
    ensures PaidOnly(a + b) == PaidOnly(a) + PaidOnly(b)
  {
    FilterAppend(a, b, IsPaid);
  }

  /** A column header: `DAY_NAMES[dayId]` with no fallback, so an unknown day shows nothing. */
  function DayHeader(dayId: int): (r: string)
    ensures 1 <= dayId <= 7 ==> r == DayLabel(dayId)
    ensures !(1 <= dayId <= 7) ==> r == ""
  {
    DayName(dayId).GetOr("")
  }

  class ConsultantPage {
    var appointments: seq<Appointment>
    var loading: bool
    var error: string
    /** The bearer token of the listing request, if one was sent. */
    var sent: Option<string>

    /** Only paid appointments are ever held. */
    ghost predicate Valid()
      reads this
    {
      forall a :: a in appointments ==> a.status == Paid
    }

    constructor()
      ensures Valid()
      ensures appointments == [] && loading && error == "" && sent.None?
    {
      appointments := [];
      loading := true;
      error := "";
      sent := None;
    }

    /** The mount effect: without a token, the not-logged-in error and no request; otherwise load. */
    method Mount(store: Store, reply: Reply<Option<Envelope<Page<Appointment>>>>)
      requires Valid()
      modifies this
      ensures Valid() && !loading
      ensures !HasAccessToken(store) ==>
                error == NotLoggedIn && appointments == old(appointments) && sent == old(sent)
      ensures HasAccessToken(store) ==> sent == Some(store[AccessTokenKey])
      ensures HasAccessToken(store) && reply.Threw? ==> error == LoadFailed && appointments == old(appointments)
      ensures HasAccessToken(store) && reply.Reply? ==>
                match ListedItems(reply.body)
                case Some(items) => appointments == PaidOnly(items) && error == ""
                case None => appointments == [] && error == NoAppointments
    {
      if !HasAccessToken(store) {
        error := NotLoggedIn;
        loading := false;
        return;
      }
      FetchAppointments(store[AccessTokenKey], reply);
    }

    /**
     * `fetchAppointments(token)`: clear the error and request the list (the
     * HTTP status is not looked at). A well-formed listing keeps its paid
     * appointments; any other body empties the list with the no-appointments
     * error; a failure sets the load error and keeps the list. Loading ends
     * on every path.
     */
    method FetchAppointments(token: string, reply: Reply<Option<Envelope<Page<Appointment>>>>)
      requires Valid()
      modifies this
      ensures Valid() && !loading
      ensures sent == Some(token)
      ensures reply.Threw? ==> error == LoadFailed && appointments == old(appointments)
      ensures reply.Reply? ==>
                match ListedItems(reply.body)
                case Some(items) => appointments == PaidOnly(items) && error == ""
                case None => appointments == [] && error == NoAppointments
    {
      loading := true;
      error := "";
      sent := Some(token);
      match reply {
        case Threw =>
          error := LoadFailed;
        case Reply(_, body) =>
          var items := ListedItems(body);
          if items.Some? {
            appointments := PaidOnly(items.value);
          } else {
            appointments := [];
            error := NoAppointments;
          }
      }
      loading := false;
    }
  }

  /**
   * On the consultant's grid every occupied cell shows a paid appointment,
   * the first one the listing holds for that day and slot.
   */
  lemma CellsShowPaid(items: seq<Appointment>, dayId: int, slotId: int)
    ensures var c := Cell(FirstMatch, PaidOnly(items), dayId, slotId);
      && (c.Shows? ==> c.entry in items && c.entry.status == Paid)
      && (c.Shows? <==> exists a :: a in items && a.status == Paid && a.dayId == dayId && a.slotId == slotId)
  {
    var paid := PaidOnly(items);
    var c := Cell(FirstMatch, paid, dayId, slotId);
    forall a | a in items && a.status == Paid && a.dayId == dayId && a.slotId == slotId
      ensures c.Shows?
    {
      assert a in paid;
      var k :| 0 <= k < |paid| && paid[k] == a;
    }
  }
}
