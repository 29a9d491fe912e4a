/**
 * The booking page (app/appointment/page.tsx): the counselor schedules laid
 * out on the day x slot grid, the status badge of each entry, and the booking
 * flow: pick an entry, see its detail modal, confirm in the booking modal,
 * submit, and be sent to the checkout URL.
 */
module AppointmentPage {
  import opened Common
  import opened ScheduleGrid
  import opened Auth
  import opened Services

  /** What a schedule entry carries besides its day, slot and status. */
  datatype Counselor = Counselor(scheduleId: string, counselorEmail: string, counselorName: string, day: string)

  /** A counselor schedule: `statusId` is the entry's `status`. */
  type Schedule = Entry<Counselor>

  /** The `ScheduleResponse` body: `success` and the list of schedules. */
  datatype ScheduleBody = ScheduleBody(success: bool, response: seq<Schedule>)

  /** `ScheduleStatus`. */
  const Available: int := 1
  const Booked: int := 2

  /** The content sent with every booking. */
  const BookingContent: string := "Đặt lịch tư vấn"
  const BookingFailed: string := "Đặt lịch thất bại. Vui lòng thử lại."
  const LoadRefused: string := "Không thể tải lịch tư vấn. Vui lòng thử lại sau."
  const LoadHttpError: string := "Có lỗi xảy ra khi tải dữ liệu."
  const LoadFailed: string := "Có lỗi xảy ra. Vui lòng thử lại sau."

  /** The three badges `getStatusBadge` draws. */
  datatype Badge = CanBook | Taken | UnknownStatus

  /** `getStatusBadge(statusId)`: the `switch` over the two known statuses with a default. */
  function StatusBadge(statusId: int): (b: Badge)
    ensures b == CanBook <==> statusId == Available
    ensures b == Taken <==> statusId == Booked
    ensures b == UnknownStatus <==> statusId != Available && statusId != Booked
  {
    if statusId == Available then CanBook
    else if statusId == Booked then Taken
    else UnknownStatus
  }

  /** The text inside each badge; the three are different. */
  function BadgeText(b: Badge): (r: string)
    ensures b == CanBook ==> r == "Có thể đặt"
    ensures b == Taken ==> r == "Đã đặt"
    ensures b == UnknownStatus ==> r == "Không xác định"
  {
    match b
    case CanBook => "Có thể đặt"
    case Taken => "Đã đặt"
    case UnknownStatus => "Không xác định"
  }

  /** The grid button of an entry is `disabled` exactly when the entry is booked. */
  predicate IsDisabled(s: Schedule) {
    s.status == Booked
  }

  /** The detail modal offers "Đặt lịch" exactly when the entry is available. */
  predicate BookOffered(s: Schedule) {
    s.status == Available
  }

  /**
   * An entry that can be booked can also be clicked, and an entry whose
   * status is neither opens a modal that offers no booking.
   */
  lemma BookableIsClickable(s: Schedule)
    ensures BookOffered(s) ==> !IsDisabled(s) && StatusBadge(s.status) == CanBook
    ensures IsDisabled(s) ==> !BookOffered(s) && StatusBadge(s.status) == Taken
    ensures !IsDisabled(s) && !BookOffered(s) ==> StatusBadge(s.status) == UnknownStatus
  {
  }

  /** The message `fetchCounselorSchedules` sets for a reply, or `None` when it loads the schedules. */
  function LoadError(reply: Reply<ScheduleBody>): (r: Option<string>)
    ensures r.None? <==> reply.Reply? && reply.ok && reply.body.success
    ensures reply.Threw? ==> r == Some(LoadFailed)
    ensures reply.Reply? && !reply.ok ==> r == Some(LoadHttpError)
    ensures reply.Reply? && reply.ok && !reply.body.success ==> r == Some(LoadRefused)
  {
    match reply
    case Threw => Some(LoadFailed)
    case Reply(ok, body) =>
      if !ok then Some(LoadHttpError)
      else if body.success then None
      else Some(LoadRefused)
  }

  class AppointmentPage {
    var schedules: seq<Schedule>
    var isLoading: bool
    var error: string
    var userProfile: Option<UserProfile>
    var selectedSlot: Option<Schedule>
    var showBookingModal: bool
    var showCounselorModal: bool
    /** Where `router.push` or `window.location.href` sent the browser, if anywhere. */
    var navigation: Option<string>
    /** The last `alert` shown, if any. */
    var alert: Option<string>
    /** The booking request sent, if any. */
    var sent: Option<CreateRequest>

    /**
     * A modal is open only over a selected entry, at most one is open, and
     * the booking modal only ever confirms an available entry.
     */
    ghost predicate Valid()
      reads this
    {
      (showCounselorModal ==> selectedSlot.Some?)
      && (showBookingModal ==> selectedSlot.Some? && BookOffered(selectedSlot.value))
      && !(showCounselorModal && showBookingModal)
    }

    constructor()
      ensures Valid()
      ensures schedules == [] && isLoading && error == "" && userProfile.None? && selectedSlot.None?
      ensures !showBookingModal && !showCounselorModal && navigation.None? && alert.None? && sent.None?
    {
      schedules := [];
      isLoading := true;
      error := "";
      userProfile := None;
      selectedSlot := None;
      showBookingModal := false;
      showCounselorModal := false;
      navigation := None;
      alert := None;
      sent := None;
    }

    /**
     * The mount effect: without a stored token, go to the login page and
     * fetch nothing; otherwise take the cached profile, if any, and load the
     * schedules.
     */
    method Mount(store: Store, decode: string -> Option<UserProfile>, reply: Reply<ScheduleBody>)
      requires Valid()
      modifies this
      ensures Valid()
      ensures !HasAccessToken(store) ==>
                navigation == Some("/login") && schedules == old(schedules) && isLoading == old(isLoading)
                && error == old(error) && userProfile == old(userProfile)
      ensures HasAccessToken(store) ==>
                navigation == old(navigation) && !isLoading
                && userProfile == (if GetStoredUserProfile(store, decode).Some? then GetStoredUserProfile(store, decode)
                                   else old(userProfile))
                && error == LoadError(reply).GetOr(old(error))
                && schedules == (if LoadError(reply).None? then reply.body.response else old(schedules))
      ensures selectedSlot == old(selectedSlot) && showBookingModal == old(showBookingModal)
      ensures showCounselorModal == old(showCounselorModal) && alert == old(alert) && sent == old(sent)
    {
      if !HasAccessToken(store) {
        navigation := Some("/login");
        return;
      }
      var profile := GetStoredUserProfile(store, decode);
      if profile.Some? {
        userProfile := profile;
      }
      FetchSchedules(reply);
    }

    /**
     * `fetchCounselorSchedules`: a successful envelope replaces the schedules;
     * any other outcome sets its message and keeps them. The error is never
     * cleared, and loading ends on every path.
     */
    method FetchSchedules(reply: Reply<ScheduleBody>)
      requires Valid()
      modifies this
      ensures Valid()
      ensures !isLoading
      ensures LoadError(reply).None? ==> schedules == reply.body.response && error == old(error)
      ensures LoadError(reply).Some? ==> schedules == old(schedules) && error == LoadError(reply).value
      ensures userProfile == old(userProfile) && selectedSlot == old(selectedSlot)
      ensures showBookingModal == old(showBookingModal) && showCounselorModal == old(showCounselorModal)
      ensures navigation == old(navigation) && alert == old(alert) && sent == old(sent)
    {
      isLoading := true;
      match reply {
        case Threw =>
          error := LoadFailed;
        case Reply(ok, body) =>
          if ok {
            if body.success {
              schedules := body.response;
            } else {
              error := LoadRefused;
            }
          } else {
            error := LoadHttpError;
          }
      }
      isLoading := false;
    }

    /** `handleSlotClick(slot)`: select the entry and open its detail modal. */
    method HandleSlotClick(slot: Schedule)
      modifies this
      ensures selectedSlot == Some(slot) && showCounselorModal
      ensures schedules == old(schedules) && isLoading == old(isLoading) && error == old(error)
      ensures userProfile == old(userProfile) && showBookingModal == old(showBookingModal)
      ensures navigation == old(navigation) && alert == old(alert) && sent == old(sent)
    {
      selectedSlot := Some(slot);
      showCounselorModal := true;
    }

    /**
     * A click on the grid cell (dayId, slotId). The cell holds a button only
     * when some schedule occupies it, the button is for the first such
     * schedule, it is disabled for a booked one, and an open modal covers
     * the grid; in every other case the click does nothing.
     */
    method ClickCell(dayId: int, slotId: int)
      requires Valid()
      modifies this
      ensures Valid()
      ensures var cell := Cell(AllMatches, schedules, dayId, slotId);
              if !old(showBookingModal) && !old(showCounselorModal) && cell.Shows? && !IsDisabled(cell.entry)
              then selectedSlot == Some(cell.entry) && showCounselorModal
              else selectedSlot == old(selectedSlot) && showCounselorModal == old(showCounselorModal)
      ensures schedules == old(schedules) && isLoading == old(isLoading) && error == old(error)
      ensures userProfile == old(userProfile) && showBookingModal == old(showBookingModal)
      ensures navigation == old(navigation) && alert == old(alert) && sent == old(sent)
    {
      var cell := Cell(AllMatches, schedules, dayId, slotId);
      if !showBookingModal && !showCounselorModal && cell.Shows? && !IsDisabled(cell.entry) {
        HandleSlotClick(cell.entry);
      }
    }

    /** The "Đặt lịch" button of the detail modal, shown only for an available entry: swap to the booking modal. */
    method ChooseBook()
      requires Valid()
      modifies this
      ensures Valid()
      ensures if old(showCounselorModal) && BookOffered(old(selectedSlot).value)
              then !showCounselorModal && showBookingModal
              else showCounselorModal == old(showCounselorModal) && showBookingModal == old(showBookingModal)
      ensures selectedSlot == old(selectedSlot) && schedules == old(schedules) && isLoading == old(isLoading)
      ensures error == old(error) && userProfile == old(userProfile)
      ensures navigation == old(navigation) && alert == old(alert) && sent == old(sent)
    {
      if showCounselorModal && BookOffered(selectedSlot.value) {
        showCounselorModal := false;
        showBookingModal := true;
      }
    }

    /** The overlay and the close button of the detail modal, present while it is open: close it and drop the selection. */
    method CloseCounselorModal()
      requires Valid() && showCounselorModal
      modifies this
      ensures Valid()
      ensures !showCounselorModal && selectedSlot.None?
      ensures !showBookingModal
      ensures schedules == old(schedules) && isLoading == old(isLoading) && error == old(error)
      ensures userProfile == old(userProfile) && navigation == old(navigation) && alert == old(alert) && sent == old(sent)
    {
      showCounselorModal := false;
      selectedSlot := None;
    }

    /** "Hủy" in the booking modal, present while it is open: close it and drop the selection. */
    method CancelBooking()
      requires Valid() && showBookingModal
      modifies this
      ensures Valid()
      ensures !showBookingModal && selectedSlot.None?
      ensures !showCounselorModal
      ensures schedules == old(schedules) && isLoading == old(isLoading) && error == old(error)
      ensures userProfile == old(userProfile) && navigation == old(navigation) && alert == old(alert) && sent == old(sent)
    {
      showBookingModal := false;
      selectedSlot := None;
    }

    /**
     * `handleBooking`: nothing without a selection. Otherwise close the
     * booking modal and create the appointment for the selected schedule; a
     * checkout URL sends the browser there, a null result alerts, and a
     * rejected call (it has no `catch`) does neither.
     */
    method HandleBooking(store: Store, reply: Reply<Option<Envelope<Checkout>>>)
      requires Valid()
      modifies this
      ensures Valid()
      ensures old(selectedSlot).None? ==>
                showBookingModal == old(showBookingModal) && sent == old(sent)
                && navigation == old(navigation) && alert == old(alert)
      ensures old(selectedSlot).Some? ==>
                var call := CreateAppointment(store, old(selectedSlot).value.payload.scheduleId, BookingContent, reply);
                && !showBookingModal
                && sent == (if call.request.Some? then call.request else old(sent))
                && navigation == (if call.result.Resolved? && call.result.value.Some? then call.result.value
                                  else old(navigation))
                && alert == (if call.result == Resolved(None) then Some(BookingFailed) else old(alert))
      ensures selectedSlot == old(selectedSlot) && showCounselorModal == old(showCounselorModal)
      ensures schedules == old(schedules) && isLoading == old(isLoading) && error == old(error)
      ensures userProfile == old(userProfile)
    {
      if selectedSlot.None? {
        return;
      }
      showBookingModal := false;
      var call := CreateAppointment(store, selectedSlot.value.payload.scheduleId, BookingContent, reply);
      if call.request.Some? {
        sent := call.request;
      }
      match call.result
      case Rejected =>
      case Resolved(url) =>
        if url.Some? {
          navigation := url;
        } else {
          alert := Some(BookingFailed);
        }
    }
  }
}
