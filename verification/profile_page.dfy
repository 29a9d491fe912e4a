/**
 * The student's profile page (app/profile/page.tsx): the profile loaded from
 * the auth service, the booked appointments with their status badges, the
 * three sidebar tabs, and the edit modal.
 */
module ProfilePage {
  import opened Common
  import opened Auth
  import opened Services

  /** An appointment as the list shows it. */
  datatype Appointment = Appointment(id: string, counselorEmail: string, appointmentDate: string, status: int)

  /** `UserProfileFull`; the nullable members are `Option`s. */
  datatype ProfileFull = ProfileFull(userId: string, email: string, phoneNumber: Option<string>, firstName: string,
                                     lastName: string, dateOfBirth: Option<string>, gender: Option<string>,
                                     address: Option<string>, avatarUrl: Option<string>)

  const NotLoggedIn: string := "Bạn chưa đăng nhập."
  const NoAppointments: string := "Không có lịch hẹn nào."
  const LoadFailed: string := "Có lỗi xảy ra khi tải lịch hẹn."

  /**
   * The badges drawn for a status: one `&&` condition each, for 1, 2, 4
   * and for 3 or 5, in the order they appear.
   */
  function StatusBadges(status: int): (r: seq<string>)
    ensures status == 1 ==> r == ["Chờ thanh toán"]
    ensures status == 2 ==> r == ["Đã thanh toán"]
    ensures status == 4 ==> r == ["Đã hoàn thành"]
    ensures status == 3 || status == 5 ==> r == ["Đã hủy"]
  {
    (if status == 1 then ["Chờ thanh toán"] else [])
    + (if status == 2 then ["Đã thanh toán"] else [])
    + (if status == 4 then ["Đã hoàn thành"] else [])
    + (if status in {3, 5} then ["Đã hủy"] else [])
  }

  /** The conditions never overlap: a status gets one badge when it is 1 to 5, and none otherwise. */
  lemma AtMostOneBadge(status: int)
    ensures |StatusBadges(status)| <= 1
    ensures |StatusBadges(status)| == 1 <==> 1 <= status <= 5
  {
  }

  /** The three sidebar tabs. */
  datatype Tab = ProfileTab | AppointmentTab | TicketTab

  /** What the appointment tab shows. */
  datatype Panel = Spinner | ErrorText(message: string) | NoneBooked | Listing(items: seq<Appointment>)

  /** The requests the page sends: the profile and the appointment list, each with its bearer token. */
  datatype Request = SelectUserProfile(url: string, authorization: string) | ListAppointments(url: string, authorization: string)

  class ProfilePage {
    var appointments: seq<Appointment>
    var loading: bool
    var error: string
    var userProfile: Option<ProfileFull>
    var activeTab: Tab
    var showEditModal: bool
    var editProfile: Option<ProfileFull>
    /** Where `router.push` sent the browser, if anywhere. */
    var navigation: Option<string>
    /** Every request sent, in order. */
    var requests: seq<Request>

    constructor()
      ensures appointments == [] && loading && error == "" && userProfile.None? && activeTab == ProfileTab
      ensures !showEditModal && editProfile.None? && navigation.None? && requests == []
    {
      appointments := [];
      loading := true;
      error := "";
      userProfile := None;
      activeTab := ProfileTab;
      showEditModal := false;
      editProfile := None;
      navigation := None;
      requests := [];
    }

    /** The appointment tab: the spinner, else the error, else the empty notice, else the list. */
    function AppointmentPanel(): (p: Panel)
      reads this
      ensures p == Spinner <==> loading
      ensures p.ErrorText? <==> !loading && error != ""
      ensures p.ErrorText? ==> p.message == error
      ensures p.Listing? ==> p.items == appointments && p.items != []
    {
      if loading then Spinner
      else if error != "" then ErrorText(error)
      else if appointments == [] then NoneBooked
      else Listing(appointments)
    }

    /**
     * The mount effect: without a stored token, go to the login page;
     * otherwise load the profile and then the appointments.
     */
    method Mount(store: Store, profileReply: Reply<Option<Envelope<ProfileFull>>>,
                 listReply: Reply<Option<Envelope<seq<Appointment>>>>)
      modifies this
      ensures !HasAccessToken(store) ==>
                navigation == Some("/login") && requests == old(requests) && appointments == old(appointments)
                && loading == old(loading) && error == old(error) && userProfile == old(userProfile)
                && editProfile == old(editProfile)
      ensures HasAccessToken(store) ==>
                navigation == old(navigation) && !loading
                && requests == old(requests)
                     + [SelectUserProfile(AuthService + "/api/v1/user/SelectUserProfile", "Bearer " + store[AccessTokenKey]),
                        ListAppointments(AppointmentService + "/api/v1/appointment", "Bearer " + store[AccessTokenKey])]
      ensures HasAccessToken(store) ==>
                var p := if profileReply.Reply? && profileReply.ok then EnvelopeResponse(profileReply.body) else None;
                && (p.Some? ==> userProfile == p && editProfile == p)
                && (p.None? ==> userProfile == old(userProfile) && editProfile == old(editProfile))
      ensures HasAccessToken(store) ==>
                if listReply.Reply? && listReply.ok then
                  match EnvelopeResponse(listReply.body)
                  case Some(items) => appointments == items && error == ""
                  case None => error == NoAppointments && appointments == old(appointments)
                else error == LoadFailed && appointments == old(appointments)
      ensures activeTab == old(activeTab) && showEditModal == old(showEditModal)
    {
      var token := Get(store, AccessTokenKey);
      if !Truthy(token) {
        navigation := Some("/login");
        return;
      }
      FetchUserProfile(token.value, profileReply);
      FetchAppointments(store, listReply);
    }

    /**
     * `fetchUserProfile(token)`: a well-formed `ok` reply sets both the shown
     * profile and the one the edit form starts from; anything else changes
     * nothing.
     */
    method FetchUserProfile(token: string, reply: Reply<Option<Envelope<ProfileFull>>>)
      modifies this
      ensures requests == old(requests) + [SelectUserProfile(AuthService + "/api/v1/user/SelectUserProfile", "Bearer " + token)]
      ensures var p := if reply.Reply? && reply.ok then EnvelopeResponse(reply.body) else None;
              && (p.Some? ==> userProfile == p && editProfile == p)
              && (p.None? ==> userProfile == old(userProfile) && editProfile == old(editProfile))
      ensures appointments == old(appointments) && loading == old(loading) && error == old(error)
      ensures activeTab == old(activeTab) && showEditModal == old(showEditModal) && navigation == old(navigation)
    {
      requests := requests + [SelectUserProfile(AuthService + "/api/v1/user/SelectUserProfile", "Bearer " + token)];
      if reply.Threw? || !reply.ok {
        return;
      }
      var p := EnvelopeResponse(reply.body);
      if p.Some? {
        userProfile := p;
        editProfile := p;
      }
    }

    /**
     * `fetchAppointments`: clear the error; without a stored token, the
     * not-logged-in error and no request. Otherwise a successful envelope
     * whose response is an array replaces the list, any other body sets the
     * no-appointments error, and a reply that is not `ok` or a failure sets
     * the load error; the list is kept whenever an error is set. Loading
     * ends on every path.
     */
    method FetchAppointments(store: Store, reply: Reply<Option<Envelope<seq<Appointment>>>>)
      modifies this
      ensures !loading
      ensures !HasAccessToken(store) ==> error == NotLoggedIn && requests == old(requests)
      ensures HasAccessToken(store) ==>
                requests == old(requests) + [ListAppointments(AppointmentService + "/api/v1/appointment",
                                                              "Bearer " + store[AccessTokenKey])]
      ensures HasAccessToken(store) ==>
                if reply.Reply? && reply.ok then
                  match EnvelopeResponse(reply.body)
                  case Some(items) => appointments == items && error == ""
                  case None => error == NoAppointments && appointments == old(appointments)
                else error == LoadFailed && appointments == old(appointments)
      ensures !HasAccessToken(store) ==> appointments == old(appointments)
      ensures AppointmentPanel().ErrorText? || AppointmentPanel() == NoneBooked || AppointmentPanel() == Listing(appointments)
      ensures userProfile == old(userProfile) && editProfile == old(editProfile)
      ensures activeTab == old(activeTab) && showEditModal == old(showEditModal) && navigation == old(navigation)
    {
      loading := true;
      error := "";
      var token := Get(store, AccessTokenKey);
      if !Truthy(token) {
        error := NotLoggedIn;
        loading := false;
        return;
      }
      requests := requests + [ListAppointments(AppointmentService + "/api/v1/appointment", "Bearer " + token.value)];
      if reply.Threw? || !reply.ok {
        error := LoadFailed;
      } else {
        var items := EnvelopeResponse(reply.body);
        if items.Some? {
          appointments := items.value;
        } else {
          error := NoAppointments;
        }
      }
      loading := false;
    }

    /** A sidebar button. */
    method SetTab(tab: Tab)
      modifies this
      ensures activeTab == tab
      ensures appointments == old(appointments) && loading == old(loading) && error == old(error)
      ensures userProfile == old(userProfile) && showEditModal == old(showEditModal)
      ensures editProfile == old(editProfile) && navigation == old(navigation) && requests == old(requests)
    {
      activeTab := tab;
    }

    /** "Cập nhật thông tin": open the edit modal (it is drawn only once a profile has loaded). */
    method OpenEdit()
      modifies this
      ensures showEditModal
      ensures appointments == old(appointments) && loading == old(loading) && error == old(error)
      ensures userProfile == old(userProfile) && activeTab == old(activeTab)
      ensures editProfile == old(editProfile) && navigation == old(navigation) && requests == old(requests)
    {
      showEditModal := true;
    }

    /** Typing in the open edit form: only the draft changes, never the shown profile. */
    method EditDraft(draft: ProfileFull)
      requires showEditModal && editProfile.Some?
      modifies this
      ensures editProfile == Some(draft)
      ensures appointments == old(appointments) && loading == old(loading) && error == old(error)
      ensures userProfile == old(userProfile) && activeTab == old(activeTab) && showEditModal == old(showEditModal)
      ensures navigation == old(navigation) && requests == old(requests)
    {
      editProfile := Some(draft);
    }

    /**
     * Submitting the edit form, or "Hủy": the modal closes. Nothing is sent
     * and the shown profile is unchanged, so an edit is not saved.
     */
    method CloseEdit()
      modifies this
      ensures !showEditModal
      ensures appointments == old(appointments) && loading == old(loading) && error == old(error)
      ensures userProfile == old(userProfile) && activeTab == old(activeTab)
      ensures editProfile == old(editProfile) && navigation == old(navigation) && requests == old(requests)
    {
      showEditModal := false;
    }
  }
}
