/**
 * The admin dashboard (app/admin/page.tsx): the summary cards, the status
 * distribution, the five most recent appointments, and the loads behind
 * them (two primary requests, then a deferred pair).
 */
module AdminPage {
  import opened Common
  import opened Auth

  datatype Appointment = Appointment(id: string, counselorId: string, status: int, appointmentDate: string,
                                     userName: string, counselorName: string)

  datatype CounselorSchedule = CounselorSchedule(scheduleId: string, counselorId: string, dayId: int, slotId: int)

  datatype MonthlyData = MonthlyData(year: int, month: int, count: int)

  /** The 6-month statistics; `todayCount` is 0 or more. */
  datatype AppointmentStats = AppointmentStats(monthlyData: seq<MonthlyData>, todayCount: nat, todayDate: string)

  /** The appointment statuses. */
  const Pending: int := 1
  const PaidStatus: int := 2
  const Cancelled: int := 3
  const Completed: int := 4

  /** One slice of the status pie chart. */
  datatype Slice = Slice(name: string, value: nat, color: string)

  function HasStatus(s: int): Appointment -> bool {
    (a: Appointment) => a.status == s
  }

  /** `allAppointments.filter(a => a.status === s).length`. */
  function StatusCount(xs: seq<Appointment>, s: int): (n: nat)
    ensures n == Count(xs, HasStatus(s))
  {
    FilterLength(xs, HasStatus(s));
    |Filter(xs, HasStatus(s))|
  }

  /** `statusData`: pending, paid, completed and cancelled, in that order, each with its count. */
  function StatusData(xs: seq<Appointment>): (r: seq<Slice>)
    ensures |r| == 4
    ensures r[0] == Slice("Chờ xác nhận", StatusCount(xs, Pending), "#fbbf24")
    ensures r[1] == Slice("Đã thanh toán", StatusCount(xs, PaidStatus), "#10b981")
    ensures r[2] == Slice("Đã hoàn thành", StatusCount(xs, Completed), "#3b82f6")
    ensures r[3] == Slice("Đã hủy", StatusCount(xs, Cancelled), "#ef4444")
  {
    [Slice("Chờ xác nhận", StatusCount(xs, Pending), "#fbbf24"),
     Slice("Đã thanh toán", StatusCount(xs, PaidStatus), "#10b981"),
     Slice("Đã hoàn thành", StatusCount(xs, Completed), "#3b82f6"),
     Slice("Đã hủy", StatusCount(xs, Cancelled), "#ef4444")]
  }

  /** A status outside 1..4. */
  function OtherStatus(a: Appointment): bool {
    !(1 <= a.status <= 4)
  }

  /** The sum of the four slices of a list. */
  function SliceTotal(xs: seq<Appointment>): nat {
    Count(xs, HasStatus(Pending)) + Count(xs, HasStatus(PaidStatus))
    + Count(xs, HasStatus(Completed)) + Count(xs, HasStatus(Cancelled))
  }

  /** Every appointment lands in exactly one of the four slices or has some other status. */
  lemma {:induction false} SlicesPartition(xs: seq<Appointment>)
    ensures SliceTotal(xs) + Count(xs, OtherStatus) == |xs|
  {
    if xs != [] {
      SlicesPartition(xs[1..]);
    }
  }

  /**
   * The four slices add up to at most the number of appointments, and to
   * exactly that number when every status is one of 1..4.
   */
  lemma StatusDataTotal(xs: seq<Appointment>)
    ensures var d := StatusData(xs); d[0].value + d[1].value + d[2].value + d[3].value <= |xs|
    ensures (forall k :: 0 <= k < |xs| ==> 1 <= xs[k].status <= 4) ==>
              var d := StatusData(xs); d[0].value + d[1].value + d[2].value + d[3].value == |xs|
  {
    SlicesPartition(xs);
    if forall k :: 0 <= k < |xs| ==> 1 <= xs[k].status <= 4 {
      NoneCounted(xs, OtherStatus);
    }
  }

  /** Nothing is counted when no element satisfies the predicate. */
  lemma {:induction false} NoneCounted(xs: seq<Appointment>, p: Appointment -> bool)
    requires forall k :: 0 <= k < |xs| ==> !p(xs[k])
    ensures Count(xs, p) == 0
  {
    if xs != [] {
      NoneCounted(xs[1..], p);
    }
  }

  /** `new Set(counselorSchedules.map(cs => cs.counselorId))`: the distinct counselor ids. */
  function CounselorIds(xs: seq<CounselorSchedule>): (r: set<string>)
    ensures forall id :: id in r <==> exists k :: 0 <= k < |xs| && xs[k].counselorId == id
    ensures |r| <= |xs|
    ensures xs != [] ==> |r| >= 1
  {
    if xs == [] then {}
    else
      var rest := CounselorIds(xs[1..]);
      assert forall k :: 1 <= k < |xs| ==> xs[k] == xs[1..][k - 1];
      {xs[0].counselorId} + rest
  }

  /** `uniqueCounselors`: the number of distinct counselors that have a schedule. */
  function UniqueCounselors(xs: seq<CounselorSchedule>): (n: nat)
    ensures n <= |xs|
    ensures n == 0 <==> xs == []
    ensures n == |CounselorIds(xs)|
  {
    |CounselorIds(xs)|
  }

  /** Schedules that all belong to one counselor count as one. */
  lemma OneCounselor(xs: seq<CounselorSchedule>, id: string)
    requires xs != [] && forall k :: 0 <= k < |xs| ==> xs[k].counselorId == id
    ensures UniqueCounselors(xs) == 1
  {
    assert CounselorIds(xs) == {id};
  }

  /** `uniqueCounselors || totalConsultants`: the consultant card falls back only when no schedule exists. */
  function CounselorCard(schedules: seq<CounselorSchedule>, totalConsultants: nat): (n: nat)
    ensures schedules != [] ==> n == UniqueCounselors(schedules) && n >= 1
    ensures schedules == [] ==> n == totalConsultants
  {
    var unique := UniqueCounselors(schedules);
    if unique != 0 then unique else totalConsultants
  }

  /** `appointmentStats?.todayCount || 0`. */
  function TodayCard(stats: Option<AppointmentStats>): (n: nat)
    ensures stats.None? ==> n == 0
    ensures stats.Some? ==> n == stats.value.todayCount
  {
    if stats.Some? && stats.value.todayCount != 0 then stats.value.todayCount else 0
  }

  /** The status text of the recent-appointments table. */
  function StatusLabel(status: int): (r: string)
    ensures status == Pending ==> r == "Chờ xác nhận"
    ensures status == PaidStatus ==> r == "Đã thanh toán"
    ensures status == Cancelled ==> r == "Đã hủy"
    ensures status == Completed ==> r == "Đã hoàn thành"
    ensures !(1 <= status <= 4) ==> r == "Không xác định"
  {
    if status == 1 then "Chờ xác nhận"
    else if status == 2 then "Đã thanh toán"
    else if status == 3 then "Đã hủy"
    else if status == 4 then "Đã hoàn thành"
    else "Không xác định"
  }

  /** The four known statuses have four different labels, none of them the unknown one. */
  lemma StatusLabelsDistinct(s1: int, s2: int)
    requires 1 <= s1 <= 4 && 1 <= s2 <= 4 && s1 != s2
    ensures StatusLabel(s1) != StatusLabel(s2) && StatusLabel(s1) != "Không xác định"
  {
    assert |StatusLabel(s1)| != |StatusLabel(s2)| || StatusLabel(s1)[3] != StatusLabel(s2)[3];
  }

  /** `allAppointments.slice(0, 5)`: the first five, or all of them when there are fewer. */
  function Recent(xs: seq<Appointment>): (r: seq<Appointment>)
    ensures |r| == if |xs| < 5 then |xs| else 5
    ensures r == xs[..|r|]
  {
    if |xs| <= 5 then xs else xs[..5]
  }

  class AdminPage {
    var loading: bool
    var dataLoading: bool
    var error: string
    var userProfile: Option<UserProfile>
    var appointmentStats: Option<AppointmentStats>
    var allAppointments: seq<Appointment>
    var counselorSchedules: seq<CounselorSchedule>
    var totalConsultants: nat

    constructor()
      ensures loading && dataLoading && error == "" && userProfile.None? && appointmentStats.None?
      ensures allAppointments == [] && counselorSchedules == [] && totalConsultants == 0
    {
      loading := true;
      dataLoading := true;
      error := "";
      userProfile := None;
      appointmentStats := None;
      allAppointments := [];
      counselorSchedules := [];
      totalConsultants := 0;
    }

    /**
     * The mount effect: without a token, the not-logged-in error and no
     * load; otherwise take the cached profile when it parses, show the page
     * and load the dashboard data.
     */
    method Mount(store: Store, decode: string -> Option<UserProfile>,
                 statsReply: Reply<Option<Envelope<AppointmentStats>>>,
                 appointmentsReply: Reply<Option<Envelope<Page<Appointment>>>>)
      modifies this
      ensures !loading
      ensures !HasAccessToken(store) ==>
                error == "Bạn chưa đăng nhập." && dataLoading == old(dataLoading)
                && appointmentStats == old(appointmentStats) && allAppointments == old(allAppointments)
                && userProfile == old(userProfile)
      ensures HasAccessToken(store) ==>
                error == "" && !dataLoading
                && userProfile == (if GetStoredUserProfile(store, decode).Some? then GetStoredUserProfile(store, decode)
                                   else old(userProfile))
                && appointmentStats == StatsAfter(old(appointmentStats), statsReply)
                && allAppointments == ListAfter(old(allAppointments), appointmentsReply)
      ensures counselorSchedules == old(counselorSchedules) && totalConsultants == old(totalConsultants)
    {
      if !HasAccessToken(store) {
        error := "Bạn chưa đăng nhập.";
        loading := false;
        return;
      }
      var profile := GetStoredUserProfile(store, decode);
      if profile.Some? {
        userProfile := profile;
      }
      loading := false;
      dataLoading := true;
      FetchDashboardData(statsReply, appointmentsReply);
    }

    /**
     * `fetchDashboardData`, up to the deferred loads: clear the error, then
     * take the statistics and the appointments each from its own reply when
     * that reply is OK and well formed, keeping the previous value otherwise
     * (a failure or a timeout of one does not affect the other). Every
     * failure is caught inside, so the error stays clear; the data-loading
     * flag ends false.
     */
    method FetchDashboardData(statsReply: Reply<Option<Envelope<AppointmentStats>>>,
                              appointmentsReply: Reply<Option<Envelope<Page<Appointment>>>>)
      modifies this
      ensures !dataLoading && error == ""
      ensures appointmentStats == StatsAfter(old(appointmentStats), statsReply)
      ensures allAppointments == ListAfter(old(allAppointments), appointmentsReply)
      ensures loading == old(loading) && userProfile == old(userProfile)
      ensures counselorSchedules == old(counselorSchedules) && totalConsultants == old(totalConsultants)
    {
      dataLoading := true;
      error := "";
      if statsReply.Reply? && statsReply.ok {
        var stats := EnvelopeResponse(statsReply.body);
        if stats.Some? {
          appointmentStats := stats;
        }
      }
      if appointmentsReply.Reply? && appointmentsReply.ok {
        var items := ListedItems(appointmentsReply.body);
        if items.Some? {
          allAppointments := items.value;
        }
      }
      dataLoading := false;
    }

    /**
     * The deferred loads: the schedules first, then the consultants, whose
     * count becomes `totalConsultants`. Each replaces its value only when its
     * reply is OK and well formed; a failed request, or a null body (reading
     * `success` from it throws), stops the sequence, so the consultants are
     * then not requested.
     */
    method LoadSecondary(schedulesReply: Reply<Option<Envelope<Page<CounselorSchedule>>>>,
                         consultantsReply: Reply<Option<Envelope<Page<string>>>>)
      returns (consultantsRequested: bool)
      modifies this
      ensures counselorSchedules == ListAfter(old(counselorSchedules), schedulesReply)
      ensures consultantsRequested <==> !Aborts(schedulesReply)
      ensures totalConsultants == if consultantsRequested then CountAfter(old(totalConsultants), consultantsReply)
                                  else old(totalConsultants)
      ensures loading == old(loading) && dataLoading == old(dataLoading) && error == old(error)
      ensures userProfile == old(userProfile) && appointmentStats == old(appointmentStats)
      ensures allAppointments == old(allAppointments)
    {
      if Aborts(schedulesReply) {
        return false;
      }
      if schedulesReply.ok {
        var items := ListedItems(schedulesReply.body);
        if items.Some? {
          counselorSchedules := items.value;
        }
      }
      consultantsRequested := true;
      if consultantsReply.Reply? && consultantsReply.ok {
        var items := ListedItems(consultantsReply.body);
        if items.Some? {
          totalConsultants := |items.value|;
        }
      }
    }
  }

  /** The statistics after one reply: replaced when it is OK and well formed, kept otherwise. */
  function StatsAfter(previous: Option<AppointmentStats>, reply: Reply<Option<Envelope<AppointmentStats>>>)
    : (r: Option<AppointmentStats>)
  {
    if reply.Reply? && reply.ok && EnvelopeResponse(reply.body).Some? then EnvelopeResponse(reply.body) else previous
  }

  /** A list after one listing reply: replaced when it is OK and well formed, kept otherwise. */
  function ListAfter<T>(previous: seq<T>, reply: Reply<Option<Envelope<Page<T>>>>): (r: seq<T>)
  {
    if reply.Reply? && reply.ok && ListedItems(reply.body).Some? then ListedItems(reply.body).value else previous
  }

  /** The consultant count after one listing reply. */
  function CountAfter<T>(previous: nat, reply: Reply<Option<Envelope<Page<T>>>>): (r: nat)
  {
    if reply.Reply? && reply.ok && ListedItems(reply.body).Some? then |ListedItems(reply.body).value| else previous
  }

  /**
   * How one reply updates what the dashboard shows: a reply that failed or
   * is not OK keeps the old value, an OK well-formed one replaces it whatever
   * it was, so applying the same reply twice is applying it once; and the
   * consultant count always follows the length of the list it comes from.
   */
  lemma ReplyUpdates<T>(stats: Option<AppointmentStats>, otherStats: Option<AppointmentStats>,
                        statsReply: Reply<Option<Envelope<AppointmentStats>>>,
                        list: seq<T>, otherList: seq<T>, listReply: Reply<Option<Envelope<Page<T>>>>)
    ensures !(statsReply.Reply? && statsReply.ok) ==> StatsAfter(stats, statsReply) == stats
    ensures !(listReply.Reply? && listReply.ok) ==> ListAfter(list, listReply) == list
    ensures statsReply.Reply? && statsReply.ok && EnvelopeResponse(statsReply.body).Some? ==>
              StatsAfter(stats, statsReply) == StatsAfter(otherStats, statsReply) != None
    ensures listReply.Reply? && listReply.ok && ListedItems(listReply.body).Some? ==>
              ListAfter(list, listReply) == ListAfter(otherList, listReply)
    ensures StatsAfter(StatsAfter(stats, statsReply), statsReply) == StatsAfter(stats, statsReply)
    ensures ListAfter(ListAfter(list, listReply), listReply) == ListAfter(list, listReply)
    ensures CountAfter(|list|, listReply) == |ListAfter(list, listReply)|
  {
  }

  /** A reply that throws inside the deferred block: a failed request, or an OK reply with a null body. */
  predicate Aborts<T>(reply: Reply<Option<T>>) {
    reply.Threw? || (reply.ok && reply.body.None?)
  }
}
