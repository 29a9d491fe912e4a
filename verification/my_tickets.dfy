/**
 * The student's own tickets (app/my-tickets/page.tsx): the listing request
 * with its error banner, the per-status tallies, and the "Test API" button
 * that probes four service addresses one after the other and reports one
 * line per probe.
 */
module MyTickets {
  import opened Common
  import opened Numbers
  import opened Auth
  import opened Services
  import opened TicketViews

  /**
   * How the listing request ends: the call or the JSON parsing throws (with
   * the message of the `Error`, or `None` when what was thrown is not one),
   * or a reply arrives with its `ok` flag, its status, its text (read only
   * when not `ok`) and its parsed body.
   */
  datatype ListReply =
    | Rejected(message: Option<string>)
    | Answered(ok: bool, status: nat, text: string, body: ListBody<Ticket>)

  const LoadFailedPrefix: string := "❌ Có lỗi xảy ra khi tải danh sách ticket: "
  const DefaultHttpDetail: string := "Không thể tải danh sách ticket"
  const UnknownError: string := "Unknown error"
  const TestingConnection: string := "Testing connection..."

  /**
   * The message of the error thrown for a reply that is not `ok`: "HTTP ",
   * the status, ": ", then the reply text, or a default when it is empty.
   * `parseInt` reads the status back from after "HTTP ".
   */
  function HttpErrorMessage(status: nat, text: string): (m: string)
    ensures |m| > 5 && m[..5] == "HTTP "
    ensures ParseInt(m[5..]) == Some(status)
    ensures text != "" ==> |m| > |text| && m[|m| - |text|..] == text
    ensures text == "" ==> |m| > |DefaultHttpDetail| && m[|m| - |DefaultHttpDetail|..] == DefaultHttpDetail
  {
    var detail := if text == "" then DefaultHttpDetail else text;
    HttpMessageParts(status, detail);
    "HTTP " + (NatToString(status) + (": " + detail))
  }

  /** The three parts of an HTTP error message can be told apart again: the prefix, the status, the detail. */
  lemma HttpMessageParts(status: nat, detail: string)
    ensures var m := "HTTP " + (NatToString(status) + (": " + detail));
            && |m| > 5 + |detail| && m[..5] == "HTTP " && ParseInt(m[5..]) == Some(status)
            && m[|m| - |detail|..] == detail
  {
    var digits := NatToString(status);
    var rest := ": " + detail;
    var m := "HTTP " + (digits + rest);
    assert m[5..] == digits + rest;
    ParseIntReadsPrefix(status, rest);
    LastPartIsSuffix("HTTP ", digits, ": ", detail);
  }

  /** In `a + (b + (c + d))` the last part is the suffix of its own length. */
  lemma LastPartIsSuffix(a: string, b: string, c: string, d: string)
    ensures var m := a + (b + (c + d)); m[|m| - |d|..] == d
  {
    var m := a + (b + (c + d));
    forall k | 0 <= k < |d|
      ensures m[|m| - |d| + k] == d[k]
    {
      assert m[|m| - |d| + k] == (b + (c + d))[|b| + |c| + k];
      assert (b + (c + d))[|b| + |c| + k] == (c + d)[|c| + k];
    }
  }

  /** The banner `fetchMyTickets` sets for a reply, or `None` when it loads the list. */
  function LoadErrorMessage(reply: ListReply): (r: Option<string>)
    ensures r.None? <==> reply.Answered? && reply.ok
    ensures reply.Rejected? ==> r == Some(LoadFailedPrefix + reply.message.GetOr(UnknownError))
    ensures reply.Answered? && !reply.ok ==> r == Some(LoadFailedPrefix + HttpErrorMessage(reply.status, reply.text))
  {
    match reply
    case Rejected(message) => Some(LoadFailedPrefix + message.GetOr(UnknownError))
    case Answered(ok, status, text, _) =>
      if ok then None else Some(LoadFailedPrefix + HttpErrorMessage(status, text))
  }

  /** The four stats cards: all tickets, then the pending, responded and closed tallies. */
  datatype Tallies = Tallies(total: nat, pending: nat, responded: nat, closed: nat)

  function TicketTallies(tickets: seq<Ticket>): (s: Tallies)
    ensures s.total == |tickets|
    ensures s.pending == Count(tickets, HasStatusName("pending"))
    ensures s.responded == Count(tickets, HasStatusName("responded"))
    ensures s.closed == Count(tickets, HasStatusName("closed"))
    ensures s.pending + s.responded + s.closed <= s.total
  {
    TalliesBounded(tickets);
    Tallies(|tickets|, StatusTally(tickets, "pending"), StatusTally(tickets, "responded"),
            StatusTally(tickets, "closed"))
  }

  /** One connectivity probe: its name, the path after the ticket service address, and whether it sends the token. */
  datatype Probe = Probe(name: string, path: string, needsAuth: bool)

  /** The four probes, in the order they run. */
  const Probes: seq<Probe> := [
    Probe("Base URL", "", false),
    Probe("Health Check", "/health", false),
    Probe("My Tickets", "/api/request-tickets/my-tickets", true),
    Probe("All Tickets", "/api/request-tickets", true)
  ]

  /** How a probe ends: a reply with its status and status text, or a failure with its text. */
  datatype ProbeOutcome = Responded(status: nat, statusText: string) | ConnectionFailed(error: string)

  /** The requests the page sends. */
  datatype Request =
    | ListMine(authorization: string)
    | ProbeCall(url: string, header: Option<string>)

  /** The report line of one probe, which starts with the probe's name. */
  function ResultLine(p: Probe, o: ProbeOutcome): (line: string)
    ensures |line| >= |p.name| + 2 && line[..|p.name| + 2] == p.name + ": "
  {
    match o
    case Responded(status, statusText) => p.name + ": " + NatToString(status) + " " + statusText
    case ConnectionFailed(error) => p.name + ": Connection failed - " + error
  }

  /** The request of one probe: the token goes along only when the probe needs it and one is stored. */
  function ProbeRequest(p: Probe, token: Option<string>): (r: Request)
    ensures r.ProbeCall? && r.url == RequestTicketService + p.path
    ensures r.header.Some? <==> p.needsAuth && Truthy(token)
    ensures r.header.Some? ==> r.header.value == "Bearer " + token.value
  {
    ProbeCall(RequestTicketService + p.path, if p.needsAuth && Truthy(token) then Some("Bearer " + token.value) else None)
  }

  predicate NoNewline(s: string) {
    forall i :: 0 <= i < |s| ==> s[i] != '\n'
  }

  /** `lines.join('\n')`. */
  function JoinLines(lines: seq<string>): (r: string)
    ensures lines == [] ==> r == ""
    ensures |lines| == 1 ==> r == lines[0]
  {
    if |lines| == 0 then ""
    else if |lines| == 1 then lines[0]
    else lines[0] + "\n" + JoinLines(lines[1..])
  }

  function IsNewline(c: char): bool {
    c == '\n'
  }

  /**
   * The lines a reader sees in the `whitespace-pre-wrap` block showing a text:
   * the pieces between its newlines, so a text without one is a single line.
   * The page never splits; this is the reference inverse of `JoinLines`.
   */
  function SplitLines(s: string): (r: seq<string>)
    ensures |r| >= 1
    decreases |s|
  {
    match FindIndex(s, IsNewline)
    case None => [s]
    case Some(i) => [s[..i]] + SplitLines(s[i + 1..])
  }

  /** Splitting the joined report gives back its lines, when none of them holds a newline. */
  lemma {:induction false} SplitJoin(lines: seq<string>)
    requires |lines| >= 1
    requires forall k :: 0 <= k < |lines| ==> NoNewline(lines[k])
    ensures SplitLines(JoinLines(lines)) == lines
  {
    if |lines| == 1 {
      assert FindIndex(lines[0], IsNewline).None?;
    } else {
      var head := lines[0];
      var tail := JoinLines(lines[1..]);
      var s := head + "\n" + tail;
      assert s[|head|] == '\n';
      var found := FindIndex(s, IsNewline);
      assert forall j :: 0 <= j < |head| ==> !IsNewline(s[j]);
      assert found.Some? && found.value == |head|;
      assert s[..|head|] == head;
      assert s[|head| + 1..] == tail;
      SplitJoin(lines[1..]);
      assert lines == [head] + lines[1..];
    }
  }

  class MyTicketsPage {
    var tickets: seq<Ticket>
    var isLoading: bool
    var errorMessage: string
    var testResult: string
    /** Where `router.push` sent the browser, if anywhere. */
    var navigation: Option<string>
    /** Every request sent, in order. */
    var requests: seq<Request>

    /** A page showing a load error shows no tickets. */
    ghost predicate Valid()
      reads this
    {
      errorMessage != "" ==> tickets == []
    }

    constructor()
      ensures Valid()
      ensures tickets == [] && !isLoading && errorMessage == "" && testResult == ""
      ensures navigation.None? && requests == []
    {
      tickets := [];
      isLoading := false;
      errorMessage := "";
      testResult := "";
      navigation := None;
      requests := [];
    }

    /** The mount effect: without a stored token, go to the login page; otherwise load with it. */
    method Mount(store: Store, reply: ListReply)
      requires Valid()
      modifies this
      ensures Valid()
      ensures !HasAccessToken(store) ==>
                navigation == Some("/login") && requests == old(requests) && tickets == old(tickets)
                && errorMessage == old(errorMessage) && isLoading == old(isLoading)
      ensures HasAccessToken(store) ==>
                navigation == old(navigation) && !isLoading
                && requests == old(requests) + [ListMine("Bearer " + store[AccessTokenKey])]
                && errorMessage == LoadErrorMessage(reply).GetOr("")
                && tickets == (if LoadErrorMessage(reply).None? then ArrayOrEmpty(reply.body) else [])
      ensures testResult == old(testResult)
    {
      var token := Get(store, AccessTokenKey);
      if !Truthy(token) {
        navigation := Some("/login");
        return;
      }
      FetchMyTickets(token.value, reply);
    }

    /**
     * `fetchMyTickets(token)`: clear the banner and request the list. An `ok`
     * reply shows its body when that is an array and nothing otherwise; any
     * failure sets the banner and empties the list. Loading ends on every path.
     */
    method FetchMyTickets(token: string, reply: ListReply)
      requires Valid()
      modifies this
      ensures Valid() && !isLoading
      ensures requests == old(requests) + [ListMine("Bearer " + token)]
      ensures errorMessage == LoadErrorMessage(reply).GetOr("")
      ensures LoadErrorMessage(reply).None? ==> tickets == ArrayOrEmpty(reply.body)
      ensures LoadErrorMessage(reply).Some? ==> tickets == [] && errorMessage != ""
      ensures testResult == old(testResult) && navigation == old(navigation)
    {
      isLoading := true;
      errorMessage := "";
      requests := requests + [ListMine("Bearer " + token)];
      match LoadErrorMessage(reply) {
        case None =>
          tickets := ArrayOrEmpty(reply.body);
        case Some(message) =>
          errorMessage := message;
          tickets := [];
      }
      isLoading := false;
    }

    /** "Thử lại" on the banner: reload when a token is stored, otherwise nothing. */
    method Retry(store: Store, reply: ListReply)
      requires Valid()
      modifies this
      ensures Valid()
      ensures !HasAccessToken(store) ==>
                requests == old(requests) && tickets == old(tickets) && errorMessage == old(errorMessage)
                && isLoading == old(isLoading)
      ensures HasAccessToken(store) ==>
                requests == old(requests) + [ListMine("Bearer " + store[AccessTokenKey])]
                && errorMessage == LoadErrorMessage(reply).GetOr("") && !isLoading
                && tickets == (if LoadErrorMessage(reply).None? then ArrayOrEmpty(reply.body) else [])
      ensures testResult == old(testResult) && navigation == old(navigation)
    {
      var token := Get(store, AccessTokenKey);
      if Truthy(token) {
        FetchMyTickets(token.value, reply);
      }
    }

    /**
     * `testBackendConnection`: run the four probes in order, each with the
     * stored token when it needs one, and report one line per probe joined
     * by newlines ("Testing connection..." shows meanwhile).
     */
    method TestBackendConnection(store: Store, outcomes: seq<ProbeOutcome>)
      requires Valid()
      requires |outcomes| == |Probes|
      modifies this
      ensures Valid()
      ensures requests == old(requests) + ProbeRequests(Get(store, AccessTokenKey))
      ensures testResult == JoinLines(ResultLines(outcomes))
      ensures tickets == old(tickets) && isLoading == old(isLoading) && errorMessage == old(errorMessage)
      ensures navigation == old(navigation)
    {
      testResult := TestingConnection;
      var token := Get(store, AccessTokenKey);
      var sent: seq<Request> := [];
      var results: seq<string> := [];
      var i := 0;
      while i < |Probes|
        invariant 0 <= i <= |Probes|
        invariant sent == ProbeRequests(token)[..i]
        invariant results == ResultLines(outcomes)[..i]
      {
        sent := sent + [ProbeRequest(Probes[i], token)];
        results := results + [ResultLine(Probes[i], outcomes[i])];
        i := i + 1;
      }
      assert sent == ProbeRequests(token);
      assert results == ResultLines(outcomes);
      requests := requests + sent;
      testResult := JoinLines(results);
    }
  }

  /** The probe requests, one per probe in order. */
  function ProbeRequests(token: Option<string>): seq<Request> {
    seq(|Probes|, k requires 0 <= k < |Probes| => ProbeRequest(Probes[k], token))
  }

  /** The report lines, one per probe in order. */
  function ResultLines(outcomes: seq<ProbeOutcome>): seq<string>
    requires |outcomes| == |Probes|
  {
    seq(|Probes|, k requires 0 <= k < |Probes| => ResultLine(Probes[k], outcomes[k]))
  }

  /** The text an outcome adds to its line. */
  function OutcomeText(o: ProbeOutcome): string {
    if o.Responded? then o.statusText else o.error
  }

  /** A report line holds a newline only if its outcome text does. */
  lemma ResultLinePlain(p: Probe, o: ProbeOutcome)
    requires NoNewline(p.name) && NoNewline(OutcomeText(o))
    ensures NoNewline(ResultLine(p, o))
  {
    match o
    case Responded(status, statusText) =>
      var digits := NatToString(status);
      assert ResultLine(p, o) == p.name + ": " + digits + " " + statusText;
    case ConnectionFailed(error) =>
      assert ResultLine(p, o) == p.name + ": Connection failed - " + error;
  }

  lemma ProbeNamesPlain()
    ensures forall k :: 0 <= k < |Probes| ==> NoNewline(Probes[k].name)
  {
    assert NoNewline(Probes[0].name);
    assert NoNewline(Probes[1].name);
    assert NoNewline(Probes[2].name);
    assert NoNewline(Probes[3].name);
  }

  /**
   * The report splits back into one line per probe, in probe order, each
   * starting with the probe's name, when no status text or failure text
   * holds a newline.
   */
  lemma ReportLines(outcomes: seq<ProbeOutcome>)
    requires |outcomes| == |Probes|
    requires forall k :: 0 <= k < |outcomes| ==> NoNewline(OutcomeText(outcomes[k]))
    ensures SplitLines(JoinLines(ResultLines(outcomes))) == ResultLines(outcomes)
    ensures |SplitLines(JoinLines(ResultLines(outcomes)))| == |Probes|
    ensures forall k :: 0 <= k < |Probes| ==>
              var line := SplitLines(JoinLines(ResultLines(outcomes)))[k];
              |line| >= |Probes[k].name| + 2 && line[..|Probes[k].name| + 2] == Probes[k].name + ": "
  {
    var lines := ResultLines(outcomes);
    ProbeNamesPlain();
    forall k | 0 <= k < |Probes|
      ensures NoNewline(lines[k])
    {
      ResultLinePlain(Probes[k], outcomes[k]);
    }
    SplitJoin(lines);
  }
}
