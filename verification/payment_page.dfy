/**
 * The payment return page (app/payment/page.tsx): the payment provider
 * sends the browser back with the appointment id, a code and a cancel flag
 * in the query; the page reports them to the appointment service and shows
 * success or failure.
 */
module PaymentPage {
  import opened Common
  import opened Auth

  /** The query string: parameter names to their (first) values. */
  type Query = map<string, string>

  /** The `PATCH .../payment-call-back` request: the path's appointment id, the bearer token and the body `{ code, cancel }`. */
  datatype CallbackRequest = CallbackRequest(appointmentId: string, authorization: string, code: string, cancel: bool)

  /** `searchParams.get("cancel") === "true"`: only the exact text "true" cancels. */
  function CancelFlag(query: Query): (r: bool)
    ensures r <==> Get(query, "cancel") == Some("true")
  {
    "cancel" in query && query["cancel"] == "true"
  }

  /**
   * The callback request the page sends, if any: it needs a non-empty
   * appointment id and code in the query, and a stored token.
   */
  function CallbackRequestFor(query: Query, store: Store): (r: Option<CallbackRequest>)
    ensures r.Some? <==> Truthy(Get(query, "appointmentId")) && Truthy(Get(query, "code")) && HasAccessToken(store)
    ensures r.Some? ==> r.value.appointmentId == query["appointmentId"] && r.value.code == query["code"]
                        && r.value.authorization == "Bearer " + store[AccessTokenKey]
                        && r.value.cancel == CancelFlag(query)
  {
    var appointmentId := Get(query, "appointmentId");
    var code := Get(query, "code");
    if !Truthy(appointmentId) || !Truthy(code) || !HasAccessToken(store) then None
    else Some(CallbackRequest(appointmentId.value, "Bearer " + store[AccessTokenKey], code.value, CancelFlag(query)))
  }

  /** What the page shows. */
  datatype View = Confirming | Succeeded | Failed

  class PaymentPage {
    var loading: bool
    var success: Option<bool>
    /** The callback request sent, if any. */
    var sent: Option<CallbackRequest>
    /** Where `router.push` sent the browser, if anywhere. */
    var navigation: Option<string>

    /** Once loading is over the outcome is known. */
    ghost predicate Valid()
      reads this
    {
      !loading ==> success.Some?
    }

    constructor()
      ensures Valid()
      ensures loading && success.None? && sent.None? && navigation.None?
    {
      loading := true;
      success := None;
      sent := None;
      navigation := None;
    }

    /** The spinner while loading, then the success or the failure card. */
    function Render(): (v: View)
      reads this
      ensures v == Confirming <==> loading
      ensures v == Succeeded <==> !loading && success == Some(true)
    {
      if loading then Confirming else if success == Some(true) then Succeeded else Failed
    }

    /**
     * The mount effect: without an appointment id, a code or a token, fail
     * without a request; otherwise send the callback and succeed exactly when
     * the reply is `ok`. A cancelled payment the service answers `ok` for is
     * shown as a success too. Loading ends on every path.
     */
    method Confirm(query: Query, store: Store, reply: Reply<()>)
      requires Valid()
      modifies this
      ensures Valid() && !loading
      ensures sent == (if CallbackRequestFor(query, store).Some? then CallbackRequestFor(query, store) else old(sent))
      ensures success == Some(CallbackRequestFor(query, store).Some? && reply.Reply? && reply.ok)
      ensures navigation == old(navigation)
    {
      var appointmentId := Get(query, "appointmentId");
      var code := Get(query, "code");
      var cancel := CancelFlag(query);
      if !Truthy(appointmentId) || !Truthy(code) {
        success := Some(false);
        loading := false;
        return;
      }
      var accessToken := Get(store, AccessTokenKey);
      if !Truthy(accessToken) {
        success := Some(false);
        loading := false;
        return;
      }
      sent := Some(CallbackRequest(appointmentId.value, "Bearer " + accessToken.value, code.value, cancel));
      match reply {
        case Threw =>
          success := Some(false);
        case Reply(ok, _) =>
          if ok {
            success := Some(true);
          } else {
            success := Some(false);
          }
      }
      loading := false;
    }

    /** The card's button: the profile page after a success, the home page after a failure. */
    method Continue()
      requires Valid() && !loading
      modifies this
      ensures Valid()
      ensures navigation == Some(if Render() == Succeeded then "/profile" else "/")
      ensures loading == old(loading) && success == old(success) && sent == old(sent)
    {
      if success == Some(true) {
        navigation := Some("/profile");
      } else {
        navigation := Some("/");
      }
    }
  }
}
