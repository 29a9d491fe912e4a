/**
 * utils/services.ts: the base addresses of the back-end services and
 * `createAppointment`, the booking call to the appointment service, as a
 * decision over the stored token and the reply.
 */
module Services {
  import opened Common
  import opened Auth

  /** `SERVICE_URLS`. */
  const AuthService: string := "http://localhost:5050"
  const AppointmentService: string := "http://localhost:5051"
  const RequestTicketService: string := "http://localhost:5052/api"
  const ChatbotService: string := "http://localhost:5053"

  /** What the call sends: the bearer token and the body `{ scheduleId, content }`. */
  datatype CreateRequest = CreateRequest(bearer: string, scheduleId: string, content: string)

  /** The `response` object of the create call; `checkoutUrl` may be missing. */
  datatype Checkout = Checkout(checkoutUrl: Option<string>)

  /** How an awaited promise ends: with a value, or rejected (the function has no `catch`). */
  datatype Settled<T> = Resolved(value: T) | Rejected

  /** The request made, if any, and how the returned promise settles. */
  datatype CreateCall = CreateCall(request: Option<CreateRequest>, result: Settled<Option<string>>)

  /** `data && data.success && data.response && data.response.checkoutUrl`. */
  predicate GrantsCheckout(body: Option<Envelope<Checkout>>) {
    body.Some? && body.value.success && body.value.response.Some?
    && Truthy(body.value.response.value.checkoutUrl)
  }

  /**
   * `createAppointment(scheduleId, content)`: null without a token (and no
   * request); otherwise one request carrying the token and the two arguments
   * unchanged, then the checkout URL when the reply is OK and carries one,
   * and null for every other reply. A failed request rejects.
   */
  function CreateAppointment(store: Store, scheduleId: string, content: string,
                             reply: Reply<Option<Envelope<Checkout>>>): (c: CreateCall)
    ensures c.request.None? <==> !HasAccessToken(store)
    ensures c.request.Some? ==> c.request.value == CreateRequest(store[AccessTokenKey], scheduleId, content)
    ensures c.result.Rejected? <==> HasAccessToken(store) && reply.Threw?
    ensures (c.result.Resolved? && c.result.value.Some?)
            <==> HasAccessToken(store) && reply.Reply? && reply.ok && GrantsCheckout(reply.body)
    ensures c.result.Resolved? && c.result.value.Some? ==>
              c.result.value == reply.body.value.response.value.checkoutUrl && c.result.value.value != ""
  {
    if !HasAccessToken(store) then CreateCall(None, Resolved(None))
    else
      var request := Some(CreateRequest(store[AccessTokenKey], scheduleId, content));
      match reply
      case Threw => CreateCall(request, Rejected)
      case Reply(ok, body) =>
        if !ok then CreateCall(request, Resolved(None))
        else if GrantsCheckout(body) then CreateCall(request, Resolved(body.value.response.value.checkoutUrl))
        else CreateCall(request, Resolved(None))
  }
}
