/** The error codes of the accept and bid endpoints, and what the services behind the ceremonies make of the
    backend's HTTP answer to a submit: apps/web/lib/services/accept.ts and apps/web/lib/services/offerings.ts. */
module SubmitCodes {
  import opened Wrappers

  datatype Flow = Accept | Bid

  datatype Code =
    // both flows
    | IDEMPOTENCY_KEY_IN_FLIGHT | IDEMPOTENCY_KEY_MISMATCH
    | SESSION_EXPIRED | RATE_LIMITED | NETWORK_ERROR | SERVER_ERROR | PASSKEY_FAILED
    // accept
    | ACCEPT_NOT_RFQ_BUYER | ACCEPT_RFQ_NOT_OPEN | ACCEPT_QUOTE_NOT_ACCEPTABLE | ACCEPT_QUOTE_NOT_AUTHORIZED
    | ACCEPT_NOT_WHITELISTED | ACCEPT_INSUFFICIENT_USDC | ACCEPT_CHALLENGE_EXPIRED | TRADE_ALREADY_IN_FLIGHT
    | TRADE_NOT_FOUND | ACCEPT_SETTLEMENT_UNAVAILABLE
    // bid
    | BID_INSUFFICIENT_BALANCE | BID_BELOW_LOW_PRICE | BID_ABOVE_HIGH_PRICE | BID_COUNT_EXCEEDS_FLOAT
    | OFFERING_WINDOW_NOT_OPEN | OFFERING_WINDOW_CLOSED | OFFERING_NOT_OPEN | BID_ALREADY_ACTIVE
    | BID_CHALLENGE_EXPIRED | BID_NOT_WHITELISTED | WALLET_NOT_FOUND | OFFERING_NOT_FOUND

  /** The backend's answer to a write that was sent: none, a 2xx whose body may fail the wire schema, or a refusal
      with its status and the error code in its body, if it is one of those above. */
  datatype Http = NoResponse | Accepted(id: Option<string>) | Refused(status: nat, errorCode: Option<Code>)

  // The codes the backend is authoritative for, passed through verbatim.
  predicate PassesThrough(flow: Flow, code: Code) {
    match code
    case IDEMPOTENCY_KEY_IN_FLIGHT | IDEMPOTENCY_KEY_MISMATCH => true
    case SESSION_EXPIRED | RATE_LIMITED | NETWORK_ERROR | SERVER_ERROR | PASSKEY_FAILED => false
    case ACCEPT_NOT_RFQ_BUYER | ACCEPT_RFQ_NOT_OPEN | ACCEPT_QUOTE_NOT_ACCEPTABLE | ACCEPT_QUOTE_NOT_AUTHORIZED
       | ACCEPT_NOT_WHITELISTED | ACCEPT_INSUFFICIENT_USDC | ACCEPT_CHALLENGE_EXPIRED | TRADE_ALREADY_IN_FLIGHT
       | TRADE_NOT_FOUND | ACCEPT_SETTLEMENT_UNAVAILABLE => flow == Accept
    case _ => flow == Bid
  }

  function StatusFallback(status: nat): (code: Code) {
    if status == 401 then SESSION_EXPIRED
    else if status == 429 then RATE_LIMITED
    else if status == 0 then NETWORK_ERROR
    else SERVER_ERROR
  }

  /** submitAccept and submitBid, from the answer on. */
  function SubmitResult(flow: Flow, http: Http): (answer: Answer<string, Code>) {
    match http
    case NoResponse => Failure(StatusFallback(0))
    case Accepted(Some(id)) => Success(id)
    case Accepted(None) => Failure(SERVER_ERROR)
    case Refused(status, errorCode) =>
      if errorCode.Some? && PassesThrough(flow, errorCode.value) then Failure(errorCode.value)
      else Failure(StatusFallback(status))
  }

  /** The backend may hold a trade from this write: it never answered, it accepted and its body cannot be read, it
      still works on the same key, it already has a trade in flight, or it failed without a known reason. */
  predicate MayHaveTrade(flow: Flow, http: Http) {
    match http
    case NoResponse => true
    case Accepted(id) => true
    case Refused(status, errorCode) =>
      if errorCode.Some? && PassesThrough(flow, errorCode.value)
      then errorCode.value == IDEMPOTENCY_KEY_IN_FLIGHT || errorCode.value == TRADE_ALREADY_IN_FLIGHT
      else status != 401 && status != 429
  }

  /** The codes that leave the outcome of a submit open. */
  predicate OutcomeOpen(flow: Flow, code: Code) {
    || code == NETWORK_ERROR || code == SERVER_ERROR || code == IDEMPOTENCY_KEY_IN_FLIGHT
    || (flow == Accept && code == TRADE_ALREADY_IN_FLIGHT)
  }

  /** The code alone tells: of the failures the services report, exactly those with an open code come from an answer
      after which the backend may hold a trade. */
  lemma {:induction false} OpenCodesAreExact(flow: Flow, http: Http)
    requires SubmitResult(flow, http).Failure?
    ensures OutcomeOpen(flow, SubmitResult(flow, http).code) <==> MayHaveTrade(flow, http)
  {
  }
}
