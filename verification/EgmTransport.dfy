/**
 The authority (EGM) transport of the browser extension: one HTTP request, and the two-step
 delivery built on it. What matters to the queue worker is how a reply is classified:
 accepted, definitely rejected, or uncertain. Only a definite rejection lets the worker put a
 job back into the queue, so a write that took effect must never be classified as one.
 */
module EgmTransport {

  /** The name of a JavaScript error raised while a response body is being read. */
  datatype ErrorName = AbortName | TypeName | OtherName

  /** What `data?.isSuccess` is: exactly true, exactly false, or anything else. */
  datatype Flag = True | False | Neither

  datatype Body = Unreadable(name: ErrorName) | Blank | Malformed | Json(isSuccess: Flag)

  /** What the browser sees of a request: nothing at all, or a status line and a body. */
  datatype Reply = NoResponse | Response(status: int, html: bool, body: Body)

  datatype Failure =
    | LoginRequired
    | Network
    | BodyLost
    | InvalidResponse
    | HttpStatus(status: int)
    | Business
    | NotConfirmed

  datatype Outcome = Fulfilled | Rejected(error: Failure, uncertain: bool)

  predicate Successful(status: int) {
    200 <= status <= 299
  }

  /** `egmRequest`: `mutation` is true for the two paths that change the authority's records. */
  function EgmRequest(mutation: bool, reply: Reply): (outcome: Outcome)
    ensures !mutation && outcome.Rejected? ==> !outcome.uncertain
    ensures mutation && outcome.Fulfilled? ==> reply.Response? && reply.body == Json(True) && !reply.html
  {
    match reply
    case NoResponse => Rejected(Network, mutation)
    case Response(status, html, body) =>
      if body.Unreadable? then
        Rejected(BodyLost, mutation && body.name != OtherName)
      else if status == 401 || status == 403 || html then
        Rejected(LoginRequired, mutation && status != 401 && status != 403)
      else if body.Malformed? then
        Rejected(InvalidResponse, mutation)
      else if !Successful(status) then
        Rejected(HttpStatus(status), mutation && status >= 500)
      else if body == Json(False) then
        Rejected(Business, false)
      else if mutation && body != Json(True) then
        Rejected(NotConfirmed, true)
      else
        Fulfilled
  }

  /**
   The authority said no in so many words: it asked for a login by status, or it answered with a
   readable, well-formed, non-HTML document that carries a failing status below 500 or an explicit
   `isSuccess: false`. (A body that breaks with an error other than the two the Fetch standard
   raises is the one reply that is taken for a refusal without being one.)
   */
  predicate ExplicitRefusal(reply: Reply) {
    && reply.Response?
    && match reply.body
       case Unreadable(name) => name == OtherName
       case Malformed => reply.status == 401 || reply.status == 403
       case Blank => reply.status in {401, 403} || (!reply.html && !Successful(reply.status) && reply.status < 500)
       case Json(flag) =>
         || reply.status in {401, 403}
         || (!reply.html && reply.status < 500 && (flag == False || !Successful(reply.status)))
  }

  /** A write is reported as definitely rejected exactly when the authority refused it explicitly. */
  lemma DefiniteRejectionIsExplicitRefusal(reply: Reply)
    ensures (EgmRequest(true, reply).Rejected? && !EgmRequest(true, reply).uncertain) <==> ExplicitRefusal(reply)
  {
  }

  /** Losing the reply, or its body to an abort or a network error, leaves a write uncertain. */
  lemma LostReplyIsUncertain(reply: Reply)
    requires reply.NoResponse? || (reply.body.Unreadable? && reply.body.name != OtherName)
    ensures var outcome := EgmRequest(true, reply);
            outcome.Rejected? && outcome.uncertain && outcome.error in {Network, BodyLost}
  {
  }

  /** The authority wants a login: a readable answer with status 401 or 403, or an HTML page instead of an answer. */
  predicate WantsLogin(reply: Reply) {
    reply.Response? && !reply.body.Unreadable? && (reply.status in {401, 403} || reply.html)
  }

  /** Exactly when a request succeeds, and when it is a login that is missing. */
  lemma SucceedsExactly(mutation: bool, reply: Reply)
    ensures EgmRequest(mutation, reply).Fulfilled? <==>
            && reply.Response? && 200 <= reply.status <= 299 && !reply.html
            && (reply.body == Json(True) || (!mutation && (reply.body == Blank || reply.body == Json(Neither))))
    ensures EgmRequest(mutation, reply).Rejected? && EgmRequest(mutation, reply).error == LoginRequired <==> WantsLogin(reply)
  {
    if reply.Response? && reply.body.Json? {
      match reply.body.isSuccess
      case True =>
      case False =>
      case Neither =>
    }
  }
}
