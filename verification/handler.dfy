/**
 * The decision the `/deploy_created` handler takes for one request: check the
 * event header, then the decode result, then build the card to forward.
 */
module Handler {
  import opened Wrappers
  import opened Netlify
  import opened Teams
  import opened Translator

  const DeployCreatedEvent: string := "deploy_created"
  const WrongEventMessage: string := "X-Netlify-Event header is not deploy_created"

  /** What the handler does with a request: reject it, or forward a card to the webhook. */
  datatype Response =
    | Reject415(message: string)
    | Reject400(message: string)
    | Forward(card: Card)

  /**
   * The status the caller sees. A forwarded request answers with the implicit
   * 200 once the outbound POST completes; when building or sending that POST
   * fails the handler panics and the caller gets no status at all.
   */
  function StatusCode(r: Response): (code: int)
    ensures r.Reject415? <==> code == 415
    ensures r.Reject400? <==> code == 400
    ensures r.Forward? <==> code == 200
  {
    match r
    case Reject415(_) => 415
    case Reject400(_) => 400
    case Forward(_) => 200
  }

  /**
   * `event` is the value of the X-Netlify-Event header (empty when it is
   * absent); `decoded` is the outcome of decoding the body, with the decoder's
   * message on failure. The body is only looked at once the header matches.
   */
  function DeployCreated(event: string, decoded: Result<NetlifyPayload, string>): (r: Response)
    ensures r.Reject415? <==> event != DeployCreatedEvent
    ensures r.Reject415? ==> r.message == WrongEventMessage
    ensures r.Reject400? <==> event == DeployCreatedEvent && decoded.Failure?
    ensures r.Reject400? ==> r.message == decoded.error
    ensures r.Forward? <==> event == DeployCreatedEvent && decoded.Success?
    ensures r.Forward? ==> ReadCard(r.card) == Some(ShownFields(decoded.value))
  {
    if event != DeployCreatedEvent then
      Reject415(WrongEventMessage)
    else
      match decoded
      case Failure(msg) => Reject400(msg)
      case Success(payload) =>
        ReadBuiltCard(payload);
        Forward(BuildCard(payload))
  }

  /** The status the caller sees follows from the header and the decode result alone. */
  lemma StatusOfDeployCreated(event: string, decoded: Result<NetlifyPayload, string>)
    ensures StatusCode(DeployCreated(event, decoded)) == 415 <==> event != DeployCreatedEvent
    ensures StatusCode(DeployCreated(event, decoded)) == 400
        <==> event == DeployCreatedEvent && decoded.Failure?
    ensures StatusCode(DeployCreated(event, decoded)) == 200
        <==> event == DeployCreatedEvent && decoded.Success?
  {
  }

  /** With the wrong header the outcome is the same whatever the body decoded to. */
  lemma HeaderCheckedBeforeBody(event: string, d1: Result<NetlifyPayload, string>, d2: Result<NetlifyPayload, string>)
    requires event != DeployCreatedEvent
    ensures DeployCreated(event, d1) == DeployCreated(event, d2)
    ensures StatusCode(DeployCreated(event, d1)) == 415
  {
  }

  /** A forwarded card is the one built from the decoded event, and only that card is. */
  lemma ForwardedCardIsBuiltCard(event: string, p: NetlifyPayload, c: Card)
    ensures DeployCreated(event, Success(p)) == Forward(c)
        <==> event == DeployCreatedEvent && ReadCard(c) == Some(ShownFields(p))
  {
    ReadCardExact(c, p);
  }
}
