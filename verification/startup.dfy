/**
 * Process start-up: the listen port chosen from PORT, and the refusal to start
 * without TEAMS_WEBHOOK_URL. Environment variables are passed in as options
 * (None when unset).
 */
module Startup {
  import opened Wrappers
  import opened GoInt
  import opened Decimal

  const DefaultPort: int64 := 8090

  /** The port `getPort` returns, or the panic it raises on an unparsable PORT. */
  datatype PortChoice = Chosen(port: int64) | Panicked

  function GetPort(defaultPort: int64, portEnv: Option<string>): (r: PortChoice)
    ensures portEnv.None? ==> r == Chosen(defaultPort)
    ensures portEnv.Some? ==> (r.Panicked? <==> ParseDecimal(portEnv.value).None?)
    ensures portEnv.Some? && r.Chosen? ==> ParseDecimal(portEnv.value) == Some(r.port)
  {
    match portEnv
    case None => Chosen(defaultPort)
    case Some(value) =>
      match ParseDecimal(value)
      case Some(port) => Chosen(port)
      case None => Panicked
  }

  /** A PORT written as `Itoa` would write it selects exactly that port. */
  lemma GetPortOfRendering(defaultPort: int64, port: int64)
    ensures GetPort(defaultPort, Some(IntToDecimal(port))) == Chosen(port)
  {
    RoundTrip(port);
  }

  /** How start-up ends: refusing to run, panicking on PORT, or serving on an address. */
  datatype Outcome =
    | MissingWebhookUrl
    | PortPanic
    | Serve(webhookUrl: string, address: string)

  /** `main` up to the call that binds the socket. */
  function Start(webhookEnv: Option<string>, portEnv: Option<string>): (r: Outcome)
    ensures r == MissingWebhookUrl <==> webhookEnv.None?
    ensures r == PortPanic <==> webhookEnv.Some? && GetPort(DefaultPort, portEnv).Panicked?
    ensures r.Serve? ==> webhookEnv == Some(r.webhookUrl)
    ensures r.Serve? ==> |r.address| > 1 && r.address[0] == ':'
    ensures r.Serve? ==> Some(GetPort(DefaultPort, portEnv).port) == ParseDecimal(r.address[1..])
    ensures r.Serve? ==> Canonical(r.address[1..])
  {
    match webhookEnv
    case None => MissingWebhookUrl
    case Some(url) =>
      match GetPort(DefaultPort, portEnv)
      case Panicked => PortPanic
      case Chosen(port) =>
        RoundTrip(port);
        var rendered := IntToDecimal(port);
        assert (":" + rendered)[1..] == rendered;
        Serve(url, ":" + rendered)
  }
}
