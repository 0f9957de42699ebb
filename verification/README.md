# netlify-teams-webhook, modelled in Dafny

The relay receives Netlify's `deploy_created` webhook, checks the
`X-Netlify-Event` header, decodes the JSON deploy event and turns it into an
MS Teams MessageCard that it posts to `TEAMS_WEBHOOK_URL`. This project models
the pure part of that path as functions over immutable datatypes:

- `Decimal` — `strconv.Itoa`
  (`IntToDecimal`) and base-10 `strconv.Atoi` (`ParseDecimal`): an optional
  `+` or `-`, at least one ASCII digit, leading zeros accepted, failure on any
  other character, on the empty string and outside the 64-bit range. The
  code of `strconv` is not modelled; its behaviour follows its documentation.
- `Netlify` — the deploy event (`NetlifyPayload`, `Links`,
  `LogAccessAttributes`), `main.go:34-66`.
- `GoInt` — Go's `int` on a 64-bit platform, the type of the deploy time and
  of the port.
- `Teams` — the card (`Card`, `Section`, `Fact`), `main.go:68-87`, and its
  three literal tags, `main.go:154-156`.
- `Translator` — the event-to-card mapping of `deployCreated`
  (`main.go:112-159`) and `ReadCard`, an independent reader that recovers from a
  card the event fields it shows; the two are proved to be inverse.
- `Handler` — the request decision of `deployCreated` (`main.go:89-107`): a
  415 for the wrong event header whatever the body, a 400 carrying the
  decoder's message, or the card to forward.
- `Startup` — `getPort` (`main.go:182-190`) and `main`'s refusal to start
  without `TEAMS_WEBHOOK_URL` followed by the listen address
  `":" + Itoa(port)` (`main.go:194-205`).

The anchor template of the `permalink` and `deploy_url` facts closes with
`<a>`, not `</a>` (`main.go:116`, `main.go:121`); the model keeps that text.

A present but unparsable `PORT` panics (`main.go:185-187`): `GetPort` gives
`Panicked`, never the default.

Environment variables are parameters of type `Option<string>` (`None` when
unset). The JSON decode step is a parameter of type
`Result<NetlifyPayload, string>` whose failure carries the decoder's message.
The header is the string `Header.Get` returns: empty when the header is absent.

## Model

| member | source | states |
|---|---|---|
| Decimal.IntToDecimal | main.go:141 | the rendering of an `int` is canonical: a leading `-` exactly for negatives, no leading zero, and `"0"` exactly for zero |
| Decimal.ParseDecimal | main.go:184 | `Atoi` fails on the empty string; a success means the text after the optional sign is all digits, and the value is that digit string's number, negated only after a `-`; a sign followed by digits fails only when the number lies outside the 64-bit range |
| Decimal.ParseLeadingZero | main.go:184 | a leading zero before an unsigned digit string does not change what `Atoi` returns |
| Decimal.ParsePlusSign | main.go:184 | an explicit `+` before a digit string parses like the digits alone |
| Decimal.RoundTrip | main.go:141 | parsing the rendering of any 64-bit `int` gives that number back |
| Decimal.RenderingIsCanonicalParse | main.go:141 | a string is the rendering of n if and only if it parses to n and is canonical (no `+`, no leading zero, no `-0`) |
| Decimal.RenderingInjective | main.go:141 | two numbers render to the same text only if they are equal |
| Decimal.RenderingExamples | main.go:141 | 42 renders as `"42"`, -7 as `"-7"`, 0 as `"0"` |
| Translator.Title | main.go:112 | the title is the site name, then `" published new page at "`, then the publication timestamp, with lengths adding up |
| Translator.TitleNameInverse | main.go:112 | the site name can be split back out of a title given its timestamp, and only titles of that shape split |
| Translator.Anchor | main.go:114-122 | the anchor starts with `<a href="`, carries the URL byte for byte as target and as text, and ends with `<a>` |
| Translator.AnchorUrlOfAnchor | main.go:116 | reading the anchor built from a URL gives that URL back |
| Translator.AnchorOfAnchorUrl | main.go:116 | a text that reads as an anchor of a URL is exactly the template applied to that URL |
| Translator.AnchorUrlInverse | main.go:116 | reading an anchor position by position returns its URL exactly when the text is the template applied to that URL |
| Translator.BuildCard | main.go:112-159 | the card has the tags `MessageCard`, `http://schema.org/extensions`, `0076D7`; one section; summary and section title equal to the title; six facts named in order `permalink, deploy_url, build_id, created_at, published_at, deploy_time`; anchor values for the two URLs; verbatim build id and timestamps; a canonical deploy time that parses back to the event's |
| Translator.ReadBuiltCard | main.go:112-159 | reading the built card recovers exactly the fields of the event the card shows |
| Translator.ReadCardParts | main.go:114-156 | a card that reads successfully has one section titled with its summary, six facts named in order, URL facts that are anchors of the read URLs, the read build id and timestamps verbatim, and a canonical deploy time that parses to the read value |
| Translator.ReadFactsExact | main.go:114-144 | a card that reads back to an event's shown fields carries exactly that event's six facts, in order |
| Translator.ReadCardExact | main.go:144-159 | a card reads back to an event's shown fields if and only if it is the card built from that event |
| Translator.SameCardIffSameShownFields | main.go:112-159 | two events give the same card if and only if they agree on name, publication and creation time, permalink, secure deploy URL, build id and deploy time |
| Translator.IgnoresUnusedFields | main.go:50-66 | changing the ids, plain deploy URL, update time, user, commit, branch, log-access descriptor or alias leaves the card unchanged |
| Translator.TitleExample | main.go:112 | the "My Site" example title |
| Translator.AnchorExample | main.go:116 | the anchor of `https://x.example/p`, closing with `<a>` |
| Translator.MySiteExample | main.go:112-142 | the "My Site" event gives the expected summary, permalink anchor and deploy time `"42"` |
| Handler.StatusCode | main.go:94-105 | 415 exactly for the header rejection, 400 exactly for the decode rejection, and for a forwarded card the implicit 200 that the caller sees when the outbound POST completes |
| Handler.DeployCreated | main.go:89-107 | a wrong header gives a 415 with `X-Netlify-Event header is not deploy_created`; a right header with a decode failure gives a 400 with the decoder's message; only a right header with a decoded event forwards a card, and that card reads back to the event's shown fields |
| Handler.StatusOfDeployCreated | main.go:92-107 | the caller sees 415 exactly for a wrong header, 400 exactly for a right header with a decode failure, and a forwarded card, answered with 200 when the outbound POST completes, exactly for a right header with a decoded event |
| Handler.HeaderCheckedBeforeBody | main.go:92-95 | with a wrong header the outcome is a 415 and does not depend on the body |
| Handler.ForwardedCardIsBuiltCard | main.go:103-159 | a decoded event leads to forwarding a given card if and only if the header is right and that card reads back to the event's shown fields |
| Startup.GetPort | main.go:182-190 | an absent `PORT` gives the default; a present one gives its parsed value when it parses and a panic, never the default, when it does not |
| Startup.GetPortOfRendering | main.go:182-190 | a `PORT` holding the rendering of a port selects exactly that port |
| Startup.Start | main.go:193-205 | without `TEAMS_WEBHOOK_URL` start-up stops before choosing a port; otherwise it panics exactly when `getPort(8090)` does, or serves on `":"` followed by the canonical rendering of the chosen port, which parses back to it |

## Left out

- HTTP server wiring (`http.NewServeMux`, `ListenAndServe` and its failure) and the `/dump` handler (`main.go:19-32`): input/output and logging only.
- JSON decoding (`main.go:103`) and encoding (`main.go:160-164`): library code; decoding is an input `Result`, and the model stops at the `Card` value. `json.Marshal` of this all-string card is taken not to fail.
- The outbound POST, its client and the `panic` on transport failure (`main.go:166-177`): network side effects; `Forward(card)` stands for the one request made.
- Handler.StatusCode: the 200 for `Forward` assumes the outbound POST completes. When `http.NewRequest` fails (its error is overwritten at `main.go:169` and the nil request is used at line 170) or `client.Do` fails (`main.go:172-175`), the handler panics, and the server closes the connection without sending any status. An empty `TEAMS_WEBHOOK_URL` passes `main`'s check and then causes this on every forwarded request. The outbound call is not modelled.
- Handler.StatusOfDeployCreated: its 200 case has the same assumption as `Handler.StatusCode`: a failed outbound POST gives the caller no status, not 200.
- Handler.DeployCreated: `http.Error` appends a newline to the body and sets plain-text headers; the model keeps only the status and the message.
- Header lookup: `Header.Get`'s case-insensitive name matching and first-value choice are library behaviour; the model takes the value it returns.
- Startup.GetPort: the panic's error value (syntax or range error) is not modelled, only that a panic happens.
- All `fmt.Println` logging: output only.
