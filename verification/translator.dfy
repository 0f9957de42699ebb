/**
 * The mapping from a decoded deploy event to the MessageCard the handler
 * forwards, and an independent reader that recovers from a card the event
 * fields it shows.
 */
module Translator {
  import opened Wrappers
  import opened GoInt
  import opened Decimal
  import opened Netlify
  import opened Teams

  const TitleInfix: string := " published new page at "

  /** The anchor template; it closes with "<a>", not "</a>". */
  const AnchorOpen: string := "<a href=\""
  const AnchorMiddle: string := "\">"
  const AnchorClose: string := "<a>"

  /**
   * Offsets into an anchor around a URL of length k: the URL as target starts
   * at TargetStart, the URL as text at TextStart + k, and the whole anchor is
   * 2 * k + TemplateLength characters long.
   */
  const TargetStart: nat := |AnchorOpen|
  const TextStart: nat := |AnchorOpen| + |AnchorMiddle|
  const TemplateLength: nat := |AnchorOpen| + |AnchorMiddle| + |AnchorClose|

  const FactNames: seq<string> :=
    ["permalink", "deploy_url", "build_id", "created_at", "published_at", "deploy_time"]

  /** The part of an event that a card shows; every other field is ignored. */
  datatype Shown = Shown(
    name: string,
    publishedAt: string,
    permalink: string,
    deploySslUrl: string,
    buildId: string,
    createdAt: string,
    deployTime: int64)

  function ShownFields(p: NetlifyPayload): Shown {
    Shown(p.name, p.publishedAt, p.links.permalink, p.deploySslUrl, p.buildId, p.createdAt, p.deployTime)
  }

  /** The card summary and section title: site name, fixed infix, timestamp as received. */
  function Title(name: string, publishedAt: string): (t: string)
    ensures |t| == |name| + |TitleInfix| + |publishedAt|
    ensures t[..|name|] == name
    ensures t[|name|..|name| + |TitleInfix|] == TitleInfix
    ensures t[|t| - |publishedAt|..] == publishedAt
  {
    name + TitleInfix + publishedAt
  }

  /** The site name of a title, given the timestamp it ends with. */
  function TitleName(title: string, publishedAt: string): Option<string> {
    var k := |title| - |publishedAt| - |TitleInfix|;
    if k >= 0 && title[k..k + |TitleInfix|] == TitleInfix && title[k + |TitleInfix|..] == publishedAt
    then Some(title[..k])
    else None
  }

  /** An anchor whose target and text are both `url`. */
  function Anchor(url: string): (s: string)
    ensures |s| == 2 * |url| + TemplateLength
    ensures s[..TargetStart] == AnchorOpen
    ensures s[TargetStart..TargetStart + |url|] == url
    ensures s[TargetStart + |url|..TextStart + |url|] == AnchorMiddle
    ensures s[TextStart + |url|..TextStart + 2 * |url|] == url
    ensures s[|s| - |AnchorClose|..] == AnchorClose
  {
    AnchorOpen + url + AnchorMiddle + url + AnchorClose
  }

  /** The URL of an anchor built by `Anchor`, read position by position. */
  function AnchorUrl(s: string): Option<string> {
    if |s| < TemplateLength || (|s| - TemplateLength) % 2 != 0 then None
    else
      var k := (|s| - TemplateLength) / 2;
      var url := s[TargetStart..TargetStart + k];
      if && s[..TargetStart] == AnchorOpen
         && s[TargetStart + k..TextStart + k] == AnchorMiddle
         && s[TextStart + k..TextStart + 2 * k] == url
         && s[TextStart + 2 * k..] == AnchorClose
      then Some(url)
      else None
  }

  /** The six facts, in the order the handler lists them. */
  function CardFacts(p: NetlifyPayload): seq<Fact> {
    [ Fact("permalink", Anchor(p.links.permalink)),
      Fact("deploy_url", Anchor(p.deploySslUrl)),
      Fact("build_id", p.buildId),
      Fact("created_at", p.createdAt),
      Fact("published_at", p.publishedAt),
      Fact("deploy_time", IntToDecimal(p.deployTime)) ]
  }

  /** The card the handler builds from a decoded event. */
  function BuildCard(p: NetlifyPayload): (c: Card)
    ensures c.cardType == MessageCardType
    ensures c.context == SchemaContext
    ensures c.themeColor == ThemeColor
    ensures |c.sections| == 1
    ensures c.summary == c.sections[0].activityTitle == Title(p.name, p.publishedAt)
    ensures |c.sections[0].facts| == |FactNames|
    ensures forall i :: 0 <= i < |FactNames| ==> c.sections[0].facts[i].name == FactNames[i]
    ensures c.sections[0].facts[0].value == Anchor(p.links.permalink)
    ensures c.sections[0].facts[1].value == Anchor(p.deploySslUrl)
    ensures c.sections[0].facts[2].value == p.buildId
    ensures c.sections[0].facts[3].value == p.createdAt
    ensures c.sections[0].facts[4].value == p.publishedAt
    ensures ParseDecimal(c.sections[0].facts[5].value) == Some(p.deployTime)
    ensures Canonical(c.sections[0].facts[5].value)
  {
    RoundTrip(p.deployTime);
    var title := Title(p.name, p.publishedAt);
    Card(MessageCardType, SchemaContext, ThemeColor, title, [Section(title, CardFacts(p))])
  }

  /**
   * Reads back the shown fields of a card of the handler's shape, or None when
   * the card could not have come from `BuildCard`.
   */
  function ReadCard(c: Card): Option<Shown> {
    if c.cardType != MessageCardType || c.context != SchemaContext || c.themeColor != ThemeColor
       || |c.sections| != 1
    then None
    else
      var sec := c.sections[0];
      var f := sec.facts;
      if sec.activityTitle != c.summary || |f| != 6
         || [f[0].name, f[1].name, f[2].name, f[3].name, f[4].name, f[5].name] != FactNames
      then None
      else
        var permalink := AnchorUrl(f[0].value);
        var sslUrl := AnchorUrl(f[1].value);
        var name := TitleName(c.summary, f[4].value);
        var deployTime := ParseDecimal(f[5].value);
        if permalink.None? || sslUrl.None? || name.None? || deployTime.None? || !Canonical(f[5].value)
        then None
        else Some(Shown(name.value, f[4].value, permalink.value, sslUrl.value, f[2].value, f[3].value,
                        deployTime.value))
  }

  /** The title can be split back into site name and timestamp, and only titles of that form can. */
  lemma TitleNameInverse(title: string, publishedAt: string, name: string)
    ensures TitleName(title, publishedAt) == Some(name) <==> Title(name, publishedAt) == title
  {
    var t := Title(name, publishedAt);
    if t == title {
      var k := |name|;
      assert title[k..k + |TitleInfix|] == TitleInfix;
      assert title[k + |TitleInfix|..] == publishedAt;
    }
    if TitleName(title, publishedAt) == Some(name) {
      var k := |title| - |publishedAt| - |TitleInfix|;
      assert title == title[..k] + title[k..k + |TitleInfix|] + title[k + |TitleInfix|..];
    }
  }

  /** The URL can be read back from an anchor built from it. */
  lemma AnchorUrlOfAnchor(url: string)
    ensures AnchorUrl(Anchor(url)) == Some(url)
  {
    var s := Anchor(url);
    var k := |url|;
    assert (|s| - TemplateLength) / 2 == k;
    assert s[TargetStart + k..TextStart + k] == AnchorMiddle;
    assert s[TextStart + 2 * k..] == AnchorClose;
  }

  /** Only an anchor built from a URL yields that URL when read. */
  lemma AnchorOfAnchorUrl(s: string, url: string)
    requires AnchorUrl(s) == Some(url)
    ensures Anchor(url) == s
  {
    var k := |url|;
    var i1, i2, i3 := TargetStart + k, TextStart + k, TextStart + 2 * k;
    assert |s| == i3 + |AnchorClose|;
    assert s[..i1] == AnchorOpen + url;
    assert s[..i2] == s[..i1] + AnchorMiddle;
    assert s[..i3] == s[..i2] + url;
    assert s == s[..i3] + AnchorClose;
  }

  /** The URL can be read back from the anchor, and only anchors of the template's shape yield one. */
  lemma AnchorUrlInverse(s: string, url: string)
    ensures AnchorUrl(s) == Some(url) <==> Anchor(url) == s
  {
    if Anchor(url) == s {
      AnchorUrlOfAnchor(url);
    }
    if AnchorUrl(s) == Some(url) {
      AnchorOfAnchorUrl(s, url);
    }
  }

  /** Reading the built card recovers exactly the shown fields of the event. */
  lemma ReadBuiltCard(p: NetlifyPayload)
    ensures ReadCard(BuildCard(p)) == Some(ShownFields(p))
  {
    var c := BuildCard(p);
    var f := c.sections[0].facts;
    AnchorUrlInverse(f[0].value, p.links.permalink);
    AnchorUrlInverse(f[1].value, p.deploySslUrl);
    TitleNameInverse(c.summary, p.publishedAt, p.name);
    assert [f[0].name, f[1].name, f[2].name, f[3].name, f[4].name, f[5].name] == FactNames;
  }

  /** What a successful read establishes about each part of the card. */
  lemma ReadCardParts(c: Card)
    requires ReadCard(c).Some?
    ensures |c.sections| == 1 && c.sections[0].activityTitle == c.summary
    ensures |c.sections[0].facts| == |FactNames|
    ensures forall i :: 0 <= i < |FactNames| ==> c.sections[0].facts[i].name == FactNames[i]
    ensures AnchorUrl(c.sections[0].facts[0].value) == Some(ReadCard(c).value.permalink)
    ensures AnchorUrl(c.sections[0].facts[1].value) == Some(ReadCard(c).value.deploySslUrl)
    ensures c.sections[0].facts[2].value == ReadCard(c).value.buildId
    ensures c.sections[0].facts[3].value == ReadCard(c).value.createdAt
    ensures c.sections[0].facts[4].value == ReadCard(c).value.publishedAt
    ensures ParseDecimal(c.sections[0].facts[5].value) == Some(ReadCard(c).value.deployTime)
    ensures Canonical(c.sections[0].facts[5].value)
  {
    var f := c.sections[0].facts;
    var names := [f[0].name, f[1].name, f[2].name, f[3].name, f[4].name, f[5].name];
    assert forall i :: 0 <= i < 6 ==> f[i].name == names[i];
  }

  /** The facts of a card that reads back to an event's shown fields are that event's facts. */
  lemma ReadFactsExact(c: Card, p: NetlifyPayload)
    requires ReadCard(c).Some?
    requires ReadCard(c).value == ShownFields(p)
    ensures c.sections[0].facts == CardFacts(p)
  {
    ReadCardParts(c);
    var f := c.sections[0].facts;
    AnchorUrlInverse(f[0].value, p.links.permalink);
    AnchorUrlInverse(f[1].value, p.deploySslUrl);
    RenderingIsCanonicalParse(p.deployTime, f[5].value);
    var g := CardFacts(p);
    assert forall i :: 0 <= i < 6 ==> f[i] == g[i];
  }

  /** A card reads back to an event's shown fields exactly when it is the card built from that event. */
  lemma ReadCardExact(c: Card, p: NetlifyPayload)
    ensures ReadCard(c) == Some(ShownFields(p)) <==> BuildCard(p) == c
  {
    if BuildCard(p) == c {
      ReadBuiltCard(p);
    }
    if ReadCard(c) == Some(ShownFields(p)) {
      ReadFactsExact(c, p);
      TitleNameInverse(c.summary, p.publishedAt, p.name);
      assert c.sections == [Section(c.summary, c.sections[0].facts)];
    }
  }

  /** Two events give the same card exactly when they agree on the shown fields. */
  lemma SameCardIffSameShownFields(p: NetlifyPayload, q: NetlifyPayload)
    ensures BuildCard(p) == BuildCard(q) <==> ShownFields(p) == ShownFields(q)
  {
    if BuildCard(p) == BuildCard(q) {
      ReadBuiltCard(p);
      ReadBuiltCard(q);
    }
  }

  /**
   * The identifiers, the plain deploy URL, the update time, the user, commit
   * and branch, the log-access descriptor and the alias never reach the card.
   */
  lemma IgnoresUnusedFields(
    p: NetlifyPayload, id: string, siteId: string, deployUrl: string, updatedAt: string,
    userId: string, commitRef: string, branch: string, log: LogAccessAttributes, alias: string)
    ensures BuildCard(p.(id := id, siteId := siteId, deployUrl := deployUrl, updatedAt := updatedAt,
                         userId := userId, commitRef := commitRef, branch := branch,
                         logAccessAttributes := log, links := p.links.(alias := alias)))
         == BuildCard(p)
  {
    var q := p.(id := id, siteId := siteId, deployUrl := deployUrl, updatedAt := updatedAt,
                userId := userId, commitRef := commitRef, branch := branch,
                logAccessAttributes := log, links := p.links.(alias := alias));
    SameCardIffSameShownFields(p, q);
  }

  /** The title of the "My Site" example. */
  lemma TitleExample()
    ensures Title("My Site", "2024-01-01T00:00:00Z")
         == "My Site published new page at 2024-01-01T00:00:00Z"
  {
    assert "My Site" + TitleInfix == "My Site published new page at ";
  }

  /** The anchor keeps the URL byte for byte and ends in "<a>". */
  lemma AnchorExample()
    ensures Anchor("https://x.example/p") == "<a href=\"https://x.example/p\">https://x.example/p<a>"
  {
    var u := "https://x.example/p";
    assert AnchorOpen + u == "<a href=\"https://x.example/p";
    assert AnchorOpen + u + AnchorMiddle == "<a href=\"https://x.example/p\">";
    assert AnchorOpen + u + AnchorMiddle + u == "<a href=\"https://x.example/p\">https://x.example/p";
  }

  /** The worked example of a "My Site" deploy: title, anchor and rendered deploy time. */
  lemma MySiteExample(p: NetlifyPayload)
    requires p.name == "My Site" && p.publishedAt == "2024-01-01T00:00:00Z"
    requires p.links.permalink == "https://x.example/p" && p.deployTime == 42
    ensures BuildCard(p).summary == "My Site published new page at 2024-01-01T00:00:00Z"
    ensures BuildCard(p).sections[0].facts[0].value
         == "<a href=\"https://x.example/p\">https://x.example/p<a>"
    ensures BuildCard(p).sections[0].facts[5].value == "42"
  {
    RenderingExamples();
    TitleExample();
    AnchorExample();
  }
}
