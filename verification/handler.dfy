/** The request handler: answers the Events API verification handshake,
    admits or skips mentions by the allow-list, starts the reply task for
    admitted ones, and always acknowledges at once. */
module Handler {
  import opened JsValues
  import opened AllowList
  import opened Reply
  import opened Strings

  /** `body.event`: the fields the handler reads (`type` is `kind` here). */
  datatype Event = Event(kind: Option<string>, botId: Option<string>, channel: Option<string>, text: Option<string>)

  /** The parsed request body. */
  datatype Body = Body(kind: Option<string>, challenge: Option<string>, event: Option<Event>)

  /** The request body as parsed JSON, or the message of the parse error. */
  datatype Request = Malformed(error: string) | Parsed(body: Body)

  /** What the handler decides to do with a parsed body. */
  datatype Decision =
    | Verify(challenge: Option<string>)
    | Skip(channel: Option<string>)
    | Process(channel: Option<string>, question: Option<string>)
    | Ignore

  datatype Payload = ChallengeJson(challenge: Option<string>) | Text(text: string) | ErrorJson(message: string)
  datatype Response = Response(status: nat, payload: Payload)

  /** The synchronous response and the outbound calls the request causes. */
  datatype Exchange = Exchange(response: Response, calls: seq<Call>)

  const Acknowledged: Response := Response(200, Text("OK"))

  predicate IsVerification(b: Body) {
    b.kind == Some("url_verification")
  }

  /** An event is present, its type is `app_mention`, and its `bot_id` is
      not truthy. */
  predicate IsUserMention(b: Body) {
    b.event.Some? && b.event.value.kind == Some("app_mention") && !Truthy(b.event.value.botId)
  }

  /** The channel gate: an empty list admits every channel. */
  predicate Admits(allowed: seq<string>, channel: Option<string>) {
    allowed == [] || Includes(allowed, channel)
  }

  /** The handshake wins whatever else the body holds; a user mention is
      processed when the gate admits its channel and skipped otherwise;
      everything else, bot messages included, is ignored. */
  function Classify(allowed: seq<string>, b: Body): (o: Decision)
    ensures IsVerification(b) ==> o == Verify(b.challenge)
    ensures o.Ignore? <==> !IsVerification(b) && !IsUserMention(b)
    ensures o.Process? <==> !IsVerification(b) && IsUserMention(b) && Admits(allowed, b.event.value.channel)
    ensures o.Skip? <==> !IsVerification(b) && IsUserMention(b) && !Admits(allowed, b.event.value.channel)
    ensures o.Process? ==> o == Process(b.event.value.channel, b.event.value.text)
    ensures o.Skip? ==> o == Skip(b.event.value.channel)
  {
    if IsVerification(b) then Verify(b.challenge)
    else if IsUserMention(b) then
      var e := b.event.value;
      if allowed != [] && !Includes(allowed, e.channel) then Skip(e.channel)
      else Process(e.channel, e.text)
    else Ignore
  }

  /** The synchronous answer: the challenge echoed as JSON, or a plain "OK". */
  function Respond(o: Decision): (r: Response)
    ensures r.status == 200
    ensures o.Verify? ==> r.payload == ChallengeJson(o.challenge)
    ensures !o.Verify? <==> r == Acknowledged
  {
    match o
    case Verify(c) => Response(200, ChallengeJson(c))
    case _ => Acknowledged
  }

  /** One request: parse failure gives status 500 and nothing else; a parsed
      body gets its response, and only a processed mention calls out. */
  function Handle(allowed: seq<string>, req: Request, net: Network): (x: Exchange)
    ensures req.Malformed? ==> x == Exchange(Response(500, ErrorJson(req.error)), [])
    ensures req.Parsed? ==> x.response == Respond(Classify(allowed, req.body))
    ensures x.calls != [] <==> req.Parsed? && Classify(allowed, req.body).Process?
    ensures req.Parsed? && Classify(allowed, req.body).Process?
            ==> x.calls == ReplyTask(req.body.event.value.channel, req.body.event.value.text, net)
  {
    match req
    case Malformed(e) => Exchange(Response(500, ErrorJson(e)), [])
    case Parsed(b) =>
      var o := Classify(allowed, b);
      var calls := if o.Process? then ReplyTask(o.channel, o.question, net) else [];
      Exchange(Respond(o), calls)
  }

  /** The handshake echoes the challenge unchanged, calls out to nobody, and
      does so whatever the body's event holds. */
  lemma VerificationEchoes(allowed: seq<string>, b: Body, net: Network, other: Option<Event>)
    requires IsVerification(b)
    ensures Handle(allowed, Parsed(b), net) == Exchange(Response(200, ChallengeJson(b.challenge)), [])
    ensures Handle(allowed, Parsed(b.(event := other)), net) == Handle(allowed, Parsed(b), net)
  {
  }

  /** Events from a bot are never processed, even in an admitted channel. */
  lemma BotEventsIgnored(allowed: seq<string>, b: Body, net: Network)
    requires !IsVerification(b) && b.event.Some? && Truthy(b.event.value.botId)
    ensures Handle(allowed, Parsed(b), net) == Exchange(Acknowledged, [])
  {
  }

  /** Fail-open: with an empty allow-list every user mention is processed,
      whatever its channel. */
  lemma EmptyListAdmitsAll(b: Body, net: Network)
    requires !IsVerification(b) && IsUserMention(b)
    ensures Classify([], b) == Process(b.event.value.channel, b.event.value.text)
    ensures Handle([], Parsed(b), net).calls
         == ReplyTask(b.event.value.channel, b.event.value.text, net)
  {
  }

  /** With a non-empty list, a mention from an unlisted channel is skipped:
      the plain acknowledgement, and no call to the chat platform or the
      generation API. */
  lemma UnlistedChannelSkipped(allowed: seq<string>, b: Body, net: Network)
    requires allowed != [] && !IsVerification(b) && IsUserMention(b)
    requires !Includes(allowed, b.event.value.channel)
    ensures Classify(allowed, b) == Skip(b.event.value.channel)
    ensures Handle(allowed, Parsed(b), net) == Exchange(Acknowledged, [])
  {
  }

  /** The response never waits on the reply task: it is the same whatever
      the network answers. */
  lemma ResponseIndependentOfTask(allowed: seq<string>, req: Request, net1: Network, net2: Network)
    ensures Handle(allowed, req, net1).response == Handle(allowed, req, net2).response
  {
  }

  /** End to end from the setting: when the allow-list setting is unset, or
      holds only commas and whitespace, every user mention is processed. */
  lemma BlankSettingAdmitsAll(setting: Option<string>, b: Body)
    requires OnlyCommasAndWhitespace(RawSetting(setting))
    requires !IsVerification(b) && IsUserMention(b)
    ensures Classify(Parse(setting), b).Process?
  {
    ParseEmptyIff(setting);
  }

  /** End to end from the setting: a mention from a channel written in the
      setting is processed, one from a channel missing from a non-blank
      setting is skipped. */
  lemma ListedChannelProcessed(ids: seq<string>, b: Body)
    requires forall i :: 0 <= i < |ids| ==> WellFormedId(ids[i])
    requires !IsVerification(b) && IsUserMention(b)
    ensures var o := Classify(Parse(Some(Join(ids, ','))), b);
            ids != [] ==> (o.Process? <==> b.event.value.channel.Some? && b.event.value.channel.value in ids)
  {
    ParseCanonical(ids);
  }
}
