/**
  Detected calendar events of a document (`DetectedEvents.swift`): the event
  record, which of its fields the decoder requires, and `fetchDetectedEvents`.
 */
module DetectedEvents {
  import opened Wrappers
  import opened Utf8
  import opened Constants
  import opened Models
  import opened ApiError
  import opened Gateway
  import opened Endpoints
  import opened DateDecoding

  /** `id`, `title` and `confidence` are required; the rest may be absent. The
      confidence is a floating-point value and is only carried. */
  datatype DetectedEvent = DetectedEvent(
    id: string, title: string, startTime: Option<Date>, endTime: Option<Date>,
    recurrence: Option<string>, confidence: real, sourceText: Option<string>)

  datatype DetectedEventsData = DetectedEventsData(events: seq<DetectedEvent>, count: int)

  datatype DetectedEventsResponse = DetectedEventsResponse(success: bool, data: DetectedEventsData)

  /** An event object as the JSON parser sees it: each key present or absent. */
  datatype EventFields = EventFields(
    id: Option<string>, title: Option<string>, startTime: Option<string>, endTime: Option<string>,
    recurrence: Option<string>, confidence: Option<real>, sourceText: Option<string>)

  /** The response object as the JSON parser sees it. */
  datatype EventsPayload = EventsPayload(success: Option<bool>, events: Option<seq<EventFields>>, count: Option<int>)

  /** Whether every date the event carries parses with fractional seconds, so that
      decoding it leaves the shared formatter's options as they were. */
  predicate FractionalDates(f: EventFields, p: Parsers) {
    && (f.startTime.Some? ==> p.iso(f.startTime.value, true).Some?)
    && (f.endTime.Some? ==> p.iso(f.endTime.value, true).Some?)
  }

  /** An optional date field decoded through the shared formatter, whose options are
      `fractional`: an absent (or null) field is no date and leaves the options alone;
      a present one must pass the three-parser chain, which may reduce the options.
      Returns the field and the options afterwards. */
  function DecodeOptionalDate(v: Option<string>, p: Parsers, fractional: bool): (r: (Option<Option<Date>>, bool))
    ensures v.None? ==> r == (Some(None), fractional)
    ensures v.Some? ==>
      (r.0.None? <==> p.iso(v.value, fractional).None? && p.iso(v.value, false).None? && p.fixedPattern(v.value).None?)
    ensures v.Some? && fractional && p.iso(v.value, true).Some? ==> r.0 == Some(Some(p.iso(v.value, true).value))
    ensures v.Some? && p.iso(v.value, fractional).None? && p.iso(v.value, false).Some? ==>
      r.0 == Some(Some(p.iso(v.value, false).value))
    ensures r.1 <==> fractional && (v.None? || p.iso(v.value, true).Some?)
  {
    match v
    case None => (Some(None), fractional)
    case Some(s) =>
      var (date, after) := Chain(p, fractional, s);
      if date.Ok? then (Some(Some(date.value)), after) else (None, after)
  }

  /** An event decoded in its declared field order: `id` and `title` first, then the
      two dates through the shared formatter (`endTime` sees the options `startTime`
      left), then `confidence`. Decoding stops at the first failure, but whatever a
      date did to the options stays done. */
  function DecodeEvent(f: EventFields, p: Parsers, fractional: bool): (r: (Option<DetectedEvent>, bool))
    ensures var start := DecodeOptionalDate(f.startTime, p, fractional);
            var end := DecodeOptionalDate(f.endTime, p, start.1);
      && (r.0.Some? <==> f.id.Some? && f.title.Some? && f.confidence.Some? && start.0.Some? && end.0.Some?)
      && (r.0.Some? ==> r.0.value.startTime == start.0.value && r.0.value.endTime == end.0.value)
    ensures r.0.Some? ==> r.0.value.id == f.id.value && r.0.value.title == f.title.value
                          && r.0.value.recurrence == f.recurrence && r.0.value.sourceText == f.sourceText
                          && r.0.value.confidence == f.confidence.value
    ensures r.1 <==> fractional && (f.id.None? || f.title.None? || FractionalDates(f, p))
  {
    if f.id.None? || f.title.None? then (None, fractional)
    else
      var (start, afterStart) := DecodeOptionalDate(f.startTime, p, fractional);
      if start.None? then (None, afterStart)
      else
        var (end, afterEnd) := DecodeOptionalDate(f.endTime, p, afterStart);
        if end.None? || f.confidence.None? then (None, afterEnd)
        else (Some(DetectedEvent(f.id.value, f.title.value, start.value, end.value, f.recurrence,
                                 f.confidence.value, f.sourceText)), afterEnd)
  }

  /** The event list decoded element by element in order through the shared formatter;
      the first event that fails fails the list. A decoded list has every required field
      of every event as sent. The options are never restored: they survive a complete
      decode exactly when every date parsed with fractional seconds. */
  function DecodeEvents(fs: seq<EventFields>, p: Parsers, fractional: bool): (r: (Option<seq<DetectedEvent>>, bool))
    ensures r.1 ==> fractional
    ensures fractional && (forall i :: 0 <= i < |fs| ==> FractionalDates(fs[i], p)) ==> r.1
    ensures r.0.Some? ==> (r.1 <==> fractional && forall i :: 0 <= i < |fs| ==> FractionalDates(fs[i], p))
    ensures r.0.Some? ==> |r.0.value| == |fs|
    ensures r.0.Some? ==> forall i :: 0 <= i < |fs| ==>
      && fs[i].id.Some? && fs[i].title.Some? && fs[i].confidence.Some?
      && r.0.value[i].id == fs[i].id.value && r.0.value[i].title == fs[i].title.value
      && r.0.value[i].confidence == fs[i].confidence.value
      && r.0.value[i].recurrence == fs[i].recurrence && r.0.value[i].sourceText == fs[i].sourceText
      && (r.0.value[i].startTime.Some? <==> fs[i].startTime.Some?)
      && (r.0.value[i].endTime.Some? <==> fs[i].endTime.Some?)
    decreases |fs|
  {
    if fs == [] then (Some([]), fractional)
    else
      var (first, next) := DecodeEvent(fs[0], p, fractional);
      if first.None? then (None, next)
      else
        var (rest, last) := DecodeEvents(fs[1..], p, next);
        assert forall i :: 1 <= i < |fs| ==> fs[i] == fs[1..][i - 1];
        if rest.None? then (None, last) else (Some([first.value] + rest.value), last)
  }

  /** The `DetectedEventsResponse` decoder, in declared order: `success`, then the
      events, then `count`, which is taken as given. Returns the options left behind. */
  function DecodeResponse(pl: EventsPayload, p: Parsers, fractional: bool): (r: (Result<DetectedEventsResponse, string>, bool))
    ensures r.1 ==> fractional
    ensures r.0.Ok? <==> pl.success.Some? && pl.events.Some? && pl.count.Some? && DecodeEvents(pl.events.value, p, fractional).0.Some?
    ensures r.0.Ok? ==> r.0.value.success == pl.success.value && r.0.value.data.count == pl.count.value
                        && r.0.value.data.events == DecodeEvents(pl.events.value, p, fractional).0.value
    ensures pl.success.Some? && pl.events.Some? ==> r.1 == DecodeEvents(pl.events.value, p, fractional).1
  {
    if pl.success.None? || pl.events.None? then (Err("keyNotFound"), fractional)
    else
      var (events, after) := DecodeEvents(pl.events.value, p, fractional);
      if events.None? then (Err("event could not be decoded"), after)
      else if pl.count.None? then (Err("keyNotFound"), after)
      else (Ok(DetectedEventsResponse(pl.success.value, DetectedEventsData(events.value, pl.count.value))), after)
  }

  /** While the options cannot change — they are already reduced, or every date parses
      with fractional seconds — the list decodes iff every event decodes on its own with
      those options, each to what it decodes to alone. */
  lemma {:induction false} DecodesEachAloneWhileOptionsHold(fs: seq<EventFields>, p: Parsers, fractional: bool)
    requires fractional ==> forall i :: 0 <= i < |fs| ==> FractionalDates(fs[i], p)
    ensures DecodeEvents(fs, p, fractional).0.Some? <==> forall i :: 0 <= i < |fs| ==> DecodeEvent(fs[i], p, fractional).0.Some?
    ensures DecodeEvents(fs, p, fractional).0.Some? ==>
      forall i :: 0 <= i < |fs| ==> DecodeEvents(fs, p, fractional).0.value[i] == DecodeEvent(fs[i], p, fractional).0.value
    decreases |fs|
  {
    if fs != [] {
      assert forall i :: 1 <= i < |fs| ==> fs[i] == fs[1..][i - 1];
      assert DecodeEvent(fs[0], p, fractional).1 == fractional;
      DecodesEachAloneWhileOptionsHold(fs[1..], p, fractional);
    }
  }

  /** An event with no required field missing and no date present. */
  function ExampleEvent(id: string, startTime: string): EventFields {
    EventFields(Some(id), Some("Meeting"), Some(startTime), None, None, Some(0.9), None)
  }

  /** As written, the order of events matters: an event whose start is in whole seconds
      reduces the shared options, so a later event with a fractional start (and a
      numeric offset the fixed pattern cannot match) fails, and with it the whole list,
      although each event decodes on its own with fresh options. */
  lemma EarlierWholeSecondsRejectsLaterEvent()
    ensures DecodeEvent(ExampleEvent("a", WholeSeconds), ExampleParsers(), true).0.Some?
    ensures DecodeEvent(ExampleEvent("b", FractionalWithOffset), ExampleParsers(), true).0.Some?
    ensures DecodeEvents([ExampleEvent("b", FractionalWithOffset), ExampleEvent("a", WholeSeconds)], ExampleParsers(), true).0.Some?
    ensures DecodeEvents([ExampleEvent("a", WholeSeconds), ExampleEvent("b", FractionalWithOffset)], ExampleParsers(), true).0.None?
  {
    var p := ExampleParsers();
    var a, b := ExampleEvent("a", WholeSeconds), ExampleEvent("b", FractionalWithOffset);
    assert Chain(p, true, WholeSeconds) == (Ok(1767866400), false);
    assert Chain(p, false, FractionalWithOffset).0.Err?;
    assert Chain(p, true, FractionalWithOffset) == (Ok(1767862800), true);
    assert DecodeEvent(a, p, true).1 == false;
    assert DecodeEvent(b, p, false).0.None?;
    assert [a, b][1..] == [b];
    assert [b, a][1..] == [a];
    assert DecodeEvent(b, p, true).1;
    assert DecodeEvent(a, p, true).0.Some?;
    assert DecodeEvents([a], p, true).0.Some?;
  }

  /** One event without a required field makes the whole response undecodable, whatever
      the formatter's options. */
  lemma MissingRequiredFieldRejectsAll(pl: EventsPayload, p: Parsers, fractional: bool, i: nat)
    requires pl.events.Some? && i < |pl.events.value|
    requires var f := pl.events.value[i]; f.id.None? || f.title.None? || f.confidence.None?
    ensures DecodeResponse(pl, p, fractional).0.Err?
  {
  }

  /** The decoded `count` is never compared with the number of events. */
  lemma CountIsNotChecked(pl: EventsPayload, p: Parsers, fractional: bool)
    requires pl.success.Some? && pl.events.Some? && pl.count.Some?
    requires DecodeEvents(pl.events.value, p, fractional).0.Some?
    ensures DecodeResponse(pl, p, fractional).0.Ok?
    ensures DecodeResponse(pl, p, fractional).0.value.data.count == pl.count.value
    ensures |DecodeResponse(pl, p, fractional).0.value.data.events| == |pl.events.value|
  {
  }

  /** GET /api/documents/<id>/events with auth. */
  function DetectedEventsCall(documentId: string): Call {
    Call(DocumentsPath + documentId + "/events", "GET", None, true)
  }

  /** The ids are not escaped: the events request of `id` goes to the same endpoint as
      the document request of `id + "/events"`. */
  lemma EventsPathIsDocumentPath(documentId: string)
    ensures DetectedEventsCall(documentId).endpoint == GetDocumentCall(documentId + "/events").endpoint
  {
    assert DocumentsPath + documentId + "/events" == DocumentsPath + (documentId + "/events");
  }

  /** The bytes-to-response decoder `request` is given, run with the shared options
      `fractional`: JSON parsing, then the record decoder. */
  function ResponseDecoder(json: seq<Byte> -> Option<EventsPayload>, p: Parsers, fractional: bool)
    : seq<Byte> -> Result<DetectedEventsResponse, string>
  {
    b => match json(b)
         case None => Err("dataCorrupted")
         case Some(pl) => DecodeResponse(pl, p, fractional).0
  }

  /** The shared options after the decoder ran on `b`: only dates it reached can change them. */
  function OptionsAfterDecode(json: seq<Byte> -> Option<EventsPayload>, p: Parsers, fractional: bool, b: seq<Byte>): bool
  {
    match json(b)
    case None => fractional
    case Some(pl) => DecodeResponse(pl, p, fractional).1
  }

  /** The `response.data` of `fetchDetectedEvents`, with any failure passed on. */
  function DataOf(r: Result<DetectedEventsResponse, Failure>): Result<DetectedEventsData, Failure>
  {
    match r
    case Ok(response) => Ok(response.data)
    case Err(f) => Err(f)
  }

  /** `fetchDetectedEvents`: the events request, whose payload's inner `data` is returned
      unchanged; having no body to encode, it fails only with an `APIError`. The shared
      formatter's options `fractional` are read by the decode and passed on as
      `fractionalAfter`; only a 2xx HTTP reply is decoded, so only it can reduce them. */
  method FetchDetectedEvents(documentId: string, token: Option<string>, env: Environment,
                             json: seq<Byte> -> Option<EventsPayload>, p: Parsers, fractional: bool)
    returns (outcome: Result<DetectedEventsData, Failure>, sent: Option<HttpRequest>, fractionalAfter: bool)
    ensures outcome.Err? ==> outcome.error.Api?
    ensures sent.Some? <==> env.formsUrl(BaseURL + DetectedEventsCall(documentId).endpoint) && token.Some?
    ensures !env.formsUrl(BaseURL + DetectedEventsCall(documentId).endpoint) ==> outcome == Err(Api(InvalidURL))
    ensures env.formsUrl(BaseURL + DetectedEventsCall(documentId).endpoint) && token.None? ==>
      outcome == Err(Api(Unauthorized))
    ensures sent.Some? ==> Prepared(sent.value, DetectedEventsCall(documentId), token, env)
    ensures sent.Some? ==>
      outcome == DataOf(Dispatch(env.transport(sent.value), ResponseDecoder(json, p, fractional), env.decodeError))
    ensures outcome.Ok? <==> (
      && sent.Some?
      && var reply := env.transport(sent.value);
      && reply.Reply? && reply.isHttp && IsSuccessStatus(reply.statusCode)
      && ResponseDecoder(json, p, fractional)(reply.data).Ok?)
    ensures outcome.Ok? ==> outcome.value == ResponseDecoder(json, p, fractional)(env.transport(sent.value).data).value.data
    ensures sent.Some? ==> (
      var reply := env.transport(sent.value);
      reply.Reply? && reply.isHttp && IsSuccessStatus(reply.statusCode) && ResponseDecoder(json, p, fractional)(reply.data).Err? ==>
        outcome == Err(Api(DecodingError)))
    ensures sent.Some? ==> (
      var reply := env.transport(sent.value);
      reply.Reply? && reply.isHttp && reply.statusCode == 401 ==> outcome == Err(Api(Unauthorized)))
    ensures fractionalAfter ==> fractional
    ensures fractionalAfter == (
      if sent.Some? && env.transport(sent.value).Reply? && env.transport(sent.value).isHttp
         && IsSuccessStatus(env.transport(sent.value).statusCode)
      then OptionsAfterDecode(json, p, fractional, env.transport(sent.value).data)
      else fractional)
  {
    var response;
    response, sent := Request(DetectedEventsCall(documentId), token, env, ResponseDecoder(json, p, fractional));
    outcome := DataOf(response);
    fractionalAfter := fractional;
    if sent.Some? {
      var reply := env.transport(sent.value);
      if reply.Reply? && reply.isHttp && IsSuccessStatus(reply.statusCode) {
        fractionalAfter := OptionsAfterDecode(json, p, fractional, reply.data);
      }
    }
  }
}
