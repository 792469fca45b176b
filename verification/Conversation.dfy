/** A connection over many requests. */
module Conversations {
  import opened Base
  import opened ByteBuffers
  import opened HttpParsing
  import opened Fragmentation
  import opened HttpConnections
  import opened BodyDelivery
  import opened RequestText
  import opened Sending
  import Decimals

  /** A request as a client means it. */
  datatype Message = Message(verb: Method, path: string, query: Option<string>, version: string,
                             fields: seq<Field>, body: Octets)

  function Headers(m: Message): map<string, string> {
    FieldMap(map[], m.fields)
  }

  /** The length that is declared is the body's; none may be declared if there is no body. */
  predicate DeclaresBody(m: Message) {
    var headers := Headers(m);
    && "transfer-encoding" !in headers
    && if "content-length" in headers
       then Decimals.AllDigits(headers["content-length"]) && Decimals.Numeral(headers["content-length"]) == |m.body|
       else m.body == []
  }

  predicate WellFormed(m: Message) {
    && !m.verb.Unknown? && GoodTarget(m.path, m.query) && GoodVersion(m.version)
    && |FirstLine(m.verb, m.path, m.query, m.version)| < MAX_REQUEST_LINE
    && (forall i :: 0 <= i < |m.fields| ==> GoodField(m.fields[i]))
    && DeclaresBody(m)
  }

  predicate Welcome(app: App, m: Message) {
    WellFormed(m) && |m.body| <= app.maxBody && |m.body| < Decimals.SIZE_LIMIT
  }

  function Text(m: Message): (r: Octets)
    requires WellFormed(m)
  {
    HeadText(m.verb, m.path, m.query, m.version, m.fields) + m.body
  }

  /** What the application is to be given. */
  function Intended(m: Message): Delivery {
    Delivery(Meant(m.verb, m.path, m.query, m.version, m.fields), m.body)
  }

  /** The text is the word, in any case of letters. */
  predicate Spells(s: string, word: string) {
    |s| == |word| && forall i :: 0 <= i < |s| ==> SameLetter(s[i], word[i])
  }

  /** Section 9.3 of RFC 9112: the Connection field decides, and else the version. */
  predicate StaysOpen(m: Message) {
    var token := if "connection" in Headers(m) then Headers(m)["connection"] else "";
    !Spells(token, "close") && (Spells(token, "keep-alive") || m.version == "HTTP/1.1")
  }

  lemma KeptAliveIffStaysOpen(m: Message)
    ensures KeepAlive(Intended(m).request) <==> StaysOpen(m)
  {
    var token := if "connection" in Headers(m) then Headers(m)["connection"] else "";
    LowerFixed("connection");
    LowerFixed("close");
    LowerFixed("keep-alive");
    LowerFolds(token, "close");
    LowerFolds(token, "keep-alive");
  }

  // ----- one request

  lemma MessageParsed(m: Message, extra: Octets)
    requires WellFormed(m) && |m.body| < Decimals.SIZE_LIMIT
    ensures LinesFit(START, Text(m) + extra)
    ensures Run(START, Text(m) + extra) ==
              if m.body == []
              then (START.(state := Complete, request := Intended(m).request), extra, MessageComplete)
              else (START.(state := Body, request := Intended(m).request, contentLength := |m.body|, remaining := |m.body|),
                    m.body + extra, HeadersComplete)
  {
    var head := HeadText(m.verb, m.path, m.query, m.version, m.fields);
    assert Text(m) + extra == head + (m.body + extra);
    HeadReadBack(m.verb, m.path, m.query, m.version, m.fields, m.body + extra);
    NothingMentioned("chunked");
    assert [] + extra == extra;
  }

  /** However it is cut into reads, a request that comes in between responses is taken once
      and whole, and its answer is queued. */
  lemma MessageTaken(app: App, c: Connection, m: Message, extra: Octets, chunks: seq<Octets>)
    requires Ready(c) && Welcome(app, m)
    requires chunks != [] && forall i :: 0 <= i < |chunks| ==> chunks[i] != []
    requires c.unread + Concat(chunks) == Text(m) + extra
    ensures Reads(app, c, chunks)
            == Respond(Taken(c, Intended(m).request, m.body, extra), app.respond(Intended(m)))
  {
    var input := Text(m) + extra;
    MessageParsed(m, extra);
    ReadWhenReady(app, c, chunks, input);
    var d := c.(unread := input);
    if m.body == [] {
      TakenAtOnce(app, d, Intended(m).request, extra);
    } else {
      TakenWithBody(app, d, Intended(m).request, m.body, extra);
    }
  }

  // ----- its response

  /** The bytes that a response is to put on the wire; a slice has to be in the file. */
  predicate Sendable(r: Response) {
    r.FromFile? ==> r.start + r.length <= |r.data|
  }

  function Bytes(r: Response): Octets
    requires Sendable(r)
  {
    match r
    case Plain(bytes) => bytes
    case FileGone(_, instead) => instead
    case FromFile(head, data, start, length) => head + data[start..start + length]
  }

  /** While a response goes out, and at its end. */
  ghost predicate Onward(c: Connection, d: Connection) {
    && d.unread == c.unread && d.delivered == c.delivered
    && (d.Sending() ==> d.parser == c.parser)
    && (!d.Sending() ==> if KeepAlive(c.parser.request) then Ready(d) else d.state.Closed?)
  }

  lemma WriteGoesOn(c: Connection, head: Outcome, data: Outcome)
    requires c.Sending() && InFile(c) && Possible(c, head, data) && !head.Failed? && !data.Failed?
    ensures Onward(c, OnWrite(c, head, data))
  {
    WriteKeepsTotal(c, head, data);
  }

  lemma {:induction false} WritesGoOn(c: Connection, events: seq<Event>)
    requires c.Sending() && InFile(c) && NoFailure(events)
    ensures Onward(c, Writes(c, events))
    decreases |events|
  {
    if events != [] && CanHappen(c, events[0]) {
      var d := Happen(c, events[0]);
      WriteGoesOn(c, events[0].head, events[0].data);
      WriteKeepsTotal(c, events[0].head, events[0].data);
      if d.Sending() {
        WritesGoOn(d, events[1..]);
      } else {
        assert Writes(d, events[1..]) == d;
      }
    }
  }

  /** When the response is out, all of it is on the wire, and the connection is ready for the
      next request, or closed. */
  lemma ResponseGoesOut(c: Connection, r: Response, events: seq<Event>)
    requires !c.state.Closed? && c.output == [] && Sendable(r) && NoFailure(events)
    ensures var d := Writes(Respond(c, r), events);
            !d.Sending() ==>
              && d.wire == c.wire + Bytes(r) && d.unread == c.unread && d.delivered == c.delivered
              && if KeepAlive(c.parser.request) then Ready(d) else d.state.Closed?
  {
    var c1 := Respond(c, r);
    assert InFile(c1) && c1.parser == c.parser && c1.unread == c.unread && c1.delivered == c.delivered;
    WritesGoOn(c1, events);
    WritesSendTotal(c1, events);
    ResponseTotal(c, r);
  }

  lemma ResponseTotal(c: Connection, r: Response)
    requires !c.state.Closed? && c.output == [] && Sendable(r)
    ensures Total(Respond(c, r)) == c.wire + Bytes(r)
  {
    match r
    case Plain(bytes) => assert [] + bytes == bytes;
    case FileGone(_, instead) =>
    case FromFile(head, data, start, length) =>
      assert [] + head == head;
      assert (c.wire + head) + data[start..start + length] == c.wire + (head + data[start..start + length]);
  }

  // ----- many requests

  /** A request, the reads that bring it in, and what happens while its response goes out. */
  datatype Exchange = Exchange(message: Message, chunks: seq<Octets>, events: seq<Event>)

  function AfterOne(app: App, c: Connection, e: Exchange): Connection {
    Writes(Reads(app, c, e.chunks), e.events)
  }

  function Hold(app: App, c: Connection, talk: seq<Exchange>): Connection
    decreases |talk|
  {
    if talk == [] then c else Hold(app, AfterOne(app, c, talk[0]), talk[1..])
  }

  /** The bytes that come in are the requests' texts one after the other, each request whole
      by the end of its reads, and perhaps a beginning of the next ones. */
  predicate InTime(early: Octets, talk: seq<Exchange>)
    decreases |talk|
  {
    talk == [] ||
    (ComesIn(early, talk[0]) && InTime(LeftOver(early, talk[0]), talk[1..]))
  }

  predicate ComesIn(early: Octets, e: Exchange) {
    && WellFormed(e.message) && e.chunks != [] && (forall i :: 0 <= i < |e.chunks| ==> e.chunks[i] != [])
    && Text(e.message) <= early + Concat(e.chunks)
  }

  function LeftOver(early: Octets, e: Exchange): Octets
    requires ComesIn(early, e)
  {
    (early + Concat(e.chunks))[|Text(e.message)|..]
  }

  /** No write fails, no timer runs out, and each response comes to its end. */
  predicate Answered(app: App, c: Connection, talk: seq<Exchange>)
    decreases |talk|
  {
    talk == [] ||
    (NoFailure(talk[0].events) && !AfterOne(app, c, talk[0]).Sending()
     && Answered(app, AfterOne(app, c, talk[0]), talk[1..]))
  }

  predicate Fair(app: App, e: Exchange) {
    Welcome(app, e.message) && Sendable(app.respond(Intended(e.message)))
  }

  predicate AllFair(app: App, talk: seq<Exchange>) {
    talk == [] || (Fair(app, talk[0]) && AllFair(app, talk[1..]))
  }

  function AllIntended(talk: seq<Exchange>): seq<Delivery> {
    if talk == [] then [] else [Intended(talk[0].message)] + AllIntended(talk[1..])
  }

  function AllBytes(app: App, talk: seq<Exchange>): Octets
    requires AllFair(app, talk)
  {
    if talk == [] then [] else Bytes(app.respond(Intended(talk[0].message))) + AllBytes(app, talk[1..])
  }

  /** What an exchange adds to a connection between responses. */
  ghost predicate Adds(c: Connection, d: Connection, delivered: seq<Delivery>, bytes: Octets, open: bool) {
    && d.delivered == c.delivered + delivered && d.wire == c.wire + bytes
    && if open then Ready(d) else d.state.Closed?
  }

  lemma ExchangeIsExact(app: App, c: Connection, e: Exchange)
    requires Ready(c) && Fair(app, e) && NoFailure(e.events) && ComesIn(c.unread, e)
    ensures var d := AfterOne(app, c, e);
            !d.Sending() ==>
              && Adds(c, d, [Intended(e.message)], Bytes(app.respond(Intended(e.message))), StaysOpen(e.message))
              && d.unread == LeftOver(c.unread, e)
  {
    var m := e.message;
    var extra := LeftOver(c.unread, e);
    assert c.unread + Concat(e.chunks) == Text(m) + extra;
    MessageTaken(app, c, m, extra, e.chunks);
    ResponseGoesOut(Taken(c, Intended(m).request, m.body, extra), app.respond(Intended(m)), e.events);
    KeptAliveIffStaysOpen(m);
  }

  predicate Lasts(talk: seq<Exchange>) {
    |talk| <= 1 || (StaysOpen(talk[0].message) && Lasts(talk[1..]))
  }

  predicate StaysOpenAfter(talk: seq<Exchange>) {
    talk == [] || StaysOpen(talk[|talk| - 1].message)
  }

  lemma AddsMore(c: Connection, d: Connection, e: Connection, a: seq<Delivery>, b: seq<Delivery>, x: Octets, y: Octets, open: bool)
    requires Adds(c, d, a, x, true) && Adds(d, e, b, y, open)
    ensures Adds(c, e, a + b, x + y, open)
  {
    assert (c.delivered + a) + b == c.delivered + (a + b) && (c.wire + x) + y == c.wire + (x + y);
  }

  lemma HoldUnfolds(app: App, c: Connection, talk: seq<Exchange>)
    requires talk != [] && AllFair(app, talk)
    ensures var e, later := talk[0], talk[1..];
            && Hold(app, c, talk) == Hold(app, AfterOne(app, c, e), later)
            && AllIntended(talk) == [Intended(e.message)] + AllIntended(later)
            && AllBytes(app, talk) == Bytes(app.respond(Intended(e.message))) + AllBytes(app, later)
            && StaysOpenAfter(talk) == if later == [] then StaysOpen(e.message) else StaysOpenAfter(later)
  {
  }

  lemma NothingMore(app: App, c: Connection, talk: seq<Exchange>)
    requires talk == []
    ensures Hold(app, c, talk) == c && AllIntended(talk) == [] && AllBytes(app, talk) == []
  {
  }

  lemma AddsNothing(c: Connection, d: Connection, a: seq<Delivery>, x: Octets, open: bool)
    requires Adds(c, d, a, x, open)
    ensures Adds(c, d, a + [], x + [], open)
  {
    assert a + [] == a && x + [] == x;
  }

  lemma {:induction false} HoldIsExact(app: App, c: Connection, talk: seq<Exchange>)
    requires talk != [] && Ready(c) && Lasts(talk) && AllFair(app, talk)
    requires InTime(c.unread, talk) && Answered(app, c, talk)
    ensures Adds(c, Hold(app, c, talk), AllIntended(talk), AllBytes(app, talk), StaysOpenAfter(talk))
    decreases |talk|
  {
    var e, later := talk[0], talk[1..];
    var d := AfterOne(app, c, e);
    HoldUnfolds(app, c, talk);
    ExchangeIsExact(app, c, e);
    if later == [] {
      NothingMore(app, d, later);
      AddsNothing(c, d, [Intended(e.message)], Bytes(app.respond(Intended(e.message))), StaysOpen(e.message));
    } else {
      HoldIsExact(app, d, later);
      AddsMore(c, d, Hold(app, d, later), [Intended(e.message)], AllIntended(later),
               Bytes(app.respond(Intended(e.message))), AllBytes(app, later), StaysOpenAfter(later));
    }
  }

  /** The connection theorem. For every sequence of well-formed requests on one connection,
      each of which but perhaps the last asks to keep it open, however they are cut into
      reads, even if a beginning of the next ones comes along with one, and whatever pieces
      the responses go out in: the application is given exactly these requests in order, the
      client gets exactly the answers in order, and the connection is closed at the end if
      and only if the last request does not ask to keep it open. */
  lemma ConversationIsExact(app: App, talk: seq<Exchange>)
    requires Lasts(talk) && AllFair(app, talk)
    requires InTime([], talk) && Answered(app, FRESH, talk)
    ensures var d := Hold(app, FRESH, talk);
            && d.delivered == AllIntended(talk) && d.wire == AllBytes(app, talk)
            && (d.state.Closed? <==> !StaysOpenAfter(talk))
  {
    if talk == [] {
      NothingMore(app, FRESH, talk);
    } else {
      HoldIsExact(app, FRESH, talk);
    }
    assert [] + AllIntended(talk) == AllIntended(talk) && [] + AllBytes(app, talk) == AllBytes(app, talk);
  }

  // ----- requests that are refused

  /** A body that is declared longer than allowed is refused at once: nothing is delivered,
      and the connection is closed after the refusal. */
  lemma TooLargeIsRefused(app: App, c: Connection, m: Message, came: Octets, chunks: seq<Octets>, events: seq<Event>)
    requires Ready(c) && WellFormed(m) && app.maxBody < |m.body| < Decimals.SIZE_LIMIT
    requires chunks != [] && forall i :: 0 <= i < |chunks| ==> chunks[i] != []
    requires c.unread + Concat(chunks) == HeadText(m.verb, m.path, m.query, m.version, m.fields) + came
    requires NoFailure(events)
    ensures var d := Writes(Reads(app, c, chunks), events);
            && d.delivered == c.delivered
            && (!d.Sending() ==> d.wire == c.wire + app.tooLarge && d.state.Closed?)
  {
    var input := c.unread + Concat(chunks);
    HeadReadBack(m.verb, m.path, m.query, m.version, m.fields, came);
    NothingMentioned("chunked");
    ReadWhenReady(app, c, chunks, input);
    var q := Run(START, input).0;
    var c1 := c.(parser := CloseAfter(q), unread := came);
    assert Reads(app, c, chunks) == Respond(c1, Plain(app.tooLarge));
    ClosesAfter(q);
    WritesGoOn(Respond(c1, Plain(app.tooLarge)), events);
    ResponseGoesOut(c1, Plain(app.tooLarge), events);
  }

  lemma ClosesAfter(p: Parser)
    ensures !KeepAlive(CloseAfter(p).request)
  {
    LowerFixed("connection");
    LowerFixed("close");
  }

  /** Input that the parser refuses is answered, and delivers nothing. */
  lemma MalformedIsRefused(app: App, c: Connection, input: Octets, chunks: seq<Octets>, events: seq<Event>)
    requires Ready(c) && chunks != [] && forall i :: 0 <= i < |chunks| ==> chunks[i] != []
    requires input == c.unread + Concat(chunks) && LinesFit(START, input) && Run(START, input).2.ParseError?
    requires NoFailure(events)
    ensures var d := Writes(Reads(app, c, chunks), events);
            && d.delivered == c.delivered
            && (!d.Sending() ==> d.wire == c.wire + app.badRequest(Run(START, input).0.error))
  {
    ReadWhenReady(app, c, chunks, input);
    var (q, rest, _) := Run(START, input);
    var c1 := c.(parser := q, unread := rest);
    WritesGoOn(Respond(c1, Plain(app.badRequest(q.error))), events);
    ResponseGoesOut(c1, Plain(app.badRequest(q.error)), events);
  }

  // ----- the end

  lemma {:induction false} ClosedReadsNothing(app: App, c: Connection, chunks: seq<Octets>)
    requires c.state.Closed?
    ensures var d := Reads(app, c, chunks);
            d.state.Closed? && d.delivered == c.delivered && d.wire == c.wire && d.output == c.output
    decreases |chunks|
  {
    if chunks != [] {
      ClosedReadsNothing(app, OnRead(app, c, chunks[0]), chunks[1..]);
    }
  }

  /** When the client closes, or a read fails, the connection is closed, whatever it was at,
      and from then on nothing is delivered or sent, not even an answer that is still to come;
      when a read has nothing yet, nothing changes. */
  lemma EndIsFinal(app: App, c: Connection, i: Incoming, chunks: seq<Octets>, events: seq<Event>, late: Response)
    requires i.EndOfStream? || i.Broken?
    ensures var d := Writes(Respond(Reads(app, Take(app, c, i), chunks), late), events);
            d.state.Closed? && d.delivered == c.delivered && d.wire == c.wire
    ensures Take(app, c, TryAgain) == c
  {
    ClosedReadsNothing(app, Take(app, c, i), chunks);
  }
}
