/** What a connection delivers does not depend on how the bytes arrived. */
module BodyDelivery {
  import opened Base
  import opened ByteBuffers
  import opened HttpParsing
  import opened Fragmentation
  import opened HttpConnections

  function Reads(app: App, c: Connection, chunks: seq<Octets>): Connection
    decreases |chunks|
  {
    if chunks == [] then c else Reads(app, OnRead(app, c, chunks[0]), chunks[1..])
  }

  /** While headers are being read, the lines to come are within their limits. */
  predicate Fits(c: Connection, bytes: Octets) {
    c.state.ReadingHeaders? ==> c.parser.InHeader() && LinesFit(c.parser, c.unread + bytes)
  }

  /** Unread bytes take no part in delivering a request. */
  lemma DeliverKeepsUnread(app: App, c: Connection, unread: Octets)
    requires !c.state.Closed?
    ensures Deliver(app, c.(unread := unread)) == Deliver(app, c).(unread := unread)
    ensures Deliver(app, c).Sending() && Deliver(app, c).unread == c.unread
  {
    var d := Delivery(c.parser.request, c.body);
    var r := app.respond(d);
    match r
    case Plain(_) =>
    case FileGone(_, _) =>
    case FromFile(_, _, _, _) =>
  }

  lemma BodyEndsInFirst(app: App, c: Connection, s: Octets, b: Octets)
    requires c.state.ReadingBody? && |s| >= c.parser.remaining
    ensures OnRead(app, TakeBody(app, c.(unread := s)), b) == TakeBody(app, c.(unread := s + b))
  {
    var n := c.parser.remaining;
    assert (s + b)[..n] == s[..n] && (s + b)[n..] == s[n..] + b;
    var c1 := c.(body := c.body + s[..n], unread := s[n..],
                 parser := c.parser.(remaining := 0, state := Complete));
    DeliverKeepsUnread(app, c1, s[n..] + b);
    assert TakeBody(app, c.(unread := s)) == Deliver(app, c1);
    assert TakeBody(app, c.(unread := s + b)) == Deliver(app, c1.(unread := s[n..] + b));
  }

  lemma BodyGoesOn(app: App, c: Connection, s: Octets, b: Octets)
    requires c.state.ReadingBody? && |s| < c.parser.remaining
    ensures OnRead(app, TakeBody(app, c.(unread := s)), b) == TakeBody(app, c.(unread := s + b))
  {
    var m := Min(|b|, c.parser.remaining - |s|);
    SplitAfter(s, b, m);
    TakenWhole(app, c, s);
    HandOverTwice(app, c, s, b[..m], b[m..]);
  }

  lemma TakenWhole(app: App, c: Connection, s: Octets)
    requires |s| < c.parser.remaining
    ensures TakeBody(app, c.(unread := s)) == HandOver(app, c, s, [])
  {
    assert s[..|s|] == s && s[|s|..] == [];
  }

  lemma HandOverTwice(app: App, c: Connection, s: Octets, t: Octets, rest: Octets)
    requires |s| < c.parser.remaining
    ensures HandOver(app, HandOver(app, c, s, []), t, rest) == HandOver(app, c, s + t, rest)
  {
    assert (c.body + s) + t == c.body + (s + t);
  }

  lemma SplitAfter(s: Octets, b: Octets, m: nat)
    requires m <= |b|
    ensures (s + b)[..|s| + m] == s + b[..m] && (s + b)[|s| + m..] == b[m..] && [] + b == b
  {
  }

  lemma TwoBodyReads(app: App, c: Connection, s: Octets, b: Octets)
    requires c.state.ReadingBody?
    ensures OnRead(app, TakeBody(app, c.(unread := s)), b) == TakeBody(app, c.(unread := s + b))
  {
    if |s| < c.parser.remaining {
      BodyGoesOn(app, c, s, b);
    } else {
      BodyEndsInFirst(app, c, s, b);
    }
  }

  /** Reading on after the parser has stopped is having read it all before. */
  lemma ReadAfterHeaders(app: App, c: Connection, r: ParseResult, b: Octets)
    requires c.state.ReadingHeaders? && b != [] && !r.NeedMoreData? && !r.BodyData?
    ensures OnRead(app, Proceed(app, c, r), b) == Proceed(app, c.(unread := c.unread + b), r)
    ensures !Proceed(app, c, r).state.ReadingHeaders?
  {
    match r
    case MessageComplete => DeliverKeepsUnread(app, c, c.unread + b);
    case ParseError =>
    case HeadersComplete =>
      if c.parser.contentLength <= app.maxBody {
        BodyAfterHeaders(app, c.(state := ReadingBody), b);
      }
  }

  lemma BodyAfterHeaders(app: App, c: Connection, b: Octets)
    requires c.state.ReadingBody? && b != []
    ensures var first := if c.unread == [] then c else TakeBody(app, c);
            OnRead(app, first, b) == TakeBody(app, c.(unread := c.unread + b))
    ensures var first := if c.unread == [] then c else TakeBody(app, c);
            !first.state.ReadingHeaders?
  {
    if c.unread == [] {
      assert c.unread + b == b;
    } else {
      TwoBodyReads(app, c, c.unread, b);
    }
  }

  lemma TwoHeaderReads(app: App, c: Connection, a: Octets, b: Octets)
    requires c.state.ReadingHeaders? && Fits(c, a + b) && b != []
    ensures OnRead(app, OnRead(app, c, a), b) == OnRead(app, c, a + b)
    ensures Fits(OnRead(app, c, a), b)
  {
    var s := c.unread + a;
    assert c.unread + (a + b) == s + b;
    RunSplit(c.parser, s, b);
    RunResult(c.parser, s);
    var (q, rest, r) := Run(c.parser, s);
    if !r.NeedMoreData? {
      ReadAfterHeaders(app, c.(parser := q, unread := rest), r, b);
    }
  }

  /** A run that is still in the header asks for more; one that is not never does. */
  lemma {:induction false} RunResult(p: Parser, input: Octets)
    requires p.InHeader()
    ensures var (q, rest, r) := Run(p, input);
            && (r.NeedMoreData? <==> q.InHeader())
            && (r.HeadersComplete? <==> q.state.Body?)
            && (r.MessageComplete? <==> q.state.Complete?)
            && (r.ParseError? <==> q.state.Broken?)
    decreases |input|
  {
    if FindCRLF(input).Some? {
      var i := FindCRLF(input).value;
      var q := TakeLine(p, input[..i]);
      if q.state.Headers? {
        RunResult(q, input[i + 2..]);
        RunLine(p, input, i, q);
      }
    }
  }

  lemma TwoReads(app: App, c: Connection, a: Octets, b: Octets)
    requires Fits(c, a + b) && b != []
    ensures OnRead(app, OnRead(app, c, a), b) == OnRead(app, c, a + b)
    ensures Fits(OnRead(app, c, a), b)
  {
    match c.state
    case ReadingHeaders => TwoHeaderReads(app, c, a, b);
    case ReadingBody =>
      assert c.unread + (a + b) == (c.unread + a) + b;
      TwoBodyReads(app, c, c.unread + a, b);
    case _ => assert c.unread + (a + b) == (c.unread + a) + b;
  }

  /** Any sequence of non-empty reads leaves the connection, with everything it
      has delivered and queued, as one read of all the bytes does. */
  lemma {:induction false} ReadsAreOneRead(app: App, c: Connection, chunks: seq<Octets>)
    requires chunks != [] && forall i :: 0 <= i < |chunks| ==> chunks[i] != []
    requires Fits(c, Concat(chunks))
    ensures Reads(app, c, chunks) == OnRead(app, c, Concat(chunks))
    decreases |chunks|
  {
    var c1 := OnRead(app, c, chunks[0]);
    if |chunks| == 1 {
      assert Reads(app, c1, chunks[1..]) == c1;
      assert chunks[0] + [] == chunks[0];
    } else {
      assert Concat(chunks[1..]) != [] by {
        assert chunks[1..][0] == chunks[1];
      }
      TwoReads(app, c, chunks[0], Concat(chunks[1..]));
      ReadsAreOneRead(app, c1, chunks[1..]);
    }
  }

  /** Between requests: the parser is new, and nothing is queued. */
  predicate Ready(c: Connection) {
    c.state.ReadingHeaders? && c.parser == START && c.body == [] && c.output == []
  }

  lemma ReadWhenReady(app: App, c: Connection, chunks: seq<Octets>, input: Octets)
    requires Ready(c) && chunks != [] && forall i :: 0 <= i < |chunks| ==> chunks[i] != []
    requires input == c.unread + Concat(chunks) && LinesFit(START, input)
    ensures Reads(app, c, chunks) == ProcessHeaders(app, c.(unread := input))
  {
    ReadsAreOneRead(app, c, chunks);
  }

  /** The connection as it is when the request and its body have come in. */
  function Taken(c: Connection, r: Request, body: Octets, extra: Octets): Connection {
    c.(state := if body == [] then ReadingHeaders else ReadingBody,
       parser := START.(state := Complete, request := r, contentLength := |body|),
       unread := extra, body := body, delivered := c.delivered + [Delivery(r, body)])
  }

  lemma TakenIsDelivered(c: Connection, r: Request, body: Octets, extra: Octets, answer: Response)
    ensures var d := Respond(Taken(c, r, body, extra), answer);
            && d.delivered == c.delivered + [Delivery(r, body)] && d.body == body && d.unread == extra && d.Sending()
  {
  }

  lemma TakenAtOnce(app: App, c: Connection, r: Request, extra: Octets)
    requires Ready(c) && Run(START, c.unread) == (START.(state := Complete, request := r), extra, MessageComplete)
    ensures ProcessHeaders(app, c) == Respond(Taken(c, r, [], extra), app.respond(Delivery(r, [])))
  {
  }

  lemma TakenWithBody(app: App, c: Connection, r: Request, body: Octets, extra: Octets)
    requires Ready(c) && 0 < |body| <= app.maxBody
    requires Run(START, c.unread) == (START.(state := Body, request := r, contentLength := |body|, remaining := |body|),
                                      body + extra, HeadersComplete)
    ensures ProcessHeaders(app, c) == Respond(Taken(c, r, body, extra), app.respond(Delivery(r, body)))
  {
    var q := START.(state := Body, request := r, contentLength := |body|, remaining := |body|);
    var c1 := c.(state := ReadingBody, parser := q, unread := body + extra);
    assert (body + extra)[..|body|] == body && (body + extra)[|body|..] == extra && [] + body == body;
    assert ProcessHeaders(app, c) == TakeBody(app, c1);
    assert TakeBody(app, c1) == HandOver(app, c1, body, extra);
  }

  const FRESH := Connection(ReadingHeaders, START, [], [], [], [], [], 0, 0, [])

  /** The body theorem: when the header block declares a body of n bytes, then for
      every fragmentation the body handed over is the first n bytes after the
      blank line, as far as they have come; the request is delivered once, when
      they are all there; and the bytes after them stay unread. A chunked request
      declares a body of no bytes, and is delivered when anything follows. */
  lemma BodyIsExact(app: App, chunks: seq<Octets>)
    requires chunks != [] && forall i :: 0 <= i < |chunks| ==> chunks[i] != []
    requires LinesFit(START, Concat(chunks))
    requires Run(START, Concat(chunks)).2.HeadersComplete?
    requires Run(START, Concat(chunks)).0.contentLength <= app.maxBody
    ensures var (q, rest, _) := Run(START, Concat(chunks));
            var n := q.contentLength;
            var c := Reads(app, FRESH, chunks);
            && c.body == rest[..Min(n, |rest|)]
            && c.unread == rest[Min(n, |rest|)..]
            && (q.chunked <==> n == 0)
            && c.delivered == (if rest != [] && |rest| >= n then [Delivery(q.request, rest[..n])] else [])
            && (c.state.ReadingBody? <==> rest == [] || |rest| < n)
            && (c.state.ReadingBody? ==> c.parser.remaining == n - |rest|)
  {
    var input := Concat(chunks);
    assert [] + input == input;
    ReadsAreOneRead(app, FRESH, chunks);
    BodyDeclared(START, input);
    var (q, rest, _) := Run(START, input);
    var c := FRESH.(parser := q, unread := rest, state := ReadingBody);
    if rest != [] {
      BodyTaken(app, c);
    }
  }

  lemma BodyTaken(app: App, c: Connection)
    requires c.state.ReadingBody? && c.body == [] && c.delivered == []
    ensures var n := c.parser.remaining;
            var d := TakeBody(app, c);
            && d.body == c.unread[..Min(n, |c.unread|)]
            && d.unread == c.unread[Min(n, |c.unread|)..]
            && d.delivered == (if |c.unread| >= n then [Delivery(c.parser.request, c.unread[..n])] else [])
            && (d.state.ReadingBody? <==> |c.unread| < n)
            && (d.state.ReadingBody? ==> d.parser.remaining == n - |c.unread|)
  {
    var n := Min(c.parser.remaining, |c.unread|);
    assert [] + c.unread[..n] == c.unread[..n];
    assert TakeBody(app, c) == HandOver(app, c, c.unread[..n], c.unread[n..]);
    if |c.unread| >= c.parser.remaining {
      var c1 := c.(body := c.unread[..n], unread := c.unread[n..],
                   parser := c.parser.(remaining := 0, state := Complete));
      DeliverKeepsUnread(app, c1, c1.unread);
    }
  }

  /** After the header block the whole body remains, and it is empty exactly if chunked. */
  lemma {:induction false} BodyDeclared(p: Parser, input: Octets)
    requires p.InHeader() && Run(p, input).2.HeadersComplete?
    ensures var q := Run(p, input).0;
            q.remaining == q.contentLength && (q.chunked <==> q.contentLength == 0)
    decreases |input|
  {
    var i := FindCRLF(input).value;
    var q := TakeLine(p, input[..i]);
    if q.state.Headers? {
      RunLine(p, input, i, q);
      BodyDeclared(q, input[i + 2..]);
    } else {
      BodySettled(p, input[..i]);
    }
  }

  lemma BodySettled(p: Parser, line: string)
    requires p.InHeader() && TakeLine(p, line).state.Body?
    ensures var q := TakeLine(p, line);
            q.remaining == q.contentLength && (q.chunked <==> q.contentLength == 0)
  {
  }

  /** A chunked request is delivered without a body, and what its body was sent as stays
      unread, to be taken for the next request. */
  lemma ChunkedHasNoBody(app: App, chunks: seq<Octets>)
    requires chunks != [] && forall i :: 0 <= i < |chunks| ==> chunks[i] != []
    requires LinesFit(START, Concat(chunks)) && Run(START, Concat(chunks)).2.HeadersComplete?
    requires Run(START, Concat(chunks)).0.chunked && Run(START, Concat(chunks)).1 != []
    ensures var (q, rest, _) := Run(START, Concat(chunks));
            var c := Reads(app, FRESH, chunks);
            c.delivered == [Delivery(q.request, [])] && c.body == [] && c.unread == rest && c.Sending()
  {
    var input := Concat(chunks);
    assert [] + input == input;
    BodyDeclared(START, input);
    BodyIsExact(app, chunks);
    ReadsAreOneRead(app, FRESH, chunks);
    var (q, rest, _) := Run(START, input);
    assert rest[..0] == [] && rest[0..] == rest;
    var c := FRESH.(parser := q, unread := rest, state := ReadingBody);
    DeliverKeepsUnread(app, c.(body := [] + rest[..0], parser := q.(remaining := 0, state := Complete)), rest);
  }
}
