/** One client connection: src/net/http/http_connection.cpp. */
module HttpConnections {
  import opened Base
  import opened ByteBuffers
  import opened HttpParsing

  datatype ConnectionState = ReadingHeaders | ReadingBody | WritingResponse | SendingFile | Closed

  /** What the request callback is given. */
  datatype Delivery = Delivery(request: Request, body: Octets)

  /** A response as Send queues it. FileGone is a file that could not be opened:
      the head is dropped and an error response takes its place. */
  datatype Response =
    | Plain(bytes: Octets)
    | FromFile(head: Octets, data: Octets, start: nat, length: nat)
    | FileGone(head: Octets, instead: Octets)

  /** The application behind the connection. */
  datatype App = App(maxBody: nat, respond: Delivery -> Response,
                     tooLarge: Octets, badRequest: Complaint -> Octets)

  /** The connection as a value; wire is what the socket has accepted. */
  datatype Connection = Connection(state: ConnectionState, parser: Parser, unread: Octets,
                                   body: Octets, delivered: seq<Delivery>,
                                   output: Octets, file: Octets, offset: nat, remaining: nat,
                                   wire: Octets)
  {
    predicate Sending() {
      state.WritingResponse? || state.SendingFile?
    }
  }

  predicate KeepAlive(r: Request) {
    var token := Lower(Header(r, "connection"));
    token == "keep-alive" || (token != "close" && r.version == "HTTP/1.1")
  }

  function CloseAfter(p: Parser): Parser {
    p.(request := p.request.(headers := p.request.headers["connection" := "close"]))
  }

  function Respond(c: Connection, r: Response): (d: Connection)
    ensures c.state.Closed? || d.Sending()
  {
    if c.state.Closed? then c else
    match r
    case Plain(bytes) => c.(output := c.output + bytes, state := WritingResponse)
    case FileGone(head, instead) => c.(output := instead, state := WritingResponse)
    case FromFile(head, data, start, length) =>
      c.(output := c.output + head, file := data, offset := start, remaining := length,
         state := SendingFile)
  }

  function Deliver(app: App, c: Connection): Connection {
    var d := Delivery(c.parser.request, c.body);
    Respond(c.(delivered := c.delivered + [d]), app.respond(d))
  }

  /** Hands piece over as body and leaves rest unread. */
  function HandOver(app: App, c: Connection, piece: Octets, rest: Octets): Connection {
    var c1 := c.(body := c.body + piece, unread := rest);
    if |piece| >= c.parser.remaining
    then Deliver(app, c1.(parser := c.parser.(remaining := 0, state := Complete)))
    else c1.(parser := c.parser.(remaining := c.parser.remaining - |piece|))
  }

  /** Hands over the buffered bytes that belong to the body. */
  function TakeBody(app: App, c: Connection): Connection {
    var n := Min(|c.unread|, c.parser.remaining);
    HandOver(app, c, c.unread[..n], c.unread[n..])
  }

  /** What the connection does with the parser's answer. */
  function Proceed(app: App, c: Connection, r: ParseResult): Connection {
    match r
    case NeedMoreData => c
    case BodyData => c
    case MessageComplete => Deliver(app, c)
    case ParseError => Respond(c, Plain(app.badRequest(c.parser.error)))
    case HeadersComplete =>
      if c.parser.contentLength > app.maxBody
      then Respond(c.(parser := CloseAfter(c.parser)), Plain(app.tooLarge))
      else if c.unread == [] then c.(state := ReadingBody)
      else TakeBody(app, c.(state := ReadingBody))
  }

  function ProcessHeaders(app: App, c: Connection): Connection {
    var (q, rest, r) := Run(c.parser, c.unread);
    Proceed(app, c.(parser := q, unread := rest), r)
  }

  /** A successful read of bytes. */
  function OnRead(app: App, c: Connection, bytes: Octets): Connection {
    var c1 := c.(unread := c.unread + bytes);
    match c.state
    case ReadingHeaders => ProcessHeaders(app, c1)
    case ReadingBody => TakeBody(app, c1)
    case _ => c1
  }

  /** What a read from the socket may come to. */
  datatype Incoming = Bytes(data: Octets) | EndOfStream | TryAgain | Broken

  function Take(app: App, c: Connection, i: Incoming): Connection {
    match i
    case Bytes(data) => OnRead(app, c, data)
    case TryAgain => c
    case EndOfStream => c.(state := Closed)
    case Broken => c.(state := Closed)
  }

  /** The response is out: the connection is reused or closed. */
  function Finish(c: Connection): Connection {
    if KeepAlive(c.parser.request) then c.(parser := START, body := [], state := ReadingHeaders)
    else c.(state := Closed)
  }

  function Accepted(o: Outcome): nat {
    if o.Done? then o.count else 0
  }

  /** The outcomes a socket may give to the two system calls of one write event. */
  predicate Possible(c: Connection, head: Outcome, data: Outcome) {
    && Accepted(head) <= |c.output|
    && (data.Done? ==> data.count <= c.remaining)
    && (data.Done? && data.count > 0 ==> c.offset + data.count <= |c.file|)
  }

  function SendBuffered(c: Connection, head: Outcome): (d: Connection)
    requires Accepted(head) <= |c.output|
  {
    if head.Failed? then c.(state := Closed)
    else c.(wire := c.wire + c.output[..Accepted(head)], output := c.output[Accepted(head)..])
  }

  function SendFromFile(c: Connection, data: Outcome): Connection
    requires data.Done? ==> data.count <= c.remaining
    requires data.Done? && data.count > 0 ==> c.offset + data.count <= |c.file|
  {
    if data.Failed? then c.(state := Closed)
    else if Accepted(data) == 0 then c
    else c.(wire := c.wire + c.file[c.offset..c.offset + data.count],
            offset := c.offset + data.count, remaining := c.remaining - data.count)
  }

  /** One write event. */
  function OnWrite(c: Connection, head: Outcome, data: Outcome): Connection
    requires Possible(c, head, data)
  {
    if c.state.SendingFile? then
      var c1 := if c.output == [] then c else SendBuffered(c, head);
      if c1.state.Closed? || c1.output != [] then c1
      else if c1.remaining == 0 then Finish(c1)
      else SendFromFile(c1, data)
    else if c.output == [] then Finish(c)
    else SendBuffered(c, head)
  }

  class HttpConnection {
    const app: App
    const parser: HttpParser
    const input: ByteBuffer
    const output: ByteBuffer
    var state: ConnectionState
    var body: Octets
    var delivered: seq<Delivery>
    var file: Octets
    var offset: nat
    var remaining: nat
    var wire: Octets

    ghost predicate Valid()
      reads this, parser, input, output, input.buffer, output.buffer
    {
      input != output && input.buffer != output.buffer && input.Valid() && output.Valid()
    }

    ghost function Repr(): set<object>
      reads this, input, output
    {
      {this, parser, input, output, input.buffer, output.buffer}
    }

    ghost function View(): Connection
      requires Valid()
      reads this, parser, input, output, input.buffer, output.buffer
    {
      Connection(state, parser.View(), input.Contents(), body, delivered,
                 output.Contents(), file, offset, remaining, wire)
    }

    constructor (app: App)
      ensures Valid() && fresh(Repr())
      ensures this.app == app
      ensures View() == Connection(ReadingHeaders, START, [], [], [], [], [], 0, 0, [])
    {
      this.app := app;
      parser := new HttpParser();
      input := new ByteBuffer(1024);
      output := new ByteBuffer(1024);
      state, body, delivered := ReadingHeaders, [], [];
      file, offset, remaining, wire := [], 0, 0, [];
    }

    method HandleRead(i: Incoming)
      requires Valid() && (i.Bytes? ==> 0 < |i.data| <= input.ReadRoom())
      modifies Repr()
      ensures Valid() && fresh(Repr() - old(Repr()))
      ensures View() == Take(app, old(View()), i)
    {
      match i {
        case Bytes(data) => HandleBytes(data);
        case TryAgain =>
        case EndOfStream => state := Closed;
        case Broken => state := Closed;
      }
    }

    method HandleBytes(bytes: Octets)
      requires Valid() && |bytes| <= input.ReadRoom()
      modifies Repr()
      ensures Valid() && fresh(Repr() - old(Repr()))
      ensures View() == OnRead(app, old(View()), bytes)
    {
      input.ReadFd(bytes);
      match state {
        case ReadingHeaders => HandleHeaders();
        case ReadingBody => HandleBody();
        case _ =>
      }
    }

    method HandleHeaders()
      requires Valid()
      modifies Repr()
      ensures Valid() && fresh(Repr() - old(Repr()))
      ensures View() == ProcessHeaders(app, old(View()))
    {
      var result := parser.Parse(input);
      match result {
        case NeedMoreData =>
        case BodyData =>
        case MessageComplete => Request();
        case ParseError => Send(Plain(app.badRequest(parser.error)));
        case HeadersComplete =>
          if parser.contentLength > app.maxBody {
            parser.Assign(CloseAfter(parser.View()));
            Send(Plain(app.tooLarge));
            return;
          }
          state := ReadingBody;
          if input.ReadableBytes() > 0 {
            HandleBody();
          }
      }
    }

    method HandleBody()
      requires Valid()
      modifies Repr()
      ensures Valid() && fresh(Repr() - old(Repr()))
      ensures View() == TakeBody(app, old(View()))
    {
      var done := ConsumeInput();
      if done {
        Request();
      }
    }

    method ConsumeInput() returns (done: bool)
      requires Valid()
      modifies Repr()
      ensures Valid() && Repr() == old(Repr())
      ensures var c := old(View());
              var n := Min(|c.unread|, c.parser.remaining);
              && done == (n >= c.parser.remaining)
              && View() == c.(body := c.body + c.unread[..n], unread := c.unread[n..],
                              parser := if done then c.parser.(remaining := 0, state := Complete)
                                        else c.parser.(remaining := c.parser.remaining - n))
    {
      ghost var c := View();
      var n := Min(input.ReadableBytes(), parser.remaining);
      var piece := input.RetrieveAsString(n);
      assert piece == c.unread[..n] && output.Contents() == c.output;
      body := body + piece;
      done := parser.ConsumeBody(n);
      assert input.Contents() == c.unread[n..] && output.Contents() == c.output;
    }

    method Request()
      requires Valid()
      modifies Repr()
      ensures Valid() && fresh(Repr() - old(Repr()))
      ensures View() == Deliver(app, old(View()))
    {
      var d := Delivery(parser.request, body);
      delivered := delivered + [d];
      Send(app.respond(d));
    }

    method Send(r: Response)
      requires Valid()
      modifies Repr()
      ensures Valid() && fresh(Repr() - old(Repr()))
      ensures View() == Respond(old(View()), r)
    {
      if state.Closed? {
        return;
      }
      match r {
        case Plain(bytes) =>
          output.Append(bytes);
          state := WritingResponse;
        case FileGone(head, instead) =>
          ReplaceOutput(head, instead);
          state := WritingResponse;
        case FromFile(head, data, start, length) =>
          output.Append(head);
          file, offset, remaining := data, start, length;
          state := SendingFile;
      }
    }

    /** The file is gone: what was queued is dropped for an error response. */
    method ReplaceOutput(head: Octets, instead: Octets)
      requires Valid()
      modifies output, output.buffer
      ensures Valid() && fresh(Repr() - old(Repr()))
      ensures View() == old(View()).(output := instead)
    {
      output.Append(head);
      output.RetrieveAll();
      output.Append(instead);
    }

    method HandleWrite(head: Outcome, data: Outcome)
      requires Valid() && Possible(View(), head, data)
      modifies Repr()
      ensures Valid() && fresh(Repr() - old(Repr()))
      ensures View() == OnWrite(old(View()), head, data)
    {
      if state.SendingFile? {
        SendFileInLoop(head, data);
      } else {
        SendInLoop(head);
      }
    }

    method SendFileInLoop(head: Outcome, data: Outcome)
      requires Valid() && Possible(View(), head, data) && state.SendingFile?
      modifies Repr()
      ensures Valid() && fresh(Repr() - old(Repr()))
      ensures View() == OnWrite(old(View()), head, data)
    {
      if output.ReadableBytes() > 0 {
        WriteOutput(head);
        if state.Closed? || output.ReadableBytes() > 0 {
          return;
        }
      }
      if remaining == 0 {
        FinishResponse();
        return;
      }
      SendFile(data);
    }

    method SendInLoop(head: Outcome)
      requires Valid() && Accepted(head) <= |View().output| && !state.SendingFile?
      modifies Repr()
      ensures Valid() && fresh(Repr() - old(Repr()))
      ensures View() == if old(View()).output == [] then Finish(old(View())) else SendBuffered(old(View()), head)
    {
      if output.ReadableBytes() == 0 {
        FinishResponse();
      } else {
        WriteOutput(head);
      }
    }

    method WriteOutput(head: Outcome)
      requires Valid() && Accepted(head) <= |View().output|
      modifies Repr()
      ensures Valid() && fresh(Repr() - old(Repr()))
      ensures View() == SendBuffered(old(View()), head)
    {
      var sent := output.WriteFd(head);
      wire := wire + sent;
      if head.Failed? {
        state := Closed;
      }
    }

    method SendFile(data: Outcome)
      requires Valid()
      requires data.Done? ==> data.count <= remaining
      requires data.Done? && data.count > 0 ==> offset + data.count <= |file|
      modifies this
      ensures Valid() && View() == SendFromFile(old(View()), data)
    {
      if data.Done? && data.count > 0 {
        wire := wire + file[offset..offset + data.count];
        offset, remaining := offset + data.count, remaining - data.count;
      } else if data.Failed? {
        state := Closed;
      }
    }

    method FinishResponse()
      requires Valid()
      modifies this, parser
      ensures Valid() && View() == Finish(old(View()))
    {
      if KeepAlive(parser.request) {
        parser.Reset();
        body := [];
        state := ReadingHeaders;
      } else {
        state := Closed;
      }
    }
  }
}
