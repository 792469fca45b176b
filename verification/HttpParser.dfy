/** The request parser of src/net/http/http_parser.cpp. */
module HttpParsing {
  import opened Base
  import opened ByteBuffers
  import Decimals

  const MAX_REQUEST_LINE: nat := 4096
  const MAX_HEADER: nat := 8192

  datatype Method = Unknown | Get | Post | Put | Delete | Head | Options | Patch

  datatype Request = Request(verb: Method, path: string, query: string, version: string,
                             headers: map<string, string>)

  datatype ParseState = RequestLine | Headers | Body | Complete | Broken

  datatype ParseResult = NeedMoreData | HeadersComplete | BodyData | MessageComplete | ParseError

  /** The parser's error messages. */
  datatype Complaint =
    | NoComplaint
    | MissingMethod | UnknownMethod | MissingPath | UnsupportedVersion
    | MissingColon
    | InvalidContentLength | ConflictingLengths | ChunkedUnsupported
    | RequestLineTooLong | HeadersTooLarge

  /** The parser's fields as one value. */
  datatype Parser = Parser(state: ParseState, request: Request, error: Complaint,
                           contentLength: nat, remaining: nat, chunked: bool)
  {
    predicate InHeader() {
      state.RequestLine? || state.Headers?
    }

    predicate HasBody() {
      contentLength > 0 || chunked
    }
  }

  const EMPTY_REQUEST := Request(Unknown, "", "", "HTTP/1.1", map[])
  const START := Parser(RequestLine, EMPTY_REQUEST, NoComplaint, 0, 0, false)

  // ----- characters and lines

  function ToLower(c: char): char {
    if 'A' <= c <= 'Z' then c + ('a' - 'A') else c
  }

  function Lower(s: string): (r: string)
    ensures |r| == |s|
  {
    seq(|s|, i requires 0 <= i < |s| => ToLower(s[i]))
  }

  /** First position of c in s at or after from. */
  function Find(s: string, c: char, from: nat): (r: Option<nat>)
    ensures r.Some? ==> from <= r.value < |s|
    decreases |s| - from
  {
    if from >= |s| then None
    else if s[from] == c then Some(from)
    else Find(s, c, from + 1)
  }

  predicate IsBlank(c: char) {
    c == ' ' || c == '\t'
  }

  function Trim(s: string): (r: string) {
    if s != "" && IsBlank(s[0]) then Trim(s[1..])
    else if s != "" && IsBlank(s[|s| - 1]) then Trim(s[..|s| - 1])
    else s
  }

  function ToMethod(s: string): Method {
    if s == "GET" then Get
    else if s == "POST" then Post
    else if s == "PUT" then Put
    else if s == "DELETE" then Delete
    else if s == "HEAD" then Head
    else if s == "OPTIONS" then Options
    else if s == "PATCH" then Patch
    else Unknown
  }

  function Header(r: Request, key: string): string {
    if Lower(key) in r.headers then r.headers[Lower(key)] else ""
  }

  /** The request with what the line told, and the complaint if it is malformed. */
  function ParseRequestLine(r: Request, line: string): (Request, Option<Complaint>) {
    match Find(line, ' ', 0)
    case None => (r, Some(MissingMethod))
    case Some(space1) =>
      var r1 := r.(verb := ToMethod(line[..space1]));
      if r1.verb.Unknown? then (r1, Some(UnknownMethod)) else
      match Find(line, ' ', space1 + 1)
      case None => (r1, Some(MissingPath))
      case Some(space2) =>
        var uri := line[space1 + 1..space2];
        var r2 := match Find(uri, '?', 0)
                  case Some(q) => r1.(path := uri[..q], query := uri[q + 1..])
                  case None => r1.(path := uri);
        var version := line[space2 + 1..];
        if version != "HTTP/1.0" && version != "HTTP/1.1" then (r2, Some(UnsupportedVersion))
        else (r2.(version := version), None)
  }

  function ParseHeader(r: Request, line: string): (Request, Option<Complaint>) {
    match Find(line, ':', 0)
    case None => (r, Some(MissingColon))
    case Some(colon) =>
      (r.(headers := r.headers[Lower(line[..colon]) := Trim(line[colon + 1..])]), None)
  }

  predicate Contains(s: string, w: string) {
    w <= s || (s != "" && Contains(s[1..], w))
  }

  /** The blank line: the body's length is settled. */
  function FinishHeaders(p: Parser): Parser {
    var cleared := p.(contentLength := 0, remaining := 0, chunked := false);
    var declared := Header(p.request, "content-length");
    var length := Decimals.ParseSize(declared);
    if declared != "" && length.None? then cleared.(state := Broken, error := InvalidContentLength) else
    var sized := if declared == "" then cleared
                 else cleared.(contentLength := length.value, remaining := length.value);
    var coding := Lower(Header(p.request, "transfer-encoding"));
    if !Contains(coding, "chunked") then sized.(state := if sized.HasBody() then Body else Complete)
    else if sized.contentLength > 0 then
      sized.(state := Broken, error := ConflictingLengths)
    else sized.(state := Body, chunked := true)
  }

  /** What one line, without its CR LF, does to the parser. */
  function TakeLine(p: Parser, line: string): (q: Parser)
    requires p.InHeader()
    ensures !q.state.RequestLine?
  {
    if p.state.Headers? && line == "" then FinishHeaders(p) else
    var (request, complaint) :=
      if p.state.RequestLine? then ParseRequestLine(p.request, line) else ParseHeader(p.request, line);
    match complaint
    case Some(error) => p.(state := Broken, request := request, error := error)
    case None => p.(state := Headers, request := request)
  }

  function Limit(state: ParseState): nat {
    if state.RequestLine? then MAX_REQUEST_LINE else MAX_HEADER
  }

  function TooLong(p: Parser): Parser {
    p.(state := Broken, error := if p.state.RequestLine? then RequestLineTooLong else HeadersTooLarge)
  }

  /** A malformed line stays in the buffer; every other line leaves it. */
  function AfterLine(p: Parser, q: Parser, input: Octets, i: nat): Octets
    requires i + 2 <= |input|
  {
    if q.state.Broken? && !(p.state.Headers? && i == 0) then input else input[i + 2..]
  }

  function ResultOf(q: Parser): ParseResult {
    match q.state
    case Body => HeadersComplete
    case Complete => MessageComplete
    case Broken => ParseError
    case _ => NeedMoreData
  }

  /** What one call of Parse does to a parser and a buffer holding input. */
  function Run(p: Parser, input: Octets): (Parser, Octets, ParseResult)
    decreases |input|
  {
    if p.InHeader() then
      match FindCRLF(input)
      case None =>
        if |input| > Limit(p.state) then (TooLong(p), input, ParseError) else (p, input, NeedMoreData)
      case Some(i) =>
        var q := TakeLine(p, input[..i]);
        var rest := AfterLine(p, q, input, i);
        if q.state.Headers? then Run(q, rest) else (q, rest, ResultOf(q))
    else if p.state.Body? then
      if p.chunked then
        (p.(state := Broken, error := ChunkedUnsupported), input, ParseError)
      else if input == [] then (p, input, NeedMoreData)
      else
        var q := p.(remaining := p.remaining - Min(|input|, p.remaining));
        if q.remaining == 0 then (q.(state := Complete), input, MessageComplete) else (q, input, BodyData)
    else (p, input, ResultOf(p))
  }

  class HttpParser {
    var state: ParseState
    var request: Request
    var error: Complaint
    var contentLength: nat
    var remaining: nat
    var chunked: bool

    function View(): (p: Parser)
      reads this
    {
      Parser(state, request, error, contentLength, remaining, chunked)
    }

    constructor ()
      ensures View() == START
    {
      state, request, error := RequestLine, EMPTY_REQUEST, NoComplaint;
      contentLength, remaining, chunked := 0, 0, false;
    }

    method Reset()
      modifies this
      ensures View() == START
    {
      state, request, error := RequestLine, EMPTY_REQUEST, NoComplaint;
      contentLength, remaining, chunked := 0, 0, false;
    }

    method Parse(input: ByteBuffer) returns (r: ParseResult)
      requires input.Valid()
      modifies this, input
      ensures input.Valid() && input.buffer == old(input.buffer)
      ensures (View(), input.Contents(), r) == Run(old(View()), old(input.Contents()))
    {
      ghost var goal := Run(View(), input.Contents());
      while true
        invariant input.Valid() && input.buffer == old(input.buffer)
        invariant Run(View(), input.Contents()) == goal
        decreases |input.Contents()|
      {
        match state {
          case RequestLine =>
            var outcome := ParseLine(input);
            if outcome.Some? {
              return outcome.value;
            }
          case Headers =>
            var outcome := ParseLine(input);
            if outcome.Some? {
              return outcome.value;
            }
          case Body =>
            r := ParseBody(input);
            return;
          case Complete =>
            return MessageComplete;
          case Broken =>
            return ParseError;
        }
      }
    }

    /** One turn of the loop on a request line or a header line. */
    method ParseLine(input: ByteBuffer) returns (r: Option<ParseResult>)
      requires input.Valid() && View().InHeader()
      modifies this, input
      ensures input.Valid() && input.buffer == old(input.buffer)
      ensures r.Some? ==> (View(), input.Contents(), r.value) == Run(old(View()), old(input.Contents()))
      ensures r.None? ==> Run(View(), input.Contents()) == Run(old(View()), old(input.Contents()))
      ensures r.None? ==> |input.Contents()| < |old(input.Contents())|
    {
      var crlf := input.FindEndOfLine();
      if crlf.None? {
        if input.ReadableBytes() > Limit(state) {
          error := if state.RequestLine? then RequestLineTooLong else HeadersTooLarge;
          state := Broken;
          return Some(ParseError);
        }
        return Some(NeedMoreData);
      }
      var next := TakeWholeLine(input, crlf.value);
      if next.state.Headers? {
        return None;
      }
      return Some(ResultOf(next));
    }

    /** Parses the first i bytes as a line and consumes it unless it is malformed. */
    method TakeWholeLine(input: ByteBuffer, i: nat) returns (next: Parser)
      requires input.Valid() && View().InHeader() && i + 2 <= |input.Contents()|
      modifies this, input
      ensures input.Valid() && input.buffer == old(input.buffer)
      ensures next == View() == TakeLine(old(View()), old(input.Contents())[..i])
      ensures input.Contents() == AfterLine(old(View()), View(), old(input.Contents()), i)
    {
      var line := input.buffer[input.readerIndex..input.readerIndex + i];
      assert line == input.Contents()[..i];
      if state.Headers? && line == "" {
        input.Retrieve(i + 2);
        Assign(FinishHeaders(View()));
        return View();
      }
      var (told, complaint) :=
        if state.RequestLine? then ParseRequestLine(request, line) else ParseHeader(request, line);
      request := told;
      if complaint.Some? {
        error := complaint.value;
        state := Broken;
        return View();
      }
      input.Retrieve(i + 2);
      state := Headers;
      return View();
    }

    method ParseBody(input: ByteBuffer) returns (r: ParseResult)
      requires input.Valid() && state.Body?
      modifies this
      ensures (View(), input.Contents(), r) == Run(old(View()), input.Contents())
    {
      if chunked {
        error := ChunkedUnsupported;
        state := Broken;
        return ParseError;
      }
      var readable := input.ReadableBytes();
      if readable == 0 {
        return NeedMoreData;
      }
      remaining := remaining - Min(readable, remaining);
      if remaining == 0 {
        state := Complete;
        return MessageComplete;
      }
      return BodyData;
    }

    method Assign(p: Parser)
      modifies this
      ensures View() == p
    {
      state, request, error := p.state, p.request, p.error;
      contentLength, remaining, chunked := p.contentLength, p.remaining, p.chunked;
    }

    /** Takes len body bytes as handed over; true when the body is complete. */
    method ConsumeBody(len: nat) returns (done: bool)
      modifies this
      ensures done == (len >= old(remaining))
      ensures View() == if done then old(View()).(remaining := 0, state := Complete)
                        else old(View()).(remaining := old(remaining) - len)
    {
      if len >= remaining {
        remaining := 0;
        state := Complete;
        return true;
      }
      remaining := remaining - len;
      return false;
    }
  }
}
