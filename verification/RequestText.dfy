/** The parser reads back what a client writes: text of a request, then Run. */
module RequestText {
  import opened Base
  import opened ByteBuffers
  import opened HttpParsing
  import opened Fragmentation
  import opened HttpConnections
  import opened BodyDelivery
  import Decimals

  datatype Field = Field(key: string, value: string)

  function MethodText(m: Method): (s: string)
    requires !m.Unknown?
    ensures ToMethod(s) == m && ' ' !in s && '\r' !in s
  {
    match m
    case Get => "GET"
    case Post => "POST"
    case Put => "PUT"
    case Delete => "DELETE"
    case Head => "HEAD"
    case Options => "OPTIONS"
    case Patch => "PATCH"
  }

  function Target(path: string, query: Option<string>): string {
    if query.Some? then path + "?" + query.value else path
  }

  function FirstLine(m: Method, path: string, query: Option<string>, version: string): string
    requires !m.Unknown?
  {
    MethodText(m) + " " + Target(path, query) + " " + version
  }

  function FieldLine(f: Field): string {
    f.key + ": " + f.value
  }

  /** The header block after the request line, with its blank line. */
  function FieldLines(fields: seq<Field>): Octets {
    if fields == [] then "\r\n" else FieldLine(fields[0]) + "\r\n" + FieldLines(fields[1..])
  }

  function FieldMap(m: map<string, string>, fields: seq<Field>): map<string, string>
    decreases |fields|
  {
    if fields == [] then m else FieldMap(m[Lower(fields[0].key) := fields[0].value], fields[1..])
  }

  predicate PlainTarget(path: string, query: Option<string>) {
    ' ' !in path && '?' !in path && (query.Some? ==> ' ' !in query.value)
  }

  predicate GoodTarget(path: string, query: Option<string>) {
    PlainTarget(path, query) && '\r' !in path && (query.Some? ==> '\r' !in query.value)
  }

  predicate GoodVersion(version: string) {
    version == "HTTP/1.0" || version == "HTTP/1.1"
  }

  /** A field with no CR and no colon in its name, no blank around its value. */
  predicate GoodField(f: Field) {
    && f.key != "" && ':' !in f.key && '\r' !in f.key && '\r' !in f.value
    && (f.value != "" ==> !IsBlank(f.value[0]) && !IsBlank(f.value[|f.value| - 1]))
    && |FieldLine(f)| < MAX_HEADER
  }

  lemma {:induction false} FindFirst(s: string, c: char, from: nat, i: nat)
    requires from <= i < |s| && s[i] == c && forall k :: from <= k < i ==> s[k] != c
    ensures Find(s, c, from) == Some(i)
    decreases i - from
  {
    if from < i {
      FindFirst(s, c, from + 1, i);
    }
  }

  lemma {:induction false} FindNone(s: string, c: char, from: nat)
    requires c !in s
    ensures Find(s, c, from) == None
    decreases |s| - from
  {
    if from < |s| {
      assert s[from] in s;
      FindNone(s, c, from + 1);
    }
  }

  lemma FindAfter(a: string, c: char, t: string)
    requires c !in a
    ensures Find(a + [c] + t, c, 0) == Some(|a|)
  {
    var s := a + [c] + t;
    forall k | 0 <= k < |a| ensures s[k] != c {
      assert s[k] == a[k] && a[k] in a;
    }
    FindFirst(s, c, 0, |a|);
  }

  lemma SplitTarget(path: string, query: Option<string>)
    requires PlainTarget(path, query)
    ensures var uri := Target(path, query);
            match Find(uri, '?', 0)
            case Some(q) => query == Some(uri[q + 1..]) && uri[..q] == path
            case None => query.None? && uri == path
  {
    if query.Some? {
      FindAfter(path, '?', query.value);
      assert path + ['?'] + query.value == Target(path, query);
      assert Target(path, query)[..|path|] == path;
      assert Target(path, query)[|path| + 1..] == query.value;
    } else {
      FindNone(path, '?', 0);
    }
  }

  lemma NoBlankInTarget(path: string, query: Option<string>)
    requires PlainTarget(path, query)
    ensures ' ' !in Target(path, query) && (GoodTarget(path, query) ==> '\r' !in Target(path, query))
  {
  }

  lemma LineParts(verb: string, uri: string, version: string)
    ensures var line := verb + " " + uri + " " + version;
            var n := |verb|;
            var e := n + 1 + |uri|;
            line[..n] == verb && line[n + 1..e] == uri && line[e] == ' ' && line[e + 1..] == version
  {
    var line := verb + " " + uri + " " + version;
    assert line == (verb + " ") + (uri + (" " + version));
    assert line[|verb| + 1..] == uri + (" " + version);
    assert line[|verb| + 1..|verb| + 1 + |uri|] == (uri + (" " + version))[..|uri|];
  }

  /** A search that starts after a prefix does not see the prefix. */
  lemma {:induction false} FindShift(pre: string, s: string, c: char, from: nat)
    requires from <= |s|
    ensures Find(pre + s, c, |pre| + from) ==
            (match Find(s, c, from) case Some(i) => Some(|pre| + i) case None => None)
    decreases |s| - from
  {
    if from < |s| {
      assert (pre + s)[|pre| + from] == s[from];
      if s[from] != c {
        FindShift(pre, s, c, from + 1);
      }
    }
  }

  lemma Reassociate(a: string, b: string, c: string, d: string)
    ensures a + b + c + d == a + (b + c + d)
  {
  }

  lemma LineSpaces(verb: string, uri: string, version: string)
    requires ' ' !in verb && ' ' !in uri
    ensures var line := verb + " " + uri + " " + version;
            && Find(line, ' ', 0) == Some(|verb|)
            && Find(line, ' ', |verb| + 1) == Some(|verb| + 1 + |uri|)
  {
    var line := verb + " " + uri + " " + version;
    var after := uri + " " + version;
    Reassociate(verb + " ", uri, " " , version);
    FindAfter(verb, ' ', after);
    FindAfter(uri, ' ', version);
    FindShift(verb + " ", after, ' ', 0);
  }

  function Targeted(r: Request, uri: string): Request {
    match Find(uri, '?', 0)
    case Some(q) => r.(path := uri[..q], query := uri[q + 1..])
    case None => r.(path := uri)
  }

  /** A line is taken apart at its first two blanks. */
  lemma LineTakenApart(r: Request, line: string, m: Method, uri: string, version: string, n: nat, e: nat)
    requires !m.Unknown? && GoodVersion(version)
    requires Find(line, ' ', 0) == Some(n) && line[..n] == MethodText(m)
    requires Find(line, ' ', n + 1) == Some(e) && line[n + 1..e] == uri && line[e + 1..] == version
    ensures ParseRequestLine(r, line) == (Targeted(r.(verb := m), uri).(version := version), None)
  {
    assert ToMethod(MethodText(m)) == m;
  }

  /** The request line round trip. */
  lemma RequestLineReadBack(r: Request, m: Method, path: string, query: Option<string>, version: string)
    requires !m.Unknown? && PlainTarget(path, query) && GoodVersion(version)
    ensures ParseRequestLine(r, FirstLine(m, path, query, version)) ==
            (r.(verb := m, path := path, query := if query.Some? then query.value else r.query,
                version := version), None)
  {
    var verb, uri := MethodText(m), Target(path, query);
    NoBlankInTarget(path, query);
    LineParts(verb, uri, version);
    LineSpaces(verb, uri, version);
    LineTakenApart(r, FirstLine(m, path, query, version), m, uri, version, |verb|, |verb| + 1 + |uri|);
    SplitTarget(path, query);
  }

  lemma {:induction false} FindIs(s: string, c: char, from: nat)
    requires from <= |s|
    ensures match Find(s, c, from)
            case Some(i) => s[i] == c && c !in s[from..i]
            case None => c !in s[from..]
    decreases |s| - from
  {
    if from < |s| && s[from] != c {
      FindIs(s, c, from + 1);
      match Find(s, c, from + 1)
      case Some(i) => assert s[from..i] == [s[from]] + s[from + 1..i];
      case None => assert s[from..] == [s[from]] + s[from + 1..];
    }
  }

  lemma MethodIsText(s: string)
    requires !ToMethod(s).Unknown?
    ensures s == MethodText(ToMethod(s))
  {
  }

  lemma TargetTaken(uri: string)
    requires ' ' !in uri
    ensures exists path, query :: PlainTarget(path, query) && uri == Target(path, query)
  {
    FindIs(uri, '?', 0);
    match Find(uri, '?', 0)
    case Some(q) =>
      assert PlainTarget(uri[..q], Some(uri[q + 1..])) && uri == Target(uri[..q], Some(uri[q + 1..]));
    case None =>
      assert PlainTarget(uri, None) && uri == Target(uri, None);
  }

  lemma LineRejoined(line: string, n: nat, e: nat)
    requires n < e < |line| && line[n] == ' ' && line[e] == ' '
    ensures line == line[..n] + " " + line[n + 1..e] + " " + line[e + 1..]
  {
  }

  /** The line is that of some request. */
  ghost predicate IsFirstLine(line: string) {
    exists m: Method, path, query, version ::
      !m.Unknown? && PlainTarget(path, query) && GoodVersion(version) && line == FirstLine(m, path, query, version)
  }

  /** The parser accepts a request line if and only if it is a known method, a target
      without blanks and one of the two versions, with one blank between them. */
  lemma RequestLineAcceptedIff(r: Request, line: string)
    ensures ParseRequestLine(r, line).1.None? <==> IsFirstLine(line)
  {
    if ParseRequestLine(r, line).1.None? {
      FindIs(line, ' ', 0);
      var n := Find(line, ' ', 0).value;
      FindIs(line, ' ', n + 1);
      var e := Find(line, ' ', n + 1).value;
      MethodIsText(line[..n]);
      TargetTaken(line[n + 1..e]);
      LineRejoined(line, n, e);
      var path, query :| PlainTarget(path, query) && line[n + 1..e] == Target(path, query);
      assert line == FirstLine(ToMethod(line[..n]), path, query, line[e + 1..]);
    } else if IsFirstLine(line) {
      var m: Method, path, query, version :|
        !m.Unknown? && PlainTarget(path, query) && GoodVersion(version) && line == FirstLine(m, path, query, version);
      RequestLineReadBack(r, m, path, query, version);
    }
  }

  predicate AllBlank(s: string) {
    forall i :: 0 <= i < |s| ==> s[i] == ' ' || s[i] == '\t'
  }

  /** The text neither begins nor ends with a blank or a tab. */
  predicate Bare(s: string) {
    s != "" ==> s[0] != ' ' && s[0] != '\t' && s[|s| - 1] != ' ' && s[|s| - 1] != '\t'
  }

  lemma {:induction false} TrimTakesBlanks(left: string, value: string, right: string)
    requires AllBlank(left) && AllBlank(right) && Bare(value)
    ensures Trim(left + value + right) == value
    decreases |left| + |right|
  {
    var s := left + value + right;
    if left != "" {
      assert s[0] == left[0] && s[1..] == left[1..] + value + right;
      TrimTakesBlanks(left[1..], value, right);
    } else if right != "" {
      var front := right[..|right| - 1];
      assert s[|s| - 1] == right[|right| - 1] && s[..|s| - 1] == left + value + front;
      if value == "" {
        assert s == right && s[1..] == left + value + right[1..] && IsBlank(s[0]);
        TrimTakesBlanks(left, value, right[1..]);
      } else {
        assert s[0] == value[0];
        TrimTakesBlanks(left, value, front);
      }
    } else {
      assert s == value;
    }
  }

  /** A header line is accepted if and only if it has a colon. What is before the first one,
      folded, is the name, and what is after it, without the blanks around it, the value. */
  lemma HeaderLineAcceptedIff(r: Request, line: string)
    ensures ParseHeader(r, line).1.None? <==> ':' in line
  {
    FindIs(line, ':', 0);
    if ':' in line {
      assert line[0..] == line;
    }
  }

  lemma HeaderLineIs(r: Request, key: string, left: string, value: string, right: string)
    requires ':' !in key && AllBlank(left) && AllBlank(right) && Bare(value)
    ensures ParseHeader(r, key + ":" + left + value + right) == (r.(headers := r.headers[Lower(key) := value]), None)
  {
    var line, rest := key + ":" + left + value + right, left + value + right;
    assert line == key + [':'] + rest;
    FindAfter(key, ':', rest);
    assert line[..|key|] == key && line[|key| + 1..] == rest;
    TrimTakesBlanks(left, value, right);
  }

  lemma TrimOneBlank(v: string)
    requires v != "" ==> !IsBlank(v[0]) && !IsBlank(v[|v| - 1])
    ensures Trim(" " + v) == v
  {
    assert (" " + v)[1..] == v;
  }

  /** The header line round trip: names fold to lower case, values are trimmed. */
  lemma FieldReadBack(r: Request, f: Field)
    requires GoodField(f)
    ensures ParseHeader(r, FieldLine(f)) == (r.(headers := r.headers[Lower(f.key) := f.value]), None)
  {
    var line := FieldLine(f);
    assert line == f.key + [':'] + (" " + f.value);
    FindAfter(f.key, ':', " " + f.value);
    assert line[..|f.key|] == f.key && line[|f.key| + 1..] == " " + f.value;
    TrimOneBlank(f.value);
  }

  lemma {:induction false} FieldsReadBack(p: Parser, fields: seq<Field>, rest: Octets)
    requires p.state.Headers? && forall i :: 0 <= i < |fields| ==> GoodField(fields[i])
    ensures var q := p.(request := p.request.(headers := FieldMap(p.request.headers, fields)));
            var done := FinishHeaders(q);
            Run(p, FieldLines(fields) + rest) == (done, rest, ResultOf(done))
    ensures LinesFit(p, FieldLines(fields) + rest)
    decreases |fields|
  {
    var q := p.(request := p.request.(headers := FieldMap(p.request.headers, fields)));
    var input := FieldLines(fields) + rest;
    if fields == [] {
      assert input == "" + "\r\n" + rest;
      LineEnd("", rest);
      assert q == p;
    } else {
      var line := FieldLine(fields[0]);
      var t := FieldLines(fields[1..]) + rest;
      assert input == line + "\r\n" + t;
      LineEnd(line, t);
      FieldReadBack(p.request, fields[0]);
      var p1 := TakeLine(p, line);
      RunLine(p, input, |line|, p1);
      FieldsReadBack(p1, fields[1..], rest);
    }
  }

  /** The whole header block of a request, as sent. */
  function HeadText(m: Method, path: string, query: Option<string>, version: string,
                    fields: seq<Field>): Octets
    requires !m.Unknown?
  {
    FirstLine(m, path, query, version) + "\r\n" + FieldLines(fields)
  }

  function Meant(m: Method, path: string, query: Option<string>, version: string,
                 fields: seq<Field>): Request
  {
    Request(m, path, if query.Some? then query.value else "", version, FieldMap(map[], fields))
  }

  lemma HeadIsFinished(m: Method, path: string, query: Option<string>, version: string,
                       fields: seq<Field>, rest: Octets)
    requires !m.Unknown? && GoodTarget(path, query) && GoodVersion(version)
    requires |FirstLine(m, path, query, version)| < MAX_REQUEST_LINE
    requires forall i :: 0 <= i < |fields| ==> GoodField(fields[i])
    ensures var done := FinishHeaders(START.(state := Headers, request := Meant(m, path, query, version, fields)));
            Run(START, HeadText(m, path, query, version, fields) + rest) == (done, rest, ResultOf(done))
    ensures LinesFit(START, HeadText(m, path, query, version, fields) + rest)
  {
    var line := FirstLine(m, path, query, version);
    var t := FieldLines(fields) + rest;
    var input := HeadText(m, path, query, version, fields) + rest;
    assert input == line + "\r\n" + t;
    NoBlankInTarget(path, query);
    LineEnd(line, t);
    RequestLineReadBack(EMPTY_REQUEST, m, path, query, version);
    var p := TakeLine(START, line);
    RunLine(START, input, |line|, p);
    FieldsReadBack(p, fields, rest);
  }

  /** w is in s from position i on. */
  predicate Occurs(s: string, i: nat, w: string) {
    i + |w| <= |s| && s[i..i + |w|] == w
  }

  lemma OccursLater(s: string, i: nat, w: string)
    requires s != "" && i > 0
    ensures Occurs(s, i, w) <==> Occurs(s[1..], i - 1, w)
  {
    if i + |w| <= |s| {
      assert s[1..][i - 1..i - 1 + |w|] == s[i..i + |w|];
    }
  }

  lemma {:induction false} ContainsIff(s: string, w: string)
    ensures Contains(s, w) <==> exists i: nat :: Occurs(s, i, w)
    decreases |s|
  {
    if w <= s {
      assert Occurs(s, 0, w);
    } else if s != "" {
      ContainsIff(s[1..], w);
      if i: nat :| Occurs(s[1..], i, w) {
        OccursLater(s, i + 1, w);
      }
      if i: nat :| Occurs(s, i, w) {
        assert i > 0;
        OccursLater(s, i, w);
      }
    }
  }

  /** Two texts fold alike if they are the same but for the case of letters. */
  lemma LowerFolds(s: string, t: string)
    ensures Lower(s) == Lower(t) <==>
              |s| == |t| && forall i :: 0 <= i < |s| ==> SameLetter(s[i], t[i])
  {
    if Lower(s) == Lower(t) {
      forall i | 0 <= i < |s| ensures SameLetter(s[i], t[i]) {
        assert Lower(s)[i] == Lower(t)[i];
      }
    } else if |s| == |t| {
      assert exists i :: 0 <= i < |s| && Lower(s)[i] != Lower(t)[i];
    }
  }

  predicate SameLetter(a: char, b: char) {
    a == b || ('A' <= a <= 'Z' && b as int == a as int + 32) || ('A' <= b <= 'Z' && a as int == b as int + 32)
  }

  /** The value of a field, empty if there is none. */
  function ValueOf(headers: map<string, string>, key: string): string {
    if key in headers then headers[key] else ""
  }

  predicate IsSize(s: string) {
    Decimals.AllDigits(s) && Decimals.Numeral(s) < 0x1_0000_0000_0000_0000
  }

  /** The word is somewhere in the text, in any case. */
  ghost predicate Mentions(s: string, w: string) {
    exists i: nat :: Occurs(Lower(s), i, w)
  }

  /** What the head of a well-formed request comes to. A length that is no 64-bit numeral is
      an error, and so is a positive one of a chunked request. A request without length, or
      with length zero, is complete, unless it is chunked. */
  lemma HeadReadBack(m: Method, path: string, query: Option<string>, version: string,
                     fields: seq<Field>, rest: Octets)
    requires !m.Unknown? && GoodTarget(path, query) && GoodVersion(version)
    requires |FirstLine(m, path, query, version)| < MAX_REQUEST_LINE
    requires forall i :: 0 <= i < |fields| ==> GoodField(fields[i])
    ensures LinesFit(START, HeadText(m, path, query, version, fields) + rest)
    ensures var meant := Meant(m, path, query, version, fields);
            var length := ValueOf(meant.headers, "content-length");
            var chunked := Mentions(ValueOf(meant.headers, "transfer-encoding"), "chunked");
            var (q, left, result) := Run(START, HeadText(m, path, query, version, fields) + rest);
            && q.request == meant && left == rest
            && (!IsSize(length) ==> result == ParseError && q.error == InvalidContentLength)
            && (IsSize(length) ==>
                var n := Decimals.Numeral(length);
                if chunked && n > 0 then result == ParseError && q.error == ConflictingLengths
                else if chunked then result == HeadersComplete && q == START.(state := Body, request := meant, chunked := true)
                else if n > 0 then
                  result == HeadersComplete && q == START.(state := Body, request := meant, contentLength := n, remaining := n)
                else result == MessageComplete && q == START.(state := Complete, request := meant))
  {
    HeadIsFinished(m, path, query, version, fields, rest);
    FramingSettled(Meant(m, path, query, version, fields));
  }

  lemma FramingSettled(r: Request)
    ensures var length := ValueOf(r.headers, "content-length");
            var chunked := Mentions(ValueOf(r.headers, "transfer-encoding"), "chunked");
            var q := FinishHeaders(START.(state := Headers, request := r));
            if !IsSize(length) then
              q == START.(state := ParseState.Broken, request := r, error := InvalidContentLength)
            else
              var n := Decimals.Numeral(length);
              if chunked && n > 0 then
                q == START.(state := ParseState.Broken, request := r, error := ConflictingLengths, contentLength := n, remaining := n)
              else if chunked then q == START.(state := Body, request := r, chunked := true)
              else if n > 0 then q == START.(state := Body, request := r, contentLength := n, remaining := n)
              else q == START.(state := Complete, request := r)
  {
    LowerFixed("content-length");
    LowerFixed("transfer-encoding");
    ContainsIff(Lower(ValueOf(r.headers, "transfer-encoding")), "chunked");
  }

  lemma LowerFixed(s: string)
    requires forall i :: 0 <= i < |s| ==> !('A' <= s[i] <= 'Z')
    ensures Lower(s) == s
  {
  }

  /** Without a transfer coding nothing is chunked. */
  lemma NothingMentioned(w: string)
    requires w != ""
    ensures !Mentions("", w)
  {
  }

  /** End to end: however a well-formed request with a body is cut into reads, it is
      delivered once, field for field and byte for byte, and what follows stays unread. */
  lemma RequestArrives(app: App, m: Method, path: string, query: Option<string>, version: string,
                       fields: seq<Field>, body: Octets, extra: Octets, chunks: seq<Octets>)
    requires !m.Unknown? && GoodTarget(path, query) && GoodVersion(version)
    requires |FirstLine(m, path, query, version)| < MAX_REQUEST_LINE
    requires forall i :: 0 <= i < |fields| ==> GoodField(fields[i])
    requires var headers := FieldMap(map[], fields);
             && "transfer-encoding" !in headers && "content-length" in headers
             && headers["content-length"] == Decimals.ToDecimal(|body|)
    requires 0 < |body| < Decimals.SIZE_LIMIT && |body| <= app.maxBody
    requires forall i :: 0 <= i < |chunks| ==> chunks[i] != []
    requires Concat(chunks) == HeadText(m, path, query, version, fields) + (body + extra)
    ensures var c := Reads(app, FRESH, chunks);
            && c.delivered == [Delivery(Meant(m, path, query, version, fields), body)]
            && c.unread == extra
  {
    HeadReadBack(m, path, query, version, fields, body + extra);
    Decimals.NumeralOfDecimal(|body|);
    NothingMentioned("chunked");
    BodyIsExact(app, chunks);
    assert (body + extra)[..|body|] == body && (body + extra)[|body|..] == extra;
  }

  /** Nothing is chunked, and the length is missing or zero. */
  predicate Bodyless(headers: map<string, string>) {
    && "transfer-encoding" !in headers
    && ("content-length" in headers ==>
        Decimals.AllDigits(headers["content-length"]) && Decimals.Numeral(headers["content-length"]) == 0)
  }

  lemma BodylessParsed(m: Method, path: string, query: Option<string>, version: string,
                       fields: seq<Field>, rest: Octets)
    requires !m.Unknown? && GoodTarget(path, query) && GoodVersion(version)
    requires |FirstLine(m, path, query, version)| < MAX_REQUEST_LINE
    requires forall i :: 0 <= i < |fields| ==> GoodField(fields[i])
    requires Bodyless(FieldMap(map[], fields))
    ensures var meant := Meant(m, path, query, version, fields);
            Run(START, HeadText(m, path, query, version, fields) + rest)
            == (START.(state := Complete, request := meant), rest, MessageComplete)
    ensures LinesFit(START, HeadText(m, path, query, version, fields) + rest)
  {
    HeadReadBack(m, path, query, version, fields, rest);
    NothingMentioned("chunked");
  }

  lemma BodylessTaken(app: App, r: Request, extra: Octets, chunks: seq<Octets>)
    requires chunks != [] && (forall i :: 0 <= i < |chunks| ==> chunks[i] != []) && LinesFit(START, Concat(chunks))
    requires Run(START, Concat(chunks)) == (START.(state := Complete, request := r), extra, MessageComplete)
    ensures var c := Reads(app, FRESH, chunks);
            c.delivered == [Delivery(r, [])] && c.body == [] && c.unread == extra && c.Sending()
  {
    var input := Concat(chunks);
    assert [] + input == input;
    ReadWhenReady(app, FRESH, chunks, input);
    TakenAtOnce(app, FRESH.(unread := input), r, extra);
    TakenIsDelivered(FRESH, r, [], extra, app.respond(Delivery(r, [])));
  }

  /** A request that declares no body, or one of no bytes, is delivered once and field for
      field as soon as its head is there, however it is cut; what follows stays unread. */
  lemma BodylessArrives(app: App, m: Method, path: string, query: Option<string>, version: string,
                        fields: seq<Field>, extra: Octets, chunks: seq<Octets>)
    requires !m.Unknown? && GoodTarget(path, query) && GoodVersion(version)
    requires |FirstLine(m, path, query, version)| < MAX_REQUEST_LINE
    requires forall i :: 0 <= i < |fields| ==> GoodField(fields[i])
    requires Bodyless(FieldMap(map[], fields))
    requires forall i :: 0 <= i < |chunks| ==> chunks[i] != []
    requires Concat(chunks) == HeadText(m, path, query, version, fields) + extra
    ensures var meant := Meant(m, path, query, version, fields);
            Run(START, Concat(chunks)) == (START.(state := Complete, request := meant), extra, MessageComplete)
    ensures var c := Reads(app, FRESH, chunks);
            && c.delivered == [Delivery(Meant(m, path, query, version, fields), [])]
            && c.body == [] && c.unread == extra && c.Sending()
  {
    BodylessParsed(m, path, query, version, fields, extra);
    assert chunks != [];
    BodylessTaken(app, Meant(m, path, query, version, fields), extra, chunks);
  }

  // ----- chunked requests

  function HexDigit(n: nat): char
    requires n < 16
  {
    if n < 10 then '0' + n as char else 'a' + (n - 10) as char
  }

  function ToHex(n: nat): string {
    if n < 16 then [HexDigit(n)] else ToHex(n / 16) + [HexDigit(n % 16)]
  }

  /** A body in the chunked transfer coding, section 7.1 of RFC 9112. */
  function ChunkedForm(pieces: seq<Octets>): (r: Octets)
    ensures r != []
  {
    if pieces == [] then "0\r\n\r\n"
    else ToHex(|pieces[0]|) + "\r\n" + pieces[0] + "\r\n" + ChunkedForm(pieces[1..])
  }

  lemma ChunkingMentioned(coding: string)
    requires coding == "chunked"
    ensures Mentions(coding, coding)
  {
    LowerFixed(coding);
    assert Occurs(Lower(coding), 0, coding);
  }

  /** End to end: however a well-formed chunked request is cut into reads, it is delivered
      once and with an empty body, which is right exactly if all its pieces are empty. */
  lemma ChunkedArrivesEmpty(app: App, m: Method, path: string, query: Option<string>, version: string,
                            fields: seq<Field>, pieces: seq<Octets>, chunks: seq<Octets>)
    requires !m.Unknown? && GoodTarget(path, query) && GoodVersion(version)
    requires |FirstLine(m, path, query, version)| < MAX_REQUEST_LINE
    requires forall i :: 0 <= i < |fields| ==> GoodField(fields[i])
    requires var headers := FieldMap(map[], fields);
             && "content-length" !in headers && "transfer-encoding" in headers && headers["transfer-encoding"] == "chunked"
    requires forall i :: 0 <= i < |chunks| ==> chunks[i] != []
    requires Concat(chunks) == HeadText(m, path, query, version, fields) + ChunkedForm(pieces)
    ensures var c := Reads(app, FRESH, chunks);
            var meant := Meant(m, path, query, version, fields);
            && c.delivered == [Delivery(meant, [])] && c.unread == ChunkedForm(pieces)
            && (c.delivered == [Delivery(meant, Concat(pieces))] <==> Concat(pieces) == [])
  {
    HeadReadBack(m, path, query, version, fields, ChunkedForm(pieces));
    ChunkingMentioned("chunked");
    ChunkedHasNoBody(app, chunks);
  }
}
