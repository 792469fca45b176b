/** Range requests: src/api/handlers/object_handlers.cpp, ParseRange and GetObject. */
module Ranges {
  import opened Base
  import opened HttpParsing
  import opened HttpConnections
  import opened Sending
  import Decimals

  /** Slice is an offset pair, both ends included. Overflow is a numeral too
      large for 64 bits, which the number reader answers by throwing. */
  datatype RangeResult = Unsatisfiable | Overflow | Slice(first: nat, last: nat)

  function ParseRange(header: string, size: nat): RangeResult {
    if size == 0 || !("bytes=" <= header) then Unsatisfiable else
    var text := header[6..];
    match Find(text, '-', 0)
    case None => Unsatisfiable
    case Some(i) =>
      var a, b := text[..i], text[i + 1..];
      if !Decimals.AllDigits(a) || !Decimals.AllDigits(b) || (a == "" && b == "") then Unsatisfiable
      else if Decimals.Numeral(a) >= Decimals.SIZE_LIMIT || Decimals.Numeral(b) >= Decimals.SIZE_LIMIT then Overflow
      else if a == "" then Slice(size - Min(Decimals.Numeral(b), size), size - 1)
      else if b == "" then
        if Decimals.Numeral(a) >= size then Unsatisfiable else Slice(Decimals.Numeral(a), size - 1)
      else if Decimals.Numeral(a) > Decimals.Numeral(b) || Decimals.Numeral(a) >= size then Unsatisfiable
      else Slice(Decimals.Numeral(a), Min(Decimals.Numeral(b), size - 1))
  }

  /** A single byte range of section 14.1.2 of RFC 9110. */
  datatype ByteRange = FromTo(first: nat, last: nat) | From(first: nat) | Suffix(length: nat)

  /** The byte positions a range selects in a representation of the given size. */
  predicate Selects(r: ByteRange, size: nat, p: nat) {
    p < size && match r
                case FromTo(first, last) => first <= p <= last
                case From(first) => first <= p
                case Suffix(length) => size - p <= length
  }

  /** The text of a range; digits stand for the range's numbers, leading zeros allowed. */
  predicate Denotes(a: string, b: string, r: ByteRange) {
    Decimals.AllDigits(a) && Decimals.AllDigits(b) &&
    match r
    case FromTo(first, last) => a != "" && b != "" && Decimals.Numeral(a) == first && Decimals.Numeral(b) == last
    case From(first) => a != "" && b == "" && Decimals.Numeral(a) == first
    case Suffix(length) => a == "" && b != "" && Decimals.Numeral(b) == length
  }

  predicate Representable(r: ByteRange) {
    match r
    case FromTo(first, last) => first < Decimals.SIZE_LIMIT && last < Decimals.SIZE_LIMIT
    case From(first) => first < Decimals.SIZE_LIMIT
    case Suffix(length) => length < Decimals.SIZE_LIMIT
  }

  lemma HeaderSplit(a: string, b: string)
    requires Decimals.AllDigits(a) && Decimals.AllDigits(b)
    ensures var header := "bytes=" + a + "-" + b;
            && "bytes=" <= header && header[6..] == a + "-" + b
            && Find(header[6..], '-', 0) == Some(|a|)
            && header[6..][..|a|] == a && header[6..][|a| + 1..] == b
  {
    var header := "bytes=" + a + "-" + b;
    assert header[6..] == a + "-" + b;
    DigitsThenDash(a, b, 0);
  }

  lemma {:induction false} DigitsThenDash(a: string, b: string, from: nat)
    requires Decimals.AllDigits(a) && from <= |a|
    ensures Find(a + "-" + b, '-', from) == Some(|a|)
    decreases |a| - from
  {
    var s := a + "-" + b;
    if from < |a| {
      assert s[from] == a[from] && Decimals.IsDigit(a[from]);
      DigitsThenDash(a, b, from + 1);
    }
  }

  /** The answer to a range is right: the slice is exactly what the range selects,
      and the range is refused exactly when it selects nothing. */
  predicate RightAnswer(answer: RangeResult, r: ByteRange, size: nat) {
    match answer
    case Overflow => false
    case Unsatisfiable => forall p :: 0 <= p < size ==> !Selects(r, size, p)
    case Slice(first, last) =>
      first <= last < size && forall p :: 0 <= p < size ==> (Selects(r, size, p) <==> first <= p <= last)
  }

  lemma RepresentableIsRight(a: string, b: string, r: ByteRange, size: nat)
    requires Denotes(a, b, r) && Representable(r) && size > 0
    ensures RightAnswer(ParseRange("bytes=" + a + "-" + b, size), r, size) <==> r != Suffix(0)
  {
    HeaderSplit(a, b);
    var answer := ParseRange("bytes=" + a + "-" + b, size);
    match r
    case FromTo(first, last) =>
      if answer.Slice? {
        assert answer == Slice(first, Min(last, size - 1));
      }
    case From(first) =>
    case Suffix(length) =>
      assert answer == Slice(size - Min(length, size), size - 1);
  }

  lemma OverflowIffUnrepresentable(a: string, b: string, r: ByteRange, size: nat)
    requires Denotes(a, b, r) && size > 0
    ensures ParseRange("bytes=" + a + "-" + b, size).Overflow? <==> !Representable(r)
  {
    HeaderSplit(a, b);
    assert Decimals.Numeral("") == 0;
  }

  /** The range theorem: the answer is right for every range but the empty suffix and
      those with a number of 2^64 or more. */
  lemma RangeIsRight(a: string, b: string, r: ByteRange, size: nat)
    requires Denotes(a, b, r) && size > 0
    ensures RightAnswer(ParseRange("bytes=" + a + "-" + b, size), r, size) <==> r != Suffix(0) && Representable(r)
  {
    OverflowIffUnrepresentable(a, b, r, size);
    if Representable(r) {
      RepresentableIsRight(a, b, r, size);
    }
  }

  /** A range with an end far past the object, as any client may send: it selects bytes, and
      the number reader throws. */
  lemma HugeEndThrows(n: nat, size: nat)
    requires n >= Decimals.SIZE_LIMIT && size > 0
    ensures Denotes("0", Decimals.ToDecimal(n), FromTo(0, n)) && Selects(FromTo(0, n), size, 0)
    ensures ParseRange("bytes=" + "0" + "-" + Decimals.ToDecimal(n), size) == Overflow
  {
    Decimals.NumeralOfDecimal(n);
    assert Decimals.Numeral("0") == 0 by { assert "0"[..0] == ""; }
    OverflowIffUnrepresentable("0", Decimals.ToDecimal(n), FromTo(0, n), size);
  }

  /** What the object handler answers to a GET of data: the headers' idea of the
      slice, and the file part the connection is told to send. */
  datatype Answer = Refused | Thrown | Answer(offset: nat, contentLength: nat, send: Response)

  function GetAnswer(range: Option<string>, head: Octets, data: Octets): Answer {
    match (if range.None? || range.value == "" then Slice(0, 0) else ParseRange(range.value, |data|))
    case Unsatisfiable => Refused
    case Overflow => Thrown
    case Slice(first, last) =>
      var offset := if range.None? || range.value == "" then 0 else first;
      var length := if range.None? || range.value == "" then |data| else last + 1 - first;
      Answer(offset, length, FromFile(head, data, offset, if length > 0 then length else |data|))
  }

  /** End to end: a range that is not refused gets a response, and one that writes alone
      can bring to its end, exactly when it is not the empty suffix and its numbers are
      below 2^64; then the socket gets the head and the selected bytes. */
  lemma RangeResponse(a: string, b: string, r: ByteRange, c: Connection, head: Octets, data: Octets)
    requires Denotes(a, b, r) && data != []
    requires !c.state.Closed? && c.output == []
    requires !GetAnswer(Some("bytes=" + a + "-" + b), head, data).Refused?
    ensures var answer := GetAnswer(Some("bytes=" + a + "-" + b), head, data);
            && (answer.Thrown? <==> !Representable(r))
            && (r != Suffix(0) && Representable(r) <==>
                answer.Answer? && exists events :: NoFailure(events) && !Writes(Respond(c, answer.send), events).Sending())
            && (r != Suffix(0) && Representable(r) ==>
                var from, to := answer.offset, answer.offset + answer.contentLength;
                && from < to <= |data|
                && (forall p :: 0 <= p < |data| ==> (Selects(r, |data|, p) <==> from <= p < to))
                && forall events | NoFailure(events) ::
                     var sent := Writes(Respond(c, answer.send), events);
                     !sent.Sending() ==> sent.wire == c.wire + head + data[from..to])
  {
    var text := "bytes=" + a + "-" + b;
    HeaderSplit(a, b);
    OverflowIffUnrepresentable(a, b, r, |data|);
    if Representable(r) {
      RepresentableIsRight(a, b, r, |data|);
      var answer := GetAnswer(Some(text), head, data);
      var slice := ParseRange(text, |data|);
      assert answer.Answer? && slice.Slice?;
      var offset, length := answer.send.start, answer.send.length;
      CompletableIffInFile(c, head, data, offset, length);
      if r != Suffix(0) {
        forall events | NoFailure(events)
          ensures var sent := Writes(Respond(c, answer.send), events);
                  !sent.Sending() ==> sent.wire == c.wire + head + data[offset..offset + length]
        {
          FileResponse(c, head, data, offset, length, events);
        }
      }
    }
  }

  /** Without a Range header, or with an empty one, the answer is the whole object: the head
      announces all of it, writes can bring the response to its end, and then the socket has
      got the head and all of the object, be it empty or not. */
  lemma WholeResponse(range: Option<string>, c: Connection, head: Octets, data: Octets)
    requires range == None || range == Some("")
    requires !c.state.Closed? && c.output == []
    ensures var answer := GetAnswer(range, head, data);
            && answer.Answer? && answer.offset == 0 && answer.contentLength == |data|
            && (exists events :: NoFailure(events) && !Writes(Respond(c, answer.send), events).Sending())
            && forall events | NoFailure(events) ::
                 var sent := Writes(Respond(c, answer.send), events);
                 !sent.Sending() ==> sent.wire == c.wire + head + data
  {
    var answer := GetAnswer(range, head, data);
    assert answer.send == FromFile(head, data, 0, |data|);
    InFileEnds(c, head, data, 0, |data|);
    forall events | NoFailure(events)
      ensures var sent := Writes(Respond(c, answer.send), events);
              !sent.Sending() ==> sent.wire == c.wire + head + data
    {
      FileResponse(c, head, data, 0, |data|, events);
      assert data[0..0 + |data|] == data;
    }
  }

  /** A header that is not the text of one byte range is refused, and so is any range of an
      empty object. */
  lemma OtherHeadersAreRefused(header: string, head: Octets, data: Octets)
    requires header != ""
    requires data == [] || !exists a, b, r: ByteRange :: Denotes(a, b, r) && header == "bytes=" + a + "-" + b
    ensures GetAnswer(Some(header), head, data) == Refused
  {
    if data != [] && "bytes=" <= header && Find(header[6..], '-', 0).Some? {
      var text := header[6..];
      var i := Find(text, '-', 0).value;
      var a, b := text[..i], text[i + 1..];
      FindsIt(text, '-', 0);
      assert text == a + "-" + b;
      assert header == "bytes=" + text;
      assert header == "bytes=" + a + "-" + b;
      if Decimals.AllDigits(a) && Decimals.AllDigits(b) && !(a == "" && b == "") {
        var r := if a == "" then Suffix(Decimals.Numeral(b))
                 else if b == "" then From(Decimals.Numeral(a))
                 else FromTo(Decimals.Numeral(a), Decimals.Numeral(b));
        assert Denotes(a, b, r);
      }
    }
  }

  lemma {:induction false} FindsIt(s: string, c: char, from: nat)
    ensures Find(s, c, from).Some? ==> s[Find(s, c, from).value] == c
    decreases |s| - from
  {
    if from < |s| && s[from] != c {
      FindsIt(s, c, from + 1);
    }
  }
}
