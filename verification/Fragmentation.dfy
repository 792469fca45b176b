/** The parser does not depend on how the input was cut into reads. */
module Fragmentation {
  import opened Base
  import opened ByteBuffers
  import opened HttpParsing

  /** The connection's parsing loop: each read is appended to what is unread,
      and parsed only while the header is not complete. */
  function Feed(p: Parser, unread: Octets, chunks: seq<Octets>): (Parser, Octets)
    decreases |chunks|
  {
    if chunks == [] then (p, unread)
    else if p.InHeader() then
      var (q, rest, _) := Run(p, unread + chunks[0]);
      Feed(q, rest, chunks[1..])
    else Feed(p, unread + chunks[0], chunks[1..])
  }

  /** One read of the whole input. */
  function AtOnce(p: Parser, input: Octets): (Parser, Octets) {
    var (q, rest, _) := Run(p, input);
    (q, rest)
  }

  /** Every line the parser gets to, with its CR, is within the limit for it. */
  predicate LinesFit(p: Parser, input: Octets)
    decreases |input|
  {
    p.InHeader() && FindCRLF(input).Some? ==>
      var i := FindCRLF(input).value;
      var q := TakeLine(p, input[..i]);
      i < Limit(p.state) && (q.state.Headers? ==> LinesFit(q, input[i + 2..]))
  }

  /** Bytes that arrive later do not move a line end already there. */
  lemma FirstLineStays(a: Octets, b: Octets)
    ensures FindCRLF(a).Some? ==> FindCRLF(a + b) == FindCRLF(a)
    ensures FindCRLF(a).None? && FindCRLF(a + b).Some? ==> |a| <= FindCRLF(a + b).value + 1
  {
    FirstCRLF(a, 0);
    FirstCRLF(a + b, 0);
    if FindCRLF(a).Some? {
      var i := FindCRLF(a).value;
      assert IsCRLF(a + b, i);
      forall k | 0 <= k < i ensures !IsCRLF(a + b, k) {
        assert !IsCRLF(a, k);
      }
    } else if FindCRLF(a + b).Some? && FindCRLF(a + b).value + 1 < |a| {
      assert IsCRLF(a, FindCRLF(a + b).value);
    }
  }

  /** Parsing a first and the rest later is parsing it all. */
  lemma {:induction false} RunSplit(p: Parser, a: Octets, b: Octets)
    requires p.InHeader() && LinesFit(p, a + b)
    ensures var (q, rest, r) := Run(p, a);
            if q.InHeader() then Run(p, a + b) == Run(q, rest + b) && LinesFit(q, rest + b)
            else Run(p, a + b) == (q, rest + b, r)
    decreases |a|
  {
    FirstLineStays(a, b);
    match FindCRLF(a)
    case None =>
    case Some(i) =>
      assert (a + b)[..i] == a[..i];
      assert (a + b)[i + 2..] == a[i + 2..] + b;
      var q := TakeLine(p, a[..i]);
      if q.state.Headers? {
        RunSplit(q, a[i + 2..], b);
      }
  }

  lemma {:induction false} FeedAfterHeader(p: Parser, unread: Octets, chunks: seq<Octets>)
    requires !p.InHeader()
    ensures Feed(p, unread, chunks) == (p, unread + Concat(chunks))
    decreases |chunks|
  {
    if chunks == [] {
      assert unread + [] == unread;
    } else {
      FeedAfterHeader(p, unread + chunks[0], chunks[1..]);
      assert (unread + chunks[0]) + Concat(chunks[1..]) == unread + Concat(chunks);
    }
  }

  /** A parser that has stopped in the header has parsed all it can. */
  lemma {:induction false} RunSettled(p: Parser, input: Octets)
    ensures var (q, rest, _) := Run(p, input);
            q.InHeader() ==> Run(q, rest) == (q, rest, NeedMoreData)
    decreases |input|
  {
    if p.InHeader() && FindCRLF(input).Some? {
      var i := FindCRLF(input).value;
      var q := TakeLine(p, input[..i]);
      if q.state.Headers? {
        RunSettled(q, input[i + 2..]);
      }
    }
  }

  lemma {:induction false} FeedIsRun(p: Parser, unread: Octets, chunks: seq<Octets>)
    requires p.InHeader() && LinesFit(p, unread + Concat(chunks))
    requires Run(p, unread) == (p, unread, NeedMoreData)
    ensures Feed(p, unread, chunks) == AtOnce(p, unread + Concat(chunks))
    decreases |chunks|
  {
    if chunks == [] {
      assert unread + [] == unread;
    } else {
      var a := unread + chunks[0];
      var b := Concat(chunks[1..]);
      assert unread + Concat(chunks) == a + b;
      RunSplit(p, a, b);
      var (q, rest, _) := Run(p, a);
      if q.InHeader() {
        RunSettled(p, a);
        FeedIsRun(q, rest, chunks[1..]);
      } else {
        FeedAfterHeader(q, rest, chunks[1..]);
      }
    }
  }

  lemma ConcatTwo(a: Octets, b: Octets)
    ensures Concat([a, b]) == a + b
  {
    assert [a, b][1..] == [b] && [b][1..] == [];
    assert Concat([b]) == b + Concat([]) == b;
  }

  /** The input in two reads. */
  function InTwo(p: Parser, a: Octets, b: Octets): (Parser, Octets) {
    var (q, rest, _) := Run(p, a);
    if q.InHeader() then AtOnce(q, rest + b) else (q, rest + b)
  }

  lemma FeedTwo(p: Parser, a: Octets, b: Octets)
    requires p.InHeader()
    ensures Feed(p, [], [a, b]) == InTwo(p, a, b)
  {
    assert [a, b][1..] == [b] && [b][1..] == [] && [] + a == a;
    var (q, rest, _) := Run(p, a);
    assert Feed(p, [], [a, b]) == Feed(q, rest, [b]);
    if q.InHeader() {
      var (q1, rest1, _) := Run(q, rest + b);
      assert Feed(q1, rest1, []) == (q1, rest1);
    }
  }

  lemma RunLine(p: Parser, input: Octets, i: nat, q: Parser)
    requires p.InHeader() && FindCRLF(input) == Some(i)
    requires q == TakeLine(p, input[..i]) && q.state.Headers?
    ensures Run(p, input) == Run(q, input[i + 2..])
  {
  }

  predicate CutMatters(p: Parser, input: Octets, cut: nat) {
    cut <= |input| && InTwo(p, input[..cut], input[cut..]) != AtOnce(p, input)
  }

  lemma UnfitLine(p: Parser, input: Octets)
    requires p.InHeader() && !LinesFit(p, input)
    ensures FindCRLF(input).Some?
    ensures var i := FindCRLF(input).value;
            var q := TakeLine(p, input[..i]);
            i < Limit(p.state) ==> q.state.Headers? && !LinesFit(q, input[i + 2..])
  {
  }

  /** Where a line is too long, cutting the input just before that line's LF
      makes the parser give up, though it would take the input in one read. */
  lemma {:induction false} LongLineCut(p: Parser, input: Octets) returns (cut: nat)
    requires p.InHeader() && !LinesFit(p, input)
    ensures CutMatters(p, input, cut)
    decreases |input|, 1
  {
    UnfitLine(p, input);
    var i := FindCRLF(input).value;
    if i < Limit(p.state) {
      var later := CutLater(p, input, i);
      cut := i + 2 + later;
    } else {
      cut := i + 1;
      CutHere(p, input, i);
    }
  }

  lemma CutHere(p: Parser, input: Octets, i: nat)
    requires p.InHeader() && FindCRLF(input) == Some(i) && i >= Limit(p.state)
    ensures CutMatters(p, input, i + 1)
  {
    var a, b := input[..i + 1], input[i + 1..];
    FirstCRLF(a, 0);
    FirstCRLF(input, 0);
    forall k: nat | k < i ensures !IsCRLF(a, k) {
      assert !IsCRLF(input, k) && a[k] == input[k] && a[k + 1] == input[k + 1];
    }
    assert FindCRLF(a).None?;
    assert Run(p, a) == (TooLong(p), a, ParseError);
    assert a + b == input;
    OtherComplaints(p, input);
  }

  lemma {:induction false} CutLater(p: Parser, input: Octets, i: nat) returns (later: nat)
    requires p.InHeader() && FindCRLF(input) == Some(i)
    requires TakeLine(p, input[..i]).state.Headers?
    requires !LinesFit(TakeLine(p, input[..i]), input[i + 2..])
    ensures CutMatters(p, input, i + 2 + later)
    decreases |input|, 0
  {
    var q, rest := TakeLine(p, input[..i]), input[i + 2..];
    later := LongLineCut(q, rest);
    var a := input[..i + 2 + later];
    FirstLineWithin(a, input, i);
    assert a[..i] == input[..i] && a[i + 2..] == rest[..later];
    assert rest[later..] == input[i + 2 + later..];
    RunLine(p, a, i, q);
    RunLine(p, input, i, q);
  }

  lemma FirstLineWithin(a: Octets, input: Octets, i: nat)
    requires a <= input && i + 2 <= |a| && FindCRLF(input) == Some(i)
    ensures FindCRLF(a) == Some(i)
  {
    FirstCRLF(a, 0);
    FirstCRLF(input, 0);
    assert IsCRLF(a, i);
    forall k | 0 <= k < i ensures !IsCRLF(a, k) {
      assert !IsCRLF(input, k);
    }
  }

  /** A run over a long but complete line either consumes it or complains of
      something else. */
  lemma OtherComplaints(p: Parser, input: Octets)
    requires p.InHeader() && FindCRLF(input).Some?
    requires FindCRLF(input).value >= Limit(p.state)
    ensures AtOnce(p, input) != (TooLong(p), input)
  {
    var i := FindCRLF(input).value;
    var q := TakeLine(p, input[..i]);
    if q.state.Headers? {
      RestShrinks(q, input[i + 2..]);
    }
  }

  lemma {:induction false} RestShrinks(p: Parser, input: Octets)
    ensures |Run(p, input).1| <= |input|
    decreases |input|
  {
    if p.InHeader() && FindCRLF(input).Some? {
      var i := FindCRLF(input).value;
      var q := TakeLine(p, input[..i]);
      if q.state.Headers? {
        RestShrinks(q, input[i + 2..]);
      }
    }
  }

  /** The theorem. However the input is cut, the parser ends in the same state
      with the same unread bytes as after one read of it all: this is so for
      every cut exactly when no line, with its CR, exceeds the limit. */
  lemma FragmentationIndependence(p: Parser, input: Octets)
    requires p.InHeader()
    ensures LinesFit(p, input) <==>
            forall chunks | Concat(chunks) == input :: Feed(p, [], chunks) == AtOnce(p, input)
  {
    if LinesFit(p, input) {
      forall chunks | Concat(chunks) == input ensures Feed(p, [], chunks) == AtOnce(p, input) {
        assert [] + Concat(chunks) == input;
        FeedIsRun(p, [], chunks);
      }
    } else {
      var cut := LongLineCut(p, input);
      var chunks := [input[..cut], input[cut..]];
      ConcatTwo(input[..cut], input[cut..]);
      FeedTwo(p, input[..cut], input[cut..]);
      assert input[..cut] + input[cut..] == input;
    }
  }
}
