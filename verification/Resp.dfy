/** The Redis protocol as src/util/redis_cache.cpp speaks it. */
module Resp {
  import opened Base
  import opened ByteBuffers
  import opened Decimals

  const CRLF := "\r\n"
  const INT_LIMIT: int := 0x8000_0000

  // ----- writing

  function Bulk(s: Octets): Octets {
    "$" + ToDecimal(|s|) + CRLF + s + CRLF
  }

  function Bulks(args: seq<Octets>): (r: Octets) {
    if args == [] then [] else Bulk(args[0]) + Bulks(args[1..])
  }

  function Command(args: seq<Octets>): Octets {
    "*" + ToDecimal(|args|) + CRLF + Bulks(args)
  }

  lemma {:induction false} BulksSnoc(args: seq<Octets>, last: Octets)
    ensures Bulks(args + [last]) == Bulks(args) + Bulk(last)
  {
    if args == [] {
      assert [last][1..] == [];
    } else {
      assert (args + [last])[1..] == args[1..] + [last];
      BulksSnoc(args[1..], last);
      assert Bulk(args[0]) + (Bulks(args[1..]) + Bulk(last)) == (Bulk(args[0]) + Bulks(args[1..])) + Bulk(last);
    }
  }

  // ----- reading

  predicate IsSpace(c: char) {
    c == ' ' || '\t' <= c <= '\r'
  }

  function SkipSpace(s: string): string {
    if s != "" && IsSpace(s[0]) then SkipSpace(s[1..]) else s
  }

  function DigitPrefix(s: string): (p: string)
    ensures p <= s && AllDigits(p)
  {
    if s == "" || !IsDigit(s[0]) then "" else [s[0]] + DigitPrefix(s[1..])
  }

  /** std::stoi: blanks, a sign and digits; what follows is ignored. None if there are
      no digits or the number is not an int, which throws. */
  function Stoi(s: string): Option<int> {
    AfterSpace(SkipSpace(s))
  }

  function AfterSpace(t: string): Option<int> {
    var signed := t != "" && (t[0] == '-' || t[0] == '+');
    AsInt(signed && t[0] == '-', DigitPrefix(if signed then t[1..] else t))
  }

  function AsInt(negative: bool, digits: string): Option<int>
    requires AllDigits(digits)
  {
    if digits == "" then None
    else
      var m: int := Numeral(digits);
      var n := if negative then -m else m;
      if -INT_LIMIT <= n < INT_LIMIT then Some(n) else None
  }

  datatype Got = Value(payload: Octets) | Missing | Unreadable | Threw

  /** A reply to GET, and the stream after it. A stream that ends too early is used up. */
  function ReadReply(stream: Octets): (Got, Octets) {
    match FindCRLF(stream)
    case None => (Unreadable, [])
    case Some(i) => ReadBody(stream[..i], stream[i + 2..])
  }

  function ReadBody(line: Octets, rest: Octets): (Got, Octets) {
    if line == [] || line[0] != '$' then (Unreadable, rest)
    else match Stoi(line[1..])
         case None => (Threw, rest)
         case Some(n) =>
           if n < 0 then (Missing, rest)
           else if |rest| < n + 2 then (Unreadable, [])
           else (Value(rest[..n]), rest[n + 2..])
  }

  lemma {:induction false} DigitsAreTheirPrefix(s: string)
    requires AllDigits(s)
    ensures DigitPrefix(s) == s
  {
    if s != "" {
      DigitsAreTheirPrefix(s[1..]);
      assert s == [s[0]] + s[1..];
    }
  }

  lemma {:induction false} SpaceIsSkipped(blanks: string, t: string)
    requires (forall i :: 0 <= i < |blanks| ==> IsSpace(blanks[i])) && (t == "" || !IsSpace(t[0]))
    ensures SkipSpace(blanks + t) == t
    decreases |blanks|
  {
    if blanks == "" {
      assert blanks + t == t;
    } else {
      assert (blanks + t)[1..] == blanks[1..] + t;
      SpaceIsSkipped(blanks[1..], t);
    }
  }

  lemma {:induction false} DigitsAreTaken(digits: string, rest: string)
    requires AllDigits(digits) && (rest == "" || !IsDigit(rest[0]))
    ensures DigitPrefix(digits + rest) == digits
    decreases |digits|
  {
    if digits == "" {
      assert digits + rest == rest;
    } else {
      assert (digits + rest)[1..] == digits[1..] + rest;
      DigitsAreTaken(digits[1..], rest);
      assert digits == [digits[0]] + digits[1..];
    }
  }

  predicate IsSign(sign: string) {
    sign == "" || sign == "+" || sign == "-"
  }

  /** What is not a digit, a sign or white space, or nothing. */
  predicate NoNumber(rest: string) {
    rest == "" || (!IsDigit(rest[0]) && !IsSpace(rest[0]) && rest[0] != '+' && rest[0] != '-')
  }

  lemma SignIsTaken(sign: string, digits: string, rest: string)
    requires IsSign(sign) && AllDigits(digits) && (rest == "" || !IsDigit(rest[0]))
    requires sign == "" && digits == "" ==> NoNumber(rest)
    ensures AfterSpace(sign + (digits + rest)) == AsInt(sign == "-", digits)
  {
    var u := digits + rest;
    DigitsAreTaken(digits, rest);
    if sign == "" {
      assert sign + u == u;
      assert u == "" || u[0] == if digits == "" then rest[0] else digits[0];
    } else {
      assert (sign + u)[1..] == u && (sign + u)[0] == sign[0];
    }
  }

  lemma BlanksAreSkipped(blanks: string, t: string)
    requires forall i :: 0 <= i < |blanks| ==> blanks[i] == ' ' || 9 <= blanks[i] as int <= 13
    requires t == "" || !IsSpace(t[0])
    ensures Stoi(blanks + t) == AfterSpace(t)
  {
    SpaceIsSkipped(blanks, t);
  }

  lemma NoSpaceFirst(sign: string, digits: string, rest: string)
    requires IsSign(sign) && AllDigits(digits)
    requires sign == "" && digits == "" ==> NoNumber(rest)
    ensures var t := sign + (digits + rest); t == "" || !IsSpace(t[0])
  {
    if sign == "" && digits != "" {
      assert (sign + (digits + rest))[0] == digits[0];
    } else if sign == "" && rest != "" {
      assert (sign + (digits + rest))[0] == rest[0];
    }
  }

  lemma AsIntIs(negative: bool, digits: string)
    requires AllDigits(digits)
    ensures var n: int := if negative then -(Numeral(digits) as int) else Numeral(digits);
            AsInt(negative, digits) == if digits != "" && -0x8000_0000 <= n < 0x8000_0000 then Some(n) else None
  {
  }

  /** What the number reader makes of a text: white space, a sign and digits, and whatever
      follows. It throws if there are no digits or the number does not fit an int. */
  lemma StoiIs(blanks: string, sign: string, digits: string, rest: string)
    requires forall i :: 0 <= i < |blanks| ==> blanks[i] == ' ' || 9 <= blanks[i] as int <= 13
    requires IsSign(sign) && AllDigits(digits) && (rest == "" || !IsDigit(rest[0]))
    requires sign == "" && digits == "" ==> NoNumber(rest)
    ensures var n: int := if sign == "-" then -(Numeral(digits) as int) else Numeral(digits);
            Stoi(blanks + (sign + (digits + rest)))
            == if digits != "" && -0x8000_0000 <= n < 0x8000_0000 then Some(n) else None
  {
    var t := sign + (digits + rest);
    NoSpaceFirst(sign, digits, rest);
    BlanksAreSkipped(blanks, t);
    SignIsTaken(sign, digits, rest);
    AsIntIs(sign == "-", digits);
  }

  lemma StoiOfDecimal(n: nat)
    ensures Stoi(ToDecimal(n)) == if n < INT_LIMIT then Some(n) else None
  {
    var s := ToDecimal(n);
    assert IsDigit(s[0]);
    assert SkipSpace(s) == s;
    DigitsAreTheirPrefix(s);
    NumeralOfDecimal(n);
  }

  /** A bulk string reads back as it was written, whatever octets it holds, and leaves
      the stream where the next reply begins: exactly when its length is an int. */
  lemma BulkReadsBack(s: Octets, rest: Octets)
    ensures ReadReply(Bulk(s) + rest) == (Value(s), rest) <==> |s| < INT_LIMIT
    ensures |s| >= INT_LIMIT ==> ReadReply(Bulk(s) + rest).0 == Threw
  {
    var line := "$" + ToDecimal(|s|);
    var tail := s + CRLF + rest;
    assert Bulk(s) + rest == line + CRLF + tail;
    LineEnd(line, tail);
    assert line[1..] == ToDecimal(|s|);
    StoiOfDecimal(|s|);
    if |s| < INT_LIMIT {
      assert tail[..|s|] == s;
      assert tail[|s| + 2..] == rest;
    }
  }

  /** The reply that stands for no value. */
  lemma NilReadsBack(rest: Octets)
    ensures ReadReply("$-1" + CRLF + rest) == (Missing, rest)
  {
    LineEnd("$-1", rest);
    var one := "-1";
    assert "$-1"[1..] == one;
    assert SkipSpace(one) == one;
    assert one[1..] == "1";
    assert "1" == [one[1]] + "";
    assert DigitPrefix("1") == "1";
    assert Numeral("1") == 1 by {
      assert "1"[..0] == "";
    }
    assert Stoi(one) == Some(-1);
  }

  /** What the server sends for a value that it has, or has not. */
  function ReplyTo(value: Option<Octets>): Octets {
    match value
    case Some(s) => Bulk(s)
    case None => "$-1" + CRLF
  }

  /** The answer to a GET reads back, be there a value or none, and leaves the stream at the
      next reply, if and only if the length of a value fits an int. */
  lemma ReplyReadsBack(value: Option<Octets>, rest: Octets)
    ensures ReadReply(ReplyTo(value) + rest) == (if value.Some? then Value(value.value) else Missing, rest)
            <==> value.None? || |value.value| < INT_LIMIT
  {
    if value.Some? {
      BulkReadsBack(value.value, rest);
    } else {
      NilReadsBack(rest);
    }
  }

  /** A reply of another type, an error or a status, is no value, and only its line is taken
      off the stream. */
  lemma OtherReplies(line: Octets, rest: Octets)
    requires '\r' !in line && (line == "" || line[0] != '$')
    ensures ReadReply(line + CRLF + rest) == (Unreadable, rest)
  {
    LineEnd(line, rest);
  }

  /** A value that breaks off is no value, and uses the stream up. */
  lemma ShortReplies(s: Octets, n: nat)
    requires n < |s + CRLF| && |s| < INT_LIMIT
    ensures ReadReply("$" + ToDecimal(|s|) + CRLF + (s + CRLF)[..n]) == (Unreadable, [])
  {
    var line := "$" + ToDecimal(|s|);
    LineEnd(line, (s + CRLF)[..n]);
    assert line[1..] == ToDecimal(|s|);
    StoiOfDecimal(|s|);
  }

  /** n bulk strings off the stream, one after the other. */
  function ReadBulks(n: nat, stream: Octets): Option<(seq<Octets>, Octets)> {
    if n == 0 then Some(([], stream))
    else match ReadReply(stream)
         case (Value(s), rest) =>
           (match ReadBulks(n - 1, rest)
            case None => None
            case Some((more, end)) => Some(([s] + more, end)))
         case _ => None
  }

  lemma OneMoreBulk(n: nat, stream: Octets, s: Octets, rest: Octets, more: seq<Octets>, end: Octets)
    requires ReadReply(stream) == (Value(s), rest) && ReadBulks(n, rest) == Some((more, end))
    ensures ReadBulks(n + 1, stream) == Some(([s] + more, end))
  {
  }

  /** The arguments of a command can be told apart again, whatever octets they hold. */
  lemma {:induction false} ArgumentsReadBack(args: seq<Octets>, rest: Octets)
    requires forall i :: 0 <= i < |args| ==> |args[i]| < INT_LIMIT
    ensures ReadBulks(|args|, Bulks(args) + rest) == Some((args, rest))
  {
    if args == [] {
      assert Bulks(args) + rest == rest;
    } else {
      var first, others := args[0], args[1..];
      var more := Bulks(others) + rest;
      BulkReadsBack(first, more);
      ArgumentsReadBack(others, rest);
      OneMoreBulk(|others|, Bulk(first) + more, first, more, others, rest);
      BulksSplit(args, rest);
      assert args == [first] + others;
    }
  }

  lemma BulksSplit(args: seq<Octets>, rest: Octets)
    requires args != []
    ensures Bulks(args) + rest == Bulk(args[0]) + (Bulks(args[1..]) + rest)
  {
    var a, b := Bulk(args[0]), Bulks(args[1..]);
    assert (a + b) + rest == a + (b + rest);
  }

  // ----- the code

  /** What a send of so many bytes comes to, and the rest of the answers. When none is laid
      down all of the bytes are taken. */
  function NextSend(answers: seq<int>, most: nat): (int, seq<int>) {
    if answers == [] then (most, []) else (if answers[0] > most then most else answers[0], answers[1..])
  }

  /** How much of so many bytes a loop of sends gets out, and whether that is all. */
  function Sends(size: nat, answers: seq<int>): (r: (nat, bool))
    ensures r.0 <= size && (r.1 <==> r.0 == size)
  {
    if size == 0 then (0, true)
    else
      var (n, rest) := NextSend(answers, size);
      if n <= 0 then (0, false) else var (m, all) := Sends(size - n, rest); (n + m, all)
  }

  /** No send fails; each may take less than it is offered. */
  predicate NoneFails(answers: seq<int>) {
    forall i :: 0 <= i < |answers| ==> answers[i] > 0
  }

  lemma {:induction false} SendsEnd(size: nat, answers: seq<int>)
    requires NoneFails(answers)
    ensures Sends(size, answers).1
    decreases size
  {
    if size > 0 {
      var (n, rest) := NextSend(answers, size);
      SendsEnd(size - n, rest);
    }
  }

  /** incoming is what will still arrive before the receive timeout, sent what the
      socket has taken, answers what the kernel will answer to sends. */
  class RedisSocket {
    var incoming: Octets
    var sent: Octets
    var answers: seq<int>

    constructor (incoming: Octets, answers: seq<int>)
      ensures this.incoming == incoming && this.answers == answers && sent == []
    {
      this.incoming, this.answers, sent := incoming, answers, [];
    }

    /** The kernel takes some of the bytes, or answers zero or less. */
    method Send(data: Octets) returns (n: int)
      requires data != []
      modifies `sent, `answers
      ensures (n, answers) == NextSend(old(answers), |data|)
      ensures sent == old(sent) + data[..if n <= 0 then 0 else n]
    {
      n := if answers == [] || answers[0] > |data| then |data| else answers[0];
      answers := if answers == [] then [] else answers[1..];
      if n > 0 {
        sent := sent + data[..n];
      } else {
        assert data[..0] == [];
      }
    }

    /** The kernel gives some of the bytes, none once nothing arrives any more. */
    method Recv(most: nat) returns (got: Octets)
      requires most > 0
      modifies `incoming
      ensures |got| <= most && old(incoming) == got + incoming
      ensures got == [] <==> old(incoming) == []
    {
      if incoming == [] {
        return [];
      }
      var n :| 1 <= n <= most && n <= |incoming|;
      got := incoming[..n];
      incoming := incoming[n..];
    }
  }

  /** The first CR LF is complete. */
  lemma LineEndReached(stream: Octets, before: Octets, rest: Octets)
    requires stream == (before + ['\n']) + rest && before != [] && before[|before| - 1] == '\r'
    requires forall k :: 0 <= k < |before| ==> !IsCRLF(before, k)
    ensures var i := |before| - 1;
            FindCRLF(stream) == Some(i) && stream[..i] == (before + ['\n'])[..i] && stream[i + 2..] == rest
  {
    var i := |before| - 1;
    FirstCRLF(stream, 0);
    assert IsCRLF(stream, i);
    assert forall k :: 0 <= k < i ==> (IsCRLF(stream, k) <==> IsCRLF(before, k));
  }

  lemma StillNoCRLF(line: Octets, ch: char)
    requires forall k :: 0 <= k < |line| ==> !IsCRLF(line, k)
    requires ch == '\n' ==> line == [] || line[|line| - 1] != '\r'
    ensures forall k :: 0 <= k < |line| + 1 ==> !IsCRLF(line + [ch], k)
  {
    forall k | 0 <= k < |line| + 1 ensures !IsCRLF(line + [ch], k) {
      assert k + 1 < |line| ==> (IsCRLF(line + [ch], k) <==> IsCRLF(line, k));
    }
  }

  lemma TakenFurther(sent: Octets, data: Octets, count: nat, n: nat)
    requires count + n <= |data|
    ensures (sent + data[..count]) + data[count..][..n] == sent + data[..count + n]
  {
    assert data[..count] + data[count..][..n] == data[..count + n];
  }

  class RedisCache {
    const socket: RedisSocket

    constructor (socket: RedisSocket)
      ensures this.socket == socket
    {
      this.socket := socket;
    }

    method BuildRespCommand(args: seq<Octets>) returns (cmd: Octets)
      ensures cmd == Command(args)
    {
      var head := "*" + ToDecimal(|args|) + CRLF;
      cmd := head;
      for i := 0 to |args|
        invariant cmd == head + Bulks(args[..i])
      {
        BulksSnoc(args[..i], args[i]);
        assert args[..i + 1] == args[..i] + [args[i]];
        ghost var before := cmd;
        cmd := cmd + ("$" + ToDecimal(|args[i]|) + CRLF);
        cmd := cmd + (args[i] + CRLF);
        assert cmd == before + Bulk(args[i]);
        assert head + Bulks(args[..i]) + Bulk(args[i]) == head + (Bulks(args[..i]) + Bulk(args[i]));
      }
      assert args[..|args|] == args;
    }

    /** All of the data goes out in order, or what was taken before a send failed. */
    method SendAll(data: Octets) returns (ok: bool)
      modifies socket`sent, socket`answers
      ensures var (n, all) := Sends(|data|, old(socket.answers));
              ok == all && socket.sent == old(socket.sent) + data[..n]
      ensures NoneFails(old(socket.answers)) ==> ok
    {
      if NoneFails(socket.answers) {
        SendsEnd(|data|, socket.answers);
      }
      ghost var sent := socket.sent;
      var count := 0;
      while count < |data|
        invariant 0 <= count <= |data|
        invariant socket.sent == sent + data[..count]
        invariant Sends(|data|, old(socket.answers)) ==
                  (count + Sends(|data| - count, socket.answers).0, Sends(|data| - count, socket.answers).1)
      {
        var n := socket.Send(data[count..]);
        if n <= 0 {
          TakenFurther(sent, data, count, 0);
          return false;
        }
        TakenFurther(sent, data, count, n);
        count := count + n;
      }
      assert data[..count] == data;
      return true;
    }

    method ReadLine() returns (ok: bool, line: Octets)
      modifies socket`incoming
      ensures match FindCRLF(old(socket.incoming))
              case None => !ok && socket.incoming == []
              case Some(i) => ok && line == old(socket.incoming)[..i] && socket.incoming == old(socket.incoming)[i + 2..]
    {
      ghost var stream := socket.incoming;
      line := [];
      var prev := 0 as char;
      while true
        invariant stream == line + socket.incoming
        invariant line == [] ==> prev == 0 as char
        invariant line != [] ==> prev == line[|line| - 1]
        invariant forall k :: 0 <= k < |line| ==> !IsCRLF(line, k)
        decreases |socket.incoming|
      {
        var got := socket.Recv(1);
        if got == [] {
          assert stream == line;
          FirstCRLF(stream, 0);
          return false, line;
        }
        var ch := got[0];
        ghost var before := line;
        line := line + [ch];
        assert stream == line + socket.incoming;
        if prev == '\r' && ch == '\n' {
          LineEndReached(stream, before, socket.incoming);
          line := line[..|line| - 2];
          return true, line;
        }
        StillNoCRLF(before, ch);
        prev := ch;
      }
    }

    method ReadExact(len: nat) returns (ok: bool, out: Octets)
      modifies socket`incoming
      ensures ok <==> len <= |old(socket.incoming)|
      ensures ok ==> out == old(socket.incoming)[..len] && socket.incoming == old(socket.incoming)[len..]
      ensures !ok ==> socket.incoming == []
    {
      out := [];
      while |out| < len
        invariant |out| <= len && old(socket.incoming) == out + socket.incoming
        decreases len - |out|
      {
        var got := socket.Recv(len - |out|);
        if got == [] {
          return false, out;
        }
        assert out + (got + socket.incoming) == (out + got) + socket.incoming;
        out := out + got;
      }
      return true, out;
    }

    /** The reply is read once the command is out. */
    method SendCommandGetBulk(args: seq<Octets>) returns (got: Got)
      modifies socket
      ensures var (n, all) := Sends(|Command(args)|, old(socket.answers));
              && socket.sent == old(socket.sent) + Command(args)[..n]
              && if all then (got, socket.incoming) == ReadReply(old(socket.incoming))
                 else got == Unreadable && socket.incoming == old(socket.incoming)
      ensures NoneFails(old(socket.answers)) ==>
                socket.sent == old(socket.sent) + Command(args) && (got, socket.incoming) == ReadReply(old(socket.incoming))
    {
      var cmd := BuildRespCommand(args);
      var ok := SendAll(cmd);
      if !ok {
        return Unreadable;
      }
      var line;
      ok, line := ReadLine();
      if !ok || line == [] || line[0] != '$' {
        return Unreadable;
      }
      var len := Stoi(line[1..]);
      if len.None? {
        return Threw;
      }
      if len.value < 0 {
        return Missing;
      }
      var payload, crlf;
      ok, payload := ReadExact(len.value);
      if !ok {
        return Unreadable;
      }
      ok, crlf := ReadExact(2);
      return if ok then Value(payload) else Unreadable;
    }
  }
}
