/** The growable byte buffer of src/net/buffer/byte_buffer.cpp. */
module ByteBuffers {
  import opened Base

  const PREPEND_SIZE: nat := 8
  const EXTRA_SIZE: nat := 65536

  /** What the kernel answers to a read or a write. */
  datatype Outcome = Done(count: nat) | Again | Failed

  predicate IsCRLF(s: Octets, k: nat) {
    k + 1 < |s| && s[k] == '\r' && s[k + 1] == '\n'
  }

  /** First position of CR LF in s, if there is one. */
  function FindCRLF(s: Octets): (r: Option<nat>)
    ensures r.Some? ==> r.value + 2 <= |s|
  {
    FindCRLFFrom(s, 0)
  }

  function FindCRLFFrom(s: Octets, from: nat): (r: Option<nat>)
    requires from <= |s|
    ensures r.Some? ==> r.value + 2 <= |s|
    decreases |s| - from
  {
    if from == |s| then None
    else if IsCRLF(s, from) then Some(from)
    else FindCRLFFrom(s, from + 1)
  }

  /** FindCRLF is characterised by the positions that hold CR LF. */
  lemma {:induction false} FirstCRLF(s: Octets, from: nat)
    requires from <= |s|
    ensures FindCRLFFrom(s, from).None? <==> forall k :: from <= k < |s| ==> !IsCRLF(s, k)
    ensures forall i :: FindCRLFFrom(s, from) == Some(i) <==>
              from <= i && IsCRLF(s, i) && forall k :: from <= k < i ==> !IsCRLF(s, k)
    decreases |s| - from
  {
    if from < |s| && !IsCRLF(s, from) {
      FirstCRLF(s, from + 1);
    }
  }

  /** A line without CR, its CR LF and more: the line end is found after the line. */
  lemma LineEnd(line: string, t: Octets)
    requires '\r' !in line
    ensures FindCRLF(line + "\r\n" + t) == Some(|line|)
    ensures (line + "\r\n" + t)[..|line|] == line
    ensures (line + "\r\n" + t)[|line| + 2..] == t
  {
    var s := line + "\r\n" + t;
    FirstCRLF(s, 0);
    assert IsCRLF(s, |line|);
    forall k: nat | k < |line| ensures !IsCRLF(s, k) {
      assert s[k] == line[k] && line[k] in line;
    }
  }

  class ByteBuffer {
    var buffer: array<char>
    var readerIndex: nat
    var writerIndex: nat
    // History: every byte put in, and every byte taken out, in order.
    ghost var written: Octets
    ghost var taken: Octets

    ghost predicate Valid()
      reads this, buffer
    {
      && readerIndex <= writerIndex <= buffer.Length
      && PREPEND_SIZE <= buffer.Length
      && written == taken + buffer[readerIndex..writerIndex]
    }

    ghost function Contents(): (s: Octets)
      requires Valid()
      reads this, buffer
    {
      buffer[readerIndex..writerIndex]
    }

    constructor (initialSize: nat)
      ensures Valid() && fresh(buffer)
      ensures Contents() == [] && written == [] && taken == []
      ensures buffer.Length == PREPEND_SIZE + initialSize
    {
      buffer := new char[PREPEND_SIZE + initialSize];
      readerIndex, writerIndex := PREPEND_SIZE, PREPEND_SIZE;
      written, taken := [], [];
    }

    function ReadableBytes(): (n: nat)
      requires readerIndex <= writerIndex
      reads this
    {
      writerIndex - readerIndex
    }

    function WritableBytes(): (n: nat)
      requires writerIndex <= buffer.Length
      reads this
    {
      buffer.Length - writerIndex
    }

    method Retrieve(len: nat)
      requires Valid()
      modifies this
      ensures Valid() && buffer == old(buffer)
      ensures Contents() == old(Contents())[Min(len, |old(Contents())|)..]
      ensures taken == old(taken) + old(Contents())[..Min(len, |old(Contents())|)]
      ensures written == old(written)
    {
      ghost var before := Contents();
      ghost var n := Min(len, |before|);
      if len < ReadableBytes() {
        readerIndex := readerIndex + len;
      } else {
        readerIndex, writerIndex := PREPEND_SIZE, PREPEND_SIZE;
      }
      taken := taken + before[..n];
      assert before == before[..n] + before[n..];
      assert buffer[readerIndex..writerIndex] == before[n..];
    }

    method RetrieveAll()
      requires Valid()
      modifies this
      ensures Valid() && buffer == old(buffer)
      ensures Contents() == [] && taken == old(taken) + old(Contents()) && written == old(written)
    {
      taken := taken + Contents();
      readerIndex, writerIndex := PREPEND_SIZE, PREPEND_SIZE;
    }

    method RetrieveAsString(len: nat) returns (result: Octets)
      requires Valid()
      modifies this
      ensures Valid() && buffer == old(buffer)
      ensures result == old(Contents())[..Min(len, |old(Contents())|)]
      ensures Contents() == old(Contents())[Min(len, |old(Contents())|)..]
      ensures taken == old(taken) + result && written == old(written)
    {
      var n := Min(len, ReadableBytes());
      result := buffer[readerIndex..readerIndex + n];
      assert result == Contents()[..n];
      Retrieve(len);
    }

    /** Room for len more bytes; the readable bytes do not change. */
    method EnsureWritableBytes(len: nat)
      requires Valid()
      modifies this, buffer
      ensures Valid() && (buffer == old(buffer) || fresh(buffer))
      ensures len <= WritableBytes() && WritableBytes() >= old(WritableBytes())
      ensures Contents() == old(Contents()) && taken == old(taken) && written == old(written)
    {
      if WritableBytes() < len {
        MakeSpace(len);
      }
    }

    /** Grows, or moves the readable bytes down over the ones already read.
        The move copies forward over itself; it runs only when readerIndex
        lies beyond the prepend area, which is what makes it safe. */
    method MakeSpace(len: nat)
      requires Valid() && WritableBytes() < len
      modifies this, buffer
      ensures Valid() && (buffer == old(buffer) || fresh(buffer))
      ensures len <= WritableBytes()
      ensures buffer == old(buffer) ==> PREPEND_SIZE < old(readerIndex) && readerIndex == PREPEND_SIZE
      ensures Contents() == old(Contents()) && taken == old(taken) && written == old(written)
    {
      if WritableBytes() + readerIndex < len + PREPEND_SIZE {
        Grow(len);
      } else {
        Compact();
      }
    }

    method Grow(len: nat)
      requires Valid() && WritableBytes() < len
      modifies this
      ensures Valid() && fresh(buffer) && WritableBytes() == len
      ensures Contents() == old(Contents()) && taken == old(taken) && written == old(written)
    {
      var bigger := new char[writerIndex + len];
      Blit(bigger, readerIndex, buffer[readerIndex..writerIndex]);
      buffer := bigger;
    }

    method Compact()
      requires Valid() && PREPEND_SIZE < readerIndex
      modifies this, buffer
      ensures Valid() && buffer == old(buffer) && readerIndex == PREPEND_SIZE
      ensures WritableBytes() == old(WritableBytes() + readerIndex) - PREPEND_SIZE
      ensures Contents() == old(Contents()) && taken == old(taken) && written == old(written)
    {
      var readable := ReadableBytes();
      CopyDown(buffer, readerIndex, readable, PREPEND_SIZE);
      readerIndex := PREPEND_SIZE;
      writerIndex := readerIndex + readable;
    }

    method Append(data: Octets)
      requires Valid()
      modifies this, buffer
      ensures Valid() && (buffer == old(buffer) || fresh(buffer))
      ensures Contents() == old(Contents()) + data
      ensures written == old(written) + data && taken == old(taken)
    {
      EnsureWritableBytes(|data|);
      AppendInPlace(data);
    }

    /** Writes data to the free tail, where it fits, and moves the end past it. */
    method AppendInPlace(data: Octets)
      requires Valid() && |data| <= WritableBytes()
      modifies this, buffer
      ensures Valid() && buffer == old(buffer) && writerIndex == old(writerIndex) + |data|
      ensures Contents() == old(Contents()) + data
      ensures written == old(written) + data && taken == old(taken)
    {
      ghost var before := Contents();
      Blit(buffer, writerIndex, data);
      assert buffer[readerIndex..writerIndex] == buffer[..writerIndex][readerIndex..];
      writerIndex := writerIndex + |data|;
      assert buffer[readerIndex..writerIndex] == before + data;
      written := written + data;
    }

    /** Bytes go in front of the unread ones, in the space kept for them. */
    method Prepend(data: Octets)
      requires Valid() && |data| <= readerIndex
      modifies this, buffer
      ensures Valid() && buffer == old(buffer)
      ensures Contents() == data + old(Contents())
      ensures taken == old(taken) && written == old(taken) + data + old(Contents())
    {
      ghost var before := Contents();
      readerIndex := readerIndex - |data|;
      Blit(buffer, readerIndex, data);
      ghost var mid := readerIndex + |data|;
      assert buffer[mid..writerIndex] == buffer[mid..][..|before|];
      assert buffer[readerIndex..mid] == data;
      assert buffer[readerIndex..writerIndex] == buffer[readerIndex..mid] + buffer[mid..writerIndex];
      written := taken + data + before;
      assert written == taken + (data + before);
    }

    method Shrink(reserve: nat)
      requires Valid()
      modifies this
      ensures Valid() && fresh(buffer)
      ensures buffer.Length == PREPEND_SIZE + |Contents()| + reserve
      ensures Contents() == old(Contents()) && taken == old(taken) && written == old(written)
    {
      var readable := ReadableBytes();
      var buf := new char[PREPEND_SIZE + readable + reserve];
      Blit(buf, PREPEND_SIZE, buffer[readerIndex..writerIndex]);
      buffer := buf;
      readerIndex := PREPEND_SIZE;
      writerIndex := readerIndex + readable;
    }

    /** Most bytes one scattered read can return: the free tail of the buffer,
        plus the extra block when that tail is smaller than the block. */
    function ReadRoom(): (n: nat)
      requires writerIndex <= buffer.Length
      reads this
    {
      if WritableBytes() < EXTRA_SIZE then WritableBytes() + EXTRA_SIZE else WritableBytes()
    }

    /** A successful scattered read: the kernel fills the free tail first and
        the extra block with the rest, which is then appended. */
    method ReadFd(data: Octets)
      requires Valid() && |data| <= ReadRoom()
      modifies this, buffer
      ensures Valid() && (buffer == old(buffer) || fresh(buffer))
      ensures Contents() == old(Contents()) + data
      ensures written == old(written) + data && taken == old(taken)
    {
      var writable := WritableBytes();
      if |data| <= writable {
        AppendInPlace(data);
      } else {
        AppendInPlace(data[..writable]);
        Append(data[writable..]);
        assert data == data[..writable] + data[writable..];
      }
    }

    /** One write of the readable bytes; the accepted ones go onto the wire. */
    method WriteFd(outcome: Outcome) returns (sent: Octets)
      requires Valid()
      requires outcome.Done? ==> outcome.count <= |Contents()|
      modifies this
      ensures Valid() && buffer == old(buffer)
      ensures var n := if outcome.Done? then outcome.count else 0;
              sent == old(Contents())[..n] && Contents() == old(Contents())[n..]
      ensures taken == old(taken) + sent && written == old(written)
    {
      if outcome.Done? {
        sent := RetrieveAsString(outcome.count);
      } else {
        sent := [];
      }
    }

    /** The search for the end of a line. */
    method FindEndOfLine() returns (r: Option<nat>)
      requires Valid()
      ensures r == FindCRLF(Contents())
    {
      var i := readerIndex;
      ghost var s := Contents();
      while i + 1 < writerIndex
        invariant readerIndex <= i <= writerIndex
        invariant FindCRLFFrom(s, i - readerIndex) == FindCRLF(s)
      {
        if buffer[i] == '\r' && buffer[i + 1] == '\n' {
          return Some(i - readerIndex);
        }
        assert !IsCRLF(s, i - readerIndex);
        i := i + 1;
      }
      r := None;
    }
  }

  /** Writes data into a from index at on, and nowhere else. */
  method Blit(a: array<char>, at: nat, data: Octets)
    requires at + |data| <= a.Length
    modifies a
    ensures a[..at] == old(a[..at])
    ensures a[at..at + |data|] == data
    ensures a[at + |data|..] == old(a[at + |data|..])
  {
    forall i | 0 <= i < |data| {
      a[at + i] := data[i];
    }
  }

  /** Copies a[from..from+n] to a[to..to+n] in ascending order. */
  method CopyDown(a: array<char>, from: nat, n: nat, to: nat)
    requires to <= from && from + n <= a.Length
    modifies a
    ensures a[to..to + n] == old(a[from..from + n])
  {
    var i := 0;
    while i < n
      invariant i <= n
      invariant a[to..to + i] == old(a[from..from + i])
      invariant a[from + i..from + n] == old(a[from + i..from + n])
    {
      assert a[from + i] == a[from + i..from + n][0];
      ghost var tail := a[from + i..from + n];
      a[to + i] := a[from + i];
      assert a[from + i + 1..from + n] == tail[1..];
      i := i + 1;
    }
  }
}
