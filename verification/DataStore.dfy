/** The content-addressed files of src/storage/data_store.cpp. */
module DataStores {
  import opened Base
  import opened ByteBuffers

  const BUFFER_SIZE: nat := 65536

  datatype Path = CasPath(key: Digest) | TmpPath(id: nat)

  type Files = map<Path, Octets>

  datatype Error = Finished | StorageError | ChecksumMismatch | NoSuchFile | NothingToMerge

  datatype Result<T> = Ok(value: T) | Err(error: Error)

  /** Every file at a content-addressed path is named by its contents. */
  ghost predicate Hashed(files: Files) {
    forall k :: CasPath(k) in files ==> Sha256(files[CasPath(k)]) == k
  }

  /** The next answer to a call that is asked for at most so much, and the rest. */
  function NextAnswer(answers: seq<Outcome>, most: nat): (Outcome, seq<Outcome>)
    requires most > 0
  {
    if answers == [] then (Done(most), [])
    else
      var r := answers[0];
      (if r.Done? then Done(if r.count == 0 then 1 else Min(r.count, most)) else r, answers[1..])
  }

  /** How much of the data a loop of writes gets out, and whether that is all. */
  function Writing(data: Octets, answers: seq<Outcome>): (r: (nat, bool))
    ensures r.0 <= |data| && (r.1 <==> r.0 == |data|)
    decreases |data|, |answers|
  {
    if data == [] then (0, true)
    else match NextAnswer(answers, |data|)
         case (Failed, _) => (0, false)
         case (Again, rest) => Writing(data, rest)
         case (Done(n), rest) => var (m, all) := Writing(data[n..], rest); (n + m, all)
  }

  /** No call fails; some may be short or interrupted. */
  predicate NoneFails(answers: seq<Outcome>) {
    forall i :: 0 <= i < |answers| ==> !answers[i].Failed?
  }

  lemma {:induction false} WritingEnds(data: Octets, answers: seq<Outcome>)
    requires NoneFails(answers)
    ensures Writing(data, answers).1
    decreases |data|, |answers|
  {
    if data != [] {
      match NextAnswer(answers, |data|)
      case (Again, rest) => WritingEnds(data, rest);
      case (Done(n), rest) => WritingEnds(data[n..], rest);
    }
  }

  /** The files, and how the kernel will answer: a count may be short, a call may be
      interrupted or fail. When no answer is laid down a call does all it is asked. */
  class Disk {
    var files: Files
    var answers: seq<Outcome>

    constructor (files: Files, answers: seq<Outcome>)
      ensures this.files == files && this.answers == answers
    {
      this.files, this.answers := files, answers;
    }

    method Answer(most: nat) returns (r: Outcome)
      requires most > 0
      modifies `answers
      ensures (r, answers) == NextAnswer(old(answers), most)
    {
      if answers == [] {
        return Done(most);
      }
      r := answers[0];
      answers := answers[1..];
      if r.Done? {
        r := Done(if r.count == 0 then 1 else Min(r.count, most));
      }
    }

    /** write(2) at the end of a file. */
    method WriteSome(p: Path, data: Octets) returns (r: Outcome)
      requires p in files && data != []
      modifies this
      ensures (r, answers) == NextAnswer(old(answers), |data|)
      ensures files == if r.Done? then old(files)[p := old(files[p]) + data[..r.count]] else old(files)
    {
      r := Answer(|data|);
      if r.Done? {
        files := files[p := files[p] + data[..r.count]];
      }
    }

    /** Writes until all is written, or a write fails and leaves a beginning of it. */
    method WriteAll(p: Path, data: Octets) returns (ok: bool)
      requires p in files
      modifies this
      ensures var (n, all) := Writing(data, old(answers));
              ok == all && files == old(files)[p := old(files[p]) + data[..n]]
      ensures NoneFails(old(answers)) ==> ok && NoneFails(answers)
    {
      if NoneFails(answers) {
        WritingEnds(data, answers);
      }
      ghost var before := files;
      var written := 0;
      assert before[p] + data[..0] == before[p];
      while written < |data|
        invariant 0 <= written <= |data|
        invariant files == before[p := before[p] + data[..written]]
        invariant NoneFails(old(answers)) ==> NoneFails(answers)
        invariant Writing(data, old(answers)) ==
                  (written + Writing(data[written..], answers).0, Writing(data[written..], answers).1)
        decreases |data| - written, |answers|
      {
        var r := WriteSome(p, data[written..]);
        match r
        case Again =>
        case Failed => return false;
        case Done(n) =>
          assert data[..written] + data[written..][..n] == data[..written + n];
          assert before[p] + data[..written] + data[written..][..n] == before[p] + data[..written + n];
          assert data[written..][n..] == data[written + n..];
          written := written + n;
      }
      return true;
    }

    /** read(2) at a position; no bytes means the end of the file. */
    method ReadSome(p: Path, at: nat, most: nat) returns (r: Outcome, got: Octets)
      requires p in files && most > 0
      modifies `answers
      ensures match r
              case Done(n) =>
                |got| == n <= most && got <= files[p][Min(at, |files[p]|)..] && (n == 0 <==> at >= |files[p]|)
              case Again => |answers| < |old(answers)|
              case Failed => |answers| < |old(answers)|
      ensures NoneFails(old(answers)) ==> !r.Failed? && NoneFails(answers)
    {
      got := [];
      if at >= |files[p]| {
        return Done(0), got;
      }
      r := Answer(Min(most, |files[p]| - at));
      if r.Done? {
        got := files[p][at..at + r.count];
      }
    }
  }

  /** A temporary file being written, and the digest of what went into it. */
  class WriteSession {
    const disk: Disk
    const tmp: Path
    var hashed: Octets
    var bytesWritten: nat
    var finished: bool

    constructor (disk: Disk, tmp: Path)
      ensures this.disk == disk && this.tmp == tmp
      ensures hashed == [] && bytesWritten == 0 && !finished
    {
      this.disk, this.tmp := disk, tmp;
      hashed, bytesWritten, finished := [], 0, false;
    }

    /** What is in the file is what was hashed and counted. */
    ghost predicate Sound()
      reads this, disk
    {
      tmp.TmpPath? && tmp in disk.files && disk.files[tmp] == hashed && bytesWritten == |hashed|
    }

    /** All of the data is written, hashed and counted. If a write fails, what did get
        written is in the file and neither in the hash nor in the count. */
    method Write(data: Octets) returns (ok: bool)
      requires tmp in disk.files
      modifies this, disk
      ensures finished == old(finished)
      ensures old(finished) ==>
                !ok && disk.files == old(disk.files) && hashed == old(hashed) && bytesWritten == old(bytesWritten)
      ensures !old(finished) ==>
                var (n, all) := Writing(data, old(disk.answers));
                && ok == all && disk.files == old(disk.files)[tmp := old(disk.files)[tmp] + data[..n]]
                && hashed == old(hashed) + (if ok then data else [])
                && bytesWritten == old(bytesWritten) + if ok then |data| else 0
      ensures NoneFails(old(disk.answers)) ==> NoneFails(disk.answers) && (!old(finished) ==> ok)
    {
      if finished {
        return false;
      }
      ok := disk.WriteAll(tmp, data);
      if !ok {
        assert hashed + [] == hashed;
        return false;
      }
      hashed := hashed + data;
      bytesWritten := bytesWritten + |data|;
      return true;
    }

    method Finish() returns (r: Result<Digest>)
      modifies `finished
      ensures finished
      ensures r == if old(finished) then Err(Error.Finished) else Ok(Sha256(hashed))
    {
      if finished {
        return Err(Error.Finished);
      }
      finished := true;
      return Ok(Sha256(hashed));
    }

    /** Closing an unfinished session takes its file away. */
    method Abort()
      modifies this, disk
      ensures finished && disk.files == old(disk.files) - {tmp} && hashed == old(hashed)
    {
      disk.files := disk.files - {tmp};
      finished := true;
    }
  }

  /** Only the file at p is new, and it holds the bytes. */
  ghost predicate Stored(before: Files, after: Files, bytes: Octets) {
    after == before[CasPath(Sha256(bytes)) := bytes]
  }

  class DataStore {
    const disk: Disk

    constructor (disk: Disk)
      ensures this.disk == disk
    {
      this.disk := disk;
    }

    /** The file must be new. */
    method BeginWrite(uuid: nat) returns (r: Result<WriteSession>)
      modifies disk`files
      ensures if TmpPath(uuid) in old(disk.files) then r == Err(StorageError) && disk.files == old(disk.files)
              else r.Ok? && fresh(r.value) && r.value.disk == disk && r.value.tmp == TmpPath(uuid)
                   && disk.files == old(disk.files)[TmpPath(uuid) := []] && r.value.Sound() && !r.value.finished
                   && r.value.hashed == []
    {
      if TmpPath(uuid) in disk.files {
        return Err(StorageError);
      }
      disk.files := disk.files[TmpPath(uuid) := []];
      var session := new WriteSession(disk, TmpPath(uuid));
      return Ok(session);
    }

    /** The temporary file becomes the file of its digest, unless that exists already.
        moved says whether the directory is there and the rename succeeds. */
    method Place(tmp: Path, key: Digest, moved: bool) returns (r: Result<Digest>)
      requires tmp in disk.files && tmp.TmpPath?
      modifies disk`files
      ensures r == (if CasPath(key) in old(disk.files) || moved then Ok(key) else Err(StorageError))
      ensures disk.files == if CasPath(key) in old(disk.files) || !moved then old(disk.files) - {tmp}
                            else old(disk.files)[CasPath(key) := old(disk.files)[tmp]] - {tmp}
    {
      if CasPath(key) in disk.files {
        disk.files := disk.files - {tmp};
        return Ok(key);
      }
      if !moved {
        disk.files := disk.files - {tmp};
        return Err(StorageError);
      }
      disk.files := disk.files[CasPath(key) := disk.files[tmp]] - {tmp};
      return Ok(key);
    }

    /** A commit names the file by what was hashed. If that is what is in the file, the
        digest is right, whether the file was there already or not; every other file is
        left alone; a refused commit leaves them all alone. */
    method CommitWrite(session: WriteSession, expected: Option<Digest>, moved: bool) returns (r: Result<Digest>)
      requires session.disk == disk && session.tmp.TmpPath? && session.tmp in disk.files && Hashed(disk.files)
      modifies session`finished, disk
      ensures session.finished
      ensures old(session.finished) ==> r == Err(Error.Finished) && disk.files == old(disk.files)
      ensures !old(session.finished) ==>
                var rest := old(disk.files) - {session.tmp};
                var file := old(disk.files)[session.tmp];
                match r
                case Ok(k) =>
                  && k == Sha256(session.hashed) && (expected.Some? ==> expected.value == k)
                  && disk.files == (if CasPath(k) in rest then rest else rest[CasPath(k) := file])
                  && (file == session.hashed ==> Stored(rest, disk.files, file))
                  && (Hashed(disk.files) <==> file == session.hashed || CasPath(k) in rest)
                case Err(e) =>
                  && disk.files == rest
                  && (e.ChecksumMismatch? <==> expected.Some? && expected.value != Sha256(session.hashed))
                  && (!e.ChecksumMismatch? ==> e.StorageError? && !moved)
    {
      ghost var before := disk.files;
      var done := session.Finish();
      if done.Err? {
        return done;
      }
      var key := done.value;
      if expected.Some? && key != expected.value {
        disk.files := disk.files - {session.tmp};
        return Err(ChecksumMismatch);
      }
      r := Place(session.tmp, key, moved);
      if r.Ok? {
        ghost var rest := before - {session.tmp};
        if CasPath(key) in before {
          assert Sha256(before[CasPath(key)]) == key;
          assert rest[CasPath(key) := session.hashed] == rest;
        } else {
          assert before[CasPath(key) := before[session.tmp]] - {session.tmp} == rest[CasPath(key) := before[session.tmp]];
          assert disk.files[CasPath(key)] == before[session.tmp];
        }
      }
    }

    /** Read after write: the answer is the digest of the data, and the data is there. */
    method Write(data: Octets, uuid: nat, moved: bool) returns (r: Result<Digest>)
      requires Hashed(disk.files)
      modifies disk
      ensures Hashed(disk.files)
      ensures match r
              case Ok(k) => k == Sha256(data) && Stored(old(disk.files), disk.files, data)
              case Err(_) => disk.files == old(disk.files)
      ensures TmpPath(uuid) !in old(disk.files) && NoneFails(old(disk.answers)) && moved ==> r.Ok?
    {
      ghost var before := disk.files;
      var begun := BeginWrite(uuid);
      if begun.Err? {
        return Err(begun.error);
      }
      var session := begun.value;
      var ok := session.Write(data);
      if !ok {
        // The session goes out of scope here.
        session.Abort();
        assert disk.files == before;
        return Err(StorageError);
      }
      assert [] + data[..|data|] == data && [] + data == data;
      assert before[TmpPath(uuid) := data] - {TmpPath(uuid)} == before;
      r := CommitWrite(session, None, moved);
    }

    /** The whole file. */
    method Read(key: Digest) returns (r: Result<Octets>)
      modifies disk`answers
      ensures CasPath(key) !in disk.files ==> r == Err(NoSuchFile)
      ensures CasPath(key) in disk.files ==> r == Ok(disk.files[CasPath(key)]) || r == Err(StorageError)
      ensures CasPath(key) in disk.files && NoneFails(old(disk.answers)) ==> r.Ok?
    {
      var path := CasPath(key);
      if path !in disk.files {
        return Err(NoSuchFile);
      }
      var file := disk.files[path];
      var size := |file|;
      var data: Octets := [];
      while |data| < size
        invariant data <= file && (NoneFails(old(disk.answers)) ==> NoneFails(disk.answers))
        decreases size - |data|, |disk.answers|
      {
        var answer, got := disk.ReadSome(path, |data|, size - |data|);
        match answer
        case Again =>
        case Failed => return Err(StorageError);
        case Done(n) =>
          if n == 0 {
            break;
          }
          PrefixGrows(file, data, got);
          data := data + got;
      }
      assert data == file;
      return Ok(data);
    }

    /** The bytes from offset on, at most length of them if length is not zero, handed
        over piece by piece. patience is how many pieces the callback takes before it
        asks to stop. */
    method StreamRead(key: Digest, offset: nat, length: nat, patience: nat)
      returns (error: Option<Error>, pieces: seq<Octets>, stopped: bool)
      modifies disk`answers
      ensures CasPath(key) !in disk.files ==> error == Some(NoSuchFile) && pieces == []
      ensures CasPath(key) in disk.files ==>
                var slice := Slice(disk.files[CasPath(key)], offset, length);
                && Concat(pieces) <= slice && (error.None? && !stopped ==> Concat(pieces) == slice)
                && (error.Some? ==> error.value == StorageError)
      ensures forall i :: 0 <= i < |pieces| ==> 0 < |pieces[i]| <= BUFFER_SIZE
      ensures stopped <==> |pieces| > patience
      ensures CasPath(key) in disk.files && NoneFails(old(disk.answers)) ==> error.None?
    {
      pieces, stopped := [], false;
      var path := CasPath(key);
      if path !in disk.files {
        return Some(NoSuchFile), [], false;
      }
      var file := disk.files[path];
      ghost var slice := Slice(file, offset, length);
      var remaining := length;
      var count := 0;
      while length == 0 || remaining > 0
        invariant Concat(pieces) <= slice && |Concat(pieces)| == count
        invariant length > 0 ==> remaining == length - count
        invariant |pieces| <= patience && (NoneFails(old(disk.answers)) ==> NoneFails(disk.answers))
        invariant forall i :: 0 <= i < |pieces| ==> 0 < |pieces[i]| <= BUFFER_SIZE
        decreases |slice| - count, |disk.answers|
      {
        var most := if length > 0 && remaining < BUFFER_SIZE then remaining else BUFFER_SIZE;
        var answer, got := disk.ReadSome(path, offset + count, most);
        match answer
        case Again =>
        case Failed => return Some(StorageError), pieces, false;
        case Done(n) =>
          if n == 0 {
            break;
          }
          SliceGrows(file, offset, length, Concat(pieces), got);
          ConcatSnoc(pieces, got);
          pieces := pieces + [got];
          count := count + n;
          if |pieces| > patience {
            return None, pieces, true;
          }
          if length > 0 {
            remaining := remaining - n;
          }
      }
      return None, pieces, false;
    }

    /** Appends one file to the merged one, chunk by chunk; hashed grows with it. */
    method CopyInto(tmp: Path, key: Digest, hashed: Octets) returns (ok: bool, hashed': Octets)
      requires tmp.TmpPath? && tmp in disk.files && disk.files[tmp] == hashed && CasPath(key) in disk.files
      modifies disk
      ensures disk.files.Keys == old(disk.files.Keys)
      ensures forall p :: p in disk.files && p != tmp ==> disk.files[p] == old(disk.files)[p]
      ensures ok ==> hashed' == hashed + disk.files[CasPath(key)] && disk.files[tmp] == hashed'
      ensures NoneFails(old(disk.answers)) ==> ok && NoneFails(disk.answers)
    {
      var path := CasPath(key);
      var file := disk.files[path];
      ghost var before := disk.files;
      hashed' := hashed;
      var at := 0;
      assert hashed + file[..0] == hashed;
      while true
        invariant 0 <= at <= |file| && hashed' == hashed + file[..at]
        invariant disk.files == before[tmp := hashed']
        invariant NoneFails(old(disk.answers)) ==> NoneFails(disk.answers)
        decreases |file| - at, |disk.answers|
      {
        var answer, got := disk.ReadSome(path, at, BUFFER_SIZE);
        match answer
        case Again =>
        case Failed => return false, hashed';
        case Done(n) =>
          if n == 0 {
            assert file[..at] == file;
            return true, hashed';
          }
          ghost var so := hashed';
          hashed' := hashed' + got;
          ok := disk.WriteAll(tmp, got);
          assert got[..|got|] == got;
          if !ok {
            return false, hashed';
          }
          assert file[..at] + got == file[..at + n];
          assert so + got == hashed + (file[..at] + got);
          at := at + n;
      }
    }

    /** Appends the files one after the other, until one is missing or cannot be copied. */
    method AppendAll(tmp: Path, keys: seq<Digest>) returns (error: Option<Error>, hashed: Octets)
      requires tmp.TmpPath? && tmp in disk.files && disk.files[tmp] == []
      modifies disk
      ensures disk.files.Keys == old(disk.files.Keys)
      ensures forall p :: p in disk.files && p != tmp ==> disk.files[p] == old(disk.files)[p]
      ensures error.None? ==> Present(old(disk.files), keys) && hashed == Concat(Pieces(old(disk.files), keys))
                              && disk.files[tmp] == hashed
      ensures error.Some? ==> error.value.StorageError? || (error.value.NoSuchFile? && !Present(old(disk.files), keys))
      ensures NoneFails(old(disk.answers)) && Present(old(disk.files), keys) ==> error.None?
    {
      ghost var before := disk.files;
      hashed := [];
      for i := 0 to |keys|
        invariant Present(before, keys[..i]) && hashed == Concat(Pieces(before, keys[..i]))
        invariant disk.files.Keys == before.Keys
        invariant forall p :: p in before && p != tmp ==> disk.files[p] == before[p]
        invariant disk.files[tmp] == hashed
        invariant NoneFails(old(disk.answers)) ==> NoneFails(disk.answers)
      {
        if CasPath(keys[i]) !in disk.files {
          return Some(NoSuchFile), hashed;
        }
        var ok;
        ok, hashed := CopyInto(tmp, keys[i], hashed);
        if !ok {
          return Some(StorageError), hashed;
        }
        PiecesSnoc(before, keys, i);
      }
      assert keys[..|keys|] == keys;
      return None, hashed;
    }

    /** The merged file holds the given files one after the other. If any of them is
        missing, or anything fails, no file is changed. */
    method Merge(keys: seq<Digest>, uuid: nat, moved: bool) returns (r: Result<Digest>)
      requires Hashed(disk.files)
      modifies disk
      ensures Hashed(disk.files)
      ensures match r
              case Ok(k) =>
                && keys != [] && Present(old(disk.files), keys)
                && k == Sha256(Concat(Pieces(old(disk.files), keys)))
                && Stored(old(disk.files), disk.files, Concat(Pieces(old(disk.files), keys)))
              case Err(e) =>
                && disk.files == old(disk.files) && (e.NothingToMerge? <==> keys == [])
                && (e.NoSuchFile? ==> !Present(disk.files, keys))
      ensures keys != [] && Present(old(disk.files), keys) && NoneFails(old(disk.answers)) && moved ==>
                TmpPath(uuid) !in old(disk.files) ==> r.Ok?
    {
      if keys == [] {
        return Err(NothingToMerge);
      }
      var tmp := TmpPath(uuid);
      if tmp in disk.files {
        return Err(StorageError);
      }
      ghost var before := disk.files;
      disk.files := disk.files[tmp := []];
      ghost var withTmp := disk.files;
      SamePieces(before, withTmp, keys);
      var error, hashed := AppendAll(tmp, keys);
      assert disk.files - {tmp} == before;
      if error.Some? {
        disk.files := disk.files - {tmp};
        return Err(error.value);
      }
      r := Place(tmp, Sha256(hashed), moved);
      if r.Ok? {
        if CasPath(Sha256(hashed)) in before {
          assert Sha256(before[CasPath(Sha256(hashed))]) == Sha256(hashed);
        }
        assert disk.files == before[CasPath(Sha256(hashed)) := hashed];
      }
    }
  }

  /** A temporary file more makes no difference to what is merged. */
  lemma SamePieces(before: Files, after: Files, keys: seq<Digest>)
    requires forall k :: CasPath(k) in before <==> CasPath(k) in after
    requires forall k :: CasPath(k) in before ==> after[CasPath(k)] == before[CasPath(k)]
    ensures Present(before, keys) <==> Present(after, keys)
    ensures Present(before, keys) ==> Pieces(before, keys) == Pieces(after, keys)
  {
  }

  predicate Present(files: Files, keys: seq<Digest>) {
    forall i :: 0 <= i < |keys| ==> CasPath(keys[i]) in files
  }

  function Pieces(files: Files, keys: seq<Digest>): seq<Octets>
    requires Present(files, keys)
  {
    seq(|keys|, i requires 0 <= i < |keys| => files[CasPath(keys[i])])
  }

  lemma PiecesSnoc(files: Files, keys: seq<Digest>, i: nat)
    requires i < |keys| && Present(files, keys[..i]) && CasPath(keys[i]) in files
    ensures Present(files, keys[..i + 1])
    ensures Concat(Pieces(files, keys[..i + 1])) == Concat(Pieces(files, keys[..i])) + files[CasPath(keys[i])]
  {
    assert Pieces(files, keys[..i + 1]) == Pieces(files, keys[..i]) + [files[CasPath(keys[i])]];
    ConcatSnoc(Pieces(files, keys[..i]), files[CasPath(keys[i])]);
  }

  lemma PrefixGrows(file: Octets, data: Octets, got: Octets)
    requires data <= file && got <= file[|data|..]
    ensures data + got <= file
  {
    assert file == data + file[|data|..];
  }

  /** What a ranged read is meant to deliver. */
  function Slice(file: Octets, offset: nat, length: nat): Octets {
    var from := Min(offset, |file|);
    if length == 0 then file[from..] else file[from..Min(offset + length, |file|)]
  }

  lemma SliceGrows(file: Octets, offset: nat, length: nat, data: Octets, got: Octets)
    requires data <= Slice(file, offset, length) && got != []
    requires got <= file[Min(offset + |data|, |file|)..]
    requires length > 0 ==> |data| + |got| <= length
    ensures data + got <= Slice(file, offset, length)
  {
    var slice := Slice(file, offset, length);
    assert offset + |data| <= |file|;
    assert |data| + |got| <= |slice|;
    var from := offset + |data|;
    assert file[from..][..|got|] == got;
    assert slice[|data|..][..|got|] == got;
    assert slice == slice[..|data|] + slice[|data|..];
  }
}
