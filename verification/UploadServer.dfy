/** The streamed upload of one connection, in src/server/server.cpp. */
module UploadServer {
  import opened Base
  import opened ByteBuffers
  import opened DataStores

  datatype Commit = NotStreaming | Committed(key: Digest, size: nat) | Refused(error: Error)

  /** The files of others stay as they are, and no other temporary file appears. */
  ghost predicate OthersKept(before: Files, after: Files, own: Path) {
    && (forall p :: p in before && p != own ==> p in after && after[p] == before[p])
    && (forall p :: p in after && p != own && p.TmpPath? ==> p in before)
  }

  /** What handling a piece of body comes to. Crashed is the use of a session that is not
      there. */
  datatype Piece = Taken | Unwritten | Crashed

  class UploadContext {
    const store: DataStore
    var streaming: bool
    var session: WriteSession?
    var expected: Option<Digest>
    var bytesWritten: nat
    // History: the body data that was taken, and what is in the file.
    ghost var received: Octets
    ghost var content: Octets

    /** What was hashed and counted is exactly the body data that was taken. */
    ghost predicate Valid()
      reads this, store.disk, session
    {
      && Hashed(store.disk.files)
      && if session == null then received == [] && content == [] && bytesWritten == 0
         else streaming && session.disk == store.disk && !session.finished
              && session.tmp.TmpPath? && session.tmp in store.disk.files
              && store.disk.files[session.tmp] == content
              && session.hashed == received && bytesWritten == |received|
    }

    constructor (store: DataStore)
      requires Hashed(store.disk.files)
      ensures Valid() && !streaming && session == null && this.store == store && received == []
    {
      this.store := store;
      streaming, session, expected, bytesWritten, received, content := false, null, None, 0, [], [];
    }

    /** A piece of body. The first one opens the session. When opening or writing fails,
        an error is answered and the connection is told to close, which it does later. A
        piece after a failed write goes on with the session; one after a session that could
        not be opened has none to write to. */
    method OnBodyData(digest: Option<Digest>, data: Octets, uuid: nat) returns (r: Piece)
      requires Valid()
      modifies this, store.disk, session
      ensures Valid() && streaming
      ensures session == old(session) || fresh(session)
      ensures expected == if old(streaming) then old(expected) else digest
      ensures r.Crashed? <==> old(streaming) && old(session) == null
      ensures session == null ==> store.disk.files == old(store.disk.files) && !r.Taken?
      ensures session == null <==> old(session) == null && (old(streaming) || TmpPath(uuid) in old(store.disk.files))
      ensures session != null ==>
                var (n, all) := Writing(data, old(store.disk.answers));
                && store.disk.files - {session.tmp} == old(store.disk.files) - {session.tmp}
                && (old(session) == null ==> session.tmp == TmpPath(uuid))
                && content == old(content) + data[..n]
                && (if all then r == Taken && received == old(received) + data else r == Unwritten && received == old(received))
    {
      if !streaming {
        streaming, expected := true, digest;
        var begun := store.BeginWrite(uuid);
        if begun.Err? {
          return Unwritten;
        }
        session := begun.value;
      }
      if session == null {
        return Crashed;
      }
      ghost var n := Writing(data, store.disk.answers).0;
      var ok := session.Write(data);
      content := content + data[..n];
      if !ok {
        return Unwritten;
      }
      bytesWritten := bytesWritten + |data|;
      received := received + data;
      return Taken;
    }

    /** An unfinished upload takes its file away when its connection closes. */
    method OnConnectionClose()
      requires Valid()
      modifies this, store.disk, session
      ensures Valid() && !streaming && session == null
      ensures store.disk.files == if old(session) == null then old(store.disk.files)
                                  else old(store.disk.files) - {old(session.tmp)}
    {
      if session != null {
        session.Abort();
      }
      streaming, session, bytesWritten, received, content := false, null, 0, [], [];
    }

    /** The request is complete: the session is committed. The handler is told the digest
        and the length of the body data that was taken, and that data is in its file: unless
        the temporary file held something else and the file is new. */
    method OnRequest(moved: bool) returns (r: Commit)
      requires Valid()
      modifies this, store.disk, session
      ensures !streaming && session == null
      ensures old(session) == null <==> r.NotStreaming?
      ensures r.Committed? ==>
                && r.key == Sha256(old(received)) && r.size == |old(received)| && CasPath(r.key) in store.disk.files
                && (old(expected).Some? ==> old(expected).value == r.key)
                && (Hashed(store.disk.files) <==> old(content) == old(received) || CasPath(r.key) in old(store.disk.files))
                && (Hashed(store.disk.files) ==> Valid() && store.disk.files[CasPath(r.key)] == old(received))
      ensures !r.Committed? ==> Valid()
      ensures r.NotStreaming? ==> store.disk.files == old(store.disk.files)
      ensures r.Refused? ==> store.disk.files == old(store.disk.files) - {old(session.tmp)}
      ensures r.Committed? ==>
                var rest := old(store.disk.files) - {old(session.tmp)};
                store.disk.files == if CasPath(r.key) in rest then rest else rest[CasPath(r.key) := old(content)]
      ensures old(session) != null ==> OthersKept(old(store.disk.files), store.disk.files, old(session.tmp))
                                       && old(session.tmp) !in store.disk.files
      ensures old(session) != null ==>
                var declared := old(expected).None? || old(expected).value == Sha256(old(received));
                (r == Refused(ChecksumMismatch) <==> !declared) && (moved && declared ==> r.Committed?)
    {
      streaming := false;
      if session == null {
        return NotStreaming;
      }
      var size := bytesWritten;
      ghost var key := CasPath(Sha256(received));
      var committed := store.CommitWrite(session, expected, moved);
      session, bytesWritten, received, content := null, 0, [], [];
      match committed
      case Err(e) => r := Refused(e);
      case Ok(k) => r := Committed(k, size);
    }
  }

  /** The write of a body fails half way. The error is answered and the connection is
      told to close; but the body is complete, so the request is handled before the
      connection closes, and a file that does not match its digest is stored. */
  method TornUploadIsStored() returns (disk: Disk, r: Commit)
    ensures r == Committed(Sha256(""), 0) && !Hashed(disk.files)
  {
    disk := new Disk(map[], [Done(1), Failed]);
    var store := new DataStore(disk);
    var upload := new UploadContext(store);
    assert Writing("b", [Failed]) == (0, false);
    assert "ab"[1..] == "b" && [Done(1), Failed][1..] == [Failed];
    assert Writing("ab", disk.answers) == (1, false);
    var piece := upload.OnBodyData(None, "ab", 0);
    assert upload.session != null && upload.content == [] + "ab"[..1];
    assert CasPath(Sha256("")) !in disk.files - {TmpPath(0)};
    r := upload.OnRequest(true);
  }

  /** A chunked upload hands over a piece of no bytes, and is complete: an empty file is
      stored and its digest told to the handler. */
  method ChunkedUploadIsEmpty(store: DataStore, digest: Option<Digest>, uuid: nat) returns (r: Commit)
    requires Hashed(store.disk.files) && TmpPath(uuid) !in store.disk.files
    modifies store.disk
    ensures r == (if digest.Some? && digest.value != Sha256("") then Refused(ChecksumMismatch) else Committed(Sha256(""), 0))
  {
    var upload := new UploadContext(store);
    var piece := upload.OnBodyData(digest, "", uuid);
    assert Writing("", old(store.disk.answers)) == (0, true);
    assert upload.received == "";
    r := upload.OnRequest(true);
  }
}
