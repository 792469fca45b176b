/** Completing and aborting an upload, in src/api/handlers/multipart_handlers.cpp. */
module MultipartHandlers {
  import opened Base
  import opened Tables
  import opened Protocol
  import opened Multipart
  import CompletedContent

  /** A decrement and the read of the count after it: both succeed, only the decrement
      does, or neither. */
  datatype Fate = Done | Unread | Missed

  datatype Reply = OK(size: nat) | NotFound | BadRequest | InternalError

  /** The tables and the collector's queue after the first n decrements. */
  function AfterReleases(db: Tables, pending: seq<Digest>, keys: seq<Digest>, n: nat, fates: nat -> Fate)
    : (Tables, seq<Digest>)
    requires n <= |keys|
  {
    if n == 0 then (db, pending)
    else
      var (db1, pending1) := AfterReleases(db, pending, keys, n - 1, fates);
      var k := keys[n - 1];
      match fates(n - 1)
      case Missed => (db1, pending1)
      case Unread => (Decrement(db1, k), pending1)
      case Done =>
        var db2 := Decrement(db1, k);
        (db2, if Candidate(db2, k) == Some(k) then pending1 + [k] else pending1)
  }

  function Keys(server: seq<ServerPart>): (keys: seq<Digest>)
    ensures |keys| == |server|
  {
    seq(|server|, i requires 0 <= i < |server| => server[i].cas)
  }

  /** What merging the listed parts gives: their files, one after the other. */
  function MergedParts(db: Tables, files: map<Digest, Octets>, order: seq<PartId>, readable: bool): Option<Octets>
    requires forall i :: 0 <= i < |order| ==> order[i] in db.parts
  {
    if readable && order != [] then CompletedContent.Merged(files, Rows(db, order)) else None
  }

  /** Parts can be merged if and only if there are any, each of their files is at its path,
      and nothing fails. */
  lemma MergesIffPresent(db: Tables, files: map<Digest, Octets>, order: seq<PartId>, readable: bool)
    requires forall i :: 0 <= i < |order| ==> order[i] in db.parts
    ensures var merged := MergedParts(db, files, order, readable);
            && (merged.Some? <==> readable && order != [] && forall i :: 0 <= i < |order| ==> db.parts[order[i]].cas in files)
            && (merged.Some? ==>
                merged.value == Concat(seq(|order|, i requires 0 <= i < |order| =>
                                         if db.parts[order[i]].cas in files then files[db.parts[order[i]].cas] else [])))
  {
    var rows := Rows(db, order);
    CompletedContent.MergedIffPresent(files, rows);
    assert seq(|order|, i requires 0 <= i < |order| =>
                 if db.parts[order[i]].cas in files then files[db.parts[order[i]].cas] else [])
           == seq(|rows|, i requires 0 <= i < |rows| => if rows[i].1 in files then files[rows[i].1] else []);
  }

  /** A file that is there already stays as it is. */
  function WithFile(files: map<Digest, Octets>, bytes: Octets): map<Digest, Octets> {
    if Sha256(bytes) in files then files else files[Sha256(bytes) := bytes]
  }

  /** After a failed put the file goes, unless a count stands in the way or the count
      cannot be read. */
  function CleanedUp(db: Tables, files: map<Digest, Octets>, k: Digest, able: bool): map<Digest, Octets> {
    if able && Count(db, k) == 0 then files - {k} else files
  }

  /** The object that an upload with these parts and this merged content becomes. */
  function CompletedPut(db: Tables, upload: nat, bytes: Octets, size: nat, etagOf: Digest -> string): Change
    requires upload in db.uploads
  {
    var up := db.uploads[upload];
    var k := Sha256(bytes);
    PutObject(db, ObjectId(up.bucket, up.key), ObjectRow(up.key, k, size, etagOf(k), up.contentType))
  }

  class Handlers {
    var db: Tables
    var files: map<Digest, Octets>
    var pending: seq<Digest>

    constructor (db: Tables, files: map<Digest, Octets>, pending: seq<Digest>)
      ensures this.db == db && this.files == files && this.pending == pending
    {
      this.db, this.files, this.pending := db, files, pending;
    }

    /** Every part's count goes down once, in order. A decrement that fails is passed over. */
    method ReleaseParts(keys: seq<Digest>, fates: nat -> Fate)
      modifies `db, `pending
      ensures (db, pending) == AfterReleases(old(db), old(pending), keys, |keys|, fates)
    {
      for i := 0 to |keys|
        invariant (db, pending) == AfterReleases(old(db), old(pending), keys, i, fates)
      {
        var k := keys[i];
        match fates(i)
        case Missed =>
        case Unread => db := Decrement(db, k);
        case Done =>
          db := Decrement(db, k);
          if k in db.blobs && db.blobs[k] == 0 {
            pending := pending + [k];
          }
      }
    }

    /** order is what the listing query answers, which fits one page. A client that does
        not name exactly the parts, or parts that cannot be merged, change nothing. A put
        that fails leaves the tables alone and cleans up; one that succeeds is followed by
        the releases and the deletion of the upload. */
    method CompleteUpload(upload: nat, sent: seq<ClientPart>, order: seq<PartId>, readable: bool,
                          etagOf: Digest -> string, putOk: bool, able: bool, fates: nat -> Fate, cascade: bool)
      returns (reply: Reply)
      requires Lists(db, upload, order) && |order| <= MAX_LISTED
      modifies this
      ensures reply.NotFound? <==> upload !in old(db).uploads
      ensures reply.BadRequest? <==>
                upload in old(db).uploads && multiset(Unquoted(sent)) != multiset(Named(ServerParts(old(db), order)))
      ensures reply.NotFound? || reply.BadRequest? ==> db == old(db) && files == old(files) && pending == old(pending)
      ensures !reply.NotFound? && !reply.BadRequest? ==>
                var merged := MergedParts(old(db), old(files), order, readable);
                var size := TotalSize(old(db), order);
                match merged
                case None => reply == InternalError && db == old(db) && files == old(files) && pending == old(pending)
                case Some(bytes) =>
                  var change := CompletedPut(old(db), upload, bytes, size, etagOf);
                  var stored := WithFile(old(files), bytes);
                  if putOk && change.Some? then
                    var server := ServerParts(old(db), order);
                    var (after, queue) := AfterReleases(change.value.0, old(pending) + AsSeq(change.value.1),
                                                        Keys(server), |server|, fates);
                    && reply == OK(size) && files == stored && pending == queue
                    && db == if cascade then DeleteUpload(after, upload) else after
                  else
                    && reply == InternalError && db == old(db) && pending == old(pending)
                    && files == CleanedUp(db, stored, Sha256(bytes), able)
    {
      if upload !in db.uploads {
        return NotFound;
      }
      var client := ReadParts(sent);
      var m := CompareParts(client, order);
      if !m.Accepted? {
        return BadRequest;
      }
      var merged := MergedParts(db, files, order, readable);
      if merged.None? {
        return InternalError;
      }
      files := WithFile(files, merged.value);
      var change := CompletedPut(db, upload, merged.value, m.size, etagOf);
      if !putOk || change.None? {
        files := CleanedUp(db, files, Sha256(merged.value), able);
        return InternalError;
      }
      db := change.value.0;
      pending := pending + AsSeq(change.value.1);
      ReleaseParts(m.keys, fates);
      if cascade {
        db := DeleteUpload(db, upload);
      }
      return OK(m.size);
    }

    /** The client's list, each ETag without its quotes. */
    method ReadParts(sent: seq<ClientPart>) returns (client: seq<ClientPart>)
      ensures client == Unquoted(sent)
    {
      client := [];
      for i := 0 to |sent|
        invariant client == Unquoted(sent)[..i]
      {
        client := client + [ClientPart(sent[i].number, Normalize(sent[i].etag))];
      }
    }

    /** The client's list against the stored parts. */
    method CompareParts(client: seq<ClientPart>, order: seq<PartId>) returns (m: Match)
      requires |order| <= MAX_LISTED && forall i :: 0 <= i < |order| ==> order[i] in db.parts
      requires forall i, j :: 0 <= i < j < |order| ==> order[i].number < order[j].number
      ensures m.Accepted? <==> multiset(client) == multiset(Named(ServerParts(db, order)))
      ensures m.Accepted? ==> m.keys == Keys(ServerParts(db, order)) && m.size == TotalSize(db, order)
    {
      ghost var all := ServerParts(db, order);
      var server, _, _ := Multipart.ListParts(ServerParts(db, order), MAX_LISTED);
      assert server == all;
      AcceptedIffPermutation(client, server);
      m := MatchParts(client, server);
      if m.Accepted? {
        SumIsTotal(db, order);
        assert m.keys == Keys(server);
      }
    }

    /** An abort releases the parts, if it could list them, and deletes the upload. */
    method AbortUpload(upload: nat, order: seq<PartId>, listed: bool, fates: nat -> Fate, cascade: bool)
      returns (reply: Reply)
      requires Lists(db, upload, order) && |order| <= MAX_LISTED
      modifies `db, `pending
      ensures upload !in old(db).uploads ==> reply == NotFound && db == old(db) && pending == old(pending)
      ensures upload in old(db).uploads ==>
                var server := ServerParts(old(db), order);
                var (after, queue) := if listed then AfterReleases(old(db), old(pending), Keys(server), |server|, fates)
                                      else (old(db), old(pending));
                pending == queue && db == (if cascade then DeleteUpload(after, upload) else after)
                && reply == if cascade then OK(0) else InternalError
    {
      if upload !in db.uploads {
        return NotFound;
      }
      if listed {
        var server, _, _ := Multipart.ListParts(ServerParts(db, order), MAX_LISTED);
        assert server == ServerParts(db, order);
        ReleaseParts(Keys(server), fates);
      }
      if !cascade {
        return InternalError;
      }
      db := DeleteUpload(db, upload);
      return OK(0);
    }
  }

  lemma {:induction false} SumSnoc(db: Tables, order: seq<PartId>)
    requires forall i :: 0 <= i < |order| ==> order[i] in db.parts
    ensures order != [] ==>
              TotalSize(db, order) == TotalSize(db, order[..|order| - 1]) + db.parts[order[|order| - 1]].size
    decreases |order|
  {
    if |order| > 1 {
      SumSnoc(db, order[1..]);
      assert order[1..][..|order| - 2] == order[..|order| - 1][1..];
    } else if |order| == 1 {
      assert order[1..] == [] && order[..0] == [];
    }
  }

  lemma {:induction false} SumIsTotal(db: Tables, order: seq<PartId>)
    requires forall i :: 0 <= i < |order| ==> order[i] in db.parts
    ensures Sum(ServerParts(db, order)) == TotalSize(db, order)
    decreases |order|
  {
    if order != [] {
      var front := order[..|order| - 1];
      SumIsTotal(db, front);
      SumSnoc(db, order);
      assert ServerParts(db, order)[..|order| - 1] == ServerParts(db, front);
    }
  }

  // ----- the handler's loop as steps

  function ReleaseSteps(p: nat, n: nat, fates: nat -> Fate): seq<Step> {
    if n == 0 then [] else ReleaseSteps(p, n - 1, fates) + [Release(p, !fates(n - 1).Missed?)]
  }

  /** The loop comes to the steps that the interleaving model lets others come between. */
  lemma {:induction false} LoopIsSteps(s: State, p: nat, keys: seq<Digest>, n: nat, fates: nat -> Fate)
    requires p in s.work && s.work[p].Finishing? && s.work[p].next == 0 && |keys| == |s.work[p].rows| && n <= |keys|
    requires forall i :: 0 <= i < |keys| ==> s.work[p].rows[i].1 == keys[i]
    ensures var t := Run(s, ReleaseSteps(p, n, fates));
            && t.db == AfterReleases(s.db, [], keys, n, fates).0
            && t.work == s.work[p := s.work[p].(next := n)]
  {
    if n == 0 {
      assert s.work[p := s.work[p].(next := 0)] == s.work;
    } else {
      LoopIsSteps(s, p, keys, n - 1, fates);
      var last := Release(p, !fates(n - 1).Missed?);
      RunAppends(s, ReleaseSteps(p, n - 1, fates), [last]);
      var t := Run(s, ReleaseSteps(p, n - 1, fates));
      assert Run(t, [last]) == Run(Apply(t, last), []);
      assert Run(t, [last]) == Apply(t, last);
    }
  }

  /** The queue grows by the digests whose count a decrement brought to zero, where the count
      could be read. */
  lemma {:induction false} ReleasesQueueZeros(db: Tables, pending: seq<Digest>, keys: seq<Digest>, n: nat, fates: nat -> Fate, j: Digest)
    requires n <= |keys|
    ensures var queue := AfterReleases(db, pending, keys, n, fates).1;
            && pending <= queue
            && (j in queue <==> j in pending || exists i :: 0 <= i < n && BroughtToZero(db, pending, keys, i, fates, j))
  {
    if n > 0 {
      ReleasesQueueZeros(db, pending, keys, n - 1, fates, j);
      var before, queue := AfterReleases(db, pending, keys, n - 1, fates).1, AfterReleases(db, pending, keys, n, fates).1;
      if BroughtToZero(db, pending, keys, n - 1, fates, j) {
        assert queue == before + [j];
      } else {
        assert j in queue <==> j in before;
      }
    }
  }

  predicate BroughtToZero(db: Tables, pending: seq<Digest>, keys: seq<Digest>, i: nat, fates: nat -> Fate, j: Digest)
    requires i < |keys|
  {
    var after := AfterReleases(db, pending, keys, i + 1, fates).0;
    keys[i] == j && fates(i).Done? && j in after.blobs && after.blobs[j] == 0
  }

  function MergeSteps(p: nat, n: nat): (steps: seq<Step>)
    ensures |steps| == n
  {
    if n == 0 then [] else [Merge(p)] + MergeSteps(p, n - 1)
  }

  function AfterMerge(w: Work, rest: Octets): Work
    requires w.Merging?
  {
    Uploading(w.merged + rest, [], ToCompleted(w.upload, w.id, w.etag, w.contentType, w.rows, w.size), Written, false, false)
  }

  /** Merging with nothing in between appends the files of the parts in order. */
  lemma {:induction false} MergeIsSteps(s: State, p: nat, w: Work)
    requires p in s.work && s.work[p] == w && w.Merging? && w.copied < |w.rows|
    requires CompletedContent.Merged(s.files, w.rows[w.copied..]).Some?
    ensures Run(s, MergeSteps(p, |w.rows| - w.copied))
            == s.(work := s.work[p := AfterMerge(w, CompletedContent.Merged(s.files, w.rows[w.copied..]).value)])
    decreases |w.rows| - w.copied
  {
    var here, later := w.rows[w.copied..], w.rows[w.copied + 1..];
    assert here[1..] == later && here[0] == w.rows[w.copied];
    var k := w.rows[w.copied].1;
    var t := Apply(s, Merge(p));
    var steps := MergeSteps(p, |w.rows| - w.copied);
    assert steps[0] == Merge(p) && steps[1..] == MergeSteps(p, |w.rows| - w.copied - 1);
    var rest := CompletedContent.Merged(s.files, later).value;
    assert w.merged + (s.files[k] + rest) == (w.merged + s.files[k]) + rest;
    if w.copied + 1 < |w.rows| {
      var v := w.(merged := w.merged + s.files[k], copied := w.copied + 1);
      assert t == s.(work := s.work[p := v]);
      MergeIsSteps(t, p, v);
      assert t.work[p := AfterMerge(v, rest)] == s.work[p := AfterMerge(v, rest)];
    } else {
      assert later == [] && rest == [] && s.files[k] + rest == s.files[k];
      assert steps[1..] == [] && Run(t, []) == t;
    }
  }
}
