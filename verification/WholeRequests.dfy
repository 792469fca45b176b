/** Requests with nothing in between: the steps of the interleaving model come to what the
    handlers do. */
module WholeRequests {
  import opened Base
  import opened Tables
  import opened Protocol
  import opened Multipart
  import opened MultipartHandlers
  import CompletedContent

  /** Tables and files are these, and the rest is as it was, but for the history. */
  ghost predicate Leaves(s: State, t: State, db: Tables, files: map<Digest, Octets>, work: map<nat, Work>) {
    t.db == db && t.files == files && t.work == work && t.gc == s.gc && t.used == s.used
  }

  lemma RunOne(s: State, a: Step)
    ensures Run(s, [a]) == Apply(s, a)
  {
    assert Run(Apply(s, a), []) == Apply(s, a);
  }

  lemma RunTwo(s: State, a: Step, b: Step)
    ensures Run(s, [a, b]) == Apply(Apply(s, a), b)
  {
    RunOne(Apply(s, a), b);
    assert [a, b][1..] == [b];
  }

  lemma RunThree(s: State, a: Step, b: Step, c: Step)
    ensures Run(s, [a, b, c]) == Apply(Apply(Apply(s, a), b), c)
  {
    RunTwo(Apply(s, a), b, c);
    assert [a, b, c][1..] == [b, c];
  }

  // ----- putting an object or a part

  function AtStage(bytes: Octets, target: Target, stage: Stage): Work {
    Uploading(bytes, [], target, stage, false, false)
  }

  lemma PutInPlace(s: State, p: nat, bytes: Octets, target: Target)
    requires p in s.work && s.work[p] == AtStage(bytes, target, Written)
    ensures Leaves(s, Run(s, [CheckExists(p), Store(p)]), s.db, WithFile(s.files, bytes),
                   s.work[p := AtStage(bytes, target, Stored)])
  {
    RunTwo(s, CheckExists(p), Store(p));
    var found := Sha256(bytes) in s.files;
    var t := Apply(s, CheckExists(p));
    assert t == s.(work := s.work[p := AtStage(bytes, target, Checked(found))]);
    assert bytes + [] == bytes;
    assert t.work[p := AtStage(bytes, target, Stored)] == s.work[p := AtStage(bytes, target, Stored)];
  }

  /** The steps of an upload: it is written, and the file is put in place; then its row is put. */
  function UploadSteps(p: nat, bytes: Octets, target: Target): seq<Step> {
    [Begin(p, bytes, [], target)] + [CheckExists(p), Store(p)] + [Commit(p)]
  }

  lemma UploadStored(s: State, p: nat, bytes: Octets, target: Target)
    requires p !in s.work && Acceptable(target)
    ensures Leaves(s, Run(s, [Begin(p, bytes, [], target)] + [CheckExists(p), Store(p)]), s.db, WithFile(s.files, bytes),
                   s.work[p := AtStage(bytes, target, Stored)])
  {
    RunOne(s, Begin(p, bytes, [], target));
    var t := Apply(s, Begin(p, bytes, [], target));
    assert t == s.(work := s.work[p := AtStage(bytes, target, Written)]);
    RunAppends(s, [Begin(p, bytes, [], target)], [CheckExists(p), Store(p)]);
    PutInPlace(t, p, bytes, target);
    assert t.work[p := AtStage(bytes, target, Stored)] == s.work[p := AtStage(bytes, target, Stored)];
  }

  lemma RowCommitted(s: State, p: nat, bytes: Octets, target: Target)
    requires p in s.work && s.work[p] == AtStage(bytes, target, Stored) && !target.ToCompleted?
    ensures var change := match target
                          case ToObject(id, etag, contentType) =>
                            PutObject(s.db, id, ObjectRow(id.key, Sha256(bytes), |bytes|, etag, contentType))
                          case ToPart(part, etag) => PutPart(s.db, part, PartRow(Sha256(bytes), |bytes|, etag));
            Leaves(s, Apply(s, Commit(p)), if change.Some? then change.value.0 else s.db, s.files, s.work - {p})
  {
  }

  /** An upload with nothing in between puts the row with the digest and the size of its bytes,
      and its file. */
  lemma ObjectUploadPuts(s: State, p: nat, bytes: Octets, id: ObjectId, etag: string, contentType: string)
    requires p !in s.work
    ensures var t := Run(s, UploadSteps(p, bytes, ToObject(id, etag, contentType)));
            var row := ObjectRow(id.key, Sha256(bytes), |bytes|, etag, contentType);
            var change := PutObject(s.db, id, row);
            Leaves(s, t, if change.Some? then change.value.0 else s.db, WithFile(s.files, bytes), s.work)
  {
    var target := ToObject(id, etag, contentType);
    var front := [Begin(p, bytes, [], target)] + [CheckExists(p), Store(p)];
    UploadStored(s, p, bytes, target);
    RunSnoc(s, front, Commit(p));
    WithoutNew(s.work, Run(s, front).work, p);
    RowCommitted(Run(s, front), p, bytes, target);
  }

  lemma PartUploadPuts(s: State, p: nat, bytes: Octets, part: PartId, etag: string)
    requires p !in s.work && 1 <= part.number <= MAX_PART_NUMBER
    ensures var t := Run(s, UploadSteps(p, bytes, ToPart(part, etag)));
            var change := PutPart(s.db, part, PartRow(Sha256(bytes), |bytes|, etag));
            Leaves(s, t, if change.Some? then change.value.0 else s.db, WithFile(s.files, bytes), s.work)
  {
    var target := ToPart(part, etag);
    var front := [Begin(p, bytes, [], target)] + [CheckExists(p), Store(p)];
    UploadStored(s, p, bytes, target);
    RunSnoc(s, front, Commit(p));
    WithoutNew(s.work, Run(s, front).work, p);
    RowCommitted(Run(s, front), p, bytes, target);
  }

  // ----- completing and aborting

  /** The steps up to the row of the completed object. */
  function MergingSteps(p: nat, u: nat, order: seq<PartId>, etag: string): seq<Step> {
    [ListForComplete(p, u, order, etag)] + MergeSteps(p, |order|) + [CheckExists(p), Store(p)]
  }

  function CompletedTarget(db: Tables, u: nat, order: seq<PartId>, etag: string): Target
    requires u in db.uploads && Lists(db, u, order)
  {
    var up := db.uploads[u];
    ToCompleted(u, ObjectId(up.bucket, up.key), etag, up.contentType, Rows(db, order), TotalSize(db, order))
  }

  lemma ListedForComplete(s: State, p: nat, u: nat, order: seq<PartId>, etag: string)
    requires p !in s.work && u in s.db.uploads && Lists(s.db, u, order)
    ensures var up := s.db.uploads[u];
            var w := Merging(u, ObjectId(up.bucket, up.key), etag, up.contentType, Rows(s.db, order),
                             TotalSize(s.db, order), [], 0);
            Leaves(s, Run(s, [ListForComplete(p, u, order, etag)]), s.db, s.files, s.work[p := w])
  {
    RunOne(s, ListForComplete(p, u, order, etag));
  }

  lemma AllMerged(s: State, p: nat, w: Work, bytes: Octets)
    requires p in s.work && s.work[p] == w && w.Merging? && w.merged == [] && w.copied == 0 && w.rows != []
    requires CompletedContent.Merged(s.files, w.rows) == Some(bytes)
    ensures var target := ToCompleted(w.upload, w.id, w.etag, w.contentType, w.rows, w.size);
            Leaves(s, Run(s, MergeSteps(p, |w.rows|)), s.db, s.files, s.work[p := AtStage(bytes, target, Written)])
  {
    assert w.rows[0..] == w.rows && [] + bytes == bytes;
    MergeIsSteps(s, p, w);
  }

  lemma SetTwice(work: map<nat, Work>, p: nat, a: Work, b: Work)
    ensures work[p := a][p := b] == work[p := b]
  {
  }

  lemma MergedFrom(s: State, p: nat, w: Work, bytes: Octets, work: map<nat, Work>, merging: seq<Step>, storing: seq<Step>)
    requires w.Merging? && w.merged == [] && w.copied == 0 && w.rows != [] && s.work == work[p := w]
    requires CompletedContent.Merged(s.files, w.rows) == Some(bytes)
    requires merging == MergeSteps(p, |w.rows|) && storing == [CheckExists(p), Store(p)]
    ensures var target := ToCompleted(w.upload, w.id, w.etag, w.contentType, w.rows, w.size);
            Leaves(s, Run(Run(s, merging), storing), s.db, WithFile(s.files, bytes), work[p := AtStage(bytes, target, Stored)])
  {
    var target := ToCompleted(w.upload, w.id, w.etag, w.contentType, w.rows, w.size);
    var written, stored := AtStage(bytes, target, Written), AtStage(bytes, target, Stored);
    AllMerged(s, p, w, bytes);
    SetTwice(work, p, w, written);
    PutInPlace(Run(s, merging), p, bytes, target);
    SetTwice(work, p, written, stored);
  }

  lemma MergedAndStored(s: State, p: nat, u: nat, order: seq<PartId>, etag: string, bytes: Octets)
    requires p !in s.work && u in s.db.uploads && Lists(s.db, u, order)
    requires MergedParts(s.db, s.files, order, true) == Some(bytes)
    ensures Leaves(s, Run(s, MergingSteps(p, u, order, etag)), s.db, WithFile(s.files, bytes),
                   s.work[p := AtStage(bytes, CompletedTarget(s.db, u, order, etag), Stored)])
  {
    var first, merging, storing := [ListForComplete(p, u, order, etag)], MergeSteps(p, |order|), [CheckExists(p), Store(p)];
    ListedForComplete(s, p, u, order, etag);
    RunAppends(s, first, merging);
    RunAppends(s, first + merging, storing);
    MergedFrom(Run(s, first), p, Run(s, first).work[p], bytes, s.work, merging, storing);
  }

  lemma RowIsPut(s: State, p: nat, u: nat, order: seq<PartId>, etag: string, bytes: Octets, after: Tables)
    requires u in s.db.uploads && Lists(s.db, u, order)
    requires p in s.work && s.work[p] == AtStage(bytes, CompletedTarget(s.db, u, order, etag), Stored)
    requires var change := CompletedPut(s.db, u, bytes, TotalSize(s.db, order), k => etag);
             change.Some? && change.value.0 == after
    ensures Leaves(s, Apply(s, Commit(p)), after, s.files, s.work[p := Finishing(u, Rows(s.db, order), 0)])
  {
    var target := CompletedTarget(s.db, u, order, etag);
    var row := ObjectRow(target.id.key, Sha256(bytes), target.size, etag, target.contentType);
    assert PutObject(s.db, target.id, row) == CompletedPut(s.db, u, bytes, TotalSize(s.db, order), k => etag);
    assert Apply(s, Commit(p)) == DoCommit(s, p, s.work[p]);
  }

  /** The parts are released, and the upload goes. */
  lemma ReleasedAndGone(s: State, p: nat, u: nat, rows: seq<(PartId, Digest)>, keys: seq<Digest>, fates: nat -> Fate,
                        cascade: bool, rest: map<nat, Work>)
    requires p in s.work && s.work[p] == Finishing(u, rows, 0) && |keys| == |rows| && s.work - {p} == rest
    requires forall i :: 0 <= i < |keys| ==> rows[i].1 == keys[i]
    ensures var t := Run(s, ReleaseSteps(p, |keys|, fates) + [Cascade(p, cascade)]);
            var after := AfterReleases(s.db, [], keys, |keys|, fates).0;
            Leaves(s, t, if cascade then DeleteUpload(after, u) else after, s.files, rest)
  {
    LoopIsSteps(s, p, keys, |keys|, fates);
    ReleasesLeaveFiles(s, p, |keys|, fates);
    RunSnoc(s, ReleaseSteps(p, |keys|, fates), Cascade(p, cascade));
    var t := Run(s, ReleaseSteps(p, |keys|, fates));
    assert t.work - {p} == rest;
  }

  lemma {:induction false} ReleasesLeaveFiles(s: State, p: nat, n: nat, fates: nat -> Fate)
    ensures var t := Run(s, ReleaseSteps(p, n, fates)); t.files == s.files && t.gc == s.gc && t.used == s.used
  {
    if n > 0 {
      ReleasesLeaveFiles(s, p, n - 1, fates);
      RunSnoc(s, ReleaseSteps(p, n - 1, fates), Release(p, !fates(n - 1).Missed?));
    }
  }

  function CompletionSteps(p: nat, u: nat, order: seq<PartId>, etag: string, fates: nat -> Fate, cascade: bool): seq<Step> {
    MergingSteps(p, u, order, etag) + [Commit(p)] + (ReleaseSteps(p, |order|, fates) + [Cascade(p, cascade)])
  }

  lemma PutAndReleased(s: State, p: nat, u: nat, order: seq<PartId>, etag: string, bytes: Octets, fates: nat -> Fate,
                       cascade: bool, rest: map<nat, Work>, releasing: seq<Step>)
    requires u in s.db.uploads && Lists(s.db, u, order) && s.work - {p} == rest
    requires p in s.work && s.work[p] == AtStage(bytes, CompletedTarget(s.db, u, order, etag), Stored)
    requires CompletedPut(s.db, u, bytes, TotalSize(s.db, order), k => etag).Some?
    requires releasing == ReleaseSteps(p, |order|, fates) + [Cascade(p, cascade)]
    ensures var put := CompletedPut(s.db, u, bytes, TotalSize(s.db, order), k => etag).value.0;
            var after := AfterReleases(put, [], Keys(ServerParts(s.db, order)), |order|, fates).0;
            Leaves(s, Run(Apply(s, Commit(p)), releasing), if cascade then DeleteUpload(after, u) else after, s.files, rest)
  {
    var rows, keys := Rows(s.db, order), Keys(ServerParts(s.db, order));
    var put := CompletedPut(s.db, u, bytes, TotalSize(s.db, order), k => etag).value.0;
    RowIsPut(s, p, u, order, etag, bytes, put);
    var v := Apply(s, Commit(p));
    assert v.work - {p} == rest;
    ReleasedAndGone(v, p, u, rows, keys, fates, cascade, rest);
  }

  lemma InTurn(s: State, first: seq<Step>, next: Step, later: seq<Step>)
    ensures Run(s, first + [next] + later) == Run(Apply(Run(s, first), next), later)
  {
    RunAppends(s, first + [next], later);
    RunSnoc(s, first, next);
  }

  /** A complete with nothing in between: the steps leave tables and files as the handler's
      method does. */
  lemma CompleteIsSteps(s: State, p: nat, u: nat, order: seq<PartId>, etag: string, bytes: Octets, fates: nat -> Fate,
                        cascade: bool)
    requires p !in s.work && u in s.db.uploads && Lists(s.db, u, order)
    requires MergedParts(s.db, s.files, order, true) == Some(bytes)
    requires CompletedPut(s.db, u, bytes, TotalSize(s.db, order), k => etag).Some?
    ensures var t := Run(s, CompletionSteps(p, u, order, etag, fates, cascade));
            var put := CompletedPut(s.db, u, bytes, TotalSize(s.db, order), k => etag).value.0;
            var after := AfterReleases(put, [], Keys(ServerParts(s.db, order)), |order|, fates).0;
            Leaves(s, t, if cascade then DeleteUpload(after, u) else after, WithFile(s.files, bytes), s.work)
  {
    var merging, releasing := MergingSteps(p, u, order, etag), ReleaseSteps(p, |order|, fates) + [Cascade(p, cascade)];
    MergedAndStored(s, p, u, order, etag, bytes);
    InTurn(s, merging, Commit(p), releasing);
    var t := Run(s, merging);
    WithoutNew(s.work, t.work, p);
    PutAndReleased(t, p, u, order, etag, bytes, fates, cascade, s.work, releasing);
  }

  lemma WithoutNew(work: map<nat, Work>, more: map<nat, Work>, p: nat)
    requires p !in work && p in more && more == work[p := more[p]]
    ensures more - {p} == work
  {
  }

  /** One whose put fails leaves the tables alone and cleans up like the method. */
  lemma FailedCompleteIsSteps(s: State, p: nat, u: nat, order: seq<PartId>, etag: string, bytes: Octets, able: bool)
    requires p !in s.work && u in s.db.uploads && Lists(s.db, u, order)
    requires MergedParts(s.db, s.files, order, true) == Some(bytes)
    ensures var t := Run(s, MergingSteps(p, u, order, etag) + [FailCommit(p, able), Clean(p, true)]);
            && t.db == s.db && t.files == CleanedUp(s.db, WithFile(s.files, bytes), Sha256(bytes), able)
            && t.gc == s.gc && t.work.Keys == s.work.Keys
  {
    var merging := MergingSteps(p, u, order, etag);
    MergedAndStored(s, p, u, order, etag, bytes);
    var t := Run(s, merging);
    RunAppends(s, merging, [FailCommit(p, able), Clean(p, true)]);
    RunTwo(t, FailCommit(p, able), Clean(p, true));
    FailedAndCleaned(t, p, able);
    assert t.work.Keys - {p} == s.work.Keys;
  }

  lemma FailedAndCleaned(s: State, p: nat, able: bool)
    requires p in s.work && s.work[p].Uploading?
    ensures var t := Apply(Apply(s, FailCommit(p, able)), Clean(p, true));
            && t.db == s.db && t.files == CleanedUp(s.db, s.files, Key(s.work[p]), able)
            && t.gc == s.gc && t.work.Keys == s.work.Keys - {p}
  {
  }

  lemma ListedForAbort(s: State, p: nat, u: nat, order: seq<PartId>)
    requires p !in s.work && u in s.db.uploads && Lists(s.db, u, order)
    ensures Leaves(s, Apply(s, ListForAbort(p, u, order)), s.db, s.files, s.work[p := Finishing(u, Rows(s.db, order), 0)])
  {
  }

  /** An abort likewise. */
  lemma AbortIsSteps(s: State, p: nat, u: nat, order: seq<PartId>, fates: nat -> Fate, cascade: bool)
    requires p !in s.work && u in s.db.uploads && Lists(s.db, u, order)
    ensures var t := Run(s, [ListForAbort(p, u, order)] + (ReleaseSteps(p, |order|, fates) + [Cascade(p, cascade)]));
            var after := AfterReleases(s.db, [], Keys(ServerParts(s.db, order)), |order|, fates).0;
            Leaves(s, t, if cascade then DeleteUpload(after, u) else after, s.files, s.work)
  {
    ListedForAbort(s, p, u, order);
    var t := Apply(s, ListForAbort(p, u, order));
    WithoutNew(s.work, t.work, p);
    ReleasedAndGone(t, p, u, Rows(s.db, order), Keys(ServerParts(s.db, order)), fates, cascade, s.work);
    InTurn(s, [], ListForAbort(p, u, order), ReleaseSteps(p, |order|, fates) + [Cascade(p, cascade)]);
    assert Run(s, []) == s && [] + [ListForAbort(p, u, order)] == [ListForAbort(p, u, order)];
  }

  // ----- what the whole transactions leave

  /** The row is put, under the key that its index entry has or with the new one. The digest
      that the key had loses a count, unless it stays, and the new one gains it; no other
      count, row, part, upload or bucket changes. */
  lemma PutObjectLeaves(db: Tables, id: ObjectId, row: ObjectRow)
    requires PutObject(db, id, row).Some?
    ensures var (after, candidate) := PutObject(db, id, row).value;
            var slot := SlotOf(db.fold, id);
            var old' := if SelectObject(db, id).Some? then Some(SelectObject(db, id).value.cas) else None;
            && after.fold == db.fold && after.buckets == db.buckets && after.uploads == db.uploads && after.parts == db.parts
            && after.objects == db.objects[slot := row.(key := if slot in db.objects then db.objects[slot].key else id.key)]
            && CountsMoved(db, after, old', row.cas)
            && (candidate.Some? <==> old'.Some? && old' != Some(row.cas) && old'.value in after.blobs && after.blobs[old'.value] == 0)
            && (candidate.Some? ==> candidate == old')
  {
  }

  ghost predicate CountsMoved(db: Tables, after: Tables, old': Option<Digest>, k: Digest) {
    forall j :: Count(after, j) ==
      if old' == Some(k) then Count(db, j)
      else if j == k then Count(db, j) + 1
      else if old' == Some(j) && Count(db, j) > 0 then Count(db, j) - 1
      else Count(db, j)
  }

  lemma PutPartLeaves(db: Tables, p: PartId, row: PartRow)
    requires PutPart(db, p, row).Some?
    ensures var (after, candidate) := PutPart(db, p, row).value;
            var old' := if p in db.parts then Some(db.parts[p].cas) else None;
            && after.fold == db.fold && after.buckets == db.buckets && after.uploads == db.uploads
            && after.objects == db.objects && after.parts == db.parts[p := row]
            && CountsMoved(db, after, old', row.cas)
            && (candidate.Some? <==> old'.Some? && old' != Some(row.cas) && old'.value in after.blobs && after.blobs[old'.value] == 0)
            && (candidate.Some? ==> candidate == old')
  {
  }

  lemma DeleteObjectLeaves(db: Tables, id: ObjectId)
    requires DeleteObject(db, id).Some?
    ensures var (after, candidate) := DeleteObject(db, id).value;
            var slot := SlotOf(db.fold, id);
            && slot in db.objects && db.fold(db.objects[slot].key) == db.fold(id.key)
            && after.fold == db.fold && after.buckets == db.buckets && after.uploads == db.uploads && after.parts == db.parts
            && after.objects == db.objects - {slot}
            && (var k := db.objects[slot].cas;
                && (forall j :: Count(after, j) == if j == k && Count(db, j) > 0 then Count(db, j) - 1 else Count(db, j))
                && candidate == if k in after.blobs && after.blobs[k] == 0 then Some(k) else None)
  {
  }

  /** Parts go with their upload, and uploads and objects with their bucket, and nothing else. */
  lemma CascadesLeave(db: Tables, u: nat, b: nat)
    ensures var after := DeleteUpload(db, u);
            && after == db.(uploads := after.uploads, parts := after.parts)
            && (forall v :: v in after.uploads <==> v in db.uploads && v != u)
            && (forall v :: v in after.uploads ==> after.uploads[v] == db.uploads[v])
            && (forall p :: p in after.parts <==> p in db.parts && p.upload != u)
            && (forall p :: p in after.parts ==> after.parts[p] == db.parts[p])
    ensures var after := DeleteBucket(db, b);
            && after.blobs == db.blobs && after.fold == db.fold
            && (forall c :: c in after.buckets <==> c in db.buckets && c != b)
            && (forall t :: t in after.objects <==> t in db.objects && t.bucket != b)
            && (forall t :: t in after.objects ==> after.objects[t] == db.objects[t])
            && (forall v :: v in after.uploads <==> v in db.uploads && db.uploads[v].bucket != b)
            && (forall v :: v in after.uploads ==> after.uploads[v] == db.uploads[v])
            && (forall p :: p in after.parts <==>
                  p in db.parts && p.upload in db.uploads && db.uploads[p.upload].bucket != b)
            && (forall p :: p in after.parts ==> after.parts[p] == db.parts[p])
  {
  }

  /** Buckets and uploads are made once, an upload only in a bucket that is there; and what is
      removed goes as the cascades say. Files and requests in progress are left alone. */
  lemma SingleStepsLeave(s: State, step: Step)
    requires !Collects(step) && !Starts(step) && !Advances(step)
    ensures var t := Apply(s, step);
            && t.files == s.files && t.work == s.work && t.gc == s.gc
            && match step
               case CreateBucket(b) =>
                 if b in s.used then t == s
                 else t.used == s.used + {b} && t.db.buckets == s.db.buckets + {b} && t.db == s.db.(buckets := t.db.buckets)
               case CreateUpload(u, row) =>
                 if u in s.used || row.bucket !in s.db.buckets then t == s
                 else t.used == s.used + {u} && t.db.uploads == s.db.uploads[u := row] && t.db == s.db.(uploads := t.db.uploads)
               case RemoveBucket(b) => t.db == DeleteBucket(s.db, b) && t.used == s.used
               case RemoveUpload(u) => t.db == DeleteUpload(s.db, u) && t.used == s.used
               case RemoveObject(id) =>
                 t.used == s.used && t.db == if DeleteObject(s.db, id).Some? then DeleteObject(s.db, id).value.0 else s.db
  {
  }
}
