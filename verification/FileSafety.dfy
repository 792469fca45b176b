/** When an interleaving loses the bytes of a referenced digest, and that no other does. */
module FileSafety {
  import opened Base
  import opened Tables
  import opened Protocol

  type Files = map<Digest, Octets>
  type Works = map<nat, Work>

  /** No upload's row was put while its file was gone, and neither a failed restore nor a
      clean-up took the only file of a referenced digest. */
  predicate Sheltered(s: State) {
    !s.mishaps.straddled && !s.mishaps.unrestored && !s.mishaps.cleaned
  }

  /** Files and held files are named by their contents. */
  ghost predicate Hashed(files: Files, gc: Collector) {
    && (forall k :: k in files ==> Sha256(files[k]) == k)
    && ((gc.Quarantined? || gc.Restoring? || gc.Removing?) && gc.held.Some? ==> Sha256(gc.held.value) == gc.key)
  }

  ghost predicate RowsKept(db: Tables, files: Files, gc: Collector) {
    forall k :: Referenced(db, k) ==> Kept(files, gc, k)
  }

  /** An upload that relies on its file, which has not been taken from it since. */
  predicate Sound(w: Work) {
    Relies(w) && !w.stale
  }

  ghost predicate UploadsKept(work: Works, files: Files, gc: Collector) {
    forall p :: p in work && Sound(work[p]) ==> Kept(files, gc, Key(work[p]))
  }

  /** An upload of k that started to rely on its file after the quarantine. */
  predicate Newcomer(w: Work, k: Digest) {
    Relies(w) && Key(w) == k && !w.straddling && !w.stale
  }

  /** During a quarantine, a newcomer has put its own file in place. */
  ghost predicate NewcomersInPlace(work: Works, files: Files, gc: Collector) {
    gc.Quarantined? ==> forall p :: p in work && Newcomer(work[p], gc.key) ==> gc.key in files
  }

  ghost predicate Safe(s: State) {
    && RowsKept(s.db, s.files, s.gc) && UploadsKept(s.work, s.files, s.gc)
    && NewcomersInPlace(s.work, s.files, s.gc)
  }

  ghost predicate Inv(s: State) {
    (!s.mishaps.torn ==> Hashed(s.files, s.gc)) && (Sheltered(s) ==> Safe(s))
  }

  /** The rows refer to no digest they did not refer to, but for the new ones. */
  ghost predicate NoNewRefs(before: Tables, after: Tables, new': set<Digest>) {
    forall k :: Referenced(after, k) ==> Referenced(before, k) || k in new'
  }

  lemma MoveCountRefs(db: Tables, old': Option<Digest>, k: Digest)
    ensures var after := MoveCount(db, old', k).0;
            after.objects == db.objects && after.parts == db.parts
            && after.uploads == db.uploads && after.buckets == db.buckets
  {
  }

  lemma PutObjectRefs(db: Tables, id: ObjectId, row: ObjectRow)
    ensures PutObject(db, id, row).Some? ==> NoNewRefs(db, PutObject(db, id, row).value.0, {row.cas})
  {
    var found := SelectObject(db, id);
    MoveCountRefs(db, if found.Some? then Some(found.value.cas) else None, row.cas);
    if PutObject(db, id, row).Some? {
      var after := PutObject(db, id, row).value.0;
      forall k | Referenced(after, k) ensures Referenced(db, k) || k in {row.cas} {
        if t :| t in after.objects && after.objects[t].cas == k {
          assert t != SlotOf(db.fold, id) ==> t in db.objects && db.objects[t].cas == k;
        } else {
          var p :| p in after.parts && after.parts[p].cas == k;
          assert p in db.parts && db.parts[p].cas == k;
        }
      }
    }
  }

  lemma PutPartRefs(db: Tables, p: PartId, row: PartRow)
    ensures PutPart(db, p, row).Some? ==> NoNewRefs(db, PutPart(db, p, row).value.0, {row.cas})
  {
    MoveCountRefs(db, if p in db.parts then Some(db.parts[p].cas) else None, row.cas);
    if PutPart(db, p, row).Some? {
      var after := PutPart(db, p, row).value.0;
      forall k | Referenced(after, k) ensures Referenced(db, k) || k in {row.cas} {
        if t :| t in after.objects && after.objects[t].cas == k {
          assert t in db.objects && db.objects[t].cas == k;
        } else {
          var q :| q in after.parts && after.parts[q].cas == k;
          assert q != p ==> q in db.parts && db.parts[q].cas == k;
        }
      }
    }
  }

  /** Rows that only go away take references with them and bring none. */
  lemma FewerRows(before: Tables, after: Tables)
    requires forall t :: t in after.objects ==> t in before.objects && after.objects[t] == before.objects[t]
    requires forall p :: p in after.parts ==> p in before.parts && after.parts[p] == before.parts[p]
    ensures NoNewRefs(before, after, {})
  {
    forall k | Referenced(after, k) ensures Referenced(before, k) {
      if t :| t in after.objects && after.objects[t].cas == k {
        assert t in before.objects && before.objects[t].cas == k;
      } else {
        var p :| p in after.parts && after.parts[p].cas == k;
        assert p in before.parts && before.parts[p].cas == k;
      }
    }
  }

  /** The second pair keeps what the first pair kept. */
  ghost predicate KeepsAll(files: Files, gc: Collector, files': Files, gc': Collector) {
    forall k :: Kept(files, gc, k) ==> Kept(files', gc', k)
  }

  /** The uploads that rely on a file in t already did in s. */
  ghost predicate SameReliance(s: Works, t: Works) {
    forall p :: p in t && Relies(t[p]) ==>
      p in s && Relies(s[p]) && Key(s[p]) == Key(t[p])
      && (s[p].stale ==> t[p].stale) && (s[p].straddling ==> t[p].straddling)
  }

  lemma RowsFrom(s: State, t: State, new': set<Digest>)
    requires RowsKept(s.db, s.files, s.gc) && NoNewRefs(s.db, t.db, new')
    requires KeepsAll(s.files, s.gc, t.files, t.gc)
    requires forall k :: k in new' ==> Kept(s.files, s.gc, k)
    ensures RowsKept(t.db, t.files, t.gc)
  {
    forall k | Referenced(t.db, k) ensures Kept(t.files, t.gc, k) {
      assert Kept(s.files, s.gc, k);
    }
  }

  lemma UploadsFrom(s: State, t: State)
    requires UploadsKept(s.work, s.files, s.gc) && SameReliance(s.work, t.work)
    requires KeepsAll(s.files, s.gc, t.files, t.gc)
    ensures UploadsKept(t.work, t.files, t.gc)
  {
    forall p | p in t.work && Sound(t.work[p]) ensures Kept(t.files, t.gc, Key(t.work[p])) {
      assert Sound(s.work[p]) && Kept(s.files, s.gc, Key(s.work[p]));
    }
  }

  lemma NewcomersFrom(s: State, t: State)
    requires NewcomersInPlace(s.work, s.files, s.gc) && SameReliance(s.work, t.work)
    requires t.files == s.files && t.gc == s.gc
    ensures NewcomersInPlace(t.work, t.files, t.gc)
  {
    if t.gc.Quarantined? {
      forall p | p in t.work && Newcomer(t.work[p], t.gc.key) ensures t.gc.key in t.files {
        assert Newcomer(s.work[p], s.gc.key);
      }
    }
  }

  /** A step that changes the tables and the requests, but neither files nor
      collector, and brings references to the new digests only. */
  ghost predicate TableFrame(s: State, t: State, new': set<Digest>) {
    && NoNewRefs(s.db, t.db, new') && SameReliance(s.work, t.work)
    && t.files == s.files && t.gc == s.gc && (Sheltered(t) ==> Sheltered(s)) && t.mishaps.torn == s.mishaps.torn
  }

  lemma TableStep(s: State, t: State, new': set<Digest>)
    requires Inv(s) && TableFrame(s, t, new')
    requires Sheltered(t) ==> forall k :: k in new' ==> Kept(s.files, s.gc, k)
    ensures Inv(t)
  {
    if Sheltered(t) {
      RowsFrom(s, t, new');
      UploadsFrom(s, t);
      NewcomersFrom(s, t);
    }
  }

  // ----- steps of requests

  lemma SetReliance(work: Works, p: nat, w: Work)
    requires !Relies(w)
    ensures SameReliance(work, work[p := w])
  {
  }

  lemma EndReliance(work: Works, p: nat)
    ensures SameReliance(work, work - {p})
  {
  }

  /** A request goes on to something that relies on no file; the tables stay. */
  lemma SetFrame(s: State, p: nat, w: Work)
    requires !Relies(w)
    ensures TableFrame(s, Set(s, p, w), {})
  {
    FewerRows(s.db, s.db);
    SetReliance(s.work, p, w);
  }

  lemma EndFrame(s: State, p: nat)
    ensures TableFrame(s, End(s, p), {})
  {
    FewerRows(s.db, s.db);
    EndReliance(s.work, p);
  }

  lemma EndKeeps(s: State, p: nat)
    requires Inv(s)
    ensures Inv(End(s, p))
  {
    EndFrame(s, p);
    TableStep(s, End(s, p), {});
  }

  lemma CommitObjectFrame(s: State, id: ObjectId, row: ObjectRow)
    ensures CommitObject(s, id, row).Some? ==> TableFrame(s, CommitObject(s, id, row).value, {row.cas})
                                               && CommitObject(s, id, row).value.work == s.work
  {
    PutObjectRefs(s.db, id, row);
  }

  lemma CommitPartFrame(s: State, p: PartId, row: PartRow)
    ensures CommitPart(s, p, row).Some? ==> TableFrame(s, CommitPart(s, p, row).value, {row.cas})
                                            && CommitPart(s, p, row).value.work == s.work
  {
    PutPartRefs(s.db, p, row);
  }

  /** The upload that commits relied on its file, and goes on without relying on one. */
  lemma CommittedKeeps(s: State, p: nat, t: State, after: Works)
    requires Inv(s) && p in s.work && Relies(s.work[p])
    requires TableFrame(s, t, {Key(s.work[p])}) && SameReliance(s.work, after)
    ensures Inv(Marked(t, Exposed(s, s.work[p])).(work := after))
  {
    var t' := Marked(t, Exposed(s, s.work[p])).(work := after);
    assert Sheltered(t') ==> Sheltered(s) && (Sound(s.work[p]) || Kept(s.files, s.gc, Key(s.work[p])));
    TableStep(s, t', {Key(s.work[p])});
  }

  lemma CommitToObjectKeeps(s: State, p: nat, id: ObjectId, row: ObjectRow, after: Works)
    requires Inv(s) && p in s.work && Relies(s.work[p]) && row.cas == Key(s.work[p])
    requires SameReliance(s.work, after)
    ensures var c := CommitObject(s, id, row);
            c.Some? ==> Inv(Marked(c.value, Exposed(s, s.work[p])).(work := after))
  {
    CommitObjectFrame(s, id, row);
    var c := CommitObject(s, id, row);
    if c.Some? {
      CommittedKeeps(s, p, c.value, after);
    }
  }

  lemma CommitToPartKeeps(s: State, p: nat, part: PartId, row: PartRow)
    requires Inv(s) && p in s.work && Relies(s.work[p]) && row.cas == Key(s.work[p])
    ensures var c := CommitPart(s, part, row);
            c.Some? ==> Inv(Marked(c.value, Exposed(s, s.work[p])).(work := s.work - {p}))
  {
    CommitPartFrame(s, part, row);
    var c := CommitPart(s, part, row);
    if c.Some? {
      EndReliance(s.work, p);
      CommittedKeeps(s, p, c.value, s.work - {p});
    }
  }

  lemma CommitKeeps(s: State, p: nat)
    requires Inv(s) && p in s.work && s.work[p].Uploading? && s.work[p].stage.Stored?
    ensures Inv(DoCommit(s, p, s.work[p]))
  {
    var w := s.work[p];
    var k, n := Sha256(w.bytes), |w.bytes|;
    EndKeeps(s, p);
    match w.target
    case ToPart(part, etag) =>
      CommitToPartKeeps(s, p, part, PartRow(k, n, etag));
      CommitPartFrame(s, part, PartRow(k, n, etag));
    case ToObject(id, etag, contentType) =>
      EndReliance(s.work, p);
      CommitToObjectKeeps(s, p, id, ObjectRow(id.key, k, n, etag, contentType), s.work - {p});
      CommitObjectFrame(s, id, ObjectRow(id.key, k, n, etag, contentType));
    case ToCompleted(u, id, etag, contentType, rows, size) =>
      SetReliance(s.work, p, Finishing(u, rows, 0));
      CommitToObjectKeeps(s, p, id, ObjectRow(id.key, k, size, etag, contentType),
                          s.work[p := Finishing(u, rows, 0)]);
      CommitObjectFrame(s, id, ObjectRow(id.key, k, size, etag, contentType));
  }

  /** One request comes to rely on its file, which is there, and no file goes. */
  lemma NewReliance(s: State, p: nat, w: Work, t: State)
    requires Inv(s) && w.Uploading? && (Relies(w) ==> Key(w) in t.files)
    requires t.work == s.work[p := w] && t.db == s.db && t.gc == s.gc && (Sheltered(t) ==> Sheltered(s))
    requires forall k :: k in s.files ==> k in t.files
    requires !t.mishaps.torn ==> Hashed(t.files, t.gc)
    ensures Inv(t)
  {
    if Sheltered(t) {
      FewerRows(s.db, t.db);
      RowsFrom(s, t, {});
      forall q | q in t.work && Sound(t.work[q]) ensures Kept(t.files, t.gc, Key(t.work[q])) {
        assert q != p ==> Kept(s.files, s.gc, Key(s.work[q]));
      }
      if t.gc.Quarantined? {
        forall q | q in t.work && Newcomer(t.work[q], t.gc.key) ensures t.gc.key in t.files {
          assert q != p ==> Newcomer(s.work[q], s.gc.key);
        }
      }
    }
  }

  lemma CheckExistsKeeps(s: State, p: nat)
    requires Inv(s) && p in s.work && s.work[p].Uploading? && s.work[p].stage.Written?
    ensures Inv(Set(s, p, s.work[p].(stage := Checked(Key(s.work[p]) in s.files))))
  {
    var w := s.work[p].(stage := Checked(Key(s.work[p]) in s.files));
    NewReliance(s, p, w, Set(s, p, w));
  }

  /** The temporary file takes its place where the check found none. */
  lemma StoreMissingKeeps(s: State, p: nat)
    requires Inv(s) && p in s.work && s.work[p].Uploading? && s.work[p].stage == Checked(false)
    ensures Inv(Stored'(s, p, s.work[p]))
  {
    var w := s.work[p];
    if w.torn == [] {
      assert w.bytes + w.torn == w.bytes;
    }
    NewReliance(s, p, w.(stage := Stored), Stored'(s, p, w));
  }

  /** The upload goes on relying on the file that the check found. */
  lemma StoreFoundKeeps(s: State, p: nat)
    requires Inv(s) && p in s.work && s.work[p].Uploading? && s.work[p].stage == Checked(true)
    ensures Inv(Stored'(s, p, s.work[p]))
  {
    var w := s.work[p].(stage := Stored);
    var t := Set(s, p, w);
    FewerRows(s.db, s.db);
    assert SameReliance(s.work, t.work);
    TableStep(s, t, {});
    assert Stored'(s, p, s.work[p]) == t;
  }

  lemma FailKeeps(s: State, p: nat, cleanup: bool)
    requires Inv(s) && p in s.work && s.work[p].Uploading?
    ensures Inv(DoFail(s, p, s.work[p], cleanup))
  {
    var cleaning := Cleaning(Key(s.work[p]));
    EndKeeps(s, p);
    SetFrame(s, p, cleaning);
    TableStep(s, Set(s, p, cleaning), {});
  }

  lemma CleanKeeps(s: State, p: nat, k: Digest, ok: bool)
    requires Inv(s)
    ensures Inv(DoClean(s, p, k, ok))
  {
    EndKeeps(s, p);
    if ok {
      StrandKeeps(End(s, p), DoClean(s, p, k, ok), k);
    }
  }

  lemma StrandedUploads(work: Works, files: Files, gc: Collector, files': Files, gc': Collector, k: Digest)
    requires UploadsKept(work, files, gc)
    requires forall j :: j != k && Kept(files, gc, j) ==> Kept(files', gc', j)
    ensures UploadsKept(Strand(work, k), files', gc')
  {
    var after := Strand(work, k);
    forall p | p in after && Sound(after[p]) ensures Kept(files', gc', Key(after[p])) {
      assert Sound(work[p]) && Key(work[p]) != k;
    }
  }

  /** A file goes. Those who relied on it do so no more, and if a row does, the loss is
      on record. */
  lemma StrandKeeps(s: State, t: State, k: Digest)
    requires Inv(s) && t.db == s.db && t.gc == s.gc && t.files == s.files - {k} && t.work == Strand(s.work, k)
    requires t.mishaps.torn == s.mishaps.torn
    requires Sheltered(t) ==> Sheltered(s) && (Referenced(s.db, k) ==> Held(s.gc, k))
    ensures Inv(t)
  {
    if Sheltered(t) {
      assert forall j :: j != k && Kept(s.files, s.gc, j) ==> Kept(t.files, t.gc, j);
      StrandedUploads(s.work, s.files, s.gc, t.files, t.gc, k);
      StrandedNewcomers(s, t, k);
    }
  }

  lemma StrandedNewcomers(s: State, t: State, k: Digest)
    requires NewcomersInPlace(s.work, s.files, s.gc)
    requires t.gc == s.gc && t.files == s.files - {k} && t.work == Strand(s.work, k)
    ensures NewcomersInPlace(t.work, t.files, t.gc)
  {
    if t.gc.Quarantined? {
      forall p | p in t.work && Newcomer(t.work[p], t.gc.key) ensures t.gc.key in t.files {
        assert Newcomer(s.work[p], s.gc.key) && s.gc.key != k;
      }
    }
  }

  lemma MergeKeeps(s: State, p: nat, w: Work)
    requires Inv(s) && w.Merging?
    ensures Inv(DoMerge(s, p, w))
  {
    EndKeeps(s, p);
    if w.copied < |w.rows| && w.rows[w.copied].1 in s.files {
      var bytes := w.merged + s.files[w.rows[w.copied].1];
      var up := Uploading(bytes, [], ToCompleted(w.upload, w.id, w.etag, w.contentType, w.rows, w.size),
                          Written, false, false);
      var more := w.(merged := bytes, copied := w.copied + 1);
      SetFrame(s, p, up);
      TableStep(s, Set(s, p, up), {});
      SetFrame(s, p, more);
      TableStep(s, Set(s, p, more), {});
    }
  }

  lemma ReleaseKeeps(s: State, p: nat, w: Work, ok: bool)
    requires Inv(s) && w.Finishing? && w.next < |w.rows|
    ensures Inv(DoRelease(s, p, w, ok))
  {
    var t := DoRelease(s, p, w, ok);
    SetReliance(s.work, p, w.(next := w.next + 1));
    FewerRows(s.db, t.db);
    TableStep(s, t, {});
  }

  lemma CascadeKeeps(s: State, p: nat, w: Work, ok: bool)
    requires Inv(s) && w.Finishing?
    ensures Inv(DoCascade(s, p, w, ok))
  {
    EndReliance(s.work, p);
    FewerRows(s.db, s.db);
    FewerRows(s.db, DeleteUpload(s.db, w.upload));
    TableStep(s, DoCascade(s, p, w, ok), {});
  }

  lemma ProceedKeeps(s: State, step: Step, w: Work)
    requires Inv(s) && Advances(step) && step.proc in s.work && w == s.work[step.proc]
    ensures Inv(Proceed(s, step, w))
  {
    match step
    case CheckExists(p) => if w.Uploading? && w.stage.Written? { CheckExistsKeeps(s, p); }
    case Store(p) =>
      if w.Uploading? && w.stage.Checked? {
        if w.stage.found { StoreFoundKeeps(s, p); } else { StoreMissingKeeps(s, p); }
      }
    case FailCommit(p, cleanup) => if w.Uploading? { FailKeeps(s, p, cleanup); }
    case Clean(p, ok) => if w.Cleaning? { CleanKeeps(s, p, w.key, ok); }
    case Commit(p) => if w.Uploading? && w.stage.Stored? { CommitKeeps(s, p); }
    case Merge(p) => if w.Merging? { MergeKeeps(s, p, w); }
    case Release(p, ok) => if w.Finishing? && w.next < |w.rows| { ReleaseKeeps(s, p, w, ok); }
    case Cascade(p, ok) => if w.Finishing? { CascadeKeeps(s, p, w, ok); }
  }

  lemma ListKeeps(s: State, p: nat, u: nat, w: Work)
    requires Inv(s) && !Relies(w)
    ensures Inv(DoList(s, p, u, w))
  {
    SetFrame(s, p, w);
    TableStep(s, DoList(s, p, u, w), {});
  }

  lemma StartKeeps(s: State, step: Step)
    requires Inv(s) && Starts(step)
    ensures Inv(Start(s, step))
  {
    match step
    case Begin(p, bytes, torn, target) =>
      var w := Uploading(bytes, torn, target, Written, false, false);
      SetFrame(s, p, w);
      TableStep(s, Set(s, p, w), {});
    case ListForComplete(p, u, order, etag) =>
      if u in s.db.uploads && Lists(s.db, u, order) {
        var up := s.db.uploads[u];
        ListKeeps(s, p, u, Merging(u, ObjectId(up.bucket, up.key), etag, up.contentType,
                                Rows(s.db, order), TotalSize(s.db, order), [], 0));
      }
    case ListForAbort(p, u, order) =>
      if u in s.db.uploads && Lists(s.db, u, order) {
        ListKeeps(s, p, u, Finishing(u, Rows(s.db, order), 0));
      }
  }

  lemma FewerRowsKeep(s: State, t: State)
    requires Inv(s) && NoNewRefs(s.db, t.db, {})
    requires t.work == s.work && t.files == s.files && t.gc == s.gc && t.mishaps == s.mishaps
    ensures Inv(t)
  {
    TableStep(s, t, {});
  }

  lemma RemoveBucketRefs(db: Tables, b: nat)
    ensures NoNewRefs(db, DeleteBucket(db, b), {})
  {
    FewerRows(db, DeleteBucket(db, b));
  }

  lemma RemoveObjectRefs(db: Tables, id: ObjectId)
    ensures DeleteObject(db, id).Some? ==> NoNewRefs(db, DeleteObject(db, id).value.0, {})
  {
    if DeleteObject(db, id).Some? {
      FewerRows(db, DeleteObject(db, id).value.0);
    }
  }

  lemma AlterKeeps(s: State, step: Step)
    requires Inv(s) && !Collects(step) && !Starts(step) && !Advances(step)
    ensures Inv(Alter(s, step))
  {
    match step
    case CreateBucket(b) =>
      FewerRows(s.db, s.db.(buckets := s.db.buckets + {b}));
      FewerRowsKeep(s, s.(db := s.db.(buckets := s.db.buckets + {b}), used := s.used + {b}));
    case CreateUpload(u, row) =>
      FewerRows(s.db, s.db.(uploads := s.db.uploads[u := row]));
      FewerRowsKeep(s, s.(db := s.db.(uploads := s.db.uploads[u := row]), used := s.used + {u}));
    case RemoveBucket(b) =>
      RemoveBucketRefs(s.db, b);
      FewerRowsKeep(s, DoRemoveBucket(s, b));
    case RemoveUpload(u) =>
      FewerRows(s.db, DeleteUpload(s.db, u));
      FewerRowsKeep(s, DoRemoveUpload(s, u));
    case RemoveObject(id) =>
      RemoveObjectRefs(s.db, id);
      if DeleteObject(s.db, id).Some? { FewerRowsKeep(s, DoRemoveObject(s, id)); }
  }

  // ----- steps of the collector

  lemma StraddleReliance(work: Works, k: Digest)
    ensures SameReliance(work, Straddle(work, k)) && SameReliance(work, Spoil(work, k))
  {
  }

  /** When the rows, the kept digests and the reliance do not shrink, what is left
      to show of a collector step is about the collector's own file. */
  lemma CollectorStep(s: State, t: State)
    requires Inv(s) && t.db == s.db && SameReliance(s.work, t.work) && (Sheltered(t) ==> Sheltered(s))
    requires (!t.mishaps.torn ==> Hashed(t.files, t.gc)) && NewcomersInPlace(t.work, t.files, t.gc)
    requires Sheltered(t) ==> KeepsAll(s.files, s.gc, t.files, t.gc)
    ensures Inv(t)
  {
    FewerRows(s.db, t.db);
    if Sheltered(t) {
      RowsFrom(s, t, {});
      UploadsFrom(s, t);
    }
  }

  lemma StraddledNewcomers(work: Works, files: Files, k: Digest, held: Option<Octets>)
    ensures NewcomersInPlace(Straddle(work, k), files, Quarantined(k, held))
  {
  }

  lemma TakenKeeps(files: Files, gc: Collector, k: Digest)
    requires gc.Checked'? && k in files
    ensures Hashed(files, gc) ==> Hashed(files - {k}, Quarantined(k, Some(files[k])))
    ensures KeepsAll(files, gc, files - {k}, Quarantined(k, Some(files[k])))
  {
  }

  lemma QuarantineKeeps(s: State, ok: bool)
    requires Inv(s) && s.gc.Checked'?
    ensures Inv(DoQuarantine(s, ok))
  {
    var k := s.gc.key;
    StraddleReliance(s.work, k);
    if k !in s.files {
      StraddledNewcomers(s.work, s.files, k, None);
      CollectorStep(s, s.(gc := Quarantined(k, None), work := Straddle(s.work, k)));
    } else if ok {
      var held := Some(s.files[k]);
      StraddledNewcomers(s.work, s.files - {k}, k, held);
      TakenKeeps(s.files, s.gc, k);
      CollectorStep(s, s.(gc := Quarantined(k, held), files := s.files - {k}, work := Straddle(s.work, k)));
    } else {
      QuietChange(s, Idle);
    }
  }

  /** The re-check lets go of a file only when no row and no sound upload needs it. */
  lemma RecheckKeeps(s: State, ok: bool)
    requires Inv(s) && s.gc.Quarantined?
    ensures Inv(DoRecheck(s, ok))
  {
    if ok && CanDelete(s.db, s.gc.key) {
      ReclaimKeeps(s);
    } else {
      PutBackKeeps(s, if s.gc.held.Some? then Restoring(s.gc.key, s.gc.held) else Idle);
    }
  }

  lemma PutBackKeeps(s: State, gc: Collector)
    requires Inv(s) && s.gc.Quarantined?
    requires gc == if s.gc.held.Some? then Restoring(s.gc.key, s.gc.held) else Idle
    ensures Inv(s.(gc := gc))
  {
    assert KeepsAll(s.files, s.gc, s.files, gc);
    assert Hashed(s.files, s.gc) ==> Hashed(s.files, gc);
    CollectorStep(s, s.(gc := gc));
  }

  lemma ReclaimKeeps(s: State)
    requires Inv(s) && s.gc.Quarantined? && CanDelete(s.db, s.gc.key)
    ensures Inv(s.(gc := Removing(s.gc.key, s.gc.held), work := Spoil(s.work, s.gc.key)))
  {
    var t := s.(gc := Removing(s.gc.key, s.gc.held), work := Spoil(s.work, s.gc.key));
    if Sheltered(s) {
      RecheckedRows(s.db, s.files, s.gc);
      RecheckedUploads(s.work, s.files, s.gc);
    }
  }

  lemma RecheckedRows(db: Tables, files: Files, gc: Collector)
    requires RowsKept(db, files, gc) && gc.Quarantined? && !Referenced(db, gc.key)
    ensures RowsKept(db, files, Removing(gc.key, gc.held))
  {
    forall k | Referenced(db, k) ensures Kept(files, Removing(gc.key, gc.held), k) {
      assert Kept(files, gc, k) && k != gc.key;
    }
  }

  lemma RecheckedUploads(work: Works, files: Files, gc: Collector)
    requires UploadsKept(work, files, gc) && NewcomersInPlace(work, files, gc) && gc.Quarantined?
    ensures UploadsKept(Spoil(work, gc.key), files, Removing(gc.key, gc.held))
  {
    var after := Spoil(work, gc.key);
    forall p | p in after && Sound(after[p]) ensures Kept(files, Removing(gc.key, gc.held), Key(after[p])) {
      assert Sound(work[p]) && Kept(files, gc, Key(work[p]));
      assert Key(work[p]) == gc.key ==> Newcomer(work[p], gc.key);
    }
  }

  lemma PutBack(files: Files, gc: Collector)
    requires gc.Restoring? && gc.held.Some?
    ensures Hashed(files, gc) ==> Hashed(files[gc.key := gc.held.value], Idle)
    ensures KeepsAll(files, gc, files[gc.key := gc.held.value], Idle)
  {
  }

  lemma RestoredKeeps(s: State)
    requires Inv(s) && s.gc.Restoring? && s.gc.held.Some?
    ensures Inv(s.(gc := Idle, files := s.files[s.gc.key := s.gc.held.value]))
  {
    PutBack(s.files, s.gc);
    CollectorStep(s, s.(gc := Idle, files := s.files[s.gc.key := s.gc.held.value]));
  }

  lemma RestoreKeeps(s: State, ok: bool)
    requires Inv(s) && s.gc.Restoring?
    ensures Inv(DoRestore(s, ok))
  {
    if s.gc.held.None? {
      assert KeepsAll(s.files, s.gc, s.files, Idle);
      CollectorStep(s, s.(gc := Idle));
    } else if ok {
      RestoredKeeps(s);
    } else {
      UnrestoredKeeps(s);
    }
  }

  lemma UnrestoredKeeps(s: State)
    requires Inv(s) && s.gc.Restoring? && s.gc.held.Some?
    ensures Inv(DoRestore(s, false))
  {
    var t := DoRestore(s, false);
    var k := s.gc.key;
    assert Hashed(s.files, s.gc) ==> Hashed(s.files, Idle);
    if Sheltered(t) {
      assert forall j :: j != k && Kept(s.files, s.gc, j) ==> Kept(t.files, t.gc, j);
      StrandedUploads(s.work, s.files, s.gc, t.files, t.gc, k);
      forall j | Referenced(t.db, j) ensures Kept(t.files, t.gc, j) {
        assert Kept(s.files, s.gc, j);
      }
    }
  }

  /** A move of the collector that neither takes a file nor gives one back. */
  lemma QuietChange(s: State, gc: Collector)
    requires Inv(s) && !s.gc.Quarantined? && !s.gc.Restoring?
    requires !gc.Quarantined? && !gc.Restoring? && !gc.Removing?
    ensures Inv(s.(gc := gc))
  {
    assert SameReliance(s.work, s.work);
    CollectorStep(s, s.(gc := gc));
  }

  lemma DropRowKeeps(s: State)
    requires Inv(s) && s.gc.Confirmed?
    ensures Inv(DoDropRow(s))
  {
    QuietChange(s, Idle);
    var after := DeleteBlob(s.db, s.gc.key);
    if after.Some? {
      FewerRows(s.db, after.value);
      FewerRowsKeep(s.(gc := Idle), DoDropRow(s));
    }
  }

  lemma CollectKeeps(s: State, step: Step)
    requires Inv(s) && Collects(step)
    ensures Inv(Collect(s, step))
  {
    match step
    case Quarantine(ok) => if s.gc.Checked'? { QuarantineKeeps(s, ok); }
    case Recheck(ok) => if s.gc.Quarantined? { RecheckKeeps(s, ok); }
    case Restore(ok) => if s.gc.Restoring? { RestoreKeeps(s, ok); }
    case Check(k, ok) => if s.gc.Idle? { QuietChange(s, Checked'(k)); }
    case Remove(ok) =>
      if s.gc.Removing? { QuietChange(s, if ok || s.gc.held.None? then Removed(s.gc.key) else Idle); }
    case Confirm(ok) =>
      if s.gc.Removed? { QuietChange(s, if ok && CanDelete(s.db, s.gc.key) then Confirmed(s.gc.key) else Idle); }
    case DropRow(ok) => if s.gc.Confirmed? { if ok { DropRowKeeps(s); } else { QuietChange(s, Idle); } }
  }

  lemma StepKeeps(s: State, step: Step)
    requires Inv(s)
    ensures Inv(Apply(s, step))
  {
    if Collects(step) {
      CollectKeeps(s, step);
    } else if Starts(step) {
      StartKeeps(s, step);
    } else if Advances(step) {
      if step.proc in s.work {
        ProceedKeeps(s, step, s.work[step.proc]);
      }
    } else {
      AlterKeeps(s, step);
    }
  }

  lemma {:induction false} RunKeeps(s: State, steps: seq<Step>)
    requires Inv(s)
    ensures Inv(Run(s, steps))
    decreases |steps|
  {
    if steps != [] {
      StepKeeps(s, steps[0]);
      RunKeeps(Apply(s, steps[0]), steps[1..]);
    }
  }

  lemma InitIsSafe(fold: Folding)
    ensures Inv(Init(fold))
  {
    assert forall j :: !Referenced(Empty(fold), j);
  }

  // ----- what has happened stays on record

  ghost predicate Grows(s: Mishaps, t: Mishaps) {
    && (s.straddled ==> t.straddled) && (s.unrestored ==> t.unrestored)
    && (s.cleaned ==> t.cleaned) && (s.torn ==> t.torn)
  }

  lemma CommitGrows(s: State, p: nat)
    requires p in s.work && s.work[p].Uploading?
    ensures Grows(s.mishaps, DoCommit(s, p, s.work[p]).mishaps)
  {
  }

  lemma MishapsStay(s: State, step: Step)
    ensures Grows(s.mishaps, Apply(s, step).mishaps)
  {
    if step.Commit? && step.proc in s.work && s.work[step.proc].Uploading? {
      CommitGrows(s, step.proc);
    }
  }

  lemma {:induction false} MishapsStayInRun(fold: Folding, steps: seq<Step>, n: nat)
    requires n <= |steps|
    ensures Grows(Prefix(Init(fold), steps, n).mishaps, Run(Init(fold), steps).mishaps)
    decreases |steps|
  {
    if n == |steps| {
      assert steps[..n] == steps;
    } else {
      var front := steps[..|steps| - 1];
      PrefixOfFront(Init(fold), steps, n);
      MishapsStayInRun(fold, front, n);
      LastOfRun(Init(fold), steps);
      MishapsStay(Run(Init(fold), front), steps[|steps| - 1]);
    }
  }

  // ----- losing a file

  /** A digest that a row refers to has no file, in place or in quarantine. */
  ghost predicate Loses(s: State) {
    exists k :: Referenced(s.db, k) && !Kept(s.files, s.gc, k)
  }

  lemma PutObjectRefers(db: Tables, id: ObjectId, row: ObjectRow)
    requires PutObject(db, id, row).Some?
    ensures Referenced(PutObject(db, id, row).value.0, row.cas)
  {
    assert PutObject(db, id, row).value.0.objects[SlotOf(db.fold, id)].cas == row.cas;
  }

  lemma PutPartRefers(db: Tables, p: PartId, row: PartRow)
    requires PutPart(db, p, row).Some?
    ensures Referenced(PutPart(db, p, row).value.0, row.cas)
  {
    assert PutPart(db, p, row).value.0.parts[p].cas == row.cas;
  }

  /** The one step that is marked, and what it does: a stale upload whose file is gone
      has its row put all the same. */
  lemma ExposedCommitLoses(s: State, p: nat)
    requires p in s.work && s.work[p].Uploading?
    requires !s.mishaps.straddled && DoCommit(s, p, s.work[p]).mishaps.straddled
    ensures Loses(DoCommit(s, p, s.work[p]))
  {
    var w := s.work[p];
    var k, n := Sha256(w.bytes), |w.bytes|;
    match w.target
    case ToPart(part, etag) => PutPartRefers(s.db, part, PartRow(k, n, etag));
    case ToObject(id, etag, contentType) => PutObjectRefers(s.db, id, ObjectRow(id.key, k, n, etag, contentType));
    case ToCompleted(u, id, etag, contentType, rows, size) =>
      PutObjectRefers(s.db, id, ObjectRow(id.key, k, size, etag, contentType));
  }

  lemma OnlyCommitsStraddle(s: State, step: Step)
    requires !s.mishaps.straddled && Apply(s, step).mishaps.straddled
    ensures step.Commit? && step.proc in s.work && s.work[step.proc].Uploading? && s.work[step.proc].stage.Stored?
  {
  }

  lemma OnlyRestoresFail(s: State, step: Step)
    requires !s.mishaps.unrestored && Apply(s, step).mishaps.unrestored
    ensures step.Restore? && s.gc.Restoring? && Referenced(s.db, s.gc.key) && s.gc.key !in s.files
    ensures Apply(s, step) == DoRestore(s, false)
  {
  }

  lemma OnlyCleaningCleans(s: State, step: Step)
    requires !s.mishaps.cleaned && Apply(s, step).mishaps.cleaned
    ensures step.Clean? && step.proc in s.work && s.work[step.proc].Cleaning?
    ensures Referenced(s.db, s.work[step.proc].key) && !Held(s.gc, s.work[step.proc].key)
    ensures Apply(s, step) == DoClean(s, step.proc, s.work[step.proc].key, true)
  {
  }

  /** Each of the three mishaps is a loss. */
  lemma MishapLoses(s: State, step: Step)
    requires Sheltered(s) && !Sheltered(Apply(s, step))
    ensures Loses(Apply(s, step))
  {
    var t := Apply(s, step);
    if t.mishaps.straddled {
      OnlyCommitsStraddle(s, step);
      ExposedCommitLoses(s, step.proc);
    } else if t.mishaps.unrestored {
      OnlyRestoresFail(s, step);
      assert !Kept(t.files, t.gc, s.gc.key);
    } else {
      OnlyCleaningCleans(s, step);
      assert !Kept(t.files, t.gc, s.work[step.proc].key);
    }
  }

  lemma {:induction false} UnshelteredLoses(fold: Folding, steps: seq<Step>)
    requires !Sheltered(Run(Init(fold), steps))
    ensures exists n :: 0 <= n <= |steps| && Loses(Prefix(Init(fold), steps, n))
    decreases |steps|
  {
    var front, last := steps[..|steps| - 1], steps[|steps| - 1];
    var s := Run(Init(fold), front);
    LastOfRun(Init(fold), steps);
    if !Sheltered(s) {
      UnshelteredLoses(fold, front);
      var n :| 0 <= n <= |front| && Loses(Prefix(Init(fold), front, n));
      PrefixOfFront(Init(fold), steps, n);
    } else {
      MishapLoses(s, last);
      assert Loses(Prefix(Init(fold), steps, |steps|));
    }
  }

  /** The safety theorem. Over all runs of requests and collector steps, in any
      interleaving, with any of them failing: some digest that a row refers to is at some
      time without its file, in place or in the quarantine that is still to be restored, if
      and only if an upload had its row put after the file that it relied on had been taken
      and nobody had brought it back, or a restore failed, or a failed put cleaned up, for a
      referenced digest that had no other file. */
  lemma FileIsLostIffUnsheltered(fold: Folding, steps: seq<Step>)
    ensures (exists n :: 0 <= n <= |steps| && Loses(Prefix(Init(fold), steps, n)))
            <==> !Sheltered(Run(Init(fold), steps))
  {
    if !Sheltered(Run(Init(fold), steps)) {
      UnshelteredLoses(fold, steps);
    } else {
      forall n | 0 <= n <= |steps| ensures !Loses(Prefix(Init(fold), steps, n)) {
        MishapsStayInRun(fold, steps, n);
        InitIsSafe(fold);
        RunKeeps(Init(fold), steps[..n]);
      }
    }
  }

  /** What there is of a referenced digest at the end of such a run is its own bytes,
      unless a torn file took its place. */
  lemma NoReferencedFileIsLost(fold: Folding, steps: seq<Step>, k: Digest)
    requires var s := Run(Init(fold), steps); Sheltered(s) && Referenced(s.db, k)
    ensures var s := Run(Init(fold), steps);
            && Kept(s.files, s.gc, k)
            && (!s.mishaps.torn ==>
                  || (k in s.files && Sha256(s.files[k]) == k)
                  || (Held(s.gc, k) && Sha256(s.gc.held.value) == k))
  {
    InitIsSafe(fold);
    RunKeeps(Init(fold), steps);
    var s := Run(Init(fold), steps);
    assert Kept(s.files, s.gc, k);
  }

  // ----- files and their names

  /** Some file has other contents than its name says. */
  ghost predicate Misnamed(s: State) {
    exists k :: k in s.files && Sha256(s.files[k]) != k
  }

  lemma OnlyStoresTear(s: State, step: Step)
    requires !s.mishaps.torn && Apply(s, step).mishaps.torn
    ensures step.Store? && step.proc in s.work && s.work[step.proc].Uploading?
    ensures s.work[step.proc].stage == Checked(false) && s.work[step.proc].torn != []
    ensures Apply(s, step) == Stored'(s, step.proc, s.work[step.proc])
  {
  }

  lemma TornIsMisnamed(s: State, p: nat)
    requires p in s.work && s.work[p].Uploading? && s.work[p].stage == Checked(false) && s.work[p].torn != []
    ensures Misnamed(Stored'(s, p, s.work[p]))
  {
    var w := s.work[p];
    var t := Stored'(s, p, w);
    assert Key(w) in t.files && t.files[Key(w)] == w.bytes + w.torn;
    assert |w.bytes + w.torn| > |w.bytes|;
  }

  lemma {:induction false} TearingMisnames(fold: Folding, steps: seq<Step>)
    requires Run(Init(fold), steps).mishaps.torn
    ensures exists n :: 0 <= n <= |steps| && Misnamed(Prefix(Init(fold), steps, n))
    decreases |steps|
  {
    var front, last := steps[..|steps| - 1], steps[|steps| - 1];
    var s := Run(Init(fold), front);
    LastOfRun(Init(fold), steps);
    if s.mishaps.torn {
      TearingMisnames(fold, front);
      var n :| 0 <= n <= |front| && Misnamed(Prefix(Init(fold), front, n));
      PrefixOfFront(Init(fold), steps, n);
    } else {
      OnlyStoresTear(s, last);
      TornIsMisnamed(s, last.proc);
      assert Misnamed(Prefix(Init(fold), steps, |steps|));
    }
  }

  /** Over all runs: some file is at some time named by other contents than its own if
      and only if an upload whose last write had failed, with something written, put its
      temporary file in place. */
  lemma FileIsMisnamedIffTorn(fold: Folding, steps: seq<Step>)
    ensures (exists n :: 0 <= n <= |steps| && Misnamed(Prefix(Init(fold), steps, n)))
            <==> Run(Init(fold), steps).mishaps.torn
  {
    if Run(Init(fold), steps).mishaps.torn {
      TearingMisnames(fold, steps);
    } else {
      forall n | 0 <= n <= |steps| ensures !Misnamed(Prefix(Init(fold), steps, n)) {
        MishapsStayInRun(fold, steps, n);
        InitIsSafe(fold);
        RunKeeps(Init(fold), steps[..n]);
      }
    }
  }
}
