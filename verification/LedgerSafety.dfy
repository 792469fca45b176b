/** What requests in progress keep while they complete and abort uploads. */
module LedgerSafety {
  import opened Base
  import opened Tables
  import opened Ledger
  import opened Protocol
  import opened Accounting

  // ----- the invariant

  /** The upload that a request is completing or aborting, the parts it listed, and
      how many of them it has dealt with. */
  datatype Handling = Handling(upload: nat, rows: seq<(PartId, Digest)>, next: nat)

  function HandlingOf(w: Work): Option<Handling> {
    match w
    case Uploading(_, _, ToCompleted(u, _, _, _, rows, _), _, _, _) => Some(Handling(u, rows, 0))
    case Uploading(_, _, _, _, _, _) => None
    case Merging(u, _, _, _, rows, _, _, _) => Some(Handling(u, rows, 0))
    case Finishing(u, rows, next) => Some(Handling(u, rows, next))
    case Cleaning(_) => None
  }

  /** The listed parts are still the parts of the upload, with the digests they were
      listed with, and those not dealt with are not released. */
  ghost predicate UpToDate(db: Tables, released: set<PartId>, h: Handling) {
    && h.next <= |h.rows| && h.upload in db.uploads
    && (forall i :: 0 <= i < |h.rows| ==>
          h.rows[i].0 in db.parts && h.rows[i].0.upload == h.upload && db.parts[h.rows[i].0].cas == h.rows[i].1)
    && (forall i, j :: 0 <= i < j < |h.rows| ==> h.rows[i].0 != h.rows[j].0)
    && (forall p :: p in db.parts && p.upload == h.upload ==> exists i :: 0 <= i < |h.rows| && h.rows[i].0 == p)
    && (forall i :: h.next <= i < |h.rows| ==> h.rows[i].0 !in released)
  }

  ghost predicate Exclusive(work: map<nat, Work>) {
    forall p, q :: p in work && q in work && p != q && HandlingOf(work[p]).Some? && HandlingOf(work[q]).Some? ==>
      HandlingOf(work[p]).value.upload != HandlingOf(work[q]).value.upload
  }

  ghost predicate Handled(db: Tables, work: map<nat, Work>, released: set<PartId>) {
    forall p :: p in work && HandlingOf(work[p]).Some? ==> UpToDate(db, released, HandlingOf(work[p]).value)
  }

  /** What was dealt with was released. */
  ghost predicate Thorough(work: map<nat, Work>, released: set<PartId>) {
    forall p :: p in work && HandlingOf(work[p]).Some? ==>
      var h := HandlingOf(work[p]).value;
      forall i :: 0 <= i < h.next && i < |h.rows| ==> h.rows[i].0 in released
  }

  /** Each released part row has a request that is about to delete its upload. */
  ghost predicate Attended(work: map<nat, Work>, released: set<PartId>) {
    forall p :: p in released ==>
      exists q :: q in work && work[q].Finishing? && work[q].upload == p.upload
  }

  ghost predicate Orderly(s: State) {
    && !s.books.miscounted && Exclusive(s.work) && Handled(s.db, s.work, s.books.released)
    && (!s.books.unpaid ==> Thorough(s.work, s.books.released))
    && (!s.books.abandoned ==> Attended(s.work, s.books.released))
  }

  /** Requests that do not overlap leave each other's lists alone. */
  ghost predicate Separate(s: State) {
    !s.books.overlapped ==> Orderly(s)
  }

  // ----- what a step leaves alone

  /** Nothing that a request on upload u has listed has changed. */
  ghost predicate Untouched(db: Tables, released: set<PartId>, db': Tables, released': set<PartId>, u: nat) {
    && (u in db.uploads ==> u in db'.uploads)
    && (forall p: PartId :: p.upload == u ==> (p in db.parts <==> p in db'.parts) && (p in released <==> p in released'))
    && (forall p: PartId :: p.upload == u && p in db.parts && p in db'.parts ==> db'.parts[p].cas == db.parts[p].cas)
  }

  /** Requests handle what they handled before. */
  ghost predicate SameHandling(work: map<nat, Work>, work': map<nat, Work>) {
    forall p :: p in work' && HandlingOf(work'[p]).Some? ==>
      p in work && HandlingOf(work[p]) == HandlingOf(work'[p])
  }

  /** Requests that are releasing parts go on doing so. */
  ghost predicate FinishersStay(work: map<nat, Work>, work': map<nat, Work>) {
    forall p :: p in work && work[p].Finishing? ==>
      p in work' && work'[p].Finishing? && work'[p].upload == work[p].upload
  }

  lemma StillUpToDate(db: Tables, released: set<PartId>, db': Tables, released': set<PartId>, h: Handling)
    requires UpToDate(db, released, h) && Untouched(db, released, db', released', h.upload)
    ensures UpToDate(db', released', h)
  {
    forall p | p in db'.parts && p.upload == h.upload ensures exists i :: 0 <= i < |h.rows| && h.rows[i].0 == p {
      assert p in db.parts;
    }
  }

  lemma HandledFrame(s: State, t: State)
    requires Exclusive(s.work) && Handled(s.db, s.work, s.books.released) && SameHandling(s.work, t.work)
    requires forall p :: p in t.work && HandlingOf(t.work[p]).Some? ==>
               Untouched(s.db, s.books.released, t.db, t.books.released, HandlingOf(t.work[p]).value.upload)
    ensures Exclusive(t.work) && Handled(t.db, t.work, t.books.released)
    ensures Thorough(s.work, s.books.released) ==> Thorough(t.work, t.books.released)
  {
    forall p | p in t.work && HandlingOf(t.work[p]).Some?
      ensures UpToDate(t.db, t.books.released, HandlingOf(t.work[p]).value)
    {
      StillUpToDate(s.db, s.books.released, t.db, t.books.released, HandlingOf(t.work[p]).value);
    }
    if Thorough(s.work, s.books.released) {
      forall p | p in t.work && HandlingOf(t.work[p]).Some?
        ensures var h := HandlingOf(t.work[p]).value;
                forall i :: 0 <= i < h.next && i < |h.rows| ==> h.rows[i].0 in t.books.released
      {
        var h := HandlingOf(t.work[p]).value;
        assert HandlingOf(s.work[p]).value == h;
        assert UpToDate(s.db, s.books.released, h);
      }
    }
  }

  lemma AttendedFrame(s: State, t: State)
    requires Attended(s.work, s.books.released) && FinishersStay(s.work, t.work)
    requires t.books.released <= s.books.released
    ensures Attended(t.work, t.books.released)
  {
    forall p | p in t.books.released
      ensures exists q :: q in t.work && t.work[q].Finishing? && t.work[q].upload == p.upload
    {
      var q :| q in s.work && s.work[q].Finishing? && s.work[q].upload == p.upload;
      assert t.work[q].Finishing? && t.work[q].upload == p.upload;
    }
  }

  /** A step that leaves each handled upload alone keeps the requests in order. */
  lemma StepAside(s: State, t: State)
    requires Orderly(s) && SameHandling(s.work, t.work) && FinishersStay(s.work, t.work)
    requires t.books.released <= s.books.released
    requires forall p :: p in t.work && HandlingOf(t.work[p]).Some? ==>
               Untouched(s.db, s.books.released, t.db, t.books.released, HandlingOf(t.work[p]).value.upload)
    requires !t.books.miscounted && t.books.unpaid == s.books.unpaid && t.books.abandoned == s.books.abandoned
    ensures Orderly(t)
  {
    HandledFrame(s, t);
    if !t.books.abandoned {
      AttendedFrame(s, t);
    }
  }

  /** A step that leaves uploads, parts and releases alone. */
  lemma StepElsewhere(s: State, t: State)
    requires Separate(s) && SameHandling(s.work, t.work) && FinishersStay(s.work, t.work)
    requires t.db.parts == s.db.parts && t.books.released == s.books.released
    requires forall u :: u in s.db.uploads ==> u in t.db.uploads
    requires t.books.overlapped == s.books.overlapped && t.books.miscounted == s.books.miscounted
    requires t.books.unpaid == s.books.unpaid && t.books.abandoned == s.books.abandoned
    ensures Separate(t)
  {
    if !s.books.overlapped {
      StepAside(s, t);
    }
  }

  lemma BusyIffHandling(s: State, u: nat)
    ensures Busy(s, u) <==> exists p :: p in s.work && HandlingOf(s.work[p]).Some? && HandlingOf(s.work[p]).value.upload == u
  {
    forall p | p in s.work
      ensures Handles(s.work[p], u) <==> HandlingOf(s.work[p]).Some? && HandlingOf(s.work[p]).value.upload == u
    {
    }
  }

  // ----- steps that alter tables only

  ghost predicate Joint(s: State) {
    Inv(s) && Separate(s)
  }

  /** The released part rows are there. */
  lemma ReleasedArePresent(s: State)
    requires Joint(s) && !s.books.overlapped
    ensures forall p :: p in s.books.released ==> p in s.db.parts
  {
  }

  lemma BucketUntouched(s: State, b: nat, u: nat)
    requires Joint(s) && !s.books.overlapped && u in s.db.uploads && s.db.uploads[u].bucket != b
    ensures var t := DoRemoveBucket(s, b); Untouched(s.db, s.books.released, t.db, t.books.released, u)
  {
    ReleasedArePresent(s);
  }

  lemma RemoveBucketSeparate(s: State, b: nat)
    requires Joint(s)
    ensures Separate(DoRemoveBucket(s, b))
  {
    var t := DoRemoveBucket(s, b);
    if !t.books.overlapped {
      forall p | p in t.work && HandlingOf(t.work[p]).Some?
        ensures Untouched(s.db, s.books.released, t.db, t.books.released, HandlingOf(t.work[p]).value.upload)
      {
        var u := HandlingOf(t.work[p]).value.upload;
        BusyIffHandling(s, u);
        assert UpToDate(s.db, s.books.released, HandlingOf(s.work[p]).value);
        BucketUntouched(s, b, u);
      }
      StepAside(s, t);
    }
  }

  lemma RemoveUploadSeparate(s: State, u: nat)
    requires Joint(s)
    ensures Separate(DoRemoveUpload(s, u))
  {
    var t := DoRemoveUpload(s, u);
    if !t.books.overlapped {
      ReleasedArePresent(s);
      forall p | p in t.work && HandlingOf(t.work[p]).Some?
        ensures Untouched(s.db, s.books.released, t.db, t.books.released, HandlingOf(t.work[p]).value.upload)
      {
        BusyIffHandling(s, u);
        CascadeUntouched(s.db, s.books.released, u, HandlingOf(t.work[p]).value.upload);
      }
      StepAside(s, t);
    }
  }

  lemma RemoveObjectSeparate(s: State, id: ObjectId)
    requires Separate(s)
    ensures Separate(DoRemoveObject(s, id))
  {
    StepElsewhere(s, DoRemoveObject(s, id));
  }

  lemma DropRowSeparate(s: State)
    requires Separate(s) && s.gc.Confirmed?
    ensures Separate(DoDropRow(s))
  {
    StepElsewhere(s, DoDropRow(s));
  }

  // ----- commits

  lemma PutObjectElsewhere(db: Tables, id: ObjectId, row: ObjectRow)
    requires PutObject(db, id, row).Some?
    ensures var after := PutObject(db, id, row).value.0; after.parts == db.parts && after.uploads == db.uploads
  {
  }

  lemma CommitObjectSeparate(s: State, id: ObjectId, row: ObjectRow, after: map<nat, Work>)
    requires Separate(s) && SameHandling(s.work, after) && FinishersStay(s.work, after)
    ensures CommitObject(s, id, row).Some? ==> Separate(CommitObject(s, id, row).value.(work := after))
  {
    var c := CommitObject(s, id, row);
    if c.Some? {
      PutObjectElsewhere(s.db, id, row);
      StepElsewhere(s, c.value.(work := after));
    }
  }

  lemma PartPutUntouched(db: Tables, after: Tables, released: set<PartId>, p: PartId, row: PartRow, u: nat)
    requires u != p.upload && after.parts == db.parts[p := row] && after.uploads == db.uploads
    ensures Untouched(db, released, after, released, u)
  {
  }

  lemma PutPartUploads(db: Tables, p: PartId, row: PartRow)
    requires PutPart(db, p, row).Some?
    ensures PutPart(db, p, row).value.0.uploads == db.uploads
  {
  }

  lemma CommitPartSeparate(s: State, p: PartId, row: PartRow, after: map<nat, Work>)
    requires Separate(s) && SameHandling(s.work, after) && FinishersStay(s.work, after)
    ensures CommitPart(s, p, row).Some? ==> Separate(CommitPart(s, p, row).value.(work := after))
  {
    var c := CommitPart(s, p, row);
    if c.Some? && !c.value.books.overlapped {
      var t := c.value.(work := after);
      MoveCountObjects(s.db, p, row);
      PutPartUploads(s.db, p, row);
      assert s.books.released - {p} == s.books.released;
      forall q | q in t.work && HandlingOf(t.work[q]).Some?
        ensures Untouched(s.db, s.books.released, t.db, s.books.released, HandlingOf(t.work[q]).value.upload)
      {
        BusyIffHandling(s, p.upload);
        PartPutUntouched(s.db, t.db, s.books.released, p, row, HandlingOf(t.work[q]).value.upload);
      }
      StepAside(s, t);
    }
  }

  lemma SeparateUpToMishaps(s: State, t: State)
    requires Separate(s) && t.db == s.db && t.books == s.books && t.work == s.work
    ensures Separate(t)
  {
  }

  lemma CommitSeparate(s: State, p: nat)
    requires Separate(s) && p in s.work && s.work[p].Uploading?
    ensures Separate(DoCommit(s, p, s.work[p]))
  {
    var w := s.work[p];
    var k, n := Sha256(w.bytes), |w.bytes|;
    var ended := s.work - {p};
    StepElsewhere(s, End(s, p));
    match w.target
    case ToPart(part, etag) =>
      var c := CommitPart(s, part, PartRow(k, n, etag));
      CommitPartSeparate(s, part, PartRow(k, n, etag), ended);
      if c.Some? { SeparateUpToMishaps(c.value.(work := ended), DoCommit(s, p, w)); }
    case ToObject(id, etag, contentType) =>
      var c := CommitObject(s, id, ObjectRow(id.key, k, n, etag, contentType));
      CommitObjectSeparate(s, id, ObjectRow(id.key, k, n, etag, contentType), ended);
      if c.Some? { SeparateUpToMishaps(c.value.(work := ended), DoCommit(s, p, w)); }
    case ToCompleted(u, id, etag, contentType, rows, size) =>
      var next := s.work[p := Finishing(u, rows, 0)];
      var c := CommitObject(s, id, ObjectRow(id.key, k, size, etag, contentType));
      CommitObjectSeparate(s, id, ObjectRow(id.key, k, size, etag, contentType), next);
      if c.Some? { SeparateUpToMishaps(c.value.(work := next), DoCommit(s, p, w)); }
  }

  // ----- completing and aborting

  lemma ListedUpToDate(db: Tables, released: set<PartId>, u: nat, order: seq<PartId>)
    requires u in db.uploads && Lists(db, u, order) && forall p :: p in released ==> p.upload != u
    ensures UpToDate(db, released, Handling(u, Rows(db, order), 0))
  {
    var rows := Rows(db, order);
    forall q | q in db.parts && q.upload == u ensures exists i :: 0 <= i < |rows| && rows[i].0 == q {
      var i :| 0 <= i < |order| && order[i] == q;
      assert rows[i].0 == q;
    }
  }

  lemma ListSeparate(s: State, p: nat, u: nat, order: seq<PartId>, w: Work)
    requires Separate(s) && p !in s.work && u in s.db.uploads && Lists(s.db, u, order)
    requires HandlingOf(w) == Some(Handling(u, Rows(s.db, order), 0))
    ensures Separate(DoList(s, p, u, w))
  {
    var t := DoList(s, p, u, w);
    if !t.books.overlapped {
      BusyIffHandling(s, u);
      ListedUpToDate(s.db, s.books.released, u, order);
      if !s.books.abandoned {
        AttendedFrame(s, t);
      }
    }
  }

  function Onward(work: map<nat, Work>, p: nat): map<nat, Work>
    requires p in work && work[p].Finishing?
  {
    work[p := Finishing(work[p].upload, work[p].rows, work[p].next + 1)]
  }

  /** The request that releases a part is the only one that has listed it. */
  lemma ReleaseHandled(db: Tables, after: Tables, work: map<nat, Work>, p: nat,
                       released: set<PartId>, released': set<PartId>)
    requires Exclusive(work) && Handled(db, work, released)
    requires p in work && work[p].Finishing? && work[p].next < |work[p].rows|
    requires after.parts == db.parts && after.uploads == db.uploads
    requires released' == released || released' == released + {work[p].rows[work[p].next].0}
    ensures Exclusive(Onward(work, p)) && Handled(after, Onward(work, p), released')
  {
    var w := work[p];
    var h := HandlingOf(w).value;
    assert UpToDate(db, released, h);
    var t := Onward(work, p);
    forall q | q in t && HandlingOf(t[q]).Some? ensures UpToDate(after, released', HandlingOf(t[q]).value) {
      if q == p {
        OneReleased(db, after, released, released', h);
      } else {
        assert UpToDate(db, released, HandlingOf(work[q]).value);
        StillUpToDate(db, released, after, released', HandlingOf(work[q]).value);
      }
    }
  }

  lemma OneReleased(db: Tables, after: Tables, released: set<PartId>, released': set<PartId>, h: Handling)
    requires UpToDate(db, released, h) && h.next < |h.rows|
    requires after.parts == db.parts && after.uploads == db.uploads
    requires released' == released || released' == released + {h.rows[h.next].0}
    ensures UpToDate(after, released', h.(next := h.next + 1))
  {
  }

  lemma ReleaseThorough(work: map<nat, Work>, p: nat, released: set<PartId>)
    requires Thorough(work, released) && p in work && work[p].Finishing? && work[p].next < |work[p].rows|
    ensures Thorough(Onward(work, p), released + {work[p].rows[work[p].next].0})
  {
    var w := work[p];
    var after := Onward(work, p);
    forall q | q in after && HandlingOf(after[q]).Some?
      ensures var h := HandlingOf(after[q]).value;
              forall i :: 0 <= i < h.next && i < |h.rows| ==> h.rows[i].0 in released + {w.rows[w.next].0}
    {
      assert HandlingOf(work[q]).value.rows == HandlingOf(after[q]).value.rows;
    }
  }

  lemma ReleaseAttended(work: map<nat, Work>, p: nat, released: set<PartId>, part: PartId)
    requires Attended(work, released) && p in work && work[p].Finishing? && work[p].upload == part.upload
    ensures Attended(Onward(work, p), released + {part})
    ensures Attended(Onward(work, p), released)
  {
    var after := Onward(work, p);
    forall r | r in released + {part} ensures exists q :: q in after && after[q].Finishing? && after[q].upload == r.upload {
      if r == part {
        assert after[p].upload == r.upload;
      } else {
        var q :| q in work && work[q].Finishing? && work[q].upload == r.upload;
        assert after[q].upload == r.upload;
      }
    }
  }

  /** The next part to be released is there as it was listed, so that the count taken
      back is its own. */
  lemma NextIsOwn(s: State, p: nat)
    requires Handled(s.db, s.work, s.books.released)
    requires p in s.work && s.work[p].Finishing? && s.work[p].next < |s.work[p].rows|
    ensures var (part, k) := s.work[p].rows[s.work[p].next];
            TakesOwn(s.db, s.books.released, part, k) && part.upload == s.work[p].upload
  {
    assert UpToDate(s.db, s.books.released, HandlingOf(s.work[p]).value);
  }

  lemma ReleaseSeparate(s: State, p: nat, ok: bool)
    requires Separate(s) && p in s.work && s.work[p].Finishing? && s.work[p].next < |s.work[p].rows|
    ensures Separate(DoRelease(s, p, s.work[p], ok))
  {
    var t := DoRelease(s, p, s.work[p], ok);
    assert t.work == Onward(s.work, p);
    if !s.books.overlapped {
      var (part, k) := s.work[p].rows[s.work[p].next];
      NextIsOwn(s, p);
      ReleaseHandled(s.db, t.db, s.work, p, s.books.released, t.books.released);
      if ok && !s.books.unpaid {
        ReleaseThorough(s.work, p, s.books.released);
      }
      if !s.books.abandoned {
        ReleaseAttended(s.work, p, s.books.released, part);
      }
    }
  }

  /** Only the request itself has listed the parts that go with its upload. */
  lemma CascadeUntouched(db: Tables, released: set<PartId>, u: nat, v: nat)
    requires u != v && forall p :: p in released ==> p in db.parts
    ensures var after := DeleteUpload(db, u);
            Untouched(db, released, after, (set p | p in released && p in after.parts), v)
  {
  }

  lemma CascadeAttended(work: map<nat, Work>, p: nat, released: set<PartId>, after: set<PartId>)
    requires Attended(work, released) && p in work && work[p].Finishing? && after <= released
    requires forall r :: r in after ==> r.upload != work[p].upload
    ensures Attended(work - {p}, after)
  {
    forall r | r in after
      ensures exists q :: q in work - {p} && (work - {p})[q].Finishing? && (work - {p})[q].upload == r.upload
    {
      var q :| q in work && work[q].Finishing? && work[q].upload == r.upload;
      assert q in work - {p} && (work - {p})[q] == work[q];
    }
  }

  lemma CascadedSeparate(s: State, p: nat)
    requires Joint(s) && p in s.work && s.work[p].Finishing?
    ensures Separate(DoCascade(s, p, s.work[p], true))
  {
    var w := s.work[p];
    var t := DoCascade(s, p, w, true);
    if !s.books.overlapped {
      ReleasedArePresent(s);
      forall q | q in t.work && HandlingOf(t.work[q]).Some?
        ensures Untouched(s.db, s.books.released, t.db, t.books.released, HandlingOf(t.work[q]).value.upload)
      {
        CascadeUntouched(s.db, s.books.released, w.upload, HandlingOf(t.work[q]).value.upload);
      }
      HandledFrame(s, t);
      if !s.books.abandoned {
        CascadeAttended(s.work, p, s.books.released, t.books.released);
      }
    }
  }

  lemma CascadeFailedSeparate(s: State, p: nat)
    requires Joint(s) && p in s.work && s.work[p].Finishing?
    ensures Separate(DoCascade(s, p, s.work[p], false))
  {
    var w := s.work[p];
    var t := DoCascade(s, p, w, false);
    if !s.books.overlapped {
      assert UpToDate(s.db, s.books.released, HandlingOf(w).value);
      HandledFrame(s, t);
      if !t.books.abandoned {
        ReleasedArePresent(s);
        CascadeAttended(s.work, p, s.books.released, s.books.released);
      }
    }
  }

  // ----- the machine

  /** A step that changes at most who is at what stage of an upload. */
  lemma StagesSeparate(s: State, t: State)
    requires Separate(s) && t.db == s.db && t.books == s.books
    requires SameHandling(s.work, t.work) && FinishersStay(s.work, t.work)
    ensures Separate(t)
  {
    StepElsewhere(s, t);
  }

  lemma MergeSeparate(s: State, p: nat)
    requires Separate(s) && p in s.work && s.work[p].Merging?
    ensures Separate(DoMerge(s, p, s.work[p]))
  {
    StagesSeparate(s, DoMerge(s, p, s.work[p]));
  }

  /** Steps of an upload before its metadata, or instead of it. */
  predicate Prepares(step: Step) {
    step.CheckExists? || step.Store? || step.FailCommit? || step.Clean?
  }

  lemma PrepareSeparate(s: State, step: Step)
    requires Separate(s) && Prepares(step) && step.proc in s.work
    ensures Separate(Proceed(s, step, s.work[step.proc]))
  {
    if step.Clean? {
      if s.work[step.proc].Cleaning? { CleanSeparate(s, step.proc, step.ok); }
    } else {
      StagesSeparate(s, Proceed(s, step, s.work[step.proc]));
    }
  }

  lemma ProceedSeparate(s: State, step: Step)
    requires Joint(s) && Advances(step) && !Prepares(step) && step.proc in s.work
    ensures Separate(Proceed(s, step, s.work[step.proc]))
  {
    var w := s.work[step.proc];
    match step
    case Commit(p) => if w.Uploading? && w.stage.Stored? { CommitSeparate(s, p); }
    case Merge(p) => if w.Merging? { MergeSeparate(s, p); }
    case Release(p, ok) => if w.Finishing? && w.next < |w.rows| { ReleaseSeparate(s, p, ok); }
    case Cascade(p, ok) =>
      if w.Finishing? && w.next == |w.rows| {
        if ok { CascadedSeparate(s, p); } else { CascadeFailedSeparate(s, p); }
      }
  }

  lemma StartSeparate(s: State, step: Step)
    requires Separate(s) && Starts(step)
    ensures Separate(Start(s, step))
  {
    match step
    case Begin(p, bytes, torn, target) =>
      if p !in s.work && Acceptable(target) {
        StagesSeparate(s, Start(s, step));
      }
    case ListForComplete(p, u, order, etag) =>
      if p !in s.work && u in s.db.uploads && Lists(s.db, u, order) {
        var up := s.db.uploads[u];
        ListSeparate(s, p, u, order, Merging(u, ObjectId(up.bucket, up.key), etag, up.contentType,
                                             Rows(s.db, order), TotalSize(s.db, order), [], 0));
      }
    case ListForAbort(p, u, order) =>
      if p !in s.work && u in s.db.uploads && Lists(s.db, u, order) {
        ListSeparate(s, p, u, order, Finishing(u, Rows(s.db, order), 0));
      }
  }

  lemma StraddleHandles(work: map<nat, Work>, k: Digest)
    ensures SameHandling(work, Straddle(work, k)) && FinishersStay(work, Straddle(work, k))
    ensures SameHandling(work, Spoil(work, k)) && FinishersStay(work, Spoil(work, k))
  {
  }

  lemma StrandHandles(work: map<nat, Work>, k: Digest)
    ensures SameHandling(work, Strand(work, k)) && FinishersStay(work, Strand(work, k))
  {
  }

  lemma QuarantineSeparate(s: State, ok: bool)
    requires Separate(s) && s.gc.Checked'?
    ensures Separate(DoQuarantine(s, ok))
  {
    StraddleHandles(s.work, s.gc.key);
    StagesSeparate(s, DoQuarantine(s, ok));
  }

  lemma RecheckSeparate(s: State, ok: bool)
    requires Separate(s) && s.gc.Quarantined?
    ensures Separate(DoRecheck(s, ok))
  {
    StraddleHandles(s.work, s.gc.key);
    StagesSeparate(s, DoRecheck(s, ok));
  }

  lemma RestoreSeparate(s: State, ok: bool)
    requires Separate(s) && s.gc.Restoring?
    ensures Separate(DoRestore(s, ok))
  {
    StrandHandles(s.work, s.gc.key);
    StagesSeparate(s, DoRestore(s, ok));
  }

  lemma CleanSeparate(s: State, p: nat, ok: bool)
    requires Separate(s) && p in s.work && s.work[p].Cleaning?
    ensures Separate(DoClean(s, p, s.work[p].key, ok))
  {
    StrandHandles(s.work - {p}, s.work[p].key);
    StagesSeparate(s, DoClean(s, p, s.work[p].key, ok));
  }

  lemma CollectSeparate(s: State, step: Step)
    requires Separate(s) && Collects(step)
    ensures Separate(Collect(s, step))
  {
    if step.DropRow? && step.ok {
      if s.gc.Confirmed? { DropRowSeparate(s); }
    } else if step.Quarantine? {
      if s.gc.Checked'? { QuarantineSeparate(s, step.ok); }
    } else if step.Recheck? {
      if s.gc.Quarantined? { RecheckSeparate(s, step.ok); }
    } else if step.Restore? {
      if s.gc.Restoring? { RestoreSeparate(s, step.ok); }
    } else {
      OtherCollects(s, step);
      StagesSeparate(s, Collect(s, step));
    }
  }

  lemma OtherCollects(s: State, step: Step)
    requires Collects(step) && !(step.DropRow? && step.ok) && !step.Quarantine? && !step.Recheck? && !step.Restore?
    ensures var t := Collect(s, step); t.db == s.db && t.books == s.books && t.work == s.work
  {
  }

  lemma AlterSeparate(s: State, step: Step)
    requires Joint(s) && !Collects(step) && !Starts(step) && !Advances(step)
    ensures Separate(Alter(s, step))
  {
    match step
    case CreateBucket(b) => StepElsewhere(s, Alter(s, step));
    case CreateUpload(u, row) => StepElsewhere(s, Alter(s, step));
    case RemoveBucket(b) => RemoveBucketSeparate(s, b);
    case RemoveUpload(u) => RemoveUploadSeparate(s, u);
    case RemoveObject(id) => RemoveObjectSeparate(s, id);
  }

  lemma StepKeepsSeparate(s: State, step: Step)
    requires Joint(s)
    ensures Separate(Apply(s, step))
  {
    if Collects(step) {
      CollectSeparate(s, step);
    } else if Starts(step) {
      StartSeparate(s, step);
    } else if Advances(step) {
      if step.proc in s.work {
        if Prepares(step) { PrepareSeparate(s, step); } else { ProceedSeparate(s, step); }
      }
    } else {
      AlterSeparate(s, step);
    }
  }

  lemma {:induction false} RunKeepsJoint(s: State, steps: seq<Step>)
    requires Joint(s)
    ensures Joint(Run(s, steps))
    decreases |steps|
  {
    if steps != [] {
      StepKeeps(s, steps[0]);
      StepKeepsSeparate(s, steps[0]);
      RunKeepsJoint(Apply(s, steps[0]), steps[1..]);
    }
  }

  lemma JointlyReached(fold: Folding, steps: seq<Step>)
    ensures Joint(Run(Init(fold), steps))
  {
    Reached(fold, []);
    RunKeepsJoint(Init(fold), steps);
  }

  // ----- what this means for the counts

  /** In every interleaving in which requests on one upload do not overlap, no count is
      ever taken back that is another row's; and with no leak either, each count plus the
      part rows already released is the number of object rows plus the number of part
      rows. */
  lemma CountsAreReferences(fold: Folding, steps: seq<Step>)
    requires !Run(Init(fold), steps).books.overlapped
    ensures !Run(Init(fold), steps).books.miscounted
    ensures !Run(Init(fold), steps).books.leaked ==> Lawful(Run(Init(fold), steps))
  {
    JointlyReached(fold, steps);
    if !Run(Init(fold), steps).books.leaked {
      FaultlessIsLawful(Run(Init(fold), steps));
    }
  }

  lemma AllReleased(db: Tables, released: set<PartId>, h: Handling)
    requires UpToDate(db, released, h) && forall i :: 0 <= i < |h.rows| ==> h.rows[i].0 in released
    ensures forall p :: p in db.parts && p.upload == h.upload ==> p in released
  {
  }

  /** The cascade that ends a request takes no row whose count was not taken back, unless
      requests overlapped or a decrement failed. */
  lemma CascadeTakesReleased(fold: Folding, steps: seq<Step>, p: nat)
    requires var s := Run(Init(fold), steps);
             && !s.books.overlapped && !s.books.unpaid && p in s.work
             && s.work[p].Finishing? && s.work[p].next == |s.work[p].rows|
    ensures var s := Run(Init(fold), steps);
            Apply(s, Cascade(p, true)).books.leaked == s.books.leaked
  {
    JointlyReached(fold, steps);
    OrderlyCascade(Run(Init(fold), steps), p);
  }

  lemma OrderlyCascade(s: State, p: nat)
    requires Joint(s) && !s.books.overlapped && !s.books.unpaid
    requires p in s.work && s.work[p].Finishing? && s.work[p].next == |s.work[p].rows|
    ensures Apply(s, Cascade(p, true)).books.leaked == s.books.leaked
  {
    var h := HandlingOf(s.work[p]).value;
    assert UpToDate(s.db, s.books.released, h);
    AllReleased(s.db, s.books.released, h);
    CascadedLeak(s.books, s.db, s.work[p].upload);
  }

  lemma CascadedLeak(b: Books, db: Tables, u: nat)
    requires forall p :: p in db.parts && p.upload == u ==> p in b.released
    ensures Cascaded(b, db, DeleteUpload(db, u)).leaked == b.leaked
  {
  }

  /** A digest whose count says that nothing refers to it is referred to, if at all, by
      part rows that were released; and by parts whose upload is about to be deleted,
      unless requests overlapped or one gave up. */
  lemma ZeroCountIsReleased(fold: Folding, steps: seq<Step>, k: Digest)
    requires !Run(Init(fold), steps).books.miscounted && Count(Run(Init(fold), steps).db, k) == 0
    ensures var s := Run(Init(fold), steps);
            && (forall o :: o in s.db.objects ==> s.db.objects[o].cas != k)
            && (forall p :: p in s.db.parts && s.db.parts[p].cas == k ==> p in s.books.released)
            && (!s.books.overlapped && !s.books.abandoned ==>
                  forall p :: p in s.db.parts && s.db.parts[p].cas == k ==>
                    exists q :: q in s.work && s.work[q].Finishing? && s.work[q].upload == p.upload)
  {
    JointlyReached(fold, steps);
    var s := Run(Init(fold), steps);
    assert On(s.books.claims, k) == {};
    forall o | o in s.db.objects ensures s.db.objects[o].cas != k {
      assert ObjectRef(o) !in On(s.books.claims, k);
    }
    forall p | p in s.db.parts && s.db.parts[p].cas == k ensures p in s.books.released {
      assert PartRef(p) !in On(s.books.claims, k);
    }
  }

  /** No decrement meets its floor: the row of an object to be deleted or overwritten
      has a positive count, and so has the part that a request is about to release. */
  lemma FloorIsNeverMet(fold: Folding, steps: seq<Step>)
    requires !Run(Init(fold), steps).books.miscounted
    ensures var s := Run(Init(fold), steps);
            && (forall o :: o in s.db.objects ==> Count(s.db, s.db.objects[o].cas) > 0)
            && (forall p :: p in s.db.parts && p !in s.books.released ==> Count(s.db, s.db.parts[p].cas) > 0)
            && (!s.books.overlapped ==>
                  forall q :: q in s.work && s.work[q].Finishing? && s.work[q].next < |s.work[q].rows| ==>
                    Count(s.db, s.work[q].rows[s.work[q].next].1) > 0)
  {
    JointlyReached(fold, steps);
    var s := Run(Init(fold), steps);
    forall o | o in s.db.objects ensures Count(s.db, s.db.objects[o].cas) > 0 {
      assert ObjectRef(o) in On(s.books.claims, s.db.objects[o].cas);
    }
    forall p | p in s.db.parts && p !in s.books.released ensures Count(s.db, s.db.parts[p].cas) > 0 {
      assert PartRef(p) in On(s.books.claims, s.db.parts[p].cas);
    }
    if !s.books.overlapped {
      forall q | q in s.work && s.work[q].Finishing? && s.work[q].next < |s.work[q].rows|
        ensures Count(s.db, s.work[q].rows[s.work[q].next].1) > 0
      {
        NextIsOwn(s, q);
      }
    }
  }

  lemma QuietStateIsExact(s: State)
    requires Joint(s) && !s.books.overlapped && !s.books.leaked && !s.books.abandoned
    requires forall q :: q in s.work ==> !s.work[q].Finishing?
    ensures s.books.released == {} && Accounted(s.db)
  {
    assert s.books.released == {};
    FaultlessIsLawful(s);
    AccountedIsLaw(s.db);
  }

  /** When no request is half way through releasing and none was given up there, the
      counts are exactly the references. Sequential runs of the handlers are such. */
  lemma QuietCountsAreExact(fold: Folding, steps: seq<Step>)
    requires var s := Run(Init(fold), steps);
             && !s.books.overlapped && !s.books.leaked && !s.books.abandoned
             && forall q :: q in s.work ==> !s.work[q].Finishing?
    ensures Accounted(Run(Init(fold), steps).db)
  {
    JointlyReached(fold, steps);
    QuietStateIsExact(Run(Init(fold), steps));
  }
}
