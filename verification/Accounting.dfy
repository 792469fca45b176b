/** The reference counts stay in step with the rows. */
module Accounting {
  import opened Base
  import opened Tables
  import opened Ledger
  import opened Protocol

  // ----- the invariant

  /** Each row holds its own claim, but for the part rows released already. */
  ghost predicate RowsClaim(db: Tables, c: Claims, released: set<PartId>) {
    && (forall s :: s in db.objects ==> ObjectRef(s) in c && c[ObjectRef(s)] == db.objects[s].cas)
    && (forall p :: p in db.parts && p !in released ==> PartRef(p) in c && c[PartRef(p)] == db.parts[p].cas)
    && (forall p :: p in released ==> p in db.parts && PartRef(p) !in c)
  }

  /** A claim without a row belongs to a bucket or an upload that is gone for good. */
  ghost predicate Fresh(db: Tables, c: Claims, used: set<nat>, lost: nat) {
    && (forall s :: ObjectRef(s) in c && s !in db.objects ==> s.bucket in used && s.bucket !in db.buckets)
    && (forall p :: PartRef(p) in c && p !in db.parts ==> p.upload in used && p.upload !in db.uploads)
    && (forall n: nat :: Lost(n) in c ==> n < lost)
    && db.buckets <= used && (forall u :: u in db.uploads ==> u in used)
  }

  ghost predicate Grounded(db: Tables, c: Claims, released: set<PartId>, used: set<nat>, lost: nat) {
    Consistent(db) && Backed(db, c) && RowsClaim(db, c, released) && Fresh(db, c, used, lost)
  }

  /** Without leaks every claim has its row. */
  ghost predicate Tight(db: Tables, c: Claims) {
    && (forall s :: ObjectRef(s) in c ==> s in db.objects)
    && (forall p :: PartRef(p) in c ==> p in db.parts)
    && (forall n: nat :: Lost(n) !in c)
  }

  /** The accounting law: each count, and the rows on the digest whose count has been
      taken back already, make up the rows on the digest. */
  ghost predicate Law(db: Tables, released: set<PartId>) {
    forall k :: Count(db, k) + |ReleasedRows(db, released, k)| == |ObjectRows(db, k)| + |PartRows(db, k)|
  }

  ghost predicate Lawful(s: State) {
    Law(s.db, s.books.released)
  }

  function ReleasedRows(db: Tables, released: set<PartId>, k: Digest): set<PartId> {
    set p | p in released && p in db.parts && db.parts[p].cas == k
  }

  /** The invariant: a count taken back wrongly is what breaks it, a leak only loosens it. */
  ghost predicate Inv(s: State) {
    !s.books.miscounted ==>
      && Grounded(s.db, s.books.claims, s.books.released, s.used, s.books.lost)
      && (!s.books.leaked ==> Tight(s.db, s.books.claims))
  }

  // ----- one transaction

  /** The claim of a row that was taken over is now nobody's. */
  lemma TakenOver(db: Tables, c: Claims, r: Ref, n: nat)
    requires Backed(db, c) && r in c && Lost(n) !in c && r != Lost(n)
    ensures Backed(db, (c - {r})[Lost(n) := c[r]])
  {
    var k := c[r];
    var c' := c - {r};
    ClaimDropped(c, r);
    ClaimAdded(c', Lost(n), k);
    forall j ensures Count(db, j) == |On(c'[Lost(n) := k], j)| {
      assert Count(db, j) == |On(c, j)|;
      if j != k {
        assert On(c'[Lost(n) := k], j) == On(c', j);
      }
    }
  }

  lemma PutObjectBacked(db: Tables, c: Claims, released: set<PartId>, used: set<nat>, lost: nat,
                        id: ObjectId, row: ObjectRow)
    requires Grounded(db, c, released, used, lost) && PutObject(db, id, row).Some?
    ensures Backed(PutObject(db, id, row).value.0, ObjectClaims(db, c, lost, id, row.cas))
  {
    var slot := SlotOf(db.fold, id);
    var found := SelectObject(db, id);
    var old' := if found.Some? then Some(found.value.cas) else None;
    if Collides(db, id) {
      TakenOver(db, c, ObjectRef(slot), lost);
      var c' := (c - {ObjectRef(slot)})[Lost(lost) := db.objects[slot].cas];
      MoveCountBacked(db, c', ObjectRef(slot), None, row.cas);
      assert c'[ObjectRef(slot) := row.cas] == ObjectClaims(db, c, lost, id, row.cas);
    } else {
      assert found.None? ==> ObjectRef(slot) !in c;
      MoveCountBacked(db, c, ObjectRef(slot), old', row.cas);
    }
    assert PutObject(db, id, row).value.0.blobs == MoveCount(db, old', row.cas).0.blobs;
  }

  lemma PutPartBacked(db: Tables, c: Claims, released: set<PartId>, used: set<nat>, lost: nat,
                      p: PartId, row: PartRow)
    requires Grounded(db, c, released, used, lost) && PutPart(db, p, row).Some? && p !in released
    ensures Backed(PutPart(db, p, row).value.0, c[PartRef(p) := row.cas])
  {
    var old' := if p in db.parts then Some(db.parts[p].cas) else None;
    assert p !in db.parts ==> PartRef(p) !in c;
    MoveCountBacked(db, c, PartRef(p), old', row.cas);
    assert PutPart(db, p, row).value.0.blobs == MoveCount(db, old', row.cas).0.blobs;
  }

  lemma MoveCountKeepsRows(db: Tables, old': Option<Digest>, k: Digest)
    requires old'.Some? ==> old'.value in db.blobs
    ensures var after := MoveCount(db, old', k).0;
            after.objects == db.objects && after.parts == db.parts
            && after.uploads == db.uploads && after.buckets == db.buckets
            && (forall j :: j in db.blobs ==> j in after.blobs) && k in after.blobs
  {
  }

  /** What a put leaves of the tables: one row in its slot, with the key it had. */
  lemma PutObjectRows(db: Tables, id: ObjectId, row: ObjectRow)
    requires Consistent(db) && PutObject(db, id, row).Some?
    ensures var after := PutObject(db, id, row).value.0;
            && SlotOf(db.fold, id) in after.objects && after.objects[SlotOf(db.fold, id)].cas == row.cas && after.fold == db.fold
            && (forall s :: s in after.objects && s != SlotOf(db.fold, id) ==> s in db.objects && after.objects[s] == db.objects[s])
            && (forall s :: s in db.objects ==> s in after.objects)
            && after.parts == db.parts && after.uploads == db.uploads && after.buckets == db.buckets
            && row.cas in after.blobs && (forall j :: j in db.blobs ==> j in after.blobs)
  {
    var found := SelectObject(db, id);
    MoveCountKeepsRows(db, if found.Some? then Some(found.value.cas) else None, row.cas);
  }

  lemma PutObjectConsistent(db: Tables, id: ObjectId, row: ObjectRow)
    requires Consistent(db) && PutObject(db, id, row).Some?
    ensures Consistent(PutObject(db, id, row).value.0)
  {
    PutObjectRows(db, id, row);
  }

  lemma ObjectClaimsKeepRows(db: Tables, after: Tables, c: Claims, released: set<PartId>, lost: nat, id: ObjectId, k: Digest)
    requires RowsClaim(db, c, released)
    requires SlotOf(db.fold, id) in after.objects && after.objects[SlotOf(db.fold, id)].cas == k && after.parts == db.parts
    requires forall s :: s in after.objects && s != SlotOf(db.fold, id) ==> s in db.objects && after.objects[s] == db.objects[s]
    ensures RowsClaim(after, ObjectClaims(db, c, lost, id, k), released)
  {
  }

  lemma ObjectClaimsKeepFresh(db: Tables, after: Tables, c: Claims, used: set<nat>, lost: nat, id: ObjectId, k: Digest)
    requires Fresh(db, c, used, lost)
    requires SlotOf(db.fold, id) in after.objects && forall s :: s in db.objects ==> s in after.objects
    requires after.parts == db.parts && after.uploads == db.uploads && after.buckets == db.buckets
    ensures Fresh(after, ObjectClaims(db, c, lost, id, k), used, lost + 1)
  {
  }

  lemma PutObjectGrounded(db: Tables, c: Claims, released: set<PartId>, used: set<nat>, lost: nat,
                          id: ObjectId, row: ObjectRow)
    requires Grounded(db, c, released, used, lost) && PutObject(db, id, row).Some?
    ensures Grounded(PutObject(db, id, row).value.0, ObjectClaims(db, c, lost, id, row.cas), released, used, lost + 1)
  {
    PutObjectBacked(db, c, released, used, lost, id, row);
    PutObjectRows(db, id, row);
    PutObjectConsistent(db, id, row);
    var after := PutObject(db, id, row).value.0;
    ObjectClaimsKeepRows(db, after, c, released, lost, id, row.cas);
    ObjectClaimsKeepFresh(db, after, c, used, lost, id, row.cas);
  }

  lemma PutPartRows(db: Tables, p: PartId, row: PartRow)
    requires Consistent(db) && PutPart(db, p, row).Some?
    ensures var after := PutPart(db, p, row).value.0;
            && p.upload in db.uploads && after.objects == db.objects && after.parts == db.parts[p := row]
            && after.uploads == db.uploads && after.buckets == db.buckets && after.fold == db.fold
            && Consistent(after)
  {
    MoveCountKeepsRows(db, if p in db.parts then Some(db.parts[p].cas) else None, row.cas);
  }

  lemma PutPartGrounded(db: Tables, c: Claims, released: set<PartId>, used: set<nat>, lost: nat,
                        p: PartId, row: PartRow)
    requires Grounded(db, c, released, used, lost) && PutPart(db, p, row).Some? && p !in released
    ensures Grounded(PutPart(db, p, row).value.0, c[PartRef(p) := row.cas], released, used, lost)
  {
    PutPartBacked(db, c, released, used, lost, p, row);
    PutPartRows(db, p, row);
  }

  lemma DeleteObjectGrounded(db: Tables, c: Claims, released: set<PartId>, used: set<nat>, lost: nat, id: ObjectId)
    requires Grounded(db, c, released, used, lost) && DeleteObject(db, id).Some?
    ensures Grounded(DeleteObject(db, id).value.0, c - {ObjectRef(SlotOf(db.fold, id))}, released, used, lost)
  {
    DecrementBacked(db, c, ObjectRef(SlotOf(db.fold, id)));
    assert DeleteObject(db, id).value.0.blobs == Decrement(db, SelectObject(db, id).value.cas).blobs;
  }

  lemma ReleaseGrounded(db: Tables, c: Claims, released: set<PartId>, used: set<nat>, lost: nat, p: PartId)
    requires Grounded(db, c, released, used, lost) && p in db.parts && p !in released
    ensures Grounded(Decrement(db, db.parts[p].cas), c - {PartRef(p)}, released + {p}, used, lost)
  {
    DecrementBacked(db, c, PartRef(p));
  }

  lemma DeleteUploadGrounded(db: Tables, c: Claims, released: set<PartId>, used: set<nat>, lost: nat, u: nat)
    requires Grounded(db, c, released, used, lost)
    ensures var after := DeleteUpload(db, u);
            Grounded(after, c, (set p | p in released && p in after.parts), used, lost)
  {
    var after := DeleteUpload(db, u);
    forall j ensures Count(after, j) == |On(c, j)| {
      assert Count(db, j) == |On(c, j)|;
    }
  }

  lemma DeleteBucketGrounded(db: Tables, c: Claims, released: set<PartId>, used: set<nat>, lost: nat, b: nat)
    requires Grounded(db, c, released, used, lost)
    ensures var after := DeleteBucket(db, b);
            Grounded(after, c, (set p | p in released && p in after.parts), used, lost)
  {
    var after := DeleteBucket(db, b);
    forall j ensures Count(after, j) == |On(c, j)| {
      assert Count(db, j) == |On(c, j)|;
    }
  }

  /** Nothing that has a row is dropped with an unreferenced blob. */
  lemma DropGrounded(db: Tables, c: Claims, released: set<PartId>, used: set<nat>, lost: nat, k: Digest)
    requires Grounded(db, c, released, used, lost) && DeleteBlob(db, k).Some?
    ensures Grounded(DeleteBlob(db, k).value, (map r | r in c && c[r] != k :: c[r]), released, used, lost)
  {
    var c' := map r | r in c && c[r] != k :: c[r];
    var after := DeleteBlob(db, k).value;
    forall j ensures Count(after, j) == |On(c', j)| {
      assert Count(db, j) == |On(c, j)|;
      assert On(c', j) == if j == k then {} else On(c, j);
    }
  }

  /** The put of a released part with the digest that it has: no count moves. */
  lemma RewriteGrounded(db: Tables, c: Claims, released: set<PartId>, used: set<nat>, lost: nat, p: PartId, row: PartRow)
    requires Grounded(db, c, released, used, lost) && PutPart(db, p, row).Some? && Rewritten(db, released, p, row.cas)
    ensures Grounded(PutPart(db, p, row).value.0, c, released, used, lost)
  {
    assert PutPart(db, p, row).value.0 == db.(parts := db.parts[p := row]);
    assert forall k :: Count(db.(parts := db.parts[p := row]), k) == Count(db, k);
  }

  /** The put of a released part with another digest, whose old count is at its floor. */
  lemma ReputGrounded(db: Tables, c: Claims, released: set<PartId>, used: set<nat>, lost: nat, p: PartId, row: PartRow)
    requires Grounded(db, c, released, used, lost) && PutPart(db, p, row).Some? && p in released
    requires db.parts[p].cas != row.cas && Count(db, db.parts[p].cas) == 0
    ensures Grounded(PutPart(db, p, row).value.0, c[PartRef(p) := row.cas], released - {p}, used, lost)
  {
    var after := PutPart(db, p, row).value.0;
    IncrementBacked(db, c, PartRef(p), row.cas);
    assert after.blobs == Increment(db, row.cas).blobs;
    assert forall k :: Count(after, k) == Count(Increment(db, row.cas), k);
  }

  // ----- steps

  /** A step without a part in the accounting. */
  ghost predicate Quiet(s: State, t: State) {
    t.db == s.db && t.books.(overlapped := s.books.overlapped, unpaid := s.books.unpaid, abandoned := s.books.abandoned) == s.books
    && t.used == s.used
  }

  lemma CreateBucketKeeps(s: State, b: nat)
    requires Inv(s) && b !in s.used
    ensures Inv(s.(db := s.db.(buckets := s.db.buckets + {b}), used := s.used + {b}))
  {
    assert forall j :: Count(s.db.(buckets := s.db.buckets + {b}), j) == Count(s.db, j);
  }

  lemma CreateUploadKeeps(s: State, u: nat, row: UploadRow)
    requires Inv(s) && u !in s.used && row.bucket in s.db.buckets
    ensures Inv(s.(db := s.db.(uploads := s.db.uploads[u := row]), used := s.used + {u}))
  {
    assert forall j :: Count(s.db.(uploads := s.db.uploads[u := row]), j) == Count(s.db, j);
  }

  /** Rows go, and none of them had its count left behind. */
  lemma FewerRowsTight(before: Tables, after: Tables, c: Claims, released: set<PartId>)
    requires Tight(before, c) && RowsClaim(before, c, released)
    requires forall t :: t in before.objects ==> t in after.objects
    requires forall p :: p in before.parts && p !in released ==> p in after.parts
    ensures Tight(after, c)
  {
  }

  lemma RemoveBucketKeeps(s: State, b: nat)
    requires Inv(s)
    ensures Inv(DoRemoveBucket(s, b))
  {
    var t := DoRemoveBucket(s, b);
    if !s.books.miscounted {
      DeleteBucketGrounded(s.db, s.books.claims, s.books.released, s.used, s.books.lost, b);
      if !t.books.leaked {
        FewerRowsTight(s.db, t.db, s.books.claims, s.books.released);
      }
    }
  }

  lemma RemoveUploadKeeps(s: State, u: nat)
    requires Inv(s)
    ensures Inv(DoRemoveUpload(s, u))
  {
    var t := DoRemoveUpload(s, u);
    if !s.books.miscounted {
      DeleteUploadGrounded(s.db, s.books.claims, s.books.released, s.used, s.books.lost, u);
      if !t.books.leaked {
        FewerRowsTight(s.db, t.db, s.books.claims, s.books.released);
      }
    }
  }

  lemma RemoveObjectKeeps(s: State, id: ObjectId)
    requires Inv(s)
    ensures Inv(DoRemoveObject(s, id))
  {
    if !s.books.miscounted && DeleteObject(s.db, id).Some? {
      DeleteObjectGrounded(s.db, s.books.claims, s.books.released, s.used, s.books.lost, id);
    }
  }

  lemma DropRowKeeps(s: State)
    requires Inv(s) && s.gc.Confirmed?
    ensures Inv(DoDropRow(s))
  {
    if !s.books.miscounted && DeleteBlob(s.db, s.gc.key).Some? {
      DropGrounded(s.db, s.books.claims, s.books.released, s.used, s.books.lost, s.gc.key);
    }
  }

  lemma CommitObjectKeeps(s: State, id: ObjectId, row: ObjectRow)
    requires Inv(s)
    ensures CommitObject(s, id, row).Some? ==> Inv(CommitObject(s, id, row).value)
  {
    if !s.books.miscounted && CommitObject(s, id, row).Some? {
      PutObjectGrounded(s.db, s.books.claims, s.books.released, s.used, s.books.lost, id, row);
      PutObjectRows(s.db, id, row);
    }
  }

  lemma PutPartTight(db: Tables, c: Claims, p: PartId, row: PartRow)
    requires Tight(db, c) && PutPart(db, p, row).Some?
    ensures Tight(PutPart(db, p, row).value.0, c) && Tight(PutPart(db, p, row).value.0, c[PartRef(p) := row.cas])
  {
    MoveCountObjects(db, p, row);
  }

  lemma MoveCountObjects(db: Tables, p: PartId, row: PartRow)
    requires PutPart(db, p, row).Some?
    ensures PutPart(db, p, row).value.0.objects == db.objects
    ensures PutPart(db, p, row).value.0.parts == db.parts[p := row]
  {
  }

  lemma CommitPartKeeps(s: State, p: PartId, row: PartRow)
    requires Inv(s)
    ensures CommitPart(s, p, row).Some? ==> Inv(CommitPart(s, p, row).value)
  {
    var c := CommitPart(s, p, row);
    if c.Some? && !c.value.books.miscounted {
      var (claims, released) := (s.books.claims, s.books.released);
      if Rewritten(s.db, released, p, row.cas) {
        RewriteGrounded(s.db, claims, released, s.used, s.books.lost, p, row);
      } else if p in released {
        ReputGrounded(s.db, claims, released, s.used, s.books.lost, p, row);
      } else {
        PutPartGrounded(s.db, claims, released, s.used, s.books.lost, p, row);
        assert released - {p} == released;
      }
      if !s.books.leaked {
        PutPartTight(s.db, claims, p, row);
      }
    }
  }

  lemma CommitKeeps(s: State, p: nat)
    requires Inv(s) && p in s.work && s.work[p].Uploading?
    ensures Inv(DoCommit(s, p, s.work[p]))
  {
    var w := s.work[p];
    var k, n := Sha256(w.bytes), |w.bytes|;
    match w.target
    case ToPart(part, etag) => CommitPartKeeps(s, part, PartRow(k, n, etag));
    case ToObject(id, etag, contentType) => CommitObjectKeeps(s, id, ObjectRow(id.key, k, n, etag, contentType));
    case ToCompleted(u, id, etag, contentType, rows, size) =>
      CommitObjectKeeps(s, id, ObjectRow(id.key, k, size, etag, contentType));
  }

  lemma ReleaseKeeps(s: State, p: nat, ok: bool)
    requires Inv(s) && p in s.work && s.work[p].Finishing? && s.work[p].next < |s.work[p].rows|
    ensures Inv(DoRelease(s, p, s.work[p], ok))
  {
    var t := DoRelease(s, p, s.work[p], ok);
    var (part, k) := s.work[p].rows[s.work[p].next];
    if ok && !t.books.miscounted {
      if TakesOwn(s.db, s.books.released, part, k) {
        ReleaseGrounded(s.db, s.books.claims, s.books.released, s.used, s.books.lost, part);
      } else {
        assert t.db == s.db;
      }
    }
  }

  lemma CascadeKeeps(s: State, p: nat, ok: bool)
    requires Inv(s) && p in s.work && s.work[p].Finishing?
    ensures Inv(DoCascade(s, p, s.work[p], ok))
  {
    var t := DoCascade(s, p, s.work[p], ok);
    if ok && !s.books.miscounted {
      DeleteUploadGrounded(s.db, s.books.claims, s.books.released, s.used, s.books.lost, s.work[p].upload);
      if !t.books.leaked {
        FewerRowsTight(s.db, t.db, s.books.claims, s.books.released);
      }
    }
  }

  /** Steps that change no table. */
  predicate IsQuiet(step: Step) {
    Starts(step) || step.CheckExists? || step.Store? || step.FailCommit? || step.Clean?
    || step.Merge?
    || (Collects(step) && !step.DropRow?)
  }

  lemma QuietCollects(s: State, step: Step)
    requires Collects(step) && !step.DropRow?
    ensures Quiet(s, Collect(s, step))
  {
  }

  lemma QuietSteps(s: State, step: Step)
    requires IsQuiet(step)
    ensures Quiet(s, Apply(s, step))
  {
    if Collects(step) {
      QuietCollects(s, step);
    }
  }

  lemma StepKeeps(s: State, step: Step)
    requires Inv(s)
    ensures Inv(Apply(s, step))
  {
    if IsQuiet(step) {
      QuietSteps(s, step);
    } else {
      match step
      case CreateBucket(b) => if b !in s.used { CreateBucketKeeps(s, b); }
      case CreateUpload(u, row) => if u !in s.used && row.bucket in s.db.buckets { CreateUploadKeeps(s, u, row); }
      case RemoveBucket(b) => RemoveBucketKeeps(s, b);
      case RemoveUpload(u) => RemoveUploadKeeps(s, u);
      case RemoveObject(id) => RemoveObjectKeeps(s, id);
      case DropRow(ok) => if s.gc.Confirmed? && ok { DropRowKeeps(s); }
      case Commit(p) => if p in s.work && s.work[p].Uploading? && s.work[p].stage.Stored? { CommitKeeps(s, p); }
      case Release(p, ok) =>
        if p in s.work && s.work[p].Finishing? && s.work[p].next < |s.work[p].rows| { ReleaseKeeps(s, p, ok); }
      case Cascade(p, ok) =>
        if p in s.work && s.work[p].Finishing? && s.work[p].next == |s.work[p].rows| { CascadeKeeps(s, p, ok); }
    }
  }

  lemma {:induction false} RunKeeps(s: State, steps: seq<Step>)
    requires Inv(s)
    ensures Inv(Run(s, steps))
    decreases |steps|
  {
    if steps != [] {
      StepKeeps(s, steps[0]);
      RunKeeps(Apply(s, steps[0]), steps[1..]);
    }
  }

  lemma Reached(fold: Folding, steps: seq<Step>)
    ensures Inv(Run(Init(fold), steps))
  {
    assert forall k :: On(map[], k) == {};
    RunKeeps(Init(fold), steps);
  }

  // ----- the law and the claims

  /** The claims of the rows whose counts have not been taken back. */
  function RowRefs(db: Tables, released: set<PartId>): set<Ref> {
    (set o | o in db.objects :: ObjectRef(o)) + (set p | p in db.parts && p !in released :: PartRef(p))
  }

  function Rowed(db: Tables, released: set<PartId>): Claims {
    map r | r in RowRefs(db, released) :: (match r case ObjectRef(o) => db.objects[o].cas case PartRef(p) => db.parts[p].cas)
  }

  function ObjectRefs(os: set<Slot>): set<Ref> {
    set o | o in os :: ObjectRef(o)
  }

  function PartRefs(ps: set<PartId>): set<Ref> {
    set p | p in ps :: PartRef(p)
  }

  lemma RowedOnRefs(db: Tables, released: set<PartId>, k: Digest)
    ensures On(Rowed(db, released), k)
            == ObjectRefs(ObjectRows(db, k)) + PartRefs(PartRows(db, k) - ReleasedRows(db, released, k))
  {
    var rowed := Rowed(db, released);
    var refs := ObjectRefs(ObjectRows(db, k)) + PartRefs(PartRows(db, k) - ReleasedRows(db, released, k));
    forall r ensures r in On(rowed, k) <==> r in refs {
      match r
      case ObjectRef(o) => assert o in db.objects <==> ObjectRef(o) in rowed;
      case PartRef(p) => assert p in db.parts && p !in released <==> PartRef(p) in rowed;
      case Lost(n) =>
    }
  }

  lemma RowedOn(db: Tables, released: set<PartId>, k: Digest)
    ensures |On(Rowed(db, released), k)| + |ReleasedRows(db, released, k)| == |ObjectRows(db, k)| + |PartRows(db, k)|
  {
    var released' := ReleasedRows(db, released, k);
    var unreleased := PartRows(db, k) - released';
    RowedOnRefs(db, released, k);
    ObjectRefCount(ObjectRows(db, k));
    PartRefCount(unreleased);
    assert ObjectRefs(ObjectRows(db, k)) !! PartRefs(unreleased);
    assert released' <= PartRows(db, k);
    assert PartRows(db, k) == unreleased + released';
  }

  // ----- the rows' claims after a step

  lemma RowedSame(db: Tables, after: Tables, released: set<PartId>)
    requires after.objects == db.objects && after.parts == db.parts
    ensures Rowed(after, released) == Rowed(db, released)
  {
    assert RowRefs(after, released) == RowRefs(db, released);
  }

  lemma RowedAfterObject(db: Tables, after: Tables, released: set<PartId>, slot: Slot)
    requires slot in after.objects && after.parts == db.parts
    requires forall s :: s != slot ==> (s in after.objects <==> s in db.objects)
    requires forall s :: s != slot && s in db.objects ==> after.objects[s] == db.objects[s]
    ensures Rowed(after, released) == Rowed(db, released)[ObjectRef(slot) := after.objects[slot].cas]
  {
    assert RowRefs(after, released) == RowRefs(db, released) + {ObjectRef(slot)};
  }

  lemma RowedAfterPart(db: Tables, after: Tables, released: set<PartId>, p: PartId, row: PartRow)
    requires after.objects == db.objects && after.parts == db.parts[p := row]
    ensures Rowed(after, released - {p}) == Rowed(db, released)[PartRef(p) := row.cas]
    ensures p in released && p in db.parts ==> Rowed(after, released) == Rowed(db, released)
  {
    assert RowRefs(after, released - {p}) == RowRefs(db, released) + {PartRef(p)};
    if p in released && p in db.parts {
      assert RowRefs(after, released) == RowRefs(db, released);
    }
  }

  lemma RowedAfterRelease(db: Tables, after: Tables, released: set<PartId>, p: PartId)
    requires after.objects == db.objects && after.parts == db.parts
    ensures Rowed(after, released + {p}) == Rowed(db, released) - {PartRef(p)}
  {
    assert RowRefs(after, released + {p}) == RowRefs(db, released) - {PartRef(p)};
  }

  lemma LawIffRowed(db: Tables, released: set<PartId>)
    ensures Law(db, released) <==> Backed(db, Rowed(db, released))
  {
    forall k ensures Count(db, k) + |ReleasedRows(db, released, k)| == |ObjectRows(db, k)| + |PartRows(db, k)|
                     <==> Count(db, k) == |On(Rowed(db, released), k)|
    {
      RowedOn(db, released, k);
    }
  }

  /** Without leaks the claims are those of the rows. */
  lemma ClaimsAreRowed(db: Tables, c: Claims, released: set<PartId>)
    requires RowsClaim(db, c, released) && Tight(db, c)
    ensures c == Rowed(db, released)
  {
    forall r ensures r in c <==> r in RowRefs(db, released) {
      match r
      case ObjectRef(o) =>
      case PartRef(p) =>
      case Lost(n) =>
    }
  }

  lemma FaultlessIsLawful(s: State)
    requires Inv(s) && !s.books.miscounted && !s.books.leaked
    ensures Law(s.db, s.books.released) && Backed(s.db, Rowed(s.db, s.books.released))
  {
    ClaimsAreRowed(s.db, s.books.claims, s.books.released);
    LawIffRowed(s.db, s.books.released);
  }

  // ----- the steps that break the law

  /** A claim that moves without its old digest being released no longer fits. */
  lemma MovedWithoutRelease(db: Tables, after: Tables, c: Claims, r: Ref, k: Digest)
    requires Backed(db, c) && r in c && after.blobs == Increment(db, k).blobs
    ensures !Backed(after, c[r := k])
  {
    var was := c[r];
    assert Count(db, was) == |On(c, was)|;
    if was == k {
      assert c[r := k] == c;
      assert Count(after, was) == Count(db, was) + 1;
    } else {
      assert Count(after, was) == Count(db, was);
      assert On(c[r := k], was) == On(c, was) - {r};
      assert r in On(c, was);
    }
  }

  /** A claim that goes while its count stays no longer fits. */
  lemma GoneWithoutRelease(db: Tables, after: Tables, c: Claims, c': Claims, r: Ref)
    requires Backed(db, c) && after.blobs == db.blobs
    requires forall q :: q in c' ==> q in c && c[q] == c'[q]
    requires r in c && r !in c'
    ensures !Backed(after, c')
  {
    var k := c[r];
    assert Count(after, k) == Count(db, k) == |On(c, k)|;
    assert r in On(c, k) && r !in On(c', k) && On(c', k) <= On(c, k);
    assert On(c, k) == On(c', k) + (On(c, k) - On(c', k));
  }

  lemma TakenTwice(db: Tables, after: Tables, c: Claims, k: Digest)
    requires Backed(db, c) && Count(after, k) < Count(db, k)
    ensures !Backed(after, c)
  {
    assert Count(db, k) == |On(c, k)|;
  }

  lemma PutObjectRowed(db: Tables, released: set<PartId>, id: ObjectId, row: ObjectRow)
    requires Consistent(db) && PutObject(db, id, row).Some?
    ensures Rowed(PutObject(db, id, row).value.0, released)
            == Rowed(db, released)[ObjectRef(SlotOf(db.fold, id)) := row.cas]
  {
    PutObjectRows(db, id, row);
    RowedAfterObject(db, PutObject(db, id, row).value.0, released, SlotOf(db.fold, id));
  }

  lemma TakeoverBreaks(db: Tables, released: set<PartId>, id: ObjectId, row: ObjectRow)
    requires Consistent(db) && Law(db, released) && PutObject(db, id, row).Some? && Collides(db, id)
    ensures !Law(PutObject(db, id, row).value.0, released)
  {
    var after := PutObject(db, id, row).value.0;
    var slot := ObjectRef(SlotOf(db.fold, id));
    LawIffRowed(db, released);
    LawIffRowed(after, released);
    PutObjectRowed(db, released, id, row);
    assert after.blobs == Increment(db, row.cas).blobs;
    assert slot in Rowed(db, released);
    MovedWithoutRelease(db, after, Rowed(db, released), slot, row.cas);
  }

  /** A put of an object from exact counts: it keeps the law unless it takes over the row
      of another key. */
  lemma PutKeepsLaw(db: Tables, released: set<PartId>, id: ObjectId, row: ObjectRow)
    requires Consistent(db) && Law(db, released) && PutObject(db, id, row).Some?
    ensures Law(PutObject(db, id, row).value.0, released) <==> !Collides(db, id)
  {
    if Collides(db, id) {
      TakeoverBreaks(db, released, id, row);
    } else {
      OwnPutKeepsLaw(db, released, id, row);
    }
  }

  lemma OwnPutKeepsLaw(db: Tables, released: set<PartId>, id: ObjectId, row: ObjectRow)
    requires Consistent(db) && Law(db, released) && PutObject(db, id, row).Some? && !Collides(db, id)
    ensures Law(PutObject(db, id, row).value.0, released)
  {
    var after := PutObject(db, id, row).value.0;
    var slot := SlotOf(db.fold, id);
    var c := Rowed(db, released);
    var found := SelectObject(db, id);
    var old' := if found.Some? then Some(found.value.cas) else None;
    LawIffRowed(db, released);
    assert ObjectRef(slot) in c <==> slot in db.objects;
    MoveCountBacked(db, c, ObjectRef(slot), old', row.cas);
    PutObjectRowed(db, released, id, row);
    SameCounts(MoveCount(db, old', row.cas).0, after, c[ObjectRef(slot) := row.cas]);
    LawIffRowed(after, released);
  }

  lemma SameCounts(db: Tables, after: Tables, c: Claims)
    requires Backed(db, c) && after.blobs == db.blobs
    ensures Backed(after, c)
  {
    assert forall k :: Count(after, k) == Count(db, k);
  }

  /** With nothing released, the law is that counts are references. */
  lemma AccountedIsLaw(db: Tables)
    ensures Accounted(db) <==> Law(db, {})
  {
    assert forall k :: ReleasedRows(db, {}, k) == {};
  }

  /** A put keeps the accounting exactly when the index entry of its key, the first 255
      characters as the collation sees them, does not hold the row of another key. */
  lemma PutKeepsAccounting(db: Tables, id: ObjectId, row: ObjectRow)
    requires Consistent(db) && Accounted(db) && PutObject(db, id, row).Some?
    ensures Accounted(PutObject(db, id, row).value.0) <==> !Collides(db, id)
  {
    AccountedIsLaw(db);
    AccountedIsLaw(PutObject(db, id, row).value.0);
    PutKeepsLaw(db, {}, id, row);
  }

  /** Taking a count back for a part keeps the law exactly when it is the part's own, or
      when there is nothing left to take. */
  lemma ReleaseKeepsLaw(db: Tables, released: set<PartId>, p: PartId, k: Digest)
    requires Law(db, released)
    ensures var own := TakesOwn(db, released, p, k);
            Law(Decrement(db, k), if own then released + {p} else released) <==> own || Count(db, k) == 0
  {
    var c := Rowed(db, released);
    LawIffRowed(db, released);
    if TakesOwn(db, released, p, k) {
      DecrementBacked(db, c, PartRef(p));
      RowedAfterRelease(db, Decrement(db, k), released, p);
      LawIffRowed(Decrement(db, k), released + {p});
    } else {
      LawIffRowed(Decrement(db, k), released);
      RowedSame(db, Decrement(db, k), released);
      if Count(db, k) > 0 {
        TakenTwice(db, Decrement(db, k), c, k);
      } else {
        assert Decrement(db, k) == db;
      }
    }
  }

  /** Putting a part keeps the law exactly when its row has not been released, or is put
      with the digest that it has, or its old digest has no count left. */
  lemma PartPutKeepsLaw(db: Tables, released: set<PartId>, p: PartId, row: PartRow)
    requires Law(db, released) && PutPart(db, p, row).Some?
    requires forall q :: q in released ==> q in db.parts
    ensures var after := PutPart(db, p, row).value.0;
            Law(after, if Rewritten(db, released, p, row.cas) then released else released - {p})
            <==> !PutMiscounts(db, released, p, row.cas)
  {
    var after := PutPart(db, p, row).value.0;
    var released' := if Rewritten(db, released, p, row.cas) then released else released - {p};
    LawIffRowed(db, released);
    LawIffRowed(after, released');
    MoveCountObjects(db, p, row);
    RowedAfterPart(db, after, released, p, row);
    if Rewritten(db, released, p, row.cas) {
      SameCounts(db, after, Rowed(db, released));
    } else {
      PartPutMoves(db, released, p, row);
    }
  }

  lemma PartPutMoves(db: Tables, released: set<PartId>, p: PartId, row: PartRow)
    requires Backed(db, Rowed(db, released)) && PutPart(db, p, row).Some? && !Rewritten(db, released, p, row.cas)
    requires forall q :: q in released ==> q in db.parts
    ensures Backed(PutPart(db, p, row).value.0, Rowed(db, released)[PartRef(p) := row.cas])
            <==> !PutMiscounts(db, released, p, row.cas)
  {
    var c := Rowed(db, released);
    var after := PutPart(db, p, row).value.0;
    var old' := if p in db.parts then Some(db.parts[p].cas) else None;
    assert forall j :: Count(after, j) == Count(MoveCount(db, old', row.cas).0, j);
    if p !in released {
      MoveCountBacked(db, c, PartRef(p), old', row.cas);
    } else {
      assert PartRef(p) !in c;
      IncrementBacked(db, c, PartRef(p), row.cas);
      if PutMiscounts(db, released, p, row.cas) {
        TakenTwice(Increment(db, row.cas), after, c[PartRef(p) := row.cas], old'.value);
      } else {
        assert forall j :: Count(after, j) == Count(Increment(db, row.cas), j);
      }
    }
  }

  lemma FewerRowed(before: Tables, after: Tables, released: set<PartId>, released': set<PartId>)
    requires forall t :: t in after.objects ==> t in before.objects && after.objects[t] == before.objects[t]
    requires forall p :: p in after.parts ==> p in before.parts && after.parts[p] == before.parts[p]
    requires forall p :: p in after.parts ==> (p in released <==> p in released')
    ensures forall r :: r in Rowed(after, released') ==>
              r in Rowed(before, released) && Rowed(before, released)[r] == Rowed(after, released')[r]
  {
  }

  lemma CascadeBreaks(before: Tables, after: Tables, released: set<PartId>)
    requires Law(before, released) && after.blobs == before.blobs
    requires forall t :: t in after.objects ==> t in before.objects && after.objects[t] == before.objects[t]
    requires forall p :: p in after.parts ==> p in before.parts && after.parts[p] == before.parts[p]
    requires (exists t :: t in before.objects && t !in after.objects)
             || exists p :: p in before.parts && p !in after.parts && p !in released
    ensures !Law(after, set p | p in released && p in after.parts)
  {
    var released' := set p | p in released && p in after.parts;
    var c, c' := Rowed(before, released), Rowed(after, released');
    LawIffRowed(before, released);
    LawIffRowed(after, released');
    FewerRowed(before, after, released, released');
    var r: Ref;
    if t :| t in before.objects && t !in after.objects {
      r := ObjectRef(t);
    } else {
      var p :| p in before.parts && p !in after.parts && p !in released;
      r := PartRef(p);
    }
    GoneWithoutRelease(before, after, c, c', r);
  }

  predicate Faulty(b: Books) {
    b.miscounted || b.leaked
  }

  lemma CommitFaultBreaks(s: State, p: nat)
    requires Inv(s) && !Faulty(s.books) && p in s.work && s.work[p].Uploading?
    requires Faulty(DoCommit(s, p, s.work[p]).books)
    ensures var t := DoCommit(s, p, s.work[p]); !Law(t.db, t.books.released)
  {
    var w := s.work[p];
    var k, n := Sha256(w.bytes), |w.bytes|;
    FaultlessIsLawful(s);
    match w.target
    case ToPart(part, etag) => PartPutKeepsLaw(s.db, s.books.released, part, PartRow(k, n, etag));
    case ToObject(id, etag, contentType) =>
      PutKeepsLaw(s.db, s.books.released, id, ObjectRow(id.key, k, n, etag, contentType));
    case ToCompleted(u, id, etag, contentType, rows, size) =>
      PutKeepsLaw(s.db, s.books.released, id, ObjectRow(id.key, k, size, etag, contentType));
  }

  lemma CutFaultBreaks(s: State, after: Tables)
    requires Inv(s) && !Faulty(s.books) && Faulty(Cascaded(s.books, s.db, after))
    requires after.blobs == s.db.blobs
    requires forall t :: t in after.objects ==> t in s.db.objects && after.objects[t] == s.db.objects[t]
    requires forall p :: p in after.parts ==> p in s.db.parts && after.parts[p] == s.db.parts[p]
    ensures !Law(after, Cascaded(s.books, s.db, after).released)
  {
    FaultlessIsLawful(s);
    CascadeBreaks(s.db, after, s.books.released);
  }

  lemma BucketFaultBreaks(s: State, b: nat)
    requires Inv(s) && !Faulty(s.books) && Faulty(DoRemoveBucket(s, b).books)
    ensures !Lawful(DoRemoveBucket(s, b))
  {
    CutFaultBreaks(s, DeleteBucket(s.db, b));
  }

  lemma UploadFaultBreaks(s: State, u: nat)
    requires Inv(s) && !Faulty(s.books) && Faulty(DoRemoveUpload(s, u).books)
    ensures !Lawful(DoRemoveUpload(s, u))
  {
    CutFaultBreaks(s, DeleteUpload(s.db, u));
  }

  lemma CascadeFaultBreaks(s: State, p: nat)
    requires Inv(s) && !Faulty(s.books) && p in s.work && s.work[p].Finishing?
    requires Faulty(DoCascade(s, p, s.work[p], true).books)
    ensures !Lawful(DoCascade(s, p, s.work[p], true))
  {
    CutFaultBreaks(s, DeleteUpload(s.db, s.work[p].upload));
  }

  lemma ReleaseFaultBreaks(s: State, p: nat)
    requires Inv(s) && !Faulty(s.books)
    requires p in s.work && s.work[p].Finishing? && s.work[p].next < |s.work[p].rows|
    requires Faulty(DoRelease(s, p, s.work[p], true).books)
    ensures var t := DoRelease(s, p, s.work[p], true); !Law(t.db, t.books.released)
  {
    FaultlessIsLawful(s);
    var (part, k) := s.work[p].rows[s.work[p].next];
    ReleaseKeepsLaw(s.db, s.books.released, part, k);
  }

  /** The steps that can be faults, and what they do. */
  ghost predicate CanFault(s: State, step: Step, t: State) {
    match step
    case RemoveBucket(b) => t == DoRemoveBucket(s, b)
    case RemoveUpload(u) => t == DoRemoveUpload(s, u)
    case Commit(p) => p in s.work && s.work[p].Uploading? && t == DoCommit(s, p, s.work[p])
    case Release(p, ok) =>
      p in s.work && s.work[p].Finishing? && s.work[p].next < |s.work[p].rows| && ok && t == DoRelease(s, p, s.work[p], true)
    case Cascade(p, ok) => p in s.work && s.work[p].Finishing? && ok && t == DoCascade(s, p, s.work[p], true)
    case _ => false
  }

  lemma OnlySomeFault(s: State, step: Step)
    requires !Faulty(s.books) && Faulty(Apply(s, step).books)
    ensures CanFault(s, step, Apply(s, step))
  {
    if IsQuiet(step) {
      QuietSteps(s, step);
      assert false;
    }
  }

  lemma FaultOfBreaksLaw(s: State, step: Step, t: State)
    requires Inv(s) && !Faulty(s.books) && Faulty(t.books) && CanFault(s, step, t)
    ensures !Lawful(t)
  {
    match step
    case RemoveBucket(b) => BucketFaultBreaks(s, b);
    case RemoveUpload(u) => UploadFaultBreaks(s, u);
    case Commit(p) => CommitFaultBreaks(s, p);
    case Release(p, ok) => ReleaseFaultBreaks(s, p);
    case Cascade(p, ok) => CascadeFaultBreaks(s, p);
  }

  /** A step is a fault exactly because it breaks the law. */
  lemma FaultBreaksLaw(s: State, step: Step)
    requires Inv(s) && !Faulty(s.books) && Faulty(Apply(s, step).books)
    ensures !Lawful(Apply(s, step))
  {
    OnlySomeFault(s, step);
    FaultOfBreaksLaw(s, step, Apply(s, step));
  }

  lemma CommitFaultsStay(s: State, p: nat)
    requires p in s.work && s.work[p].Uploading? && Faulty(s.books)
    ensures Faulty(DoCommit(s, p, s.work[p]).books)
  {
  }

  lemma FaultsStay(s: State, step: Step)
    requires Faulty(s.books)
    ensures Faulty(Apply(s, step).books)
  {
    if step.Commit? && step.proc in s.work && s.work[step.proc].Uploading? {
      CommitFaultsStay(s, step.proc);
    }
  }

  lemma {:induction false} FaultsStayInRun(fold: Folding, steps: seq<Step>, n: nat)
    requires n <= |steps| && Faulty(Prefix(Init(fold), steps, n).books)
    ensures Faulty(Run(Init(fold), steps).books)
    decreases |steps|
  {
    if n == |steps| {
      assert steps[..n] == steps;
    } else {
      var front := steps[..|steps| - 1];
      PrefixOfFront(Init(fold), steps, n);
      FaultsStayInRun(fold, front, n);
      LastOfRun(Init(fold), steps);
      FaultsStay(Run(Init(fold), front), steps[|steps| - 1]);
    }
  }

  lemma {:induction false} FaultyRunBreaksLaw(fold: Folding, steps: seq<Step>)
    requires Faulty(Run(Init(fold), steps).books)
    ensures exists n :: 0 <= n <= |steps| && !Lawful(Prefix(Init(fold), steps, n))
    decreases |steps|
  {
    var front, last := steps[..|steps| - 1], steps[|steps| - 1];
    var s := Run(Init(fold), front);
    LastOfRun(Init(fold), steps);
    if Faulty(s.books) {
      FaultyRunBreaksLaw(fold, front);
      var n :| 0 <= n <= |front| && !Lawful(Prefix(Init(fold), front, n));
      PrefixOfFront(Init(fold), steps, n);
    } else {
      Reached(fold, front);
      FaultBreaksLaw(s, last);
      assert !Lawful(Prefix(Init(fold), steps, |steps|));
    }
  }

  /** The accounting theorem. Over all runs of requests and collector steps, in any
      interleaving, with any of them failing: at all times each count plus the part rows
      that have been released is the number of rows, if and only if no release or put of a
      part took back a count that was not its own row's, and no row went without its
      count. */
  lemma LawHoldsIffFaultless(fold: Folding, steps: seq<Step>)
    ensures (forall n :: 0 <= n <= |steps| ==> Lawful(Prefix(Init(fold), steps, n)))
            <==> !Faulty(Run(Init(fold), steps).books)
  {
    if Faulty(Run(Init(fold), steps).books) {
      FaultyRunBreaksLaw(fold, steps);
    } else {
      forall n | 0 <= n <= |steps| ensures Lawful(Prefix(Init(fold), steps, n)) {
        if Faulty(Prefix(Init(fold), steps, n).books) {
          FaultsStayInRun(fold, steps, n);
        }
        Reached(fold, steps[..n]);
        FaultlessIsLawful(Prefix(Init(fold), steps, n));
      }
    }
  }

  lemma Subset<T>(a: set<T>, b: set<T>)
    requires a <= b
    ensures |a| <= |b|
  {
    assert b == a + (b - a);
  }

  /** With leaks, counts are too high, never too low. */
  lemma CountsCoverReferences(fold: Folding, steps: seq<Step>, k: Digest)
    requires !Run(Init(fold), steps).books.miscounted
    ensures var s := Run(Init(fold), steps);
            Count(s.db, k) + |ReleasedRows(s.db, s.books.released, k)| >= |ObjectRows(s.db, k)| + |PartRows(s.db, k)|
  {
    Reached(fold, steps);
    var s := Run(Init(fold), steps);
    RowedOn(s.db, s.books.released, k);
    var rowed := On(Rowed(s.db, s.books.released), k);
    assert rowed <= On(s.books.claims, k);
    Subset(rowed, On(s.books.claims, k));
  }
}
