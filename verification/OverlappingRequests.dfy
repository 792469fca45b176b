/** Requests on one upload that overlap break the accounting: two runs. */
module OverlappingRequests {
  import opened Base
  import opened Tables
  import opened Ledger
  import opened Protocol
  import opened StraddledUpload

  const PART := PartId(1, 1)
  const BYTES: Octets := "x"
  const OTHER: Octets := "y"
  const J := Sha256(OTHER)
  const UPLOAD := UploadRow(0, "a", "")
  const SLOT := SlotOf(PLAIN, LOST_ID)
  const LISTED: seq<(PartId, Digest)> := [(PART, K)]
  const TO_PART := ToPart(PART, "")

  /** A bucket, an upload, and one part of it. */
  const OPENING: seq<Step> := [
    CreateBucket(0), CreateUpload(1, UPLOAD),
    Begin(0, BYTES, [], TO_PART), CheckExists(0), Store(0), Commit(0)]

  const PARTED := State(Tables(PLAIN, {0}, map[K := 1], map[], map[1 := UPLOAD], map[PART := PartRow(K, 1, "")]),
                        map[K := BYTES], Idle, map[], {0, 1},
                        Books(map[PartRef(PART) := K], {}, 0, false, false, false, false, false), NO_MISHAPS)

  function ToUpload(bytes: Octets, stage: Stage): Work {
    Uploading(bytes, [], TO_PART, stage, false, false)
  }

  lemma Move(run: seq<Step>, n: nat, s: State, step: Step, t: State)
    requires n < |run| && At(run, n) == s && run[n] == step && Apply(s, step) == t
    ensures At(run, n + 1) == t
  {
    OneMore(run, n, s);
  }

  lemma MissFile(s: State, p: nat, bytes: Octets, target: Target)
    requires p in s.work && s.work[p] == Uploading(bytes, [], target, Written, false, false) && Sha256(bytes) !in s.files
    ensures Apply(s, CheckExists(p)) == s.(work := s.work[p := Uploading(bytes, [], target, Checked(false), false, false)])
  {
  }

  lemma PlaceFile(s: State, p: nat, bytes: Octets, target: Target)
    requires p in s.work && s.work[p] == Uploading(bytes, [], target, Checked(false), false, false)
    ensures Apply(s, Store(p)) == s.(files := s.files[Sha256(bytes) := bytes],
                                     work := s.work[p := Uploading(bytes, [], target, Stored, false, false)])
  {
    assert bytes + [] == bytes;
    assert s.mishaps.(torn := s.mishaps.torn || false) == s.mishaps;
  }

  /** The first three steps of an upload whose file is not there yet. */
  lemma NewFileAt(run: seq<Step>, n: nat, s: State, p: nat, bytes: Octets, target: Target)
    requires n + 3 <= |run| && At(run, n) == s && p !in s.work && Sha256(bytes) !in s.files && Acceptable(target)
    requires run[n] == Begin(p, bytes, [], target) && run[n + 1] == CheckExists(p) && run[n + 2] == Store(p)
    ensures At(run, n + 3) == s.(files := s.files[Sha256(bytes) := bytes],
                                 work := s.work[p := Uploading(bytes, [], target, Stored, false, false)])
  {
    var s1 := s.(work := s.work[p := Uploading(bytes, [], target, Written, false, false)]);
    var s2 := s.(work := s.work[p := Uploading(bytes, [], target, Checked(false), false, false)]);
    Move(run, n, s, Begin(p, bytes, [], target), s1);
    MissFile(s1, p, bytes, target);
    assert s1.work[p := Uploading(bytes, [], target, Checked(false), false, false)] == s2.work;
    Move(run, n + 1, s1, CheckExists(p), s2);
    PlaceFile(s2, p, bytes, target);
    OneMore(run, n + 2, s2);
    assert s2.work[p := Uploading(bytes, [], target, Stored, false, false)]
           == s.work[p := Uploading(bytes, [], target, Stored, false, false)];
  }

  lemma PutFirstPart(s: State)
    requires s == PARTED.(db := Tables(PLAIN, {0}, map[], map[], map[1 := UPLOAD], map[]),
                          work := map[0 := ToUpload(BYTES, Stored)], books := NO_BOOKS)
    ensures Apply(s, Commit(0)) == PARTED
  {
    assert PutPart(s.db, PART, PartRow(K, 1, "")) == Some((PARTED.db, None));
    assert s.work - {0} == map[];
    assert {} - {PART} == {};
  }

  const BUCKET_ONLY := START.(db := Tables(PLAIN, {0}, map[], map[], map[], map[]), used := {0})
  const BARE := START.(db := Tables(PLAIN, {0}, map[], map[], map[1 := UPLOAD], map[]), used := {0, 1})
  const STORED_PART := BARE.(files := map[K := BYTES], work := map[0 := ToUpload(BYTES, Stored)])

  lemma Creating()
    ensures Apply(START, CreateBucket(0)) == BUCKET_ONLY && Apply(BUCKET_ONLY, CreateUpload(1, UPLOAD)) == BARE
  {
    assert {0} + {1} == {0, 1};
  }

  lemma UpToBare(run: seq<Step>)
    requires OPENING <= run
    ensures At(run, 2) == BARE
  {
    Creating();
    Move(run, 0, START, CreateBucket(0), BUCKET_ONLY);
    Move(run, 1, BUCKET_ONLY, CreateUpload(1, UPLOAD), BARE);
  }

  lemma UpToStoredPart(run: seq<Step>)
    requires OPENING <= run
    ensures At(run, 5) == STORED_PART
  {
    UpToBare(run);
    NewFileAt(run, 2, BARE, 0, BYTES, TO_PART);
  }

  lemma Opened(run: seq<Step>)
    requires OPENING <= run
    ensures At(run, 6) == PARTED
  {
    UpToStoredPart(run);
    PutFirstPart(STORED_PART);
    Move(run, 5, STORED_PART, Commit(0), PARTED);
  }

  // ----- a part put between its release and the cascade

  const ABORT_LISTED: seq<Step> := OPENING + [ListForAbort(1, 1, [PART])]
  const ABORT_BEGUN: seq<Step> := ABORT_LISTED + [Release(1, true)]

  const PUT_WHILE_ABORTING: seq<Step> := ABORT_BEGUN + [
    Begin(2, OTHER, [], TO_PART), CheckExists(2), Store(2), Commit(2),
    Cascade(1, true)]

  const ABORTING := PARTED.(work := map[1 := Finishing(1, LISTED, 0)])
  const RELEASED := PARTED.(db := PARTED.db.(blobs := map[K := 0]), work := map[1 := Finishing(1, LISTED, 1)],
                            books := Books(map[], {PART}, 0, false, false, false, false, false))
  const BOTH_STORED := RELEASED.(files := map[K := BYTES, J := OTHER],
                                 work := map[1 := Finishing(1, LISTED, 1), 2 := ToUpload(OTHER, Stored)])
  const PUT_AGAIN := BOTH_STORED.(
    db := PARTED.db.(blobs := map[K := 0, J := 1], parts := map[PART := PartRow(J, 1, "")]),
    work := map[1 := Finishing(1, LISTED, 1)], books := Books(map[PartRef(PART) := J], {}, 0, false, false, true, false, false))

  lemma Listing()
    ensures Apply(PARTED, ListForAbort(1, 1, [PART])) == ABORTING
  {
    assert Rows(PARTED.db, [PART]) == LISTED;
    assert Lists(PARTED.db, 1, [PART]);
    assert !Busy(PARTED, 1);
  }

  lemma Releasing()
    ensures Apply(ABORTING, Release(1, true)) == RELEASED
  {
    assert Decrement(ABORTING.db, K) == RELEASED.db;
    assert ABORTING.books.claims - {PartRef(PART)} == map[];
    assert ABORTING.work[1 := Finishing(1, LISTED, 1)] == RELEASED.work;
  }

  /** The count that the put would take back is at its floor. */
  lemma FloorMet(db: Tables)
    requires db == BOTH_STORED.db
    ensures PutPart(db, PART, PartRow(J, 1, "")) == Some((PUT_AGAIN.db, Some(K)))
  {
    assert K != J;
    var counted := Increment(db, J);
    assert counted.blobs == map[K := 0, J := 1];
    assert Decrement(counted, K) == counted;
    assert MoveCount(db, Some(K), J) == (counted, Some(K));
    assert counted.parts[PART := PartRow(J, 1, "")] == PUT_AGAIN.db.parts;
  }

  lemma PuttingAgain()
    ensures Apply(BOTH_STORED, Commit(2)) == PUT_AGAIN
  {
    var row := PartRow(J, 1, "");
    assert K != J;
    assert Increment(BOTH_STORED.db, J) == BOTH_STORED.db.(blobs := map[K := 0, J := 1]);
    FloorMet(BOTH_STORED.db);
    assert Busy(BOTH_STORED, 1) by { assert Handles(BOTH_STORED.work[1], 1); }
    assert BOTH_STORED.work - {2} == PUT_AGAIN.work;
    assert {PART} - {PART} == {};
  }

  lemma UpToAborting(run: seq<Step>)
    requires ABORT_LISTED <= run
    ensures At(run, 7) == ABORTING
  {
    assert OPENING <= run;
    Opened(run);
    Listing();
    Move(run, 6, PARTED, ListForAbort(1, 1, [PART]), ABORTING);
  }

  lemma UpToReleased(run: seq<Step>)
    requires ABORT_BEGUN <= run
    ensures At(run, 8) == RELEASED
  {
    assert ABORT_LISTED <= run;
    UpToAborting(run);
    Releasing();
    Move(run, 7, ABORTING, Release(1, true), RELEASED);
  }

  lemma UpToBothStored(run: seq<Step>)
    requires PUT_WHILE_ABORTING <= run
    ensures At(run, 11) == BOTH_STORED
  {
    assert ABORT_BEGUN <= run;
    UpToReleased(run);
    assert K != J;
    NewFileAt(run, 8, RELEASED, 2, OTHER, TO_PART);
    assert RELEASED.files[J := OTHER] == BOTH_STORED.files;
    assert RELEASED.work[2 := ToUpload(OTHER, Stored)] == BOTH_STORED.work;
  }

  lemma UpToPutAgain(run: seq<Step>)
    requires PUT_WHILE_ABORTING <= run
    ensures At(run, 12) == PUT_AGAIN
  {
    UpToBothStored(run);
    PuttingAgain();
    Move(run, 11, BOTH_STORED, Commit(2), PUT_AGAIN);
  }

  lemma LastCascade()
    ensures var s := Apply(PUT_AGAIN, Cascade(1, true));
            && s.work == map[] && s.db.objects == map[] && s.db.parts == map[] && Count(s.db, J) == 1
            && s.books.overlapped && s.books.leaked && !s.books.unpaid && !s.books.abandoned
  {
    assert K != J;
    assert PUT_AGAIN.work - {1} == map[];
    assert DeleteUpload(PUT_AGAIN.db, 1).parts == map[];
    assert PART in PUT_AGAIN.db.parts && PART !in PUT_AGAIN.books.released;
  }

  /** The part that was put anew goes with its upload, and the count of its digest stays
      with no row to account for it. */
  lemma PutWhileAbortingLeaks(run: seq<Step>)
    requires run == PUT_WHILE_ABORTING
    ensures var s := Run(START, run);
            && s.work == map[] && s.db.objects == map[] && s.db.parts == map[] && Count(s.db, J) == 1
            && s.books.overlapped && s.books.leaked && !s.books.unpaid && !s.books.abandoned
  {
    UpToPutAgain(run);
    LastCascade();
    Move(run, 12, PUT_AGAIN, Cascade(1, true), Apply(PUT_AGAIN, Cascade(1, true)));
    assert run[..13] == run;
  }

  // ----- two completes of one upload

  const COMPLETED_TWICE: seq<Step> := OPENING + [
    ListForComplete(1, 1, [PART], ""), ListForComplete(2, 1, [PART], ""),
    Merge(1), CheckExists(1), Store(1), Commit(1), Release(1, true),
    Merge(2), CheckExists(2), Store(2), Commit(2), Release(2, true),
    Cascade(1, true), Cascade(2, true)]

  const MERGING := Merging(1, LOST_ID, "", "", LISTED, 1, [], 0)
  const ROW1 := ObjectRow("a", K, 1, "", "")

  function ToComplete(stage: Stage): Work {
    Uploading(BYTES, [], ToCompleted(1, LOST_ID, "", "", LISTED, 1), stage, false, false)
  }

  const BOTH_LISTED := PARTED.(work := map[1 := MERGING, 2 := MERGING], books := PARTED.books.(overlapped := true))

  const ONCE := BOTH_LISTED.(
    db := PARTED.db.(objects := map[SLOT := ROW1]), work := map[1 := Finishing(1, LISTED, 1), 2 := MERGING],
    books := Books(map[ObjectRef(SLOT) := K], {PART}, 1, false, false, true, false, false))

  const TWICE := ONCE.(
    db := ONCE.db.(blobs := map[K := 0]), work := map[1 := Finishing(1, LISTED, 1), 2 := Finishing(1, LISTED, 1)],
    books := Books(map[ObjectRef(SLOT) := K], {PART}, 2, true, false, true, false, false))

  const ONE_LISTED := PARTED.(work := map[1 := MERGING])

  lemma ListingOne()
    ensures Apply(PARTED, ListForComplete(1, 1, [PART], "")) == ONE_LISTED
  {
    assert Rows(PARTED.db, [PART]) == LISTED;
    assert Lists(PARTED.db, 1, [PART]);
    assert !Busy(PARTED, 1);
    assert TotalSize(PARTED.db, [PART]) == 1 by { assert [PART][1..] == []; }
  }

  lemma ListingBoth()
    ensures Apply(ONE_LISTED, ListForComplete(2, 1, [PART], "")) == BOTH_LISTED
  {
    assert Rows(PARTED.db, [PART]) == LISTED;
    assert Lists(PARTED.db, 1, [PART]);
    assert TotalSize(PARTED.db, [PART]) == 1 by { assert [PART][1..] == []; }
    assert Busy(ONE_LISTED, 1) by { assert Handles(ONE_LISTED.work[1], 1); }
    assert ONE_LISTED.work[2 := MERGING] == BOTH_LISTED.work;
  }

  lemma MergeOne(s: State, p: nat)
    requires p in s.work && s.work[p] == MERGING && s.files == map[K := BYTES]
    ensures Apply(s, Merge(p)) == s.(work := s.work[p := ToComplete(Written)])
  {
    assert [] + BYTES == BYTES;
  }

  lemma FindFile(s: State, p: nat)
    requires p in s.work && s.work[p] == ToComplete(Written) && s.files == map[K := BYTES]
    ensures Apply(s, CheckExists(p)) == s.(work := s.work[p := ToComplete(Checked(true))])
  {
  }

  lemma KeepFile(s: State, p: nat)
    requires p in s.work && s.work[p] == ToComplete(Checked(true))
    ensures Apply(s, Store(p)) == s.(work := s.work[p := ToComplete(Stored)])
  {
  }

  /** From the list to the stored file, which has the part's own bytes. */
  lemma MergedAt(run: seq<Step>, n: nat, s: State, p: nat)
    requires n + 3 <= |run| && At(run, n) == s
    requires run[n] == Merge(p) && run[n + 1] == CheckExists(p) && run[n + 2] == Store(p)
    requires p in s.work && s.work[p] == MERGING && s.files == map[K := BYTES]
    ensures At(run, n + 3) == s.(work := s.work[p := ToComplete(Stored)])
  {
    var s1 := s.(work := s.work[p := ToComplete(Written)]);
    var s2 := s.(work := s.work[p := ToComplete(Checked(true))]);
    MergeOne(s, p);
    Move(run, n, s, Merge(p), s1);
    FindFile(s1, p);
    assert s1.work[p := ToComplete(Checked(true))] == s2.work;
    Move(run, n + 1, s1, CheckExists(p), s2);
    KeepFile(s2, p);
    assert s2.work[p := ToComplete(Stored)] == s.work[p := ToComplete(Stored)];
    OneMore(run, n + 2, s2);
  }

  lemma ReleaseOwn(s: State, p: nat)
    requires p in s.work && s.work[p] == Finishing(1, LISTED, 0) && TakesOwn(s.db, s.books.released, PART, K)
    ensures Apply(s, Release(p, true))
            == s.(work := s.work[p := Finishing(1, LISTED, 1)], db := Decrement(s.db, K),
                  books := s.books.(claims := s.books.claims - {PartRef(PART)}, released := s.books.released + {PART}))
  {
  }

  lemma ReleaseOther(s: State, p: nat)
    requires p in s.work && s.work[p] == Finishing(1, LISTED, 0) && !TakesOwn(s.db, s.books.released, PART, K)
    requires Count(s.db, K) > 0
    ensures Apply(s, Release(p, true))
            == s.(work := s.work[p := Finishing(1, LISTED, 1)], db := Decrement(s.db, K),
                  books := s.books.(miscounted := true))
  {
  }

  const ONCE_PUT := BOTH_LISTED.(
    db := PARTED.db.(blobs := map[K := 2], objects := map[SLOT := ROW1]),
    work := map[1 := Finishing(1, LISTED, 0), 2 := MERGING],
    books := Books(map[PartRef(PART) := K, ObjectRef(SLOT) := K], {}, 1, false, false, true, false, false))

  const FIRST_STORED := BOTH_LISTED.(work := map[1 := ToComplete(Stored), 2 := MERGING])
  const SECOND_STORED := ONCE.(work := map[1 := Finishing(1, LISTED, 1), 2 := ToComplete(Stored)])
  const TWICE_PUT := ONCE.(work := map[1 := Finishing(1, LISTED, 1), 2 := Finishing(1, LISTED, 0)],
                           books := ONCE.books.(lost := 2))

  lemma FirstPut(db: Tables)
    requires db == PARTED.db
    ensures PutObject(db, LOST_ID, ROW1) == Some((ONCE_PUT.db, None))
  {
    assert map[K := 1][K := 2] == map[K := 2];
    assert MoveCount(db, None, K) == (db.(blobs := map[K := 2]), None);
  }

  lemma PutOnce()
    ensures Apply(FIRST_STORED, Commit(1)) == ONCE_PUT
  {
    FirstPut(FIRST_STORED.db);
    assert FIRST_STORED.work[1 := Finishing(1, LISTED, 0)] == ONCE_PUT.work;
    assert PARTED.books.claims[ObjectRef(SLOT) := K] == ONCE_PUT.books.claims;
  }

  lemma PartIsOwn()
    ensures TakesOwn(ONCE_PUT.db, ONCE_PUT.books.released, PART, K)
  {
  }

  lemma OneTaken()
    ensures Decrement(ONCE_PUT.db, K) == ONCE.db
    ensures ONCE_PUT.work[1 := Finishing(1, LISTED, 1)] == ONCE.work
  {
    assert map[K := 2][K := 1] == map[K := 1];
  }

  lemma OneClaimLeft()
    ensures ONCE_PUT.books.(claims := ONCE_PUT.books.claims - {PartRef(PART)}, released := ONCE_PUT.books.released + {PART})
            == ONCE.books
  {
    assert ONCE_PUT.books.claims - {PartRef(PART)} == ONCE.books.claims;
  }

  lemma FirstRelease()
    ensures Apply(ONCE_PUT, Release(1, true)) == ONCE
  {
    PartIsOwn();
    ReleaseOwn(ONCE_PUT, 1);
    OneTaken();
    OneClaimLeft();
  }

  lemma SecondPut(db: Tables)
    requires db == ONCE.db
    ensures PutObject(db, LOST_ID, ROW1) == Some((db, None))
  {
    assert MoveCount(db, Some(K), K) == (db, None);
    assert map[SLOT := ROW1][SLOT := ROW1] == map[SLOT := ROW1];
  }

  lemma PutTwice()
    ensures Apply(SECOND_STORED, Commit(2)) == TWICE_PUT
  {
    SecondPut(SECOND_STORED.db);
    assert SECOND_STORED.work[2 := Finishing(1, LISTED, 0)] == TWICE_PUT.work;
    assert ONCE.books.claims[ObjectRef(SLOT) := K] == ONCE.books.claims;
  }

  lemma SecondRelease()
    ensures Apply(TWICE_PUT, Release(2, true)) == TWICE
  {
    assert Decrement(TWICE_PUT.db, K) == TWICE.db by { assert map[K := 1][K := 0] == map[K := 0]; }
    ReleaseOther(TWICE_PUT, 2);
    assert TWICE_PUT.work[2 := Finishing(1, LISTED, 1)] == TWICE.work;
  }

  const DONE := TWICE.(db := Tables(PLAIN, {0}, map[K := 0], map[SLOT := ROW1], map[], map[]), work := map[],
                       books := Books(map[ObjectRef(SLOT) := K], {}, 2, true, false, true, false, false))

  const ONE_LEFT := DONE.(work := map[2 := Finishing(1, LISTED, 1)])

  lemma FirstCascade()
    ensures Apply(TWICE, Cascade(1, true)) == ONE_LEFT
  {
    assert DeleteUpload(TWICE.db, 1) == DONE.db;
    assert TWICE.work - {1} == ONE_LEFT.work;
    assert Cascaded(TWICE.books, TWICE.db, DONE.db) == DONE.books;
  }

  lemma SecondCascade()
    ensures Apply(ONE_LEFT, Cascade(2, true)) == DONE
  {
    assert DeleteUpload(DONE.db, 1) == DONE.db;
    assert ONE_LEFT.work - {2} == map[];
    assert Cascaded(DONE.books, DONE.db, DONE.db) == DONE.books;
  }

  lemma UpToOneListed(run: seq<Step>)
    requires COMPLETED_TWICE <= run
    ensures At(run, 7) == ONE_LISTED
  {
    assert OPENING <= run;
    Opened(run);
    ListingOne();
    Move(run, 6, PARTED, ListForComplete(1, 1, [PART], ""), ONE_LISTED);
  }

  lemma UpToListed(run: seq<Step>)
    requires COMPLETED_TWICE <= run
    ensures At(run, 8) == BOTH_LISTED
  {
    UpToOneListed(run);
    ListingBoth();
    Move(run, 7, ONE_LISTED, ListForComplete(2, 1, [PART], ""), BOTH_LISTED);
  }

  lemma UpToFirstStored(run: seq<Step>)
    requires COMPLETED_TWICE <= run
    ensures At(run, 11) == FIRST_STORED
  {
    UpToListed(run);
    MergedAt(run, 8, BOTH_LISTED, 1);
    assert BOTH_LISTED.work[1 := ToComplete(Stored)] == FIRST_STORED.work;
  }

  lemma UpToOncePut(run: seq<Step>)
    requires COMPLETED_TWICE <= run
    ensures At(run, 12) == ONCE_PUT
  {
    UpToFirstStored(run);
    PutOnce();
    Move(run, 11, FIRST_STORED, Commit(1), ONCE_PUT);
  }

  lemma UpToOnce(run: seq<Step>)
    requires COMPLETED_TWICE <= run
    ensures At(run, 13) == ONCE
  {
    UpToOncePut(run);
    FirstRelease();
    Move(run, 12, ONCE_PUT, Release(1, true), ONCE);
  }

  lemma UpToSecondStored(run: seq<Step>)
    requires COMPLETED_TWICE <= run
    ensures At(run, 16) == SECOND_STORED
  {
    UpToOnce(run);
    MergedAt(run, 13, ONCE, 2);
    assert ONCE.work[2 := ToComplete(Stored)] == SECOND_STORED.work;
  }

  lemma UpToTwicePut(run: seq<Step>)
    requires COMPLETED_TWICE <= run
    ensures At(run, 17) == TWICE_PUT
  {
    UpToSecondStored(run);
    PutTwice();
    Move(run, 16, SECOND_STORED, Commit(2), TWICE_PUT);
  }

  lemma UpToTwice(run: seq<Step>)
    requires COMPLETED_TWICE <= run
    ensures At(run, 18) == TWICE
  {
    UpToTwicePut(run);
    SecondRelease();
    Move(run, 17, TWICE_PUT, Release(2, true), TWICE);
  }

  lemma UpToDone(run: seq<Step>)
    requires COMPLETED_TWICE <= run
    ensures At(run, 20) == DONE
  {
    UpToTwice(run);
    FirstCascade();
    Move(run, 18, TWICE, Cascade(1, true), ONE_LEFT);
    SecondCascade();
    Move(run, 19, ONE_LEFT, Cascade(2, true), DONE);
  }

  /** The object that two requests completed from one part has a count of zero: both
      took back the part's count. */
  lemma CompletingTwiceTakesTwice(run: seq<Step>)
    requires run == COMPLETED_TWICE
    ensures var s := Run(START, run);
            && s.work == map[] && s.db.parts == map[] && s.db.objects == map[SLOT := ROW1] && ROW1.cas == K
            && Count(s.db, K) == 0
            && s.books.miscounted && !s.books.leaked && !s.books.unpaid && !s.books.abandoned
  {
    UpToDone(run);
    assert run[..20] == run;
  }
}
