/** A part that is put again while its upload is being completed. */
module ReplacedPart {
  import opened Base
  import opened Tables
  import opened Ledger
  import opened Protocol
  import opened StraddledUpload
  import opened OverlappingRequests
  import opened CompletedContent

  /** An upload of one part is listed and merged, the part is put again, and the upload
      completes with what was merged. */
  const REPLACING_RUN: seq<Step> := OPENING + [
    ListForComplete(1, 1, [PART], ""), Merge(1), CheckExists(1), Store(1),
    Begin(2, OTHER, [], TO_PART), CheckExists(2), Store(2), Commit(2),
    Commit(1)]

  const READY := PARTED.(work := map[1 := ToComplete(Stored)])
  const BOTH_AT_WORK := READY.(files := map[K := BYTES, J := OTHER],
                               work := map[1 := ToComplete(Stored), 2 := ToUpload(OTHER, Stored)])
  const REPLACED := BOTH_AT_WORK.(
    db := PARTED.db.(blobs := map[K := 0, J := 1], parts := map[PART := PartRow(J, 1, "")]),
    work := map[1 := ToComplete(Stored)],
    books := Books(map[PartRef(PART) := J], {}, 0, false, false, true, false, false))

  lemma UpToListedOnce(run: seq<Step>)
    requires REPLACING_RUN <= run
    ensures At(run, 7) == ONE_LISTED
  {
    assert OPENING <= run;
    Opened(run);
    ListingOne();
    Move(run, 6, PARTED, ListForComplete(1, 1, [PART], ""), ONE_LISTED);
  }

  lemma UpToReady(run: seq<Step>)
    requires REPLACING_RUN <= run
    ensures At(run, 10) == READY
  {
    UpToListedOnce(run);
    MergedAt(run, 7, ONE_LISTED, 1);
    assert ONE_LISTED.work[1 := ToComplete(Stored)] == READY.work;
  }

  lemma UpToBothAtWork(run: seq<Step>)
    requires REPLACING_RUN <= run
    ensures At(run, 13) == BOTH_AT_WORK
  {
    UpToReady(run);
    assert K != J;
    NewFileAt(run, 10, READY, 2, OTHER, TO_PART);
    assert READY.files[J := OTHER] == BOTH_AT_WORK.files;
    assert READY.work[2 := ToUpload(OTHER, Stored)] == BOTH_AT_WORK.work;
  }

  lemma CountMoves(db: Tables)
    requires db == PARTED.db
    ensures PutPart(db, PART, PartRow(J, 1, "")) == Some((REPLACED.db, Some(K)))
  {
    assert K != J;
    var counted := Increment(db, J);
    assert counted.blobs == map[K := 1, J := 1];
    assert Decrement(counted, K).blobs == map[K := 0, J := 1];
    assert Decrement(counted, K).parts[PART := PartRow(J, 1, "")] == REPLACED.db.parts;
  }

  lemma Replacing()
    ensures Apply(BOTH_AT_WORK, Commit(2)) == REPLACED
  {
    CountMoves(BOTH_AT_WORK.db);
    assert Busy(BOTH_AT_WORK, 1) by { assert Handles(BOTH_AT_WORK.work[1], 1); }
    assert BOTH_AT_WORK.work - {2} == REPLACED.work;
    assert BOTH_AT_WORK.books.claims[PartRef(PART) := J] == REPLACED.books.claims;
    assert {} - {PART} == {};
  }

  lemma UpToReplaced(run: seq<Step>)
    requires REPLACING_RUN <= run
    ensures At(run, 14) == REPLACED
  {
    UpToBothAtWork(run);
    Replacing();
    Move(run, 13, BOTH_AT_WORK, Commit(2), REPLACED);
  }

  lemma CompletesWithOld()
    ensures var s := Apply(REPLACED, Commit(1));
            && SLOT in s.db.objects && s.db.objects[SLOT].cas == K
            && s.db.parts == REPLACED.db.parts && 1 in s.work
  {
    var put := PutObject(REPLACED.db, LOST_ID, ROW1);
    assert put.Some? && put.value.0.objects == map[SLOT := ROW1] && put.value.0.parts == REPLACED.db.parts;
  }

  lemma UpToEnd(run: seq<Step>)
    requires run == REPLACING_RUN
    ensures Run(START, run) == Apply(REPLACED, Commit(1))
  {
    UpToReplaced(run);
    OneMore(run, 14, REPLACED);
    assert run[..15] == run;
  }

  /** The object has the bytes of the part that was replaced, although the put of the new
      part had been answered before the object's row was put. */
  lemma ReplacedPartIsIgnored(run: seq<Step>)
    requires run == REPLACING_RUN
    ensures var s := Run(START, run);
            && SLOT in s.db.objects && s.db.objects[SLOT].cas == Sha256(BYTES)
            && PART in s.db.parts && s.db.parts[PART].cas == Sha256(OTHER) && BYTES != OTHER
            && Contents(Rows(s.db, [PART])) == OTHER && !s.mishaps.torn
  {
    UpToEnd(run);
    CompletesWithOld();
    ContentOfOne(Run(START, run).db);
    assert BYTES[0] != OTHER[0];
  }

  lemma ContentOfOne(db: Tables)
    requires PART in db.parts && db.parts[PART].cas == J
    ensures Contents(Rows(db, [PART])) == OTHER
  {
    var rows := Rows(db, [PART]);
    assert rows[1..] == [] && rows[0].1.preimage == OTHER;
    assert OTHER + [] == OTHER;
  }
}
