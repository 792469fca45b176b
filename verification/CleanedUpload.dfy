/** The clean-up after a failed complete takes a file that another upload has found. */
module CleanedUpload {
  import opened Base
  import opened Tables
  import opened Ledger
  import opened Protocol
  import opened StraddledUpload
  import opened OverlappingRequests

  const SECOND := PartId(1, 2)
  const TO_SECOND := ToPart(SECOND, "")
  const WHOLE: Octets := "xy"
  const M := Sha256(WHOLE)
  const BOTH: seq<(PartId, Digest)> := [(PART, K), (SECOND, J)]
  const TO_WHOLE := ToCompleted(1, LOST_ID, "", "", BOTH, 2)
  const TO_SAME := ToObject(LOST_ID, "", "")

  /** An upload of two parts is merged. An object with the same bytes is put and finds the
      merged file. The complete cannot put its row and cleans up; the object's row is put. */
  const CLEANED_RUN: seq<Step> := OPENING + [
    Begin(0, OTHER, [], TO_SECOND), CheckExists(0), Store(0), Commit(0),
    ListForComplete(1, 1, [PART, SECOND], ""), Merge(1), Merge(1), CheckExists(1), Store(1),
    Begin(2, WHOLE, [], TO_SAME), CheckExists(2), Store(2),
    FailCommit(1, true), Clean(1, true), Commit(2)]

  const SECOND_STORED_PART := PARTED.(files := map[K := BYTES, J := OTHER],
                                      work := map[0 := Uploading(OTHER, [], TO_SECOND, Stored, false, false)])
  const TWO_PARTS := SECOND_STORED_PART.(
    db := PARTED.db.(blobs := map[K := 1, J := 1], parts := map[PART := PartRow(K, 1, ""), SECOND := PartRow(J, 1, "")]),
    work := map[], books := PARTED.books.(claims := map[PartRef(PART) := K, PartRef(SECOND) := J]))

  function Completing(stage: Stage): Work {
    Uploading(WHOLE, [], TO_WHOLE, stage, false, false)
  }

  function Putting(stage: Stage, stale: bool): Work {
    Uploading(WHOLE, [], TO_SAME, stage, false, stale)
  }

  const THREE_FILES: map<Digest, Octets> := map[K := BYTES, J := OTHER, M := WHOLE]
  const MERGING_BOTH := TWO_PARTS.(work := map[1 := Merging(1, LOST_ID, "", "", BOTH, 2, [], 0)])
  const MERGED := TWO_PARTS.(files := THREE_FILES, work := map[1 := Completing(Stored)])
  const BOTH_READY := TWO_PARTS.(files := THREE_FILES, work := map[1 := Completing(Stored), 2 := Putting(Stored, false)])
  const CLEANED := TWO_PARTS.(work := map[2 := Putting(Stored, true)])

  lemma Distinct()
    ensures K != J && K != M && J != M
  {
    assert |BYTES| == 1 && |OTHER| == 1 && |WHOLE| == 2 && BYTES[0] != OTHER[0];
  }

  lemma UpToSecondPartStored(run: seq<Step>)
    requires CLEANED_RUN <= run
    ensures At(run, 9) == SECOND_STORED_PART
  {
    assert OPENING <= run;
    Opened(run);
    Distinct();
    NewFileAt(run, 6, PARTED, 0, OTHER, TO_SECOND);
    assert PARTED.files[J := OTHER] == SECOND_STORED_PART.files;
  }

  lemma PutSecondPart()
    ensures Apply(SECOND_STORED_PART, Commit(0)) == TWO_PARTS
  {
    Distinct();
    assert PutPart(SECOND_STORED_PART.db, SECOND, PartRow(J, 1, "")) == Some((TWO_PARTS.db, None));
    assert SECOND_STORED_PART.work - {0} == map[];
    assert {} - {SECOND} == {};
    assert PARTED.books.claims[PartRef(SECOND) := J] == TWO_PARTS.books.claims;
    assert !Busy(SECOND_STORED_PART, 1);
  }

  lemma TwoInAll(db: Tables)
    requires db == TWO_PARTS.db
    ensures TotalSize(db, [PART, SECOND]) == 2
  {
    assert [PART, SECOND][1..] == [SECOND] && [SECOND][1..] == [];
    assert TotalSize(db, []) == 0;
    assert TotalSize(db, [SECOND]) == db.parts[SECOND].size + TotalSize(db, [SECOND][1..]);
    assert TotalSize(db, [PART, SECOND]) == db.parts[PART].size + TotalSize(db, [PART, SECOND][1..]);
  }

  lemma ListTwo()
    ensures Apply(TWO_PARTS, ListForComplete(1, 1, [PART, SECOND], "")) == MERGING_BOTH
  {
    var db := TWO_PARTS.db;
    assert Rows(db, [PART, SECOND]) == BOTH;
    assert Lists(db, 1, [PART, SECOND]);
    assert !Busy(TWO_PARTS, 1);
    TwoInAll(db);
  }

  lemma UpToTwoParts(run: seq<Step>)
    requires CLEANED_RUN <= run
    ensures At(run, 10) == TWO_PARTS
  {
    UpToSecondPartStored(run);
    PutSecondPart();
    Move(run, 9, SECOND_STORED_PART, Commit(0), TWO_PARTS);
  }

  lemma UpToMergingBoth(run: seq<Step>)
    requires CLEANED_RUN <= run
    ensures At(run, 11) == MERGING_BOTH
  {
    UpToTwoParts(run);
    ListTwo();
    Move(run, 10, TWO_PARTS, ListForComplete(1, 1, [PART, SECOND], ""), MERGING_BOTH);
  }

  const HALF_MERGED := TWO_PARTS.(work := map[1 := Merging(1, LOST_ID, "", "", BOTH, 2, BYTES, 1)])

  lemma MergeFirst()
    ensures Apply(MERGING_BOTH, Merge(1)) == HALF_MERGED
  {
    Distinct();
    assert [] + BYTES == BYTES;
    assert MERGING_BOTH.work[1 := HALF_MERGED.work[1]] == HALF_MERGED.work;
  }

  lemma MergeSecond()
    ensures Apply(HALF_MERGED, Merge(1)) == JUST_MERGED
  {
    Distinct();
    assert BYTES + OTHER == WHOLE;
    assert HALF_MERGED.work[1 := Completing(Written)] == JUST_MERGED.work;
  }

  lemma UpToHalfMerged(run: seq<Step>)
    requires CLEANED_RUN <= run
    ensures At(run, 12) == HALF_MERGED
  {
    UpToMergingBoth(run);
    MergeFirst();
    Move(run, 11, MERGING_BOTH, Merge(1), HALF_MERGED);
  }

  const JUST_MERGED := MERGING_BOTH.(work := map[1 := Completing(Written)])

  lemma UpToJustMerged(run: seq<Step>)
    requires CLEANED_RUN <= run
    ensures At(run, 13) == JUST_MERGED
  {
    UpToHalfMerged(run);
    MergeSecond();
    Move(run, 12, HALF_MERGED, Merge(1), JUST_MERGED);
  }

  /** Two more steps store bytes that are not there yet. */
  lemma StoredAt(run: seq<Step>, n: nat, s: State, p: nat, bytes: Octets, target: Target)
    requires n + 2 <= |run| && At(run, n) == s && p in s.work && Sha256(bytes) !in s.files
    requires s.work[p] == Uploading(bytes, [], target, Written, false, false)
    requires run[n] == CheckExists(p) && run[n + 1] == Store(p)
    ensures At(run, n + 2) == s.(files := s.files[Sha256(bytes) := bytes],
                                 work := s.work[p := Uploading(bytes, [], target, Stored, false, false)])
  {
    var s1 := s.(work := s.work[p := Uploading(bytes, [], target, Checked(false), false, false)]);
    MissFile(s, p, bytes, target);
    Move(run, n, s, CheckExists(p), s1);
    PlaceFile(s1, p, bytes, target);
    OneMore(run, n + 1, s1);
    assert s1.work[p := Uploading(bytes, [], target, Stored, false, false)]
           == s.work[p := Uploading(bytes, [], target, Stored, false, false)];
  }

  lemma MergedIsStored()
    ensures M !in JUST_MERGED.files
    ensures JUST_MERGED.(files := JUST_MERGED.files[M := WHOLE], work := JUST_MERGED.work[1 := Completing(Stored)]) == MERGED
  {
    Distinct();
    assert JUST_MERGED.files[M := WHOLE] == THREE_FILES;
    assert JUST_MERGED.work[1 := Completing(Stored)] == MERGED.work;
  }

  lemma UpToMerged(run: seq<Step>)
    requires CLEANED_RUN <= run
    ensures At(run, 15) == MERGED
  {
    UpToJustMerged(run);
    MergedIsStored();
    StoredAt(run, 13, JUST_MERGED, 1, WHOLE, TO_WHOLE);
  }

  lemma FindMerged(s: State)
    requires 2 in s.work && s.work[2] == Putting(Written, false) && M in s.files
    ensures Apply(s, CheckExists(2)) == s.(work := s.work[2 := Putting(Checked(true), false)])
  {
  }

  lemma KeepMerged(s: State)
    requires 2 in s.work && s.work[2] == Putting(Checked(true), false)
    ensures Apply(s, Store(2)) == s.(work := s.work[2 := Putting(Stored, false)])
  {
  }

  /** Three steps of an upload that finds its file. */
  lemma FoundAt(run: seq<Step>, n: nat, s: State)
    requires n + 3 <= |run| && At(run, n) == s && 2 !in s.work && M in s.files
    requires run[n] == Begin(2, WHOLE, [], TO_SAME) && run[n + 1] == CheckExists(2) && run[n + 2] == Store(2)
    ensures At(run, n + 3) == s.(work := s.work[2 := Putting(Stored, false)])
  {
    var s1 := s.(work := s.work[2 := Putting(Written, false)]);
    var s2 := s.(work := s.work[2 := Putting(Checked(true), false)]);
    Move(run, n, s, Begin(2, WHOLE, [], TO_SAME), s1);
    FindMerged(s1);
    assert s1.work[2 := Putting(Checked(true), false)] == s2.work;
    Move(run, n + 1, s1, CheckExists(2), s2);
    KeepMerged(s2);
    assert s2.work[2 := Putting(Stored, false)] == s.work[2 := Putting(Stored, false)];
    OneMore(run, n + 2, s2);
  }

  lemma UpToBothReady(run: seq<Step>)
    requires CLEANED_RUN <= run
    ensures At(run, 18) == BOTH_READY
  {
    UpToMerged(run);
    FoundAt(run, 15, MERGED);
    assert MERGED.work[2 := Putting(Stored, false)] == BOTH_READY.work;
  }

  lemma OnlyPuttingLeft()
    ensures Strand(CLEANING.work - {1}, M) == CLEANED.work && THREE_FILES - {M} == CLEANED.files
  {
    Distinct();
    assert CLEANING.work - {1} == map[2 := Putting(Stored, false)];
  }

  lemma UncountedMerge()
    ensures Count(BOTH_READY.db, M) == 0 && !Referenced(BOTH_READY.db, M)
  {
    Distinct();
  }

  const CLEANING := BOTH_READY.(work := map[1 := Cleaning(M), 2 := Putting(Stored, false)])

  lemma Fail()
    ensures Apply(BOTH_READY, FailCommit(1, true)) == CLEANING
  {
    UncountedMerge();
    assert BOTH_READY.work[1 := Cleaning(M)] == CLEANING.work;
  }

  lemma CleanUp()
    ensures Apply(CLEANING, Clean(1, true)) == CLEANED
  {
    UncountedMerge();
    OnlyPuttingLeft();
  }

  lemma UpToCleaned(run: seq<Step>)
    requires CLEANED_RUN <= run
    ensures At(run, 20) == CLEANED
  {
    UpToBothReady(run);
    Fail();
    Move(run, 18, BOTH_READY, FailCommit(1, true), CLEANING);
    CleanUp();
    Move(run, 19, CLEANING, Clean(1, true), CLEANED);
  }

  lemma PutWithoutFile()
    ensures var s := Apply(CLEANED, Commit(2));
            Referenced(s.db, M) && s.files == CLEANED.files && s.gc.Idle? && s.work == map[] && s.mishaps.straddled
  {
    Distinct();
    var row := ObjectRow("a", M, 2, "", "");
    var put := PutObject(CLEANED.db, LOST_ID, row);
    assert put.Some? && SLOT in put.value.0.objects && put.value.0.objects[SLOT].cas == M;
    assert CLEANED.work - {2} == map[];
  }

  /** The object's row is there and its file is not, although the collector has done
      nothing, and nothing but the put of the complete's row has failed. */
  lemma CleanupLosesFile(run: seq<Step>)
    requires run == CLEANED_RUN
    ensures var s := Run(START, run);
            Referenced(s.db, Sha256(WHOLE)) && Sha256(WHOLE) !in s.files && s.gc.Idle? && s.work == map[]
  {
    UpToCleaned(run);
    Distinct();
    PutWithoutFile();
    Move(run, 20, CLEANED, Commit(2), Apply(CLEANED, Commit(2)));
    assert run[..21] == run;
  }
}
