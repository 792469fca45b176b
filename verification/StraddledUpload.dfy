/** An upload that straddles a quarantine loses its file. */
module StraddledUpload {
  import opened Base
  import opened Tables
  import opened Ledger
  import opened Protocol

  const LOST_ID := ObjectId(0, "a")
  const LOST_BYTES: Octets := "x"

  /** Put an object, delete it, put the same bytes again: the second upload finds the
      file, the collector then takes it away, and the metadata commits after that. */
  const LOSING_RUN: seq<Step> := [
    CreateBucket(0),
    Begin(0, LOST_BYTES, [], ToObject(LOST_ID, "", "")), CheckExists(0), Store(0), Commit(0),
    RemoveObject(LOST_ID),
    Begin(1, LOST_BYTES, [], ToObject(LOST_ID, "", "")), CheckExists(1), Store(1),
    Check(Sha256(LOST_BYTES), true), Quarantine(true), Recheck(true),
    Commit(1),
    Remove(true), Confirm(true)]

  const PLAIN: Folding := (k: string) => k
  const START := Init(PLAIN)

  function At(run: seq<Step>, n: nat): State
    requires n <= |run|
  {
    Prefix(START, run, n)
  }

  lemma OneMore(run: seq<Step>, n: nat, s: State)
    requires n < |run| && At(run, n) == s
    ensures At(run, n + 1) == Apply(s, run[n])
  {
    assert run[..n + 1] == run[..n] + [run[n]];
    RunSnoc(START, run[..n], run[n]);
  }

  const K := Sha256(LOST_BYTES)

  function Upload(stage: Stage, straddling: bool, stale: bool): Work {
    Uploading(LOST_BYTES, [], ToObject(LOST_ID, "", ""), stage, straddling, stale)
  }

  /** The states that matter: the bucket made; the first upload stored; its row put;
      the row removed; the second upload stored; its file taken; its row put. */
  const BUCKET := START.(db := Tables(PLAIN, {0}, map[], map[], map[], map[]), used := {0})
  const STORED := BUCKET.(files := map[K := LOST_BYTES], work := map[0 := Upload(Stored, false, false)])
  const ROW := ObjectRow("a", K, 1, "", "")
  const PUT := STORED.(db := Tables(PLAIN, {0}, map[K := 1], map[SlotOf(PLAIN, LOST_ID) := ROW], map[], map[]), work := map[],
                       books := Books(map[ObjectRef(SlotOf(PLAIN, LOST_ID)) := K], {}, 1, false, false, false, false, false))
  const GONE := PUT.(db := Tables(PLAIN, {0}, map[K := 0], map[], map[], map[]), books := Books(map[], {}, 1, false, false, false, false, false))
  const AGAIN := GONE.(work := map[1 := Upload(Stored, false, false)])
  const TAKEN := AGAIN.(files := map[], gc := Removing(K, Some(LOST_BYTES)), work := map[1 := Upload(Stored, true, true)])

  lemma Beginning(s: State, p: nat)
    requires s.work == map[]
    ensures Apply(s, Begin(p, LOST_BYTES, [], ToObject(LOST_ID, "", ""))) == s.(work := map[p := Upload(Written, false, false)])
  {
  }

  lemma Checking(s: State, p: nat)
    requires s.work == map[p := Upload(Written, false, false)]
    ensures Apply(s, CheckExists(p)) == s.(work := map[p := Upload(Checked(K in s.files), false, false)])
  {
  }

  lemma Storing(s: State, p: nat)
    requires s.work == map[p := Upload(Checked(K in s.files), false, false)]
    requires s.files == map[] || s.files == map[K := LOST_BYTES]
    ensures Apply(s, Store(p)) == s.(files := map[K := LOST_BYTES], work := map[p := Upload(Stored, false, false)])
  {
    assert map[][K := LOST_BYTES] == map[K := LOST_BYTES];
    assert LOST_BYTES + [] == LOST_BYTES;
    assert s.mishaps.(torn := s.mishaps.torn || false) == s.mishaps;
  }

  lemma FirstCommit()
    ensures Apply(STORED, Commit(0)) == PUT
  {
    var put := PutObject(STORED.db, LOST_ID, ROW);
    assert put == Some((PUT.db, None));
    assert CommitObject(STORED, LOST_ID, ROW).value == PUT.(work := STORED.work);
    assert STORED.work - {0} == map[];
  }

  lemma Removal()
    ensures Apply(PUT, RemoveObject(LOST_ID)) == GONE
  {
    assert DeleteObject(PUT.db, LOST_ID).value.0 == GONE.db;
    assert PUT.books.claims - {ObjectRef(SlotOf(PLAIN, LOST_ID))} == map[];
  }

  lemma Taking()
    ensures Apply(Apply(Apply(AGAIN, Check(K, true)), Quarantine(true)), Recheck(true)) == TAKEN
  {
    assert CanDelete(AGAIN.db, K);
    var s1 := AGAIN.(gc := Checked'(K));
    assert Apply(AGAIN, Check(K, true)) == s1;
    assert Straddle(s1.work, K) == map[1 := Upload(Stored, true, false)];
    assert s1.files - {K} == map[];
    var s2 := s1.(gc := Quarantined(K, Some(LOST_BYTES)), files := map[], work := map[1 := Upload(Stored, true, false)]);
    assert Apply(s1, Quarantine(true)) == s2;
    assert Spoil(s2.work, K) == TAKEN.work;
    assert Apply(s2, Recheck(true)) == TAKEN;
  }

  lemma SecondCommit()
    ensures var s := Apply(TAKEN, Commit(1));
            s == TAKEN.(db := PUT.db, books := PUT.books.(lost := 2), work := map[], mishaps := Mishaps(true, false, false, false))
  {
    assert map[K := 0][K := 1] == map[K := 1];
    assert Increment(TAKEN.db, K) == TAKEN.db.(blobs := map[K := 1]);
    assert PutObject(TAKEN.db, LOST_ID, ROW) == Some((PUT.db, None));
    var s1 := Marked(TAKEN, true);
    assert CommitObject(s1, LOST_ID, ROW).value == s1.(db := PUT.db, books := PUT.books.(lost := 2));
    assert s1.work - {1} == map[];
  }

  lemma Ending(s: State)
    requires s == TAKEN.(db := PUT.db, books := PUT.books.(lost := 2), work := map[], mishaps := Mishaps(true, false, false, false))
    ensures Apply(Apply(s, Remove(true)), Confirm(true)) == s.(gc := Idle)
  {
    assert PUT.db.objects[SlotOf(PLAIN, LOST_ID)].cas == K;
    assert Apply(s, Remove(true)) == s.(gc := Removed(K));
  }

  /** An upload of the bytes, from the state after n steps to three steps later. */
  lemma UploadFrom(run: seq<Step>, n: nat, s: State, p: nat)
    requires n + 3 <= |run| && At(run, n) == s
    requires s.work == map[] && (s.files == map[] || s.files == map[K := LOST_BYTES])
    requires run[n] == Begin(p, LOST_BYTES, [], ToObject(LOST_ID, "", ""))
    requires run[n + 1] == CheckExists(p) && run[n + 2] == Store(p)
    ensures At(run, n + 3) == s.(files := map[K := LOST_BYTES], work := map[p := Upload(Stored, false, false)])
  {
    var s1 := s.(work := map[p := Upload(Written, false, false)]);
    var s2 := s.(work := map[p := Upload(Checked(K in s.files), false, false)]);
    Beginning(s, p);
    OneMore(run, n, s);
    Checking(s1, p);
    OneMore(run, n + 1, s1);
    Storing(s2, p);
    OneMore(run, n + 2, s2);
  }

  lemma Opening(run: seq<Step>)
    requires run == LOSING_RUN
    ensures At(run, 1) == BUCKET
  {
    OneMore(run, 0, START);
    assert Apply(START, CreateBucket(0)).db == BUCKET.db;
  }

  lemma UpToStored(run: seq<Step>)
    requires run == LOSING_RUN
    ensures At(run, 4) == STORED
  {
    Opening(run);
    UploadFrom(run, 1, BUCKET, 0);
  }

  lemma UpToPut(run: seq<Step>)
    requires run == LOSING_RUN
    ensures At(run, 5) == PUT
  {
    UpToStored(run);
    FirstCommit();
    OneMore(run, 4, STORED);
  }

  lemma UpToGone(run: seq<Step>)
    requires run == LOSING_RUN
    ensures At(run, 6) == GONE
  {
    UpToPut(run);
    Removal();
    OneMore(run, 5, PUT);
  }

  lemma UpToSecondUpload(run: seq<Step>)
    requires run == LOSING_RUN
    ensures At(run, 9) == AGAIN
  {
    UpToGone(run);
    UploadFrom(run, 6, GONE, 1);
  }

  lemma UpToTaken(run: seq<Step>)
    requires run == LOSING_RUN
    ensures At(run, 12) == TAKEN
  {
    UpToSecondUpload(run);
    Taking();
    OneMore(run, 9, AGAIN);
    OneMore(run, 10, At(run, 10));
    OneMore(run, 11, At(run, 11));
  }

  lemma UpToSecondPut(run: seq<Step>)
    requires run == LOSING_RUN
    ensures At(run, 13) == TAKEN.(db := PUT.db, books := PUT.books.(lost := 2), work := map[],
                                  mishaps := Mishaps(true, false, false, false))
  {
    UpToTaken(run);
    SecondCommit();
    OneMore(run, 12, TAKEN);
  }

  /** A referenced file is lost, although every operation succeeds and nothing is cleaned
      up. */
  lemma StraddlingLosesFile(run: seq<Step>)
    requires run == LOSING_RUN
    ensures var s := Run(START, run);
            && Referenced(s.db, Sha256(LOST_BYTES)) && s.files == map[] && s.gc.Idle?
            && s.mishaps == Mishaps(true, false, false, false)
  {
    UpToSecondPut(run);
    var s := At(run, 13);
    Ending(s);
    OneMore(run, 13, s);
    OneMore(run, 14, At(run, 14));
    assert run[..15] == run;
    assert PUT.db.objects[SlotOf(PLAIN, LOST_ID)].cas == K;
  }
}
