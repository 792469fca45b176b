/** The object metadata cache in Redis against the table it caches. */
module MetaCache {
  import opened Base
  import opened Tables

  /** One entry for each object id: the cache key holds the bucket and a digest of the
      whole object key. */
  type Cache = map<ObjectId, ObjectRow>

  datatype Store = Store(db: Tables, cache: Cache)

  /** ok says whether the statements of a step succeed; heard whether the cache can be read,
      kept whether it can be written. A late fill is the write of a get that read its row
      some time before. */
  datatype Step =
    | CreateBucket(bucket: nat)
    | RemoveBucket(bucket: nat)
    | Put(id: ObjectId, row: ObjectRow, ok: bool, kept: bool)
    | Remove(id: ObjectId, ok: bool, kept: bool)
    | Get(id: ObjectId, ok: bool, heard: bool, kept: bool)
    | LateFill(id: ObjectId, row: ObjectRow)
    | Expire(ids: set<ObjectId>)

  function Init(fold: Folding): Store {
    Store(Empty(fold), map[])
  }

  /** A put whose key is new takes the fast path, which does not write the cache. */
  function PutCached(s: Store, id: ObjectId, row: ObjectRow, kept: bool): Store {
    match PutObject(s.db, id, row)
    case None => s
    case Some((after, _)) =>
      Store(after, if SlotOf(s.db.fold, id) in s.db.objects && kept then s.cache[id := row.(key := id.key)] else s.cache)
  }

  function RemoveCached(s: Store, id: ObjectId, kept: bool): Store {
    match DeleteObject(s.db, id)
    case None => s
    case Some((after, _)) => Store(after, if kept then s.cache - {id} else s.cache)
  }

  /** What a get answers, and the cache after it. */
  function GetCached(s: Store, id: ObjectId, ok: bool, heard: bool, kept: bool): (Option<ObjectRow>, Store) {
    if heard && id in s.cache then (Some(s.cache[id]), s)
    else if !ok then (None, s)
    else match SelectObject(s.db, id)
         case None => (None, s)
         case Some(row) => (Some(row), if kept then s.(cache := s.cache[id := row]) else s)
  }

  predicate EmptyBucket(db: Tables, b: nat) {
    forall t :: t in db.objects ==> t.bucket != b
  }

  /** Buckets go only when empty. */
  function Apply(s: Store, step: Step): Store {
    match step
    case CreateBucket(b) => s.(db := s.db.(buckets := s.db.buckets + {b}))
    case RemoveBucket(b) => if EmptyBucket(s.db, b) then s.(db := DeleteBucket(s.db, b)) else s
    case Put(id, row, ok, kept) => if ok then PutCached(s, id, row, kept) else s
    case Remove(id, ok, kept) => if ok then RemoveCached(s, id, kept) else s
    case Get(id, ok, heard, kept) => GetCached(s, id, ok, heard, kept).1
    case LateFill(id, row) => s.(cache := s.cache[id := row])
    case Expire(ids) => s.(cache := s.cache - ids)
  }

  function Run(s: Store, steps: seq<Step>): Store
    decreases |steps|
  {
    if steps == [] then s else Run(Apply(s, steps[0]), steps[1..])
  }

  /** Each entry is the row that the table has for its id. */
  ghost predicate Agrees(s: Store) {
    forall id :: id in s.cache ==> SelectObject(s.db, id) == Some(s.cache[id])
  }

  /** No two object ids in use share an entry of the unique index. */
  ghost predicate Separate(fold: Folding, ids: iset<ObjectId>) {
    forall a, b :: a in ids && b in ids && SlotOf(fold, a) == SlotOf(fold, b) ==> a == b
  }

  predicate Uses(step: Step, ids: iset<ObjectId>) {
    step.Put? || step.Get? || step.Remove? || step.LateFill? ==> step.id in ids
  }

  /** Objects are put, read and deleted under the given ids only. */
  predicate UsesOnly(steps: seq<Step>, ids: iset<ObjectId>) {
    forall i :: 0 <= i < |steps| ==> Uses(steps[i], ids)
  }

  /** A put that is not written to the cache leaves an entry that differs from the new row;
      a removal that is not, one for a row that is gone; a late fill brings a row that is
      not the table's any more. */
  predicate Harms(s: Store, step: Step) {
    match step
    case Put(id, row, ok, kept) =>
      && ok && !kept && id in s.cache && PutObject(s.db, id, row).Some?
      && SlotOf(s.db.fold, id) in s.db.objects && s.cache[id] != row.(key := id.key)
    case Remove(id, ok, kept) => ok && !kept && id in s.cache && DeleteObject(s.db, id).Some?
    case LateFill(id, row) => SelectObject(s.db, id) != Some(row)
    case _ => false
  }

  predicate Unharmed(s: Store, steps: seq<Step>)
    decreases |steps|
  {
    steps == [] || (!Harms(s, steps[0]) && Unharmed(Apply(s, steps[0]), steps[1..]))
  }

  ghost predicate AgreesThroughout(s: Store, steps: seq<Step>)
    decreases |steps|
  {
    Agrees(s) && (steps == [] || AgreesThroughout(Apply(s, steps[0]), steps[1..]))
  }

  ghost predicate Inv(s: Store, ids: iset<ObjectId>) {
    && Agrees(s)
    && (forall id :: id in s.cache ==> id in ids)
    && forall t :: t in s.db.objects ==>
         && ObjectId(t.bucket, s.db.objects[t].key) in ids
         && SlotOf(s.db.fold, ObjectId(t.bucket, s.db.objects[t].key)) == t
  }

  lemma PutWritesRow(db: Tables, id: ObjectId, row: ObjectRow)
    requires PutObject(db, id, row).Some?
    requires SlotOf(db.fold, id) in db.objects ==> db.objects[SlotOf(db.fold, id)].key == id.key
    ensures PutObject(db, id, row).value.0.objects == db.objects[SlotOf(db.fold, id) := row.(key := id.key)]
    ensures PutObject(db, id, row).value.0.fold == db.fold
  {
  }

  lemma RowsStaySound(db: Tables, after: Tables, id: ObjectId, row: ObjectRow, ids: iset<ObjectId>,
                      cache: Cache, cache': Cache)
    requires Separate(db.fold, ids) && Inv(Store(db, cache), ids) && id in ids && row.key == id.key
    requires after.fold == db.fold && after.objects == db.objects[SlotOf(db.fold, id) := row]
    requires (cache' == cache && (id !in cache || cache[id] == row)) || cache' == cache[id := row]
    ensures Inv(Store(after, cache'), ids)
  {
    forall j | j in cache' ensures SelectObject(after, j) == Some(cache'[j]) {
      if j != id {
        assert SelectObject(db, j) == Some(cache[j]);
        assert ObjectId(j.bucket, db.objects[SlotOf(db.fold, j)].key) == j;
      }
    }
  }

  lemma PutKeeps(s: Store, id: ObjectId, row: ObjectRow, kept: bool, ids: iset<ObjectId>)
    requires Separate(s.db.fold, ids) && Inv(s, ids) && id in ids && !Harms(s, Put(id, row, true, kept))
    ensures Inv(PutCached(s, id, row, kept), ids)
  {
    var slot := SlotOf(s.db.fold, id);
    if slot in s.db.objects {
      assert ObjectId(slot.bucket, s.db.objects[slot].key) == id;
    }
    if PutObject(s.db, id, row).Some? {
      PutWritesRow(s.db, id, row);
      assert slot !in s.db.objects ==> id !in s.cache;
      var t := PutCached(s, id, row, kept);
      RowsStaySound(s.db, t.db, id, row.(key := id.key), ids, s.cache, t.cache);
    }
  }

  /** The put of a row whose old entry stays behind. */
  lemma PutHarms(s: Store, id: ObjectId, row: ObjectRow, ids: iset<ObjectId>)
    requires Separate(s.db.fold, ids) && Inv(s, ids) && id in ids && Harms(s, Put(id, row, true, false))
    ensures !Agrees(PutCached(s, id, row, false))
  {
    var slot := SlotOf(s.db.fold, id);
    assert ObjectId(slot.bucket, s.db.objects[slot].key) == id;
    PutWritesRow(s.db, id, row);
    var t := PutCached(s, id, row, false);
    assert SelectObject(t.db, id) == Some(row.(key := id.key));
  }

  lemma RemovalDropsRow(db: Tables, id: ObjectId)
    requires DeleteObject(db, id).Some?
    ensures DeleteObject(db, id).value.0.objects == db.objects - {SlotOf(db.fold, id)}
    ensures DeleteObject(db, id).value.0.fold == db.fold
    ensures SelectObject(db, id).Some?
  {
  }

  lemma OtherRowsStaySound(db: Tables, after: Tables, id: ObjectId, ids: iset<ObjectId>, cache: Cache)
    requires Separate(db.fold, ids) && Inv(Store(db, cache), ids) && SelectObject(db, id).Some? && id in ids
    requires after.fold == db.fold && after.objects == db.objects - {SlotOf(db.fold, id)}
    ensures Inv(Store(after, cache - {id}), ids)
  {
    forall j | j in cache - {id} ensures SelectObject(after, j) == Some((cache - {id})[j]) {
      assert SelectObject(db, j) == Some(cache[j]);
      assert SlotOf(db.fold, j) == SlotOf(db.fold, id) ==> j == id;
    }
  }

  lemma RemoveKeeps(s: Store, id: ObjectId, kept: bool, ids: iset<ObjectId>)
    requires Separate(s.db.fold, ids) && Inv(s, ids) && id in ids && !Harms(s, Remove(id, true, kept))
    ensures Inv(RemoveCached(s, id, kept), ids)
  {
    var change := DeleteObject(s.db, id);
    if change.Some? {
      RemovalDropsRow(s.db, id);
      OtherRowsStaySound(s.db, change.value.0, id, ids, s.cache);
      assert id !in s.cache ==> s.cache - {id} == s.cache;
    }
  }

  lemma RemoveHarms(s: Store, id: ObjectId, ids: iset<ObjectId>)
    requires Inv(s, ids) && Harms(s, Remove(id, true, false))
    ensures !Agrees(RemoveCached(s, id, false))
  {
    RemovalDropsRow(s.db, id);
    assert SelectObject(RemoveCached(s, id, false).db, id).None?;
  }

  lemma SameObjectsKeep(s: Store, db: Tables, ids: iset<ObjectId>)
    requires Inv(s, ids) && db.fold == s.db.fold && db.objects == s.db.objects
    ensures Inv(s.(db := db), ids)
  {
    forall j | j in s.cache ensures SelectObject(db, j) == Some(s.cache[j]) {
      assert SelectObject(s.db, j) == Some(s.cache[j]);
    }
  }

  lemma GetKeeps(s: Store, id: ObjectId, ok: bool, heard: bool, kept: bool, ids: iset<ObjectId>)
    requires Inv(s, ids) && id in ids
    ensures var t := GetCached(s, id, ok, heard, kept).1; Inv(t, ids) && t.db == s.db
  {
  }

  lemma ExpireKeeps(s: Store, gone: set<ObjectId>, ids: iset<ObjectId>)
    requires Inv(s, ids)
    ensures Inv(s.(cache := s.cache - gone), ids)
  {
  }

  lemma FoldingStays(s: Store, step: Step)
    ensures Apply(s, step).db.fold == s.db.fold
  {
  }

  lemma StepKeeps(s: Store, step: Step, ids: iset<ObjectId>)
    requires Separate(s.db.fold, ids) && Inv(s, ids) && Uses(step, ids) && !Harms(s, step)
    ensures Inv(Apply(s, step), ids)
  {
    match step
    case CreateBucket(b) => SameObjectsKeep(s, s.db.(buckets := s.db.buckets + {b}), ids);
    case RemoveBucket(b) =>
      if EmptyBucket(s.db, b) {
        assert DeleteBucket(s.db, b).objects == s.db.objects;
        SameObjectsKeep(s, DeleteBucket(s.db, b), ids);
      }
    case Put(id, row, ok, kept) => if ok { PutKeeps(s, id, row, kept, ids); }
    case Remove(id, ok, kept) => if ok { RemoveKeeps(s, id, kept, ids); }
    case Get(id, ok, heard, kept) => GetKeeps(s, id, ok, heard, kept, ids);
    case LateFill(id, row) =>
    case Expire(gone) => ExpireKeeps(s, gone, ids);
  }

  /** A step from agreement leads to agreement exactly when it does no harm. */
  lemma AgreesIffNotHarmed(s: Store, step: Step, ids: iset<ObjectId>)
    requires Separate(s.db.fold, ids) && Inv(s, ids) && Uses(step, ids)
    ensures Agrees(Apply(s, step)) <==> !Harms(s, step)
  {
    if !Harms(s, step) {
      StepKeeps(s, step, ids);
    } else {
      match step
      case Put(id, row, _, _) => PutHarms(s, id, row, ids);
      case Remove(id, _, _) => RemoveHarms(s, id, ids);
      case LateFill(id, row) => assert id in Apply(s, step).cache;
    }
  }

  lemma {:induction false} RunKeeps(s: Store, steps: seq<Step>, ids: iset<ObjectId>)
    requires Separate(s.db.fold, ids) && Inv(s, ids) && UsesOnly(steps, ids) && Unharmed(s, steps)
    ensures Inv(Run(s, steps), ids)
    decreases |steps|
  {
    if steps != [] {
      assert Uses(steps[0], ids);
      StepKeeps(s, steps[0], ids);
      FoldingStays(s, steps[0]);
      RunKeeps(Apply(s, steps[0]), steps[1..], ids);
    }
  }

  lemma {:induction false} ThroughoutIffUnharmed(s: Store, steps: seq<Step>, ids: iset<ObjectId>)
    requires Separate(s.db.fold, ids) && Inv(s, ids) && UsesOnly(steps, ids)
    ensures AgreesThroughout(s, steps) <==> Unharmed(s, steps)
    decreases |steps|
  {
    if steps != [] {
      assert Uses(steps[0], ids);
      AgreesIffNotHarmed(s, steps[0], ids);
      if !Harms(s, steps[0]) {
        StepKeeps(s, steps[0], ids);
        FoldingStays(s, steps[0]);
        ThroughoutIffUnharmed(Apply(s, steps[0]), steps[1..], ids);
      } else {
        assert !AgreesThroughout(Apply(s, steps[0]), steps[1..]);
      }
    }
  }

  /** With keys that share no index entry, the cache agrees with the table at all times of
      a run if and only if no step of it does harm. */
  lemma AgreesThroughoutIffUnharmed(fold: Folding, steps: seq<Step>, ids: iset<ObjectId>)
    requires Separate(fold, ids) && UsesOnly(steps, ids)
    ensures AgreesThroughout(Init(fold), steps) <==> Unharmed(Init(fold), steps)
  {
    ThroughoutIffUnharmed(Init(fold), steps, ids);
  }

  /** Whatever becomes of the cache's commands, and if the query fails as well a get may
      find nothing, but no other row. */
  ghost predicate AlwaysAgrees(fold: Folding, ids: iset<ObjectId>) {
    forall steps, id, ok, heard, kept {:trigger UsesOnly(steps, ids), GetCached(Run(Init(fold), steps), id, ok, heard, kept)} ::
      UsesOnly(steps, ids) && Unharmed(Init(fold), steps) && id in ids ==>
        var got := GetCached(Run(Init(fold), steps), id, ok, heard, kept).0;
        got == SelectObject(Run(Init(fold), steps).db, id) || (!ok && got == None)
  }

  const FIRST := ObjectRow("", Sha256("x"), 1, "", "")
  const SECOND := ObjectRow("", Sha256("y"), 1, "", "")

  /** Two keys that share an index entry: each put of the second writes the row of the
      first, whose cached row stays behind. */
  function ConfusingRun(a: ObjectId, b: ObjectId): seq<Step> {
    [CreateBucket(a.bucket), Put(a, FIRST, true, true), Put(b, FIRST, true, true), Get(a, true, true, true), Put(b, SECOND, true, true)]
  }

  lemma ConfusedStore(fold: Folding, a: ObjectId, b: ObjectId)
    requires a != b && SlotOf(fold, a) == SlotOf(fold, b)
    ensures var s1 := Apply(Init(fold), CreateBucket(a.bucket));
            var s2 := Apply(s1, Put(a, FIRST, true, true));
            var s3 := Apply(s2, Put(b, FIRST, true, true));
            var slot := SlotOf(fold, a);
            && s3.db.fold == fold && s3.db.buckets == {a.bucket} && a !in s3.cache
            && s3.db.objects == map[slot := FIRST.(key := a.key)]
  {
    var s1 := Apply(Init(fold), CreateBucket(a.bucket));
    var s2 := Apply(s1, Put(a, FIRST, true, true));
    var slot := SlotOf(fold, a);
    assert s2.db.objects == map[slot := FIRST.(key := a.key)] && s2.cache == map[] && s2.db.buckets == {a.bucket};
    var s3 := Apply(s2, Put(b, FIRST, true, true));
    assert s3.cache == map[b := FIRST.(key := b.key)];
    assert a.bucket == b.bucket;
  }

  /** A put under b writes the row of a. */
  lemma WritesOther(db: Tables, a: ObjectId, b: ObjectId)
    requires a.bucket == b.bucket && SlotOf(db.fold, a) == SlotOf(db.fold, b) && db.buckets == {a.bucket}
    requires db.objects == map[SlotOf(db.fold, a) := FIRST.(key := a.key)]
    ensures PutObject(db, b, SECOND).Some?
    ensures var after := PutObject(db, b, SECOND).value.0;
            after.fold == db.fold && after.objects == map[SlotOf(db.fold, a) := SECOND.(key := a.key)]
  {
    var slot := SlotOf(db.fold, a);
    assert map[slot := FIRST.(key := a.key)][slot := SECOND.(key := a.key)] == map[slot := SECOND.(key := a.key)];
  }

  /** Reading a and then putting b again leaves the cached row of a behind. */
  lemma StaleRow(s: Store, a: ObjectId, b: ObjectId)
    requires a != b && a.bucket == b.bucket && SlotOf(s.db.fold, a) == SlotOf(s.db.fold, b)
    requires s.db.buckets == {a.bucket} && a !in s.cache
    requires s.db.objects == map[SlotOf(s.db.fold, a) := FIRST.(key := a.key)]
    ensures var t := Apply(Apply(s, Get(a, true, true, true)), Put(b, SECOND, true, true));
            && a in t.cache && t.cache[a].cas == FIRST.cas
            && SelectObject(t.db, a).Some? && SelectObject(t.db, a).value.cas == SECOND.cas
  {
    var s4 := Apply(s, Get(a, true, true, true));
    assert s4.db == s.db && a in s4.cache && s4.cache[a].cas == FIRST.cas;
    WritesOther(s.db, a, b);
  }

  lemma RunFive(s: Store, a: Step, b: Step, c: Step, d: Step, e: Step)
    ensures Run(s, [a, b, c, d, e]) == Apply(Apply(Apply(Apply(Apply(s, a), b), c), d), e)
  {
    var s1 := Apply(s, a);
    var s2 := Apply(s1, b);
    var s3 := Apply(s2, c);
    var s4 := Apply(s3, d);
    assert Run(Apply(s4, e), []) == Apply(s4, e);
    assert Run(s4, [e]) == Run(Apply(s4, e), [e][1..]);
    assert Run(s3, [d, e]) == Run(s4, [d, e][1..]);
    assert [d, e][1..] == [e];
    assert Run(s2, [c, d, e]) == Run(s3, [c, d, e][1..]);
    assert [c, d, e][1..] == [d, e];
    assert Run(s1, [b, c, d, e]) == Run(s2, [b, c, d, e][1..]);
    assert [b, c, d, e][1..] == [c, d, e];
    assert Run(s, [a, b, c, d, e]) == Run(s1, [a, b, c, d, e][1..]);
    assert [a, b, c, d, e][1..] == [b, c, d, e];
  }

  lemma SharedSlotConfuses(fold: Folding, a: ObjectId, b: ObjectId)
    requires a != b && SlotOf(fold, a) == SlotOf(fold, b)
    ensures var s := Run(Init(fold), ConfusingRun(a, b));
            var cached, stored := GetCached(s, a, true, true, true).0, SelectObject(s.db, a);
            cached.Some? && stored.Some? && cached.value.cas != stored.value.cas
  {
    ConfusedStore(fold, a, b);
    var s1 := Apply(Init(fold), CreateBucket(a.bucket));
    var s3 := Apply(Apply(s1, Put(a, FIRST, true, true)), Put(b, FIRST, true, true));
    StaleRow(s3, a, b);
    RunFive(Init(fold), CreateBucket(a.bucket), Put(a, FIRST, true, true), Put(b, FIRST, true, true),
            Get(a, true, true, true), Put(b, SECOND, true, true));
  }

  /** "A" and "a" under a collation that does not tell them apart. */
  lemma CaseConfuses(fold: Folding)
    requires fold("A") == fold("a")
    ensures var s := Run(Init(fold), ConfusingRun(ObjectId(0, "a"), ObjectId(0, "A")));
            GetCached(s, ObjectId(0, "a"), true, true, true).0 != SelectObject(s.db, ObjectId(0, "a"))
  {
    SharedSlotConfuses(fold, ObjectId(0, "a"), ObjectId(0, "A"));
  }

  /** Steps that can do no harm in any store. */
  predicate Harmless(step: Step) {
    (step.Put? || step.Remove? ==> step.kept) && !step.LateFill?
  }

  lemma {:induction false} HarmlessIsUnharmed(s: Store, steps: seq<Step>)
    requires forall i :: 0 <= i < |steps| ==> Harmless(steps[i])
    ensures Unharmed(s, steps)
    decreases |steps|
  {
    if steps != [] {
      HarmlessIsUnharmed(Apply(s, steps[0]), steps[1..]);
    }
  }

  lemma GetIsRight(s: Store, id: ObjectId, ok: bool, heard: bool, kept: bool)
    requires Agrees(s)
    ensures var got := GetCached(s, id, ok, heard, kept).0;
            got == SelectObject(s.db, id) || (!ok && got == None)
  {
  }

  /** What a get has found the next one finds without the table, if the cache was written and
      can be read. */
  lemma SecondGetIsCached(s: Store, id: ObjectId, heard: bool, kept': bool)
    requires SelectObject(s.db, id).Some?
    ensures var (first, t) := GetCached(s, id, true, heard, true);
            GetCached(t, id, false, true, kept').0 == (if heard || id !in s.cache then first else Some(t.cache[id]))
            && first.Some? && t.db == s.db
  {
  }

  /** Over all runs that put, read and delete under the given ids, one request after the
      other, with entries expiring and cache commands failing at any time where that does
      no harm, a get always agrees with the table if and only if no two of the ids share an
      entry of the unique index, which covers the folding of the first 255 characters. */
  lemma CacheAgreesIffSeparate(fold: Folding, ids: iset<ObjectId>)
    ensures AlwaysAgrees(fold, ids) <==> Separate(fold, ids)
  {
    if Separate(fold, ids) {
      forall steps, id, ok, heard, kept | UsesOnly(steps, ids) && Unharmed(Init(fold), steps) && id in ids
        ensures var got := GetCached(Run(Init(fold), steps), id, ok, heard, kept).0;
                got == SelectObject(Run(Init(fold), steps).db, id) || (!ok && got == None)
      {
        RunKeeps(Init(fold), steps, ids);
        GetIsRight(Run(Init(fold), steps), id, ok, heard, kept);
      }
    } else {
      var a, b :| a in ids && b in ids && SlotOf(fold, a) == SlotOf(fold, b) && a != b;
      SharedSlotConfuses(fold, a, b);
      var steps := ConfusingRun(a, b);
      assert UsesOnly(steps, ids);
      HarmlessIsUnharmed(Init(fold), steps);
      assert GetCached(Run(Init(fold), steps), a, true, true, true).0 != SelectObject(Run(Init(fold), steps).db, a);
    }
  }

  // ----- cache commands that fail or come late

  lemma CachedFirst(fold: Folding, a: ObjectId)
    ensures var s1 := Apply(Init(fold), CreateBucket(a.bucket));
            var s2 := Apply(s1, Put(a, FIRST, true, true));
            var s3 := Apply(s2, Get(a, true, true, true));
            var row := FIRST.(key := a.key);
            && s3.db.fold == fold && s3.db.buckets == {a.bucket} && s3.db.objects == map[SlotOf(fold, a) := row]
            && s3.cache == map[a := row]
  {
    var s1 := Apply(Init(fold), CreateBucket(a.bucket));
    var s2 := Apply(s1, Put(a, FIRST, true, true));
    var slot := SlotOf(fold, a);
    assert s2.db.objects == map[slot := FIRST.(key := a.key)] && s2.cache == map[];
  }

  lemma RunFour(s: Store, a: Step, b: Step, c: Step, d: Step)
    ensures Run(s, [a, b, c, d]) == Apply(Apply(Apply(Apply(s, a), b), c), d)
  {
    var s1 := Apply(s, a);
    var s2 := Apply(s1, b);
    var s3 := Apply(s2, c);
    assert Run(Apply(s3, d), []) == Apply(s3, d);
    assert Run(s3, [d]) == Run(Apply(s3, d), [d][1..]);
    assert Run(s2, [c, d]) == Run(s3, [c, d][1..]) && [c, d][1..] == [d];
    assert Run(s1, [b, c, d]) == Run(s2, [b, c, d][1..]) && [b, c, d][1..] == [c, d];
    assert Run(s, [a, b, c, d]) == Run(s1, [a, b, c, d][1..]) && [a, b, c, d][1..] == [b, c, d];
  }

  /** A put whose write to the cache fails: the next get answers the old row. */
  lemma FailedSetIsStale(fold: Folding, a: ObjectId)
    ensures var s := Run(Init(fold), [CreateBucket(a.bucket), Put(a, FIRST, true, true), Get(a, true, true, true),
                                      Put(a, SECOND, true, false)]);
            var cached, stored := GetCached(s, a, true, true, true).0, SelectObject(s.db, a);
            cached.Some? && stored.Some? && cached.value.cas == FIRST.cas && stored.value.cas == SECOND.cas
  {
    CachedFirst(fold, a);
    RunFour(Init(fold), CreateBucket(a.bucket), Put(a, FIRST, true, true), Get(a, true, true, true),
            Put(a, SECOND, true, false));
  }

  /** A removal whose command to the cache fails: the next get answers the row that is
      gone. */
  lemma FailedDelIsStale(fold: Folding, a: ObjectId)
    ensures var s := Run(Init(fold), [CreateBucket(a.bucket), Put(a, FIRST, true, true), Get(a, true, true, true),
                                      Remove(a, true, false)]);
            GetCached(s, a, true, true, true).0.Some? && SelectObject(s.db, a).None?
  {
    CachedFirst(fold, a);
    RunFour(Init(fold), CreateBucket(a.bucket), Put(a, FIRST, true, true), Get(a, true, true, true), Remove(a, true, false));
  }

  /** A get that reads its row before a put and fills the cache after it. */
  lemma LateFillIsStale(s: Store, a: ObjectId, read: ObjectRow, row: ObjectRow)
    requires SelectObject(s.db, a) == Some(read) && PutObject(s.db, a, row).Some? && row.cas != read.cas
    ensures var t := Apply(Apply(s, Put(a, row, true, true)), LateFill(a, read));
            var cached, stored := GetCached(t, a, true, true, true).0, SelectObject(t.db, a);
            cached == Some(read) && stored.Some? && stored.value.cas == row.cas
  {
    var slot := SlotOf(s.db.fold, a);
    var after := PutObject(s.db, a, row).value.0;
    assert after.objects[slot] == row.(key := read.key) && after.fold == s.db.fold;
  }

  // ----- the code

  class CachedStore {
    var db: Tables
    var cache: Cache

    constructor (fold: Folding)
      ensures Store(db, cache) == Init(fold)
    {
      db, cache := Empty(fold), map[];
    }

    /** ok says whether the query succeeds, heard and kept whether the cache answers. */
    method GetObject(id: ObjectId, ok: bool, heard: bool, kept: bool) returns (info: Option<ObjectRow>)
      modifies this
      ensures (info, Store(db, cache)) == GetCached(Store(old(db), old(cache)), id, ok, heard, kept)
    {
      if heard && id in cache {
        return Some(cache[id]);
      }
      if !ok {
        return None;
      }
      info := SelectObject(db, id);
      if info.Some? && kept {
        cache := cache[id := info.value];
      }
    }

    method PutObjectWithRefCount(id: ObjectId, row: ObjectRow, kept: bool)
      modifies this
      ensures Store(db, cache) == PutCached(Store(old(db), old(cache)), id, row, kept)
    {
      var fast := SlotOf(db.fold, id) !in db.objects;
      var change := PutObject(db, id, row);
      if change.None? {
        return;
      }
      db := change.value.0;
      if !fast && kept {
        cache := cache[id := row.(key := id.key)];
      }
    }

    method DeleteObjectWithRefCount(id: ObjectId, kept: bool)
      modifies this
      ensures Store(db, cache) == RemoveCached(Store(old(db), old(cache)), id, kept)
    {
      var change := DeleteObject(db, id);
      if change.Some? {
        db := change.value.0;
        if kept {
          cache := cache - {id};
        }
      }
    }
  }
}
