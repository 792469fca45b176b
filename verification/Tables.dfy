/** The tables of scripts/mysql_init.sql, and what one statement does to them. */
module Tables {
  import opened Base

  /** Length of the object_key prefix that the unique index covers. */
  const KEY_PREFIX: nat := 255

  datatype ObjectId = ObjectId(bucket: nat, key: string)
  datatype Slot = Slot(bucket: nat, prefix: string)
  datatype ObjectRow = ObjectRow(key: string, cas: Digest, size: nat, etag: string, contentType: string)
  datatype UploadRow = UploadRow(bucket: nat, key: string, contentType: string)
  datatype PartId = PartId(upload: nat, number: nat)
  datatype PartRow = PartRow(cas: Digest, size: nat, etag: string)

  /** What the collation makes of a key: keys with the same folding are equal to the
      database, as "A" and "a" are under utf8mb4_unicode_ci. Every result holds for every
      folding. Keys that fold alike are taken to have beginnings that fold alike. */
  type Folding = string -> string

  /** objects is keyed by its unique index, blobs holds the reference counts. */
  datatype Tables = Tables(fold: Folding, buckets: set<nat>, blobs: map<Digest, nat>, objects: map<Slot, ObjectRow>,
                           uploads: map<nat, UploadRow>, parts: map<PartId, PartRow>)

  function Empty(fold: Folding): Tables {
    Tables(fold, {}, map[], map[], map[], map[])
  }

  /** The index entry of a key: its first 255 characters, folded. */
  function SlotOf(fold: Folding, id: ObjectId): Slot {
    Slot(id.bucket, fold(if |id.key| <= KEY_PREFIX then id.key else id.key[..KEY_PREFIX]))
  }

  /** Keys that agree in their first 255 characters share an index entry; and no others do,
      if the folding tells all beginnings apart. */
  lemma SlotsShared(fold: Folding, a: ObjectId, b: ObjectId)
    ensures a.bucket == b.bucket && Beginning(a.key) == Beginning(b.key) ==> SlotOf(fold, a) == SlotOf(fold, b)
    ensures (forall x, y :: fold(x) == fold(y) ==> x == y) && SlotOf(fold, a) == SlotOf(fold, b) ==>
              a.bucket == b.bucket && Beginning(a.key) == Beginning(b.key)
    ensures |a.key| <= 255 && |b.key| <= 255 && Beginning(a.key) == Beginning(b.key) ==> a.key == b.key
  {
  }

  function Beginning(key: string): (r: string)
    ensures r <= key && (|r| == 255 || r == key) && |r| <= 255
  {
    if |key| <= 255 then key else key[..255]
  }

  function Count(db: Tables, k: Digest): nat {
    if k in db.blobs then db.blobs[k] else 0
  }

  /** The foreign keys, and each row being in the slot of its key. */
  predicate Consistent(db: Tables) {
    && (forall s :: s in db.objects ==>
          s.bucket in db.buckets && db.objects[s].cas in db.blobs
          && SlotOf(db.fold, ObjectId(s.bucket, db.objects[s].key)) == s)
    && (forall u :: u in db.uploads ==> db.uploads[u].bucket in db.buckets)
    && (forall p :: p in db.parts ==> p.upload in db.uploads && db.parts[p].cas in db.blobs)
  }

  // ----- statements; None is a constraint violation

  function Increment(db: Tables, k: Digest): Tables {
    db.(blobs := db.blobs[k := Count(db, k) + 1])
  }

  /** The decrement stops at zero and passes over a missing row. */
  function Decrement(db: Tables, k: Digest): Tables {
    if k in db.blobs && db.blobs[k] > 0 then db.(blobs := db.blobs[k := db.blobs[k] - 1]) else db
  }

  function SelectObject(db: Tables, id: ObjectId): Option<ObjectRow> {
    var slot := SlotOf(db.fold, id);
    if slot in db.objects && db.fold(db.objects[slot].key) == db.fold(id.key) then Some(db.objects[slot]) else None
  }

  /** The insert that an existing row with the same index entry turns into an
      update; the update does not touch the row's key. */
  function UpsertObject(db: Tables, id: ObjectId, row: ObjectRow): Option<Tables> {
    var slot := SlotOf(db.fold, id);
    if row.cas !in db.blobs || id.bucket !in db.buckets then None
    else if slot in db.objects then Some(db.(objects := db.objects[slot := row.(key := db.objects[slot].key)]))
    else Some(db.(objects := db.objects[slot := row.(key := id.key)]))
  }

  function DeleteObjectRow(db: Tables, id: ObjectId): Tables {
    if SelectObject(db, id).Some? then db.(objects := db.objects - {SlotOf(db.fold, id)}) else db
  }

  function UpsertPart(db: Tables, p: PartId, row: PartRow): Option<Tables> {
    if row.cas !in db.blobs || p.upload !in db.uploads then None
    else Some(db.(parts := db.parts[p := row]))
  }

  /** Deleting an upload takes its parts with it. */
  function DeleteUpload(db: Tables, u: nat): Tables {
    db.(uploads := db.uploads - {u}, parts := map p | p in db.parts && p.upload != u :: db.parts[p])
  }

  /** Deleting a bucket takes its objects and its uploads with it. */
  function DeleteBucket(db: Tables, b: nat): Tables {
    var uploads := map u | u in db.uploads && db.uploads[u].bucket != b :: db.uploads[u];
    db.(buckets := db.buckets - {b},
        objects := map s | s in db.objects && s.bucket != b :: db.objects[s],
        uploads := uploads,
        parts := map p | p in db.parts && p.upload in uploads :: db.parts[p])
  }

  predicate Referenced(db: Tables, k: Digest) {
    (exists s :: s in db.objects && db.objects[s].cas == k) || (exists p :: p in db.parts && db.parts[p].cas == k)
  }

  /** A blob row that is still referenced cannot be deleted. */
  function DeleteBlob(db: Tables, k: Digest): Option<Tables> {
    if Referenced(db, k) then None else Some(db.(blobs := db.blobs - {k}))
  }

  /** The collector's question: a known blob, count zero, no row that refers to it. */
  predicate CanDelete(db: Tables, k: Digest) {
    k in db.blobs && db.blobs[k] == 0 && !Referenced(db, k)
  }

  // ----- whole transactions

  /** New tables, and the digest to hand to the collector; None if refused. */
  type Change = Option<(Tables, Option<Digest>)>

  function Candidate(db: Tables, k: Digest): Option<Digest> {
    if k in db.blobs && db.blobs[k] == 0 then Some(k) else None
  }

  /** The count moves from the old digest, if there was one, to the new one. */
  function MoveCount(db: Tables, old': Option<Digest>, k: Digest): (Tables, Option<Digest>) {
    if old'.None? then (Increment(db, k), None)
    else if old'.value == k then (db, None)
    else
      var moved := Decrement(Increment(db, k), old'.value);
      (moved, Candidate(moved, old'.value))
  }

  function PutObject(db: Tables, id: ObjectId, row: ObjectRow): Change {
    var found := SelectObject(db, id);
    var (counted, candidate) := MoveCount(db, if found.Some? then Some(found.value.cas) else None, row.cas);
    match UpsertObject(counted, id, row)
    case None => None
    case Some(after) => Some((after, candidate))
  }

  function PutPart(db: Tables, p: PartId, row: PartRow): Change {
    var (counted, candidate) := MoveCount(db, if p in db.parts then Some(db.parts[p].cas) else None, row.cas);
    match UpsertPart(counted, p, row)
    case None => None
    case Some(after) => Some((after, candidate))
  }

  function DeleteObject(db: Tables, id: ObjectId): Change {
    match SelectObject(db, id)
    case None => None
    case Some(row) =>
      var after := Decrement(DeleteObjectRow(db, id), row.cas);
      Some((after, Candidate(after, row.cas)))
  }
}
