/** Puts under an idempotency key, in src/api/handlers/object_handlers.cpp. */
module Idempotency {
  import opened Base
  import opened Tables

  const TTL: nat := 86400

  /** The body of a streamed put is in the store before the handler is called. */
  datatype Put = Put(bucket: string, key: string, path: string, body: Octets, streamed: bool,
                     expected: Option<Digest>, idemKey: string, etag: string, contentType: string)

  /** What the request hash covers: the path, the size and the declared digest. */
  datatype RequestHash = RequestHash(path: string, size: nat, expected: Option<Digest>)

  datatype Summary = Summary(bucket: string, key: string, etag: string, size: nat)

  datatype Reply = Created(body: Summary) | Replayed(body: Summary) | Conflict | NotFound | BadRequest | InternalError

  /** The expiry is kept as the reading of a clock at Greenwich. */
  datatype Record = Record(hash: RequestHash, body: Summary, expires: nat)

  /** east is how far the server's local clock is ahead of Greenwich. Records are found by
      the folding of their key. */
  datatype Store = Store(db: Tables, names: map<string, nat>, files: map<Digest, Octets>,
                         records: map<string, Record>, east: int)

  /** Which of the handler's operations succeed: the query for the bucket, storing the
      body, the query for the record, the put, and writing the record, which also fails
      for a key of more than 64 characters. */
  datatype Luck = Luck(bucket: bool, stored: bool, check: bool, put: bool, record: bool)

  const ALL_WELL := Luck(true, true, true, true, true)

  /** One request or another change. now is the time at Greenwich, clock the reading of the
      database's own clock. */
  datatype Event =
    | PutRequest(put: Put, now: nat, luck: Luck)
    | Remove(bucket: string, key: string)
    | CreateBucket(bucket: string, id: nat)
    | RemoveBucket(bucket: string)
    | Sweep(clock: int)

  function Fresh(fold: Folding, east: int): Store {
    Store(Empty(fold), map[], map[], map[], east)
  }

  function HashOf(r: Put): RequestHash {
    RequestHash(r.path, |r.body|, r.expected)
  }

  /** The expiry is read back as a reading of the local clock. */
  function ReadBack(s: Store, rec: Record): int {
    rec.expires - s.east
  }

  function Live(s: Store, key: string, now: nat): Option<Record> {
    var k := s.db.fold(key);
    if key != "" && k in s.records && ReadBack(s, s.records[k]) > now then Some(s.records[k]) else None
  }

  predicate AsDeclared(r: Put) {
    r.expected.Some? ==> r.expected.value == Sha256(r.body)
  }

  /** The body is not empty, unless it was streamed, and has the declared digest. */
  predicate Accepted(r: Put) {
    (r.body != [] || r.streamed) && AsDeclared(r)
  }

  function IdOf(s: Store, r: Put): ObjectId
    requires r.bucket in s.names
  {
    ObjectId(s.names[r.bucket], r.key)
  }

  function RowOf(r: Put): ObjectRow {
    ObjectRow(r.key, Sha256(r.body), |r.body|, r.etag, r.contentType)
  }

  function SummaryOf(r: Put): Summary {
    Summary(r.bucket, r.key, r.etag, |r.body|)
  }

  function WithBody(s: Store, r: Put): Store {
    s.(files := s.files[Sha256(r.body) := r.body])
  }

  /** The file that a put brought itself goes again, unless a count covers it. */
  function Undone(s: Store, r: Put): Store {
    if r.streamed || Sha256(r.body) in s.files || Count(s.db, Sha256(r.body)) > 0 then WithBody(s, r) else s
  }

  function Recorded(s: Store, r: Put, now: nat, luck: Luck): Store {
    if r.idemKey != "" && luck.record
    then s.(records := s.records[s.db.fold(r.idemKey) := Record(HashOf(r), SummaryOf(r), now + TTL)]) else s
  }

  /** Once the body is stored: the record is asked for, then the row is put and the record
      written. */
  function Conclude(s: Store, r: Put, now: nat, luck: Luck): (Store, Reply)
    requires r.bucket in s.names
  {
    var s1 := WithBody(s, r);
    if r.idemKey != "" && !luck.check then (s1, InternalError)
    else match Live(s, r.idemKey, now)
         case Some(rec) => (s1, if rec.hash == HashOf(r) then Replayed(rec.body) else Conflict)
         case None =>
           var change := PutObject(s.db, IdOf(s, r), RowOf(r));
           if !luck.put || change.None? then (Undone(s, r), InternalError)
           else (Recorded(s1.(db := change.value.0), r, now, luck), Created(SummaryOf(r)))
  }

  /** The handler. The bucket is asked for before anything else; but a streamed body has
      been committed by then, or refused. */
  function Handle(s: Store, r: Put, now: nat, luck: Luck): (Store, Reply) {
    if r.streamed && (!luck.stored || !AsDeclared(r)) then (s, BadRequest)
    else
      var s0 := if r.streamed then WithBody(s, r) else s;
      if !luck.bucket then (s0, InternalError)
      else if r.bucket !in s.names then (s0, NotFound)
      else if !r.streamed && r.body == [] then (s, BadRequest)
      else if !luck.stored then (s, InternalError)
      else if !AsDeclared(r) then (Undone(s, r), BadRequest)
      else Conclude(s, r, now, luck)
  }

  function Apply(s: Store, e: Event): Store {
    match e
    case PutRequest(r, now, luck) => Handle(s, r, now, luck).0
    case Remove(b, key) =>
      if b !in s.names then s
      else (match DeleteObject(s.db, ObjectId(s.names[b], key))
            case None => s
            case Some((after, _)) => s.(db := after))
    case CreateBucket(b, id) =>
      if b in s.names || id in s.db.buckets then s
      else s.(db := s.db.(buckets := s.db.buckets + {id}), names := s.names[b := id])
    case RemoveBucket(b) =>
      if b !in s.names || exists t :: t in s.db.objects && t.bucket == s.names[b] then s
      else s.(db := DeleteBucket(s.db, s.names[b]), names := s.names - {b})
    case Sweep(clock) => s.(records := map k | k in s.records && s.records[k].expires >= clock :: s.records[k])
  }

  function Run(s: Store, events: seq<Event>): Store
    decreases |events|
  {
    if events == [] then s else Run(Apply(s, events[0]), events[1..])
  }

  // ----- a put that is made

  /** A put that is answered Created has put what it was sent: the object's row has the
      digest and size of the body and what the headers said, the body is in the file of
      its digest, and the answer says so. Every other object and every part is left alone. */
  lemma CreatedIsStored(s: Store, r: Put, now: nat, luck: Luck)
    requires Handle(s, r, now, luck).1.Created?
    ensures var (t, reply) := Handle(s, r, now, luck);
            var slot := SlotOf(s.db.fold, ObjectId(s.names[r.bucket], r.key));
            && r.bucket in s.names && t.names == s.names && slot in t.db.objects
            && (var row := t.db.objects[slot];
                && row.cas == Sha256(r.body) && row.size == |r.body| && row.etag == r.etag
                && row.contentType == r.contentType
                && row.key == if slot in s.db.objects then s.db.objects[slot].key else r.key)
            && Sha256(r.body) in t.files && t.files[Sha256(r.body)] == r.body
            && reply.body.bucket == r.bucket && reply.body.key == r.key
            && reply.body.etag == r.etag && reply.body.size == |r.body|
            && t.db.objects == s.db.objects[slot := t.db.objects[slot]] && t.db.parts == s.db.parts
  {
    PutWritesRow(s.db, ObjectId(s.names[r.bucket], r.key), RowOf(r));
  }

  lemma PutWritesRow(db: Tables, id: ObjectId, row: ObjectRow)
    requires PutObject(db, id, row).Some?
    ensures var after := PutObject(db, id, row).value.0;
            var slot := SlotOf(db.fold, id);
            && after.objects == db.objects[slot := row.(key := if slot in db.objects then db.objects[slot].key else id.key)]
            && after.parts == db.parts && after.fold == db.fold
  {
  }

  /** Any other answer leaves tables and records alone. Of a body that was neither streamed
      nor known the file stays behind exactly if the put got as far as the record, and this
      answered for it or could not be read. */
  lemma OthersLeaveTables(s: Store, r: Put, now: nat, luck: Luck)
    requires !Handle(s, r, now, luck).1.Created?
    ensures var (t, reply) := Handle(s, r, now, luck);
            var k := Sha256(r.body);
            && t.db == s.db && t.records == s.records && t.names == s.names
            && (t.files == s.files || t.files == s.files[k := r.body])
            && (!r.streamed && k !in s.files && Count(s.db, k) == 0 ==>
                (t.files != s.files <==>
                 reply.Replayed? || reply.Conflict?
                 || (r.bucket in s.names && r.body != [] && AsDeclared(r) && r.idemKey != ""
                     && luck.bucket && luck.stored && !luck.check)))
  {
    assert Sha256(r.body) !in s.files ==> WithBody(s, r).files != s.files;
  }

  /** What is answered when nothing fails: a streamed body is checked first, then the bucket
      is asked for, then a body that came whole is checked, and then the record. */
  lemma AnswerIs(s: Store, r: Put, now: nat)
    requires Consistent(s.db)
    ensures var reply := Handle(s, r, now, ALL_WELL).1;
            var declared := r.expected.None? || r.expected.value == Sha256(r.body);
            var there := r.bucket in s.names;
            var refused := !declared || (r.body == [] && !r.streamed);
            && (reply.BadRequest? <==> (r.streamed || there) && refused)
            && (reply.NotFound? <==> !there && !(r.streamed && !declared))
            && (there && !refused ==>
                match Live(s, r.idemKey, now)
                case Some(rec) =>
                  reply == if rec.hash.path == r.path && rec.hash.size == |r.body| && rec.hash.expected == r.expected
                           then Replayed(rec.body) else Conflict
                case None =>
                  if s.names[r.bucket] in s.db.buckets then reply.Created? else reply == InternalError)
  {
    if r.bucket in s.names {
      PossibleIffBucket(s.db, ObjectId(s.names[r.bucket], r.key), RowOf(r));
    }
  }

  lemma PossibleIffBucket(db: Tables, id: ObjectId, row: ObjectRow)
    requires Consistent(db)
    ensures PutObject(db, id, row).Some? <==> id.bucket in db.buckets
  {
    var found := SelectObject(db, id);
    assert found.Some? ==> found.value.cas in db.blobs;
  }

  // ----- records

  /** The event comes before the record under k expires, as far as it could touch it: a put
      under an equal key by what is read back, a sweep by what is written. */
  predicate Spares(e: Event, fold: Folding, k: string, expires: nat, east: int) {
    match e
    case PutRequest(r, now, _) => fold(r.idemKey) == k ==> now + east < expires
    case Sweep(clock) => clock <= expires
    case _ => true
  }

  predicate Spared(events: seq<Event>, fold: Folding, k: string, expires: nat, east: int) {
    forall i :: 0 <= i < |events| ==> Spares(events[i], fold, k, expires, east)
  }

  lemma PutKeepsFold(db: Tables, id: ObjectId, row: ObjectRow)
    requires PutObject(db, id, row).Some?
    ensures PutObject(db, id, row).value.0.fold == db.fold
  {
  }

  /** Only a put that found no live record writes one. */
  lemma ConcludeRecords(s: Store, r: Put, now: nat, luck: Luck)
    requires r.bucket in s.names
    ensures var t := Conclude(s, r, now, luck).0;
            && t.east == s.east && t.db.fold == s.db.fold
            && (t.records == s.records
                || (Live(s, r.idemKey, now).None? && r.idemKey != ""
                    && t.records == s.records[s.db.fold(r.idemKey) := Record(HashOf(r), SummaryOf(r), now + TTL)]))
  {
    if PutObject(s.db, IdOf(s, r), RowOf(r)).Some? {
      PutKeepsFold(s.db, IdOf(s, r), RowOf(r));
    }
  }

  lemma ConcludeKeepsRecord(s: Store, r: Put, now: nat, luck: Luck, k: string)
    requires r.bucket in s.names && k in s.records
    requires s.db.fold(r.idemKey) == k ==> now + s.east < s.records[k].expires
    ensures var t := Conclude(s, r, now, luck).0;
            k in t.records && t.records[k] == s.records[k] && t.east == s.east && t.db.fold == s.db.fold
  {
    ConcludeRecords(s, r, now, luck);
  }

  lemma EventKeepsRecord(s: Store, e: Event, k: string)
    requires k in s.records && Spares(e, s.db.fold, k, s.records[k].expires, s.east)
    ensures var t := Apply(s, e);
            k in t.records && t.records[k] == s.records[k] && t.east == s.east && t.db.fold == s.db.fold
  {
    if e.PutRequest? && e.put.bucket in s.names {
      ConcludeKeepsRecord(s, e.put, e.now, e.luck, k);
    }
  }

  /** A record stays as it is until it expires, whatever comes in. */
  lemma {:induction false} RecordStays(s: Store, k: string, events: seq<Event>)
    requires k in s.records && Spared(events, s.db.fold, k, s.records[k].expires, s.east)
    ensures var t := Run(s, events);
            k in t.records && t.records[k] == s.records[k] && t.east == s.east && t.db.fold == s.db.fold
    decreases |events|
  {
    if events != [] {
      assert Spares(events[0], s.db.fold, k, s.records[k].expires, s.east);
      EventKeepsRecord(s, events[0], k);
      RecordStays(Apply(s, events[0]), k, events[1..]);
    }
  }

  /** A bucket is made under a new name, and removed only when it has no object; an object is
      removed from the bucket of that name. None of this touches files or records. */
  lemma OthersLeaveRecords(s: Store, e: Event)
    requires !e.PutRequest? && !e.Sweep?
    ensures var t := Apply(s, e);
            && t.files == s.files && t.records == s.records && t.east == s.east
            && match e
               case Remove(b, key) =>
                 t.names == s.names
                 && t.db == if b in s.names && DeleteObject(s.db, ObjectId(s.names[b], key)).Some?
                            then DeleteObject(s.db, ObjectId(s.names[b], key)).value.0 else s.db
               case CreateBucket(b, id) =>
                 if b in s.names || id in s.db.buckets then t == s
                 else t.names == s.names[b := id] && t.db.buckets == s.db.buckets + {id} && t.db == s.db.(buckets := t.db.buckets)
               case RemoveBucket(b) =>
                 if b !in s.names || exists o :: o in s.db.objects && o.bucket == s.names[b] then t == s
                 else t.names == s.names - {b} && t.db == DeleteBucket(s.db, s.names[b])
               case _ => true
  {
  }

  /** The sweep takes the records whose expiry, as it is written, is before its clock, and no
      other. */
  lemma SweepTakesExpired(s: Store, clock: int)
    ensures var t := Apply(s, Sweep(clock));
            && t == s.(records := t.records)
            && (forall k :: k in t.records <==> k in s.records && s.records[k].expires >= clock)
            && (forall k :: k in t.records ==> t.records[k] == s.records[k])
  {
  }

  // ----- replay

  /** The put was made, and its record written. */
  predicate Made(s: Store, r: Put, now: nat, luck: Luck) {
    r.idemKey != "" && Handle(s, r, now, luck).1.Created? && luck.record
  }

  lemma MadeIsRecorded(s: Store, r: Put, now: nat, luck: Luck)
    requires Made(s, r, now, luck)
    ensures var t := Handle(s, r, now, luck).0;
            && t.records == s.records[s.db.fold(r.idemKey) := Record(HashOf(r), SummaryOf(r), now + TTL)]
            && t.east == s.east && t.db.fold == s.db.fold
  {
  }

  /** What a request gets to that is accepted, and whose operations succeed up to the
      query for the record. */
  predicate Answerable(s: Store, r: Put, luck: Luck) {
    luck.stored && luck.bucket && luck.check && r.bucket in s.names
  }

  /** Replay. Once a put has been made and recorded, and after any other requests while the
      record lives, a later request under an equal key is answered from the record if and
      only if its bucket is there, the queries succeed, and the time has not come to the
      record's expiry less the server's offset from Greenwich. It gets the recorded answer
      if it is the same request, and a conflict if not. Up to that time no table changes,
      whatever fails. */
  lemma ReplayIffLive(s: Store, r: Put, now: nat, luck: Luck, events: seq<Event>, again: Put, later: nat, luck': Luck)
    requires Made(s, r, now, luck)
    requires Spared(events, s.db.fold, s.db.fold(r.idemKey), now + TTL, s.east)
    requires again.idemKey != "" && s.db.fold(again.idemKey) == s.db.fold(r.idemKey) && Accepted(again)
    ensures var t := Run(Handle(s, r, now, luck).0, events);
            var (u, reply) := Handle(t, again, later, luck');
            && (reply.Replayed? || reply.Conflict? <==> Answerable(t, again, luck') && later + s.east < now + TTL)
            && (reply.Replayed? ==> HashOf(again) == HashOf(r) && reply.body == SummaryOf(r))
            && (reply.Conflict? ==> HashOf(again) != HashOf(r))
            && (later + s.east < now + TTL ==> u.db == t.db && u.records == t.records)
  {
    MadeIsRecorded(s, r, now, luck);
    RecordStays(Handle(s, r, now, luck).0, s.db.fold(r.idemKey), events);
  }

  /** On a server that is not east of Greenwich the same request gets the same answer, and
      changes no table, as long as the record was to live and the bucket is there. */
  lemma ReplayIsHarmless(s: Store, r: Put, now: nat, luck: Luck, events: seq<Event>, later: nat)
    requires Made(s, r, now, luck) && Spared(events, s.db.fold, s.db.fold(r.idemKey), now + TTL, s.east)
    requires s.east <= 0 && later < now + TTL && r.bucket in Run(Handle(s, r, now, luck).0, events).names
    ensures var t := Run(Handle(s, r, now, luck).0, events);
            var (u, reply) := Handle(t, r, later, ALL_WELL);
            reply == Replayed(Handle(s, r, now, luck).1.body) && u.db == t.db && u.records == t.records
  {
    MadeIsAccepted(s, r, now, luck);
    ReplayIffLive(s, r, now, luck, events, r, later, ALL_WELL);
  }

  lemma MadeIsAccepted(s: Store, r: Put, now: nat, luck: Luck)
    requires Made(s, r, now, luck)
    ensures Accepted(r) && Handle(s, r, now, luck).1 == Created(SummaryOf(r))
  {
  }

  predicate LivesUntil(s: Store, key: string, end: nat) {
    forall later: nat :: later < end ==> Live(s, key, later).Some?
  }

  /** A record lives as long as it was to live exactly on such a server. */
  lemma LivesItsTimeIffNotEast(s: Store, r: Put, now: nat, luck: Luck)
    requires Made(s, r, now, luck)
    ensures var t := Handle(s, r, now, luck).0;
            LivesUntil(t, r.idemKey, now + 86400) <==> s.east <= 0
  {
    MadeIsRecorded(s, r, now, luck);
    var t := Handle(s, r, now, luck).0;
    if s.east <= 0 {
      forall later: nat | later < now + 86400 ensures Live(t, r.idemKey, later).Some? {
      }
    } else {
      var last := now + 86400 - 1;
      assert Live(t, r.idemKey, last).None?;
    }
  }

  // ----- two runs

  const FIRST := Put("b", "k", "/b/k", "x", false, None, "once", "e", "t")
  const OTHER := Put("b", "k", "/b/k", "y", false, None, "", "f", "t")

  lemma RunThree(s: Store, a: Event, b: Event, c: Event)
    ensures Run(s, [a, b, c]) == Apply(Apply(Apply(s, a), b), c)
  {
    var s1 := Apply(s, a);
    var s2 := Apply(s1, b);
    assert Run(Apply(s2, c), []) == Apply(s2, c);
    assert Run(s2, [c]) == Run(Apply(s2, c), [c][1..]);
    assert Run(s1, [b, c]) == Run(s2, [b, c][1..]) && [b, c][1..] == [c];
    assert Run(s, [a, b, c]) == Run(s1, [a, b, c][1..]) && [a, b, c][1..] == [b, c];
  }

  lemma BucketMade(fold: Folding, east: int)
    ensures Apply(Fresh(fold, east), CreateBucket("b", 1))
            == Store(Empty(fold).(buckets := {1}), map["b" := 1], map[], map[], east)
  {
  }

  lemma FirstMade(fold: Folding, east: int)
    ensures var s := Store(Empty(fold).(buckets := {1}), map["b" := 1], map[], map[], east);
            var slot := SlotOf(fold, ObjectId(1, "k"));
            Made(s, FIRST, 0, ALL_WELL)
            && Handle(s, FIRST, 0, ALL_WELL).0
               == Store(Tables(fold, {1}, map[Sha256("x") := 1], map[slot := RowOf(FIRST)], map[], map[]), map["b" := 1],
                        map[Sha256("x") := "x"], map[fold("once") := Record(HashOf(FIRST), SummaryOf(FIRST), TTL)], east)
  {
    var s := Store(Empty(fold).(buckets := {1}), map["b" := 1], map[], map[], east);
    assert PutObject(s.db, ObjectId(1, "k"), RowOf(FIRST)).Some?;
  }

  /** East of Greenwich: a put, another put of the same object, and the first once more
      within its record's lifetime. It is made again, over the second. */
  lemma EastForgets(fold: Folding, east: int, later: nat)
    requires 1 < later < TTL <= later + east
    ensures var events := [CreateBucket("b", 1), PutRequest(FIRST, 0, ALL_WELL), PutRequest(OTHER, 1, ALL_WELL)];
            var s := Run(Fresh(fold, east), events);
            var (t, reply) := Handle(s, FIRST, later, ALL_WELL);
            var slot := SlotOf(fold, ObjectId(1, "k"));
            && reply.Created? && slot in s.db.objects && s.db.objects[slot].cas == Sha256(OTHER.body)
            && slot in t.db.objects && t.db.objects[slot].cas == Sha256(FIRST.body)
  {
    RunThree(Fresh(fold, east), CreateBucket("b", 1), PutRequest(FIRST, 0, ALL_WELL), PutRequest(OTHER, 1, ALL_WELL));
    BucketMade(fold, east);
    FirstMade(fold, east);
    var s2 := Handle(Apply(Fresh(fold, east), CreateBucket("b", 1)), FIRST, 0, ALL_WELL).0;
    assert PutObject(s2.db, ObjectId(1, "k"), RowOf(OTHER)).Some?;
  }

  /** The bucket is gone: the same request gets no recorded answer. */
  lemma BucketComesFirst(s: Store, r: Put, now: nat, luck: Luck, events: seq<Event>, later: nat)
    requires Made(s, r, now, luck) && r.bucket !in Run(Handle(s, r, now, luck).0, events).names
    ensures Handle(Run(Handle(s, r, now, luck).0, events), r, later, ALL_WELL).1 == NotFound
  {
    MadeIsAccepted(s, r, now, luck);
  }

  /** A put, the deletion of the object and that of the bucket. */
  lemma BucketGoes(fold: Folding, east: int, later: nat)
    ensures var s := Apply(Fresh(fold, east), CreateBucket("b", 1));
            var events := [Remove("b", "k"), RemoveBucket("b")];
            Made(s, FIRST, 0, ALL_WELL)
            && Handle(Run(Handle(s, FIRST, 0, ALL_WELL).0, events), FIRST, later, ALL_WELL).1 == NotFound
  {
    BucketMade(fold, east);
    FirstMade(fold, east);
    var s := Apply(Fresh(fold, east), CreateBucket("b", 1));
    var s1 := Handle(s, FIRST, 0, ALL_WELL).0;
    var events := [Remove("b", "k"), RemoveBucket("b")];
    var s2 := Apply(s1, events[0]);
    assert s2.db.objects == map[];
    var s3 := Apply(s2, events[1]);
    assert "b" !in s3.names;
    assert events[1..] == [events[1]] && events[1..][1..] == [];
    assert Run(s3, []) == s3;
    assert Run(s2, events[1..]) == s3;
    assert Run(s1, events) == s3;
    BucketComesFirst(s, FIRST, 0, ALL_WELL, events, later);
  }

  /** Whether the request hash tells contents apart: a replay is sure to be of the same
      contents exactly when the first request declared its digest or was empty. Else any
      contents of the same length count as the same request. */
  lemma HashCoversBodyIffDeclared(r: Put)
    requires Accepted(r)
    ensures (forall again: Put :: Accepted(again) && HashOf(again) == HashOf(r) ==> again.body == r.body)
            <==> r.expected.Some? || r.body == []
  {
    if r.expected.None? && r.body != [] {
      var c := if r.body[0] == 'x' then 'y' else 'x';
      var again := r.(body := [c] + r.body[1..]);
      assert again.body[0] != r.body[0];
      assert Accepted(again) && HashOf(again) == HashOf(r);
    }
  }

  // ----- the code

  class ObjectHandlers {
    var store: Store

    constructor (store: Store)
      ensures this.store == store
    {
      this.store := store;
    }

    /** Removes a file that this request brought and that no count covers. */
    method CleanupUnreferencedCas(k: Digest, mayNeedCleanup: bool)
      modifies this
      ensures store == if !mayNeedCleanup || Count(old(store).db, k) > 0 then old(store)
                       else old(store).(files := old(store).files - {k})
    {
      if mayNeedCleanup && (k !in store.db.blobs || store.db.blobs[k] == 0) {
        store := store.(files := store.files - {k});
      }
    }

    /** A streamed body is committed before the handler is called. */
    method HandlePut(r: Put, now: nat, luck: Luck) returns (reply: Reply)
      modifies this
      ensures (store, reply) == Handle(old(store), r, now, luck)
    {
      if r.streamed {
        if !luck.stored || !AsDeclared(r) {
          return BadRequest;
        }
        store := WithBody(store, r);
      }
      if !luck.bucket {
        return InternalError;
      }
      if r.bucket !in store.names {
        return NotFound;
      }
      var k := Sha256(r.body);
      var mayNeedCleanup := !r.streamed && k !in store.files;
      if !r.streamed {
        if r.body == [] {
          return BadRequest;
        }
        if !luck.stored {
          return InternalError;
        }
        store := WithBody(store, r);
      }
      ghost var before := old(store);
      assert mayNeedCleanup ==> before.files[k := r.body] - {k} == before.files;
      assert store == WithBody(before, r);
      if r.expected.Some? && r.expected.value != k {
        CleanupUnreferencedCas(k, mayNeedCleanup);
        return BadRequest;
      }
      reply := PutRow(r, now, luck, mayNeedCleanup);
    }

    method PutRow(r: Put, now: nat, luck: Luck, mayNeedCleanup: bool) returns (reply: Reply)
      requires r.bucket in store.names
      modifies this
      ensures var k := Sha256(r.body);
              var s := old(store);
              (store, reply) ==
                if r.idemKey != "" && !luck.check then (s, InternalError)
                else match Live(s, r.idemKey, now)
                     case Some(rec) => (s, if rec.hash == HashOf(r) then Replayed(rec.body) else Conflict)
                     case None =>
                       var change := PutObject(s.db, IdOf(s, r), RowOf(r));
                       if !luck.put || change.None?
                       then (if !mayNeedCleanup || Count(s.db, k) > 0 then s else s.(files := s.files - {k}), InternalError)
                       else (Recorded(s.(db := change.value.0), r, now, luck), Created(SummaryOf(r)))
    {
      if r.idemKey != "" {
        if !luck.check {
          return InternalError;
        }
        var slot := store.db.fold(r.idemKey);
        if slot in store.records && store.records[slot].expires - store.east > now {
          if store.records[slot].hash != HashOf(r) {
            return Conflict;
          }
          return Replayed(store.records[slot].body);
        }
      }
      var change := PutObject(store.db, IdOf(store, r), RowOf(r));
      if !luck.put || change.None? {
        CleanupUnreferencedCas(Sha256(r.body), mayNeedCleanup);
        return InternalError;
      }
      store := store.(db := change.value.0);
      if r.idemKey != "" && luck.record {
        store := store.(records := store.records[store.db.fold(r.idemKey) := Record(HashOf(r), SummaryOf(r), now + TTL)]);
      }
      return Created(SummaryOf(r));
    }
  }
}
