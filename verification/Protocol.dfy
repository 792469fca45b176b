/** Requests and the collector as interleaved steps over the tables and the files.

    A step is one transaction, or one file operation, of src/db/meta_store.cpp,
    src/api/handlers, src/storage/data_store.cpp, src/storage/gc.cpp or
    src/server/server.cpp. Any step may come next at any time. */
module Protocol {
  import opened Base
  import opened Tables
  import opened Ledger

  /** What an upload is for. */
  datatype Target =
    | ToObject(id: ObjectId, etag: string, contentType: string)
    | ToPart(part: PartId, etag: string)
    | ToCompleted(upload: nat, id: ObjectId, etag: string, contentType: string, rows: seq<(PartId, Digest)>, size: nat)

  /** How far an upload has come: bytes in a temporary file; the file-exists check
      made, and what it said; bytes in place. torn is what a failed write has left in
      the temporary file after the bytes that were hashed. Straddling: the upload came to
      rely on its file before the collector's last move of this file to quarantine.
      Stale: and the collector has since found the digest unreferenced again; or the file
      was not put back, or a clean-up has removed it. */
  datatype Stage = Written | Checked(found: bool) | Stored

  datatype Work =
    | Uploading(bytes: Octets, torn: Octets, target: Target, stage: Stage, straddling: bool, stale: bool)
    | Merging(upload: nat, id: ObjectId, etag: string, contentType: string, rows: seq<(PartId, Digest)>, size: nat,
              merged: Octets, copied: nat)
    | Finishing(upload: nat, rows: seq<(PartId, Digest)>, next: nat)
    | Cleaning(key: Digest)

  /** Where the collector is with a digest; held is the quarantined file, if any. */
  datatype Collector =
    | Idle
    | Checked'(key: Digest)
    | Quarantined(key: Digest, held: Option<Octets>)
    | Restoring(key: Digest, held: Option<Octets>)
    | Removing(key: Digest, held: Option<Octets>)
    | Removed(key: Digest)
    | Confirmed(key: Digest)

  /** Who claims the counts, and which part rows have had their count taken back.
      miscounted: a count was taken back that was another row's. leaked: a row went and
      its count stayed. overlapped: two requests were at work on one upload, or a part of
      one was put meanwhile. unpaid: a decrement failed. abandoned: an upload was left
      after its parts were released. */
  datatype Books = Books(claims: Claims, released: set<PartId>, lost: nat,
                         miscounted: bool, leaked: bool, overlapped: bool, unpaid: bool, abandoned: bool)

  /** straddled: a stale upload's row was put while its file was gone. unrestored: the
      only file of a referenced digest was not put back. cleaned: a clean-up removed the
      only file of a referenced digest. torn: a torn file took the place of its digest. */
  datatype Mishaps = Mishaps(straddled: bool, unrestored: bool, cleaned: bool, torn: bool)

  /** books and mishaps are history, written and never read by the steps. */
  datatype State = State(db: Tables, files: map<Digest, Octets>, gc: Collector, work: map<nat, Work>,
                         used: set<nat>, books: Books, mishaps: Mishaps)

  const MAX_PART_NUMBER: nat := 10000

  const NO_BOOKS := Books(map[], {}, 0, false, false, false, false, false)
  const NO_MISHAPS := Mishaps(false, false, false, false)

  function Init(fold: Folding): State {
    State(Empty(fold), map[], Idle, map[], {}, NO_BOOKS, NO_MISHAPS)
  }

  datatype Step =
    | CreateBucket(bucket: nat)
    | RemoveBucket(bucket: nat)
    | CreateUpload(upload: nat, row: UploadRow)
    | RemoveUpload(upload: nat)
    | RemoveObject(id: ObjectId)
    | Begin(proc: nat, bytes: Octets, torn: Octets, target: Target)
    | CheckExists(proc: nat)
    | Store(proc: nat)
    | Commit(proc: nat)
    | FailCommit(proc: nat, cleanup: bool)
    | Clean(proc: nat, ok: bool)
    | ListForComplete(proc: nat, upload: nat, order: seq<PartId>, etag: string)
    | Merge(proc: nat)
    | ListForAbort(proc: nat, upload: nat, order: seq<PartId>)
    | Release(proc: nat, ok: bool)
    | Cascade(proc: nat, ok: bool)
    | Check(key: Digest, ok: bool)
    | Quarantine(ok: bool)
    | Recheck(ok: bool)
    | Restore(ok: bool)
    | Remove(ok: bool)
    | Confirm(ok: bool)
    | DropRow(ok: bool)

  // ----- helpers

  /** The upload that a request in progress is completing or aborting. */
  predicate Handles(w: Work, upload: nat) {
    match w
    case Uploading(_, _, ToCompleted(u, _, _, _, _, _), _, _, _) => u == upload
    case Uploading(_, _, _, _, _, _) => false
    case Merging(u, _, _, _, _, _, _, _) => u == upload
    case Finishing(u, _, _) => u == upload
    case Cleaning(_) => false
  }

  predicate Busy(s: State, upload: nat) {
    exists p :: p in s.work && Handles(s.work[p], upload)
  }

  /** order names each part of the upload, in ascending part number. */
  predicate Lists(db: Tables, upload: nat, order: seq<PartId>) {
    && (forall i :: 0 <= i < |order| ==> order[i] in db.parts && order[i].upload == upload)
    && (forall i, j :: 0 <= i < j < |order| ==> order[i].number < order[j].number)
    && (forall p :: p in db.parts && p.upload == upload ==> p in order)
  }

  function TotalSize(db: Tables, order: seq<PartId>): nat
    requires forall i :: 0 <= i < |order| ==> order[i] in db.parts
  {
    if order == [] then 0 else db.parts[order[0]].size + TotalSize(db, order[1..])
  }

  function Rows(db: Tables, order: seq<PartId>): (rows: seq<(PartId, Digest)>)
    requires forall i :: 0 <= i < |order| ==> order[i] in db.parts
    ensures |rows| == |order|
    ensures forall i :: 0 <= i < |rows| ==> rows[i] == (order[i], db.parts[order[i]].cas)
  {
    seq(|order|, i requires 0 <= i < |order| => (order[i], db.parts[order[i]].cas))
  }

  function End(s: State, proc: nat): State {
    s.(work := s.work - {proc})
  }

  function Set(s: State, proc: nat, w: Work): State {
    s.(work := s.work[proc := w])
  }

  // ----- history

  /** Another key's row is in the slot, and the put takes the row over. */
  predicate Collides(db: Tables, id: ObjectId) {
    var slot := SlotOf(db.fold, id);
    slot in db.objects && db.fold(db.objects[slot].key) != db.fold(id.key)
  }

  /** The claims after an object row came to refer to k. A row that another key's
      put took over leaves the count of its old digest, with nobody to release it. */
  function ObjectClaims(db: Tables, claims: Claims, lost: nat, id: ObjectId, k: Digest): Claims {
    var slot := SlotOf(db.fold, id);
    if Collides(db, id) then claims[Lost(lost) := db.objects[slot].cas][ObjectRef(slot) := k]
    else claims[ObjectRef(slot) := k]
  }

  function ObjectPut(b: Books, db: Tables, id: ObjectId, k: Digest): Books {
    b.(claims := ObjectClaims(db, b.claims, b.lost, id, k), lost := b.lost + 1,
       leaked := b.leaked || Collides(db, id))
  }

  /** The part's row is written with the digest that it has, whose count is gone. */
  predicate Rewritten(db: Tables, released: set<PartId>, p: PartId, k: Digest) {
    p in released && p in db.parts && db.parts[p].cas == k
  }

  /** A put over a released part takes a count back once more. */
  predicate PutMiscounts(db: Tables, released: set<PartId>, p: PartId, k: Digest) {
    p in released && p in db.parts && db.parts[p].cas != k && Count(db, db.parts[p].cas) > 0
  }

  function PartPut(b: Books, db: Tables, p: PartId, k: Digest, busy: bool): Books {
    var b1 := b.(overlapped := b.overlapped || busy || p in b.released,
                 miscounted := b.miscounted || PutMiscounts(db, b.released, p, k));
    if Rewritten(db, b.released, p, k) then b1
    else b1.(claims := b.claims[PartRef(p) := k], released := b.released - {p})
  }

  /** The count that a release takes back is that of the part's own row. */
  predicate TakesOwn(db: Tables, released: set<PartId>, p: PartId, k: Digest) {
    p in db.parts && p !in released && db.parts[p].cas == k
  }

  function Released(b: Books, db: Tables, p: PartId, k: Digest, ok: bool): Books {
    if !ok then b.(unpaid := true)
    else if TakesOwn(db, b.released, p, k) then b.(claims := b.claims - {PartRef(p)}, released := b.released + {p})
    else b.(miscounted := b.miscounted || Count(db, k) > 0)
  }

  /** Rows go away, and the counts of those that were not released stay. */
  function Cascaded(b: Books, before: Tables, after: Tables): Books {
    b.(released := (set p | p in b.released && p in after.parts),
       leaked := b.leaked || (exists t :: t in before.objects && t !in after.objects)
                 || exists p :: p in before.parts && p !in after.parts && p !in b.released)
  }

  /** Rows are taken away without their counts. */
  function CutOff(b: Books, before: Tables, after: Tables, busy: bool): Books {
    Cascaded(b, before, after).(overlapped := b.overlapped || busy)
  }

  function Listed(b: Books, upload: nat, busy: bool): Books {
    b.(overlapped := b.overlapped || busy || exists p :: p in b.released && p.upload == upload)
  }

  function Dropped(b: Books, k: Digest): Books {
    b.(claims := map r | r in b.claims && b.claims[r] != k :: b.claims[r])
  }

  // ----- files

  /** The file is in quarantine and will be put back unless the collector finds
      the digest unreferenced first. */
  predicate Held(gc: Collector, k: Digest) {
    (gc.Quarantined? || gc.Restoring?) && gc.key == k && gc.held.Some?
  }

  predicate Kept(files: map<Digest, Octets>, gc: Collector, k: Digest) {
    k in files || Held(gc, k)
  }

  // ----- steps of requests

  function DoRemoveBucket(s: State, b: nat): State {
    var after := DeleteBucket(s.db, b);
    var busy := exists u :: u in s.db.uploads && s.db.uploads[u].bucket == b && Busy(s, u);
    s.(db := after, books := CutOff(s.books, s.db, after, busy))
  }

  /** An abort that could not list the parts deletes the upload all the same. */
  function DoRemoveUpload(s: State, u: nat): State {
    var after := DeleteUpload(s.db, u);
    s.(db := after, books := CutOff(s.books, s.db, after, Busy(s, u)))
  }

  function DoRemoveObject(s: State, id: ObjectId): State {
    match DeleteObject(s.db, id)
    case None => s
    case Some((after, _)) => s.(db := after, books := s.books.(claims := s.books.claims - {ObjectRef(SlotOf(s.db.fold, id))}))
  }

  function CommitObject(s: State, id: ObjectId, row: ObjectRow): Option<State> {
    match PutObject(s.db, id, row)
    case None => None
    case Some((after, _)) => Some(s.(db := after, books := ObjectPut(s.books, s.db, id, row.cas)))
  }

  function CommitPart(s: State, p: PartId, row: PartRow): Option<State> {
    match PutPart(s.db, p, row)
    case None => None
    case Some((after, _)) => Some(s.(db := after, books := PartPut(s.books, s.db, p, row.cas, Busy(s, p.upload))))
  }

  /** The temporary file is dropped if the check found the digest, else renamed into
      place with all that is in it. */
  function Stored'(s: State, proc: nat, w: Work): State
    requires w.Uploading? && w.stage.Checked?
  {
    var t := Set(s, proc, w.(stage := Stored));
    if w.stage.found then t
    else t.(files := s.files[Key(w) := w.bytes + w.torn],
            mishaps := s.mishaps.(torn := s.mishaps.torn || w.torn != []))
  }

  /** The upload's file has been taken from it since it came to rely on it. */
  predicate Exposed(s: State, w: Work)
    requires w.Uploading?
  {
    w.stale && !Kept(s.files, s.gc, Key(w))
  }

  function Marked(s: State, straddled: bool): State {
    s.(mishaps := s.mishaps.(straddled := s.mishaps.straddled || straddled))
  }

  /** The metadata transaction of an upload; a refused one ends the request. */
  function DoCommit(s: State, proc: nat, w: Work): State
    requires w.Uploading?
  {
    var k := Sha256(w.bytes);
    match w.target
    case ToObject(id, etag, contentType) =>
      (match CommitObject(s, id, ObjectRow(id.key, k, |w.bytes|, etag, contentType))
       case None => End(s, proc)
       case Some(t) => End(Marked(t, Exposed(s, w)), proc))
    case ToPart(p, etag) =>
      (match CommitPart(s, p, PartRow(k, |w.bytes|, etag))
       case None => End(s, proc)
       case Some(t) => End(Marked(t, Exposed(s, w)), proc))
    case ToCompleted(u, id, etag, contentType, rows, size) =>
      (match CommitObject(s, id, ObjectRow(id.key, k, size, etag, contentType))
       case None => End(s, proc)
       case Some(t) => Set(Marked(t, Exposed(s, w)), proc, Finishing(u, rows, 0)))
  }

  /** A failed put. If it is to clean up, the count decides whether the file will go. */
  function DoFail(s: State, proc: nat, w: Work, cleanup: bool): State
    requires w.Uploading?
  {
    if cleanup && Count(s.db, Key(w)) == 0 then Set(s, proc, Cleaning(Key(w))) else End(s, proc)
  }

  /** The file goes, whoever relies on it by now. */
  function DoClean(s: State, proc: nat, k: Digest, ok: bool): State {
    if ok then
      var lost := Referenced(s.db, k) && !Held(s.gc, k);
      End(s, proc).(files := s.files - {k}, work := Strand(s.work - {proc}, k),
                    mishaps := s.mishaps.(cleaned := s.mishaps.cleaned || lost))
    else End(s, proc)
  }

  function DoList(s: State, proc: nat, upload: nat, w: Work): State {
    Set(s, proc, w).(books := Listed(s.books, upload, Busy(s, upload)))
  }

  /** One more part file is appended to the merged file. No parts, or a file that is not
      at its path, end the request. */
  function DoMerge(s: State, proc: nat, w: Work): State
    requires w.Merging?
  {
    if w.copied >= |w.rows| || w.rows[w.copied].1 !in s.files then End(s, proc)
    else
      var bytes := w.merged + s.files[w.rows[w.copied].1];
      if w.copied + 1 < |w.rows| then Set(s, proc, w.(merged := bytes, copied := w.copied + 1))
      else Set(s, proc, Uploading(bytes, [], ToCompleted(w.upload, w.id, w.etag, w.contentType, w.rows, w.size),
                                  Written, false, false))
  }

  /** One turn of the decrement loop. A decrement that fails is passed over. */
  function DoRelease(s: State, proc: nat, w: Work, ok: bool): State
    requires w.Finishing? && w.next < |w.rows|
  {
    var (p, k) := w.rows[w.next];
    Set(s, proc, w.(next := w.next + 1)).(db := if ok then Decrement(s.db, k) else s.db,
                                          books := Released(s.books, s.db, p, k, ok))
  }

  function DoCascade(s: State, proc: nat, w: Work, ok: bool): State
    requires w.Finishing?
  {
    if !ok then End(s, proc).(books := s.books.(abandoned := s.books.abandoned || w.rows != []))
    else
      var after := DeleteUpload(s.db, w.upload);
      End(s, proc).(db := after, books := Cascaded(s.books, s.db, after))
  }

  // ----- steps of the collector

  function DoQuarantine(s: State, ok: bool): State
    requires s.gc.Checked'?
  {
    var k := s.gc.key;
    if k !in s.files then s.(gc := Quarantined(k, None), work := Straddle(s.work, k))
    else if !ok then s.(gc := Idle)
    else s.(gc := Quarantined(k, Some(s.files[k])), files := s.files - {k}, work := Straddle(s.work, k))
  }

  /** An upload that relies on its file being in place. */
  predicate Relies(w: Work) {
    w.Uploading? && (w.stage == Checked(true) || w.stage == Stored)
  }

  function Key(w: Work): Digest
    requires w.Uploading?
  {
    Sha256(w.bytes)
  }

  function Straddle(work: map<nat, Work>, k: Digest): map<nat, Work> {
    map p | p in work ::
      if Relies(work[p]) && Key(work[p]) == k then work[p].(straddling := true) else work[p]
  }

  function Spoil(work: map<nat, Work>, k: Digest): map<nat, Work> {
    map p | p in work ::
      if Relies(work[p]) && Key(work[p]) == k && work[p].straddling then work[p].(stale := true) else work[p]
  }

  /** The file of k is gone for those who rely on it. */
  function Strand(work: map<nat, Work>, k: Digest): map<nat, Work> {
    map p | p in work :: if Relies(work[p]) && Key(work[p]) == k then work[p].(stale := true) else work[p]
  }

  function DoRecheck(s: State, ok: bool): State
    requires s.gc.Quarantined?
  {
    var k := s.gc.key;
    if ok && CanDelete(s.db, k) then s.(gc := Removing(k, s.gc.held), work := Spoil(s.work, k))
    else if s.gc.held.Some? then s.(gc := Restoring(k, s.gc.held))
    else s.(gc := Idle)
  }

  function DoRestore(s: State, ok: bool): State
    requires s.gc.Restoring?
  {
    if s.gc.held.None? then s.(gc := Idle)
    else if ok then s.(gc := Idle, files := s.files[s.gc.key := s.gc.held.value])
    else
      var lost := Referenced(s.db, s.gc.key) && s.gc.key !in s.files;
      s.(gc := Idle, work := Strand(s.work, s.gc.key),
         mishaps := s.mishaps.(unrestored := s.mishaps.unrestored || lost))
  }

  function DoDropRow(s: State): State
    requires s.gc.Confirmed?
  {
    match DeleteBlob(s.db, s.gc.key)
    case None => s.(gc := Idle)
    case Some(after) =>
      s.(gc := Idle, db := after, books := Dropped(s.books, s.gc.key))
  }

  // ----- the machine

  /** A step that cannot be taken leaves the state as it is. */
  function Apply(s: State, step: Step): State {
    if Collects(step) then Collect(s, step)
    else if Starts(step) then Start(s, step)
    else if Advances(step) then
      if step.proc in s.work then Proceed(s, step, s.work[step.proc]) else s
    else Alter(s, step)
  }

  predicate Collects(step: Step) {
    step.Check? || step.Quarantine? || step.Recheck? || step.Restore? || step.Remove? || step.Confirm?
    || step.DropRow?
  }

  predicate Starts(step: Step) {
    step.Begin? || step.ListForComplete? || step.ListForAbort?
  }

  predicate Advances(step: Step) {
    step.CheckExists? || step.Store? || step.Commit? || step.FailCommit? || step.Clean? || step.Merge?
    || step.Release? || step.Cascade?
  }

  /** Steps of the collector's loop. */
  function Collect(s: State, step: Step): State
    requires Collects(step)
  {
    match step
    case Check(k, ok) => if s.gc.Idle? && ok && CanDelete(s.db, k) then s.(gc := Checked'(k)) else s
    case Quarantine(ok) => if s.gc.Checked'? then DoQuarantine(s, ok) else s
    case Recheck(ok) => if s.gc.Quarantined? then DoRecheck(s, ok) else s
    case Restore(ok) => if s.gc.Restoring? then DoRestore(s, ok) else s
    case Remove(ok) =>
      if s.gc.Removing? then s.(gc := if ok || s.gc.held.None? then Removed(s.gc.key) else Idle) else s
    case Confirm(ok) =>
      if s.gc.Removed? then s.(gc := if ok && CanDelete(s.db, s.gc.key) then Confirmed(s.gc.key) else Idle) else s
    case DropRow(ok) =>
      if s.gc.Confirmed? then if ok then DoDropRow(s) else s.(gc := Idle) else s
  }

  /** A client asks to put an object, or a part with a number in range. */
  predicate Acceptable(target: Target) {
    target.ToObject? || (target.ToPart? && 1 <= target.part.number <= MAX_PART_NUMBER)
  }

  /** Steps that begin a request of several steps. */
  function Start(s: State, step: Step): State
    requires Starts(step)
  {
    match step
    case Begin(p, bytes, torn, target) =>
      if p in s.work || !Acceptable(target) then s
      else Set(s, p, Uploading(bytes, torn, target, Written, false, false))
    case ListForComplete(p, u, order, etag) =>
      if p in s.work || u !in s.db.uploads || !Lists(s.db, u, order) then s
      else
        var up := s.db.uploads[u];
        DoList(s, p, u, Merging(u, ObjectId(up.bucket, up.key), etag, up.contentType,
                                Rows(s.db, order), TotalSize(s.db, order), [], 0))
    case ListForAbort(p, u, order) =>
      if p in s.work || u !in s.db.uploads || !Lists(s.db, u, order) then s
      else DoList(s, p, u, Finishing(u, Rows(s.db, order), 0))
  }

  /** Requests of one transaction. */
  function Alter(s: State, step: Step): State
    requires !Collects(step) && !Starts(step) && !Advances(step)
  {
    match step
    case CreateBucket(b) =>
      if b in s.used then s else s.(db := s.db.(buckets := s.db.buckets + {b}), used := s.used + {b})
    case CreateUpload(u, row) =>
      if u in s.used || row.bucket !in s.db.buckets then s
      else s.(db := s.db.(uploads := s.db.uploads[u := row]), used := s.used + {u})
    case RemoveBucket(b) => DoRemoveBucket(s, b)
    case RemoveUpload(u) => DoRemoveUpload(s, u)
    case RemoveObject(id) => DoRemoveObject(s, id)
  }

  /** The next step of a request in progress. */
  function Proceed(s: State, step: Step, w: Work): State
    requires Advances(step)
  {
    match step
    case CheckExists(p) =>
      if w.Uploading? && w.stage.Written?
      then Set(s, p, w.(stage := Checked(Key(w) in s.files))) else s
    case Store(p) => if w.Uploading? && w.stage.Checked? then Stored'(s, p, w) else s
    case Commit(p) => if w.Uploading? && w.stage.Stored? then DoCommit(s, p, w) else s
    case FailCommit(p, cleanup) => if w.Uploading? then DoFail(s, p, w, cleanup) else s
    case Clean(p, ok) => if w.Cleaning? then DoClean(s, p, w.key, ok) else s
    case Merge(p) => if w.Merging? then DoMerge(s, p, w) else s
    case Release(p, ok) => if w.Finishing? && w.next < |w.rows| then DoRelease(s, p, w, ok) else s
    case Cascade(p, ok) => if w.Finishing? && w.next == |w.rows| then DoCascade(s, p, w, ok) else s
  }

  function Run(s: State, steps: seq<Step>): State
    decreases |steps|
  {
    if steps == [] then s else Run(Apply(s, steps[0]), steps[1..])
  }

  lemma {:induction false} RunAppends(s: State, a: seq<Step>, b: seq<Step>)
    ensures Run(s, a + b) == Run(Run(s, a), b)
    decreases |a|
  {
    if a == [] {
      assert a + b == b;
    } else {
      assert (a + b)[1..] == a[1..] + b;
      RunAppends(Apply(s, a[0]), a[1..], b);
    }
  }

  lemma RunSnoc(s: State, front: seq<Step>, last: Step)
    ensures Run(s, front + [last]) == Apply(Run(s, front), last)
  {
    RunAppends(s, front, [last]);
    var t := Run(s, front);
    assert Run(Apply(t, last), []) == Apply(t, last);
  }

  /** The state after the first n steps. */
  function Prefix(s: State, steps: seq<Step>, n: nat): State
    requires n <= |steps|
  {
    Run(s, steps[..n])
  }

  lemma PrefixOfFront(s: State, steps: seq<Step>, n: nat)
    requires steps != [] && n <= |steps| - 1
    ensures Prefix(s, steps, n) == Prefix(s, steps[..|steps| - 1], n)
  {
    assert steps[..|steps| - 1][..n] == steps[..n];
  }

  lemma LastOfRun(s: State, steps: seq<Step>)
    requires steps != []
    ensures Run(s, steps) == Apply(Run(s, steps[..|steps| - 1]), steps[|steps| - 1])
    ensures Prefix(s, steps, |steps|) == Run(s, steps)
  {
    assert steps == steps[..|steps| - 1] + [steps[|steps| - 1]];
    RunSnoc(s, steps[..|steps| - 1], steps[|steps| - 1]);
    assert steps[..|steps|] == steps;
  }
}
