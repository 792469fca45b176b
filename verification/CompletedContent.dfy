/** A completed upload becomes the concatenation of its parts. */
module CompletedContent {
  import opened Base
  import opened Tables
  import opened Protocol
  import FileSafety
  import LedgerSafety

  /** The bytes that the listed parts were last uploaded with: a digest stands for
      exactly one content. */
  function Contents(rows: seq<(PartId, Digest)>): Octets {
    if rows == [] then [] else rows[0].1.preimage + Contents(rows[1..])
  }

  /** The sizes of parts in the tables are the lengths of their contents. */
  ghost predicate Sized(db: Tables) {
    forall p :: p in db.parts ==> db.parts[p].size == |db.parts[p].cas.preimage|
  }

  /** Each of these digests names the contents of its file, if it has one. */
  ghost predicate Named(files: map<Digest, Octets>, ks: iset<Digest>) {
    forall k :: k in ks && k in files ==> Sha256(files[k]) == k
  }

  /** And so it is at all times during the run. */
  ghost predicate NamedThroughout(fold: Folding, steps: seq<Step>, ks: iset<Digest>) {
    forall n :: 0 <= n <= |steps| ==> Named(Prefix(Init(fold), steps, n).files, ks)
  }

  ghost predicate Within(rows: seq<(PartId, Digest)>, ks: iset<Digest>) {
    forall i :: 0 <= i < |rows| ==> rows[i].1 in ks
  }

  /** A request that completes an upload carries the size of the parts it listed, in
      ascending part number; and, if the parts are among those whose files are sound, the
      bytes of those that it has copied. */
  ghost predicate Carries(w: Work, ks: iset<Digest>) {
    match w
    case Uploading(bytes, _, ToCompleted(_, _, _, _, rows, size), _, _, _) =>
      size == |Contents(rows)| && Ascending(rows) && (Within(rows, ks) ==> bytes == Contents(rows))
    case Merging(_, _, _, _, rows, size, merged, copied) =>
      && size == |Contents(rows)| && Ascending(rows) && copied <= |rows|
      && (Within(rows, ks) ==> merged == Contents(rows[..copied]))
    case Finishing(_, _, _) => true
    case Cleaning(_) => true
    case Uploading(_, _, _, _, _, _) => true
  }

  predicate Ascending(rows: seq<(PartId, Digest)>) {
    forall i, j :: 0 <= i < j < |rows| ==> rows[i].0.number < rows[j].0.number
  }

  ghost predicate AllCarry(work: map<nat, Work>, ks: iset<Digest>) {
    forall p :: p in work ==> Carries(work[p], ks)
  }

  ghost predicate Inv(s: State, ks: iset<Digest>) {
    Sized(s.db) && AllCarry(s.work, ks)
  }

  lemma {:induction false} ContentsSnoc(rows: seq<(PartId, Digest)>, n: nat)
    requires n < |rows|
    ensures Contents(rows[..n + 1]) == Contents(rows[..n]) + rows[n].1.preimage
    decreases n
  {
    if n == 0 {
      assert rows[..1][1..] == [] && rows[..0] == [];
      assert [] + rows[0].1.preimage == rows[0].1.preimage + [];
    } else {
      ContentsSnoc(rows[1..], n - 1);
      assert rows[1..][..n] == rows[..n + 1][1..] && rows[1..][..n - 1] == rows[..n][1..];
      var k := rows[0].1.preimage;
      assert (k + Contents(rows[1..][..n - 1])) + rows[n].1.preimage == k + (Contents(rows[1..][..n - 1]) + rows[n].1.preimage);
    }
  }

  /** The part files, one after the other; None if one is not at its path. */
  function Merged(files: map<Digest, Octets>, rows: seq<(PartId, Digest)>): Option<Octets> {
    if rows == [] then Some([])
    else if rows[0].1 !in files then None
    else match Merged(files, rows[1..])
         case None => None
         case Some(rest) => Some(files[rows[0].1] + rest)
  }

  /** The files can be merged if and only if each is at its path, and then they come one after
      the other. */
  lemma {:induction false} MergedIffPresent(files: map<Digest, Octets>, rows: seq<(PartId, Digest)>)
    ensures Merged(files, rows).Some? <==> forall i :: 0 <= i < |rows| ==> rows[i].1 in files
    ensures Merged(files, rows).Some? ==>
              Merged(files, rows).value == Concat(seq(|rows|, i requires 0 <= i < |rows| =>
                                                        if rows[i].1 in files then files[rows[i].1] else []))
    decreases |rows|
  {
    var pieces := seq(|rows|, i requires 0 <= i < |rows| => if rows[i].1 in files then files[rows[i].1] else []);
    if rows != [] {
      var later := rows[1..];
      MergedIffPresent(files, later);
      assert pieces[1..] == seq(|later|, i requires 0 <= i < |later| => if later[i].1 in files then files[later[i].1] else []);
      if Merged(files, later).Some? && rows[0].1 in files {
        forall i | 0 <= i < |rows| ensures rows[i].1 in files {
          assert i > 0 ==> rows[i] == later[i - 1];
        }
      } else if rows[0].1 in files {
        var i :| 0 <= i < |later| && later[i].1 !in files;
        assert rows[i + 1] == later[i];
      }
    }
  }

  lemma {:induction false} MergedIsContents(files: map<Digest, Octets>, rows: seq<(PartId, Digest)>)
    requires forall k :: k in files ==> Sha256(files[k]) == k
    ensures Merged(files, rows).Some? ==> Merged(files, rows).value == Contents(rows)
    decreases |rows|
  {
    if rows != [] {
      MergedIsContents(files, rows[1..]);
    }
  }

  lemma {:induction false} TotalIsLength(db: Tables, order: seq<PartId>)
    requires Sized(db) && forall i :: 0 <= i < |order| ==> order[i] in db.parts
    ensures TotalSize(db, order) == |Contents(Rows(db, order))|
    decreases |order|
  {
    if order != [] {
      TotalIsLength(db, order[1..]);
      assert Rows(db, order)[1..] == Rows(db, order[1..]);
    }
  }

  lemma WorkKeeps(s: State, t: State, p: nat, w: Work, ks: iset<Digest>)
    requires Inv(s, ks) && Carries(w, ks) && t.work == s.work[p := w] && Sized(t.db)
    ensures Inv(t, ks)
  {
  }

  lemma EndKeeps(s: State, t: State, p: nat, ks: iset<Digest>)
    requires Inv(s, ks) && t.work == s.work - {p} && Sized(t.db)
    ensures Inv(t, ks)
  {
  }

  lemma PutSized(db: Tables, id: ObjectId, row: ObjectRow)
    requires Sized(db) && PutObject(db, id, row).Some?
    ensures Sized(PutObject(db, id, row).value.0)
  {
  }

  lemma PutPartSized(db: Tables, p: PartId, row: PartRow)
    requires Sized(db) && row.size == |row.cas.preimage| && PutPart(db, p, row).Some?
    ensures Sized(PutPart(db, p, row).value.0)
  {
  }

  lemma CommitKeeps(s: State, p: nat, ks: iset<Digest>)
    requires Inv(s, ks) && p in s.work && s.work[p].Uploading?
    ensures Inv(DoCommit(s, p, s.work[p]), ks)
  {
    var w := s.work[p];
    var k := Sha256(w.bytes);
    match w.target
    case ToObject(id, etag, contentType) =>
      var row := ObjectRow(id.key, k, |w.bytes|, etag, contentType);
      if PutObject(s.db, id, row).Some? { PutSized(s.db, id, row); }
      EndKeeps(s, DoCommit(s, p, w), p, ks);
    case ToPart(part, etag) =>
      var row := PartRow(k, |w.bytes|, etag);
      if PutPart(s.db, part, row).Some? { PutPartSized(s.db, part, row); }
      EndKeeps(s, DoCommit(s, p, w), p, ks);
    case ToCompleted(u, id, etag, contentType, rows, size) =>
      var row := ObjectRow(id.key, k, size, etag, contentType);
      if PutObject(s.db, id, row).Some? {
        PutSized(s.db, id, row);
        WorkKeeps(s, DoCommit(s, p, w), p, Finishing(u, rows, 0), ks);
      } else {
        EndKeeps(s, DoCommit(s, p, w), p, ks);
      }
  }

  lemma CleanKeeps(s: State, p: nat, ok: bool, ks: iset<Digest>)
    requires Inv(s, ks) && p in s.work && s.work[p].Cleaning?
    ensures Inv(DoClean(s, p, s.work[p].key, ok), ks)
  {
    EndKeeps(s, End(s, p), p, ks);
    StraddledCarry(s.work - {p}, s.work[p].key, ks);
  }

  lemma ProceedKeeps(s: State, step: Step, ks: iset<Digest>)
    requires Inv(s, ks) && Named(s.files, ks) && Advances(step) && step.proc in s.work
    ensures Inv(Proceed(s, step, s.work[step.proc]), ks)
  {
    var w := s.work[step.proc];
    assert Carries(w, ks);
    match step
    case Commit(p) => if w.Uploading? && w.stage.Stored? { CommitKeeps(s, p, ks); }
    case CheckExists(p) =>
      if w.Uploading? && w.stage.Written? {
        WorkKeeps(s, Proceed(s, step, w), p, w.(stage := Checked(Key(w) in s.files)), ks);
      }
    case Store(p) =>
      if w.Uploading? && w.stage.Checked? { WorkKeeps(s, Proceed(s, step, w), p, w.(stage := Stored), ks); }
    case FailCommit(p, cleanup) =>
      if w.Uploading? {
        EndKeeps(s, End(s, p), p, ks);
        WorkKeeps(s, Set(s, p, Cleaning(Key(w))), p, Cleaning(Key(w)), ks);
      }
    case Clean(p, ok) => if w.Cleaning? { CleanKeeps(s, p, ok, ks); }
    case Merge(p) => if w.Merging? { MergeKeeps(s, p, ks); }
    case Release(p, ok) =>
      if w.Finishing? && w.next < |w.rows| { WorkKeeps(s, Proceed(s, step, w), p, w.(next := w.next + 1), ks); }
    case Cascade(p, ok) => if w.Finishing? && w.next == |w.rows| { EndKeeps(s, Proceed(s, step, w), p, ks); }
  }

  lemma MergeKeeps(s: State, p: nat, ks: iset<Digest>)
    requires Inv(s, ks) && Named(s.files, ks) && p in s.work && s.work[p].Merging?
    ensures Inv(DoMerge(s, p, s.work[p]), ks)
  {
    var w := s.work[p];
    assert Carries(w, ks);
    if w.copied < |w.rows| && w.rows[w.copied].1 in s.files {
      var bytes := w.merged + s.files[w.rows[w.copied].1];
      ContentsSnoc(w.rows, w.copied);
      if w.copied + 1 < |w.rows| {
        WorkKeeps(s, DoMerge(s, p, w), p, w.(merged := bytes, copied := w.copied + 1), ks);
      } else {
        assert w.rows[..w.copied + 1] == w.rows;
        var up := Uploading(bytes, [], ToCompleted(w.upload, w.id, w.etag, w.contentType, w.rows, w.size),
                            Written, false, false);
        WorkKeeps(s, DoMerge(s, p, w), p, up, ks);
      }
    } else {
      EndKeeps(s, DoMerge(s, p, w), p, ks);
    }
  }

  lemma StartKeeps(s: State, step: Step, ks: iset<Digest>)
    requires Inv(s, ks) && Starts(step)
    ensures Inv(Start(s, step), ks)
  {
    match step
    case Begin(p, bytes, torn, target) =>
      if p !in s.work && Acceptable(target) {
        WorkKeeps(s, Start(s, step), p, Uploading(bytes, torn, target, Written, false, false), ks);
      }
    case ListForComplete(p, u, order, etag) =>
      if p !in s.work && u in s.db.uploads && Lists(s.db, u, order) {
        var up := s.db.uploads[u];
        TotalIsLength(s.db, order);
        assert Rows(s.db, order)[..0] == [];
        WorkKeeps(s, Start(s, step), p, Merging(u, ObjectId(up.bucket, up.key), etag, up.contentType,
                                                Rows(s.db, order), TotalSize(s.db, order), [], 0), ks);
      }
    case ListForAbort(p, u, order) =>
      if p !in s.work && u in s.db.uploads && Lists(s.db, u, order) {
        WorkKeeps(s, Start(s, step), p, Finishing(u, Rows(s.db, order), 0), ks);
      }
  }

  lemma StraddledCarry(work: map<nat, Work>, k: Digest, ks: iset<Digest>)
    requires AllCarry(work, ks)
    ensures AllCarry(Straddle(work, k), ks) && AllCarry(Spoil(work, k), ks) && AllCarry(Strand(work, k), ks)
  {
  }

  lemma CollectKeeps(s: State, step: Step, ks: iset<Digest>)
    requires Inv(s, ks) && Collects(step)
    ensures Inv(Collect(s, step), ks)
  {
    if s.gc.Checked'? || s.gc.Quarantined? || s.gc.Restoring? { StraddledCarry(s.work, s.gc.key, ks); }
  }

  lemma AlterKeeps(s: State, step: Step, ks: iset<Digest>)
    requires Inv(s, ks) && !Collects(step) && !Starts(step) && !Advances(step)
    ensures Inv(Alter(s, step), ks)
  {
  }

  lemma StepKeeps(s: State, step: Step, ks: iset<Digest>)
    requires Inv(s, ks) && Named(s.files, ks)
    ensures Inv(Apply(s, step), ks)
  {
    if Collects(step) {
      CollectKeeps(s, step, ks);
    } else if Starts(step) {
      StartKeeps(s, step, ks);
    } else if Advances(step) {
      if step.proc in s.work { ProceedKeeps(s, step, ks); }
    } else {
      AlterKeeps(s, step, ks);
    }
  }

  lemma FrontIsNamed(fold: Folding, steps: seq<Step>, ks: iset<Digest>)
    requires steps != [] && NamedThroughout(fold, steps, ks)
    ensures var front := steps[..|steps| - 1];
            NamedThroughout(fold, front, ks) && Named(Run(Init(fold), front).files, ks)
  {
    var front := steps[..|steps| - 1];
    forall n | 0 <= n <= |front| ensures Named(Prefix(Init(fold), front, n).files, ks) {
      PrefixOfFront(Init(fold), steps, n);
      assert Named(Prefix(Init(fold), steps, n).files, ks);
    }
    assert front[..|front|] == front;
    assert Named(Prefix(Init(fold), front, |front|).files, ks);
  }

  lemma {:induction false} RunKeeps(fold: Folding, steps: seq<Step>, ks: iset<Digest>)
    requires NamedThroughout(fold, steps, ks)
    ensures Inv(Run(Init(fold), steps), ks)
    decreases |steps|
  {
    if steps != [] {
      var front := steps[..|steps| - 1];
      FrontIsNamed(fold, steps, ks);
      RunKeeps(fold, front, ks);
      LastOfRun(Init(fold), steps);
      StepKeeps(Run(Init(fold), front), steps[|steps| - 1], ks);
    }
  }

  /** An ascending listing of an upload's parts with their current digests is what the
      request listed. */
  lemma ListingIsUnique(db: Tables, u: nat, order: seq<PartId>, rows: seq<(PartId, Digest)>)
    requires Lists(db, u, order) && Ascending(rows)
    requires forall i :: 0 <= i < |rows| ==>
               rows[i].0 in db.parts && rows[i].0.upload == u && db.parts[rows[i].0].cas == rows[i].1
    requires forall p :: p in db.parts && p.upload == u ==> exists i :: 0 <= i < |rows| && rows[i].0 == p
    ensures rows == Rows(db, order)
  {
    var ids := seq(|rows|, i requires 0 <= i < |rows| => rows[i].0);
    forall p | p in order ensures p in ids {
      var i :| 0 <= i < |rows| && rows[i].0 == p;
      assert ids[i] == p;
    }
    forall p | p in ids ensures p in order {
    }
    SameAscending(ids, order);
  }

  lemma {:induction false} SameAscending(a: seq<PartId>, b: seq<PartId>)
    requires forall i, j :: 0 <= i < j < |a| ==> a[i].number < a[j].number
    requires forall i, j :: 0 <= i < j < |b| ==> b[i].number < b[j].number
    requires forall p :: p in a <==> p in b
    ensures a == b
    decreases |a|
  {
    assert a != [] ==> a[0] in a;
    assert b != [] ==> b[0] in b;
    if a != [] && b != [] {
      assert a[0] in b && b[0] in a;
      assert a[0] == b[0];
      forall p ensures p in a[1..] <==> p in b[1..] {
        assert p in a <==> p == a[0] || p in a[1..];
        assert p in b <==> p == b[0] || p in b[1..];
        assert a[0] !in a[1..] && b[0] !in b[1..];
      }
      SameAscending(a[1..], b[1..]);
    }
  }

  lemma CommitWritesRow(s: State, proc: nat)
    requires proc in s.work && s.work[proc].Uploading?
    requires s.work[proc].target.ToCompleted? && s.work[proc].stage.Stored?
    ensures var w := s.work[proc];
            var t := Apply(s, Commit(proc));
            var slot := SlotOf(s.db.fold, w.target.id);
            proc in t.work ==> slot in t.db.objects && t.db.objects[slot].cas == Sha256(w.bytes)
                               && t.db.objects[slot].size == w.target.size
  {
    var w := s.work[proc];
    var id := w.target.id;
    var row := ObjectRow(id.key, Sha256(w.bytes), w.target.size, w.target.etag, w.target.contentType);
    if PutObject(s.db, id, row).Some? {
      PutWritesRow(s.db, id, row);
    }
    assert Apply(s, Commit(proc)) == DoCommit(s, proc, w);
  }

  lemma PutWritesRow(db: Tables, id: ObjectId, row: ObjectRow)
    requires PutObject(db, id, row).Some?
    ensures var after := PutObject(db, id, row).value.0;
            var slot := SlotOf(db.fold, id);
            slot in after.objects && after.objects[slot].cas == row.cas && after.objects[slot].size == row.size
  {
  }

  function ListedDigests(rows: seq<(PartId, Digest)>): iset<Digest> {
    iset i | 0 <= i < |rows| :: rows[i].1
  }

  predicate ReadyToComplete(s: State, proc: nat) {
    proc in s.work && s.work[proc].Uploading? && s.work[proc].target.ToCompleted? && s.work[proc].stage.Stored?
  }

  /** The request is still there after the commit: its row was put. */
  predicate Completes(s: State, proc: nat) {
    ReadyToComplete(s, proc) && proc in Apply(s, Commit(proc)).work
  }

  /** The theorem on completing. In every run, whatever else goes on, in which the files of
      the listed parts hold what their names say: when the metadata of a completed upload
      commits, the object's row names exactly the concatenation, in ascending part number,
      of what each part was last uploaded with when it was listed, and has its length for
      size. So the object is the parts as they stand now exactly when these come to the
      same contents. */
  lemma CompletedObjectIsParts(fold: Folding, steps: seq<Step>, proc: nat, order: seq<PartId>)
    requires var s := Run(Init(fold), steps);
             && Completes(s, proc) && Lists(s.db, s.work[proc].target.upload, order)
             && NamedThroughout(fold, steps, ListedDigests(s.work[proc].target.rows))
    ensures var s := Run(Init(fold), steps);
            var slot := SlotOf(s.db.fold, s.work[proc].target.id);
            var listed, current := Contents(s.work[proc].target.rows), Contents(Rows(s.db, order));
            var objects := Apply(s, Commit(proc)).db.objects;
            && slot in objects && objects[slot].cas == Sha256(listed) && objects[slot].size == |listed|
            && Ascending(s.work[proc].target.rows)
            && (objects[slot].cas == Sha256(current) <==> listed == current)
  {
    var s := Run(Init(fold), steps);
    var ks := ListedDigests(s.work[proc].target.rows);
    RunKeeps(fold, steps, ks);
    CompletedRow(s, proc, ks);
  }

  lemma CompletedRow(s: State, proc: nat, ks: iset<Digest>)
    requires Inv(s, ks) && Completes(s, proc) && ks == ListedDigests(s.work[proc].target.rows)
    ensures var slot := SlotOf(s.db.fold, s.work[proc].target.id);
            var listed := Contents(s.work[proc].target.rows);
            var objects := Apply(s, Commit(proc)).db.objects;
            && slot in objects && objects[slot].cas == Sha256(listed) && objects[slot].size == |listed|
            && Ascending(s.work[proc].target.rows)
  {
    assert Carries(s.work[proc], ks) && Within(s.work[proc].target.rows, ks);
    CommitWritesRow(s, proc);
  }

  /** Runs without torn files are such. */
  lemma UntornIsNamed(fold: Folding, steps: seq<Step>, ks: iset<Digest>)
    requires !Run(Init(fold), steps).mishaps.torn
    ensures NamedThroughout(fold, steps, ks)
  {
    FileSafety.FileIsMisnamedIffTorn(fold, steps);
    forall n | 0 <= n <= |steps| ensures Named(Prefix(Init(fold), steps, n).files, ks) {
      assert !FileSafety.Misnamed(Prefix(Init(fold), steps, n));
    }
  }

  // ----- since the listing

  predicate StartsAs(step: Step, proc: nat) {
    Starts(step) && step.proc == proc
  }

  predicate GoesOn(steps: seq<Step>, proc: nat) {
    forall i :: 0 <= i < |steps| ==> !StartsAs(steps[i], proc)
  }

  /** What a request that goes on handles now is what it handled before. */
  ghost predicate HandlesSame(before: map<nat, Work>, after: map<nat, Work>, proc: nat) {
    proc in after && LedgerSafety.HandlingOf(after[proc]).Some? ==>
      && proc in before && LedgerSafety.HandlingOf(before[proc]).Some?
      && LedgerSafety.HandlingOf(after[proc]).value.upload == LedgerSafety.HandlingOf(before[proc]).value.upload
      && LedgerSafety.HandlingOf(after[proc]).value.rows == LedgerSafety.HandlingOf(before[proc]).value.rows
  }

  lemma CollectHandlesSame(s: State, step: Step, proc: nat)
    requires Collects(step)
    ensures HandlesSame(s.work, Collect(s, step).work, proc)
  {
  }

  lemma ProceedHandlesSame(s: State, step: Step, proc: nat)
    requires Advances(step) && step.proc in s.work
    ensures HandlesSame(s.work, Proceed(s, step, s.work[step.proc]).work, proc)
  {
  }

  lemma StepHandlesSame(s: State, step: Step, proc: nat)
    requires !StartsAs(step, proc)
    ensures HandlesSame(s.work, Apply(s, step).work, proc)
  {
    if Collects(step) {
      CollectHandlesSame(s, step, proc);
    } else if Advances(step) {
      if step.proc in s.work { ProceedHandlesSame(s, step, proc); }
    }
  }

  lemma {:induction false} RunHandlesSame(s: State, steps: seq<Step>, proc: nat)
    requires GoesOn(steps, proc)
    ensures HandlesSame(s.work, Run(s, steps).work, proc)
    decreases |steps|
  {
    if steps != [] {
      assert !StartsAs(steps[0], proc);
      assert GoesOn(steps[1..], proc);
      StepHandlesSame(s, steps[0], proc);
      RunHandlesSame(Apply(s, steps[0]), steps[1..], proc);
    }
  }

  /** The parts of an upload and their digests. */
  function PartsOf(db: Tables, u: nat): map<PartId, Digest> {
    map p | p in db.parts && p.upload == u :: db.parts[p].cas
  }

  lemma SamePartsSameRows(before: Tables, now: Tables, u: nat, listed: seq<PartId>, order: seq<PartId>)
    requires Lists(before, u, listed) && Lists(now, u, order) && PartsOf(before, u) == PartsOf(now, u)
    ensures Rows(before, listed) == Rows(now, order)
  {
    var rows := Rows(before, listed);
    forall i | 0 <= i < |rows| ensures rows[i].0 in now.parts && rows[i].0.upload == u && now.parts[rows[i].0].cas == rows[i].1 {
      assert rows[i].0 in PartsOf(before, u);
    }
    forall p | p in now.parts && p.upload == u ensures exists i :: 0 <= i < |rows| && rows[i].0 == p {
      assert p in PartsOf(now, u);
      var i :| 0 <= i < |listed| && listed[i] == p;
      assert rows[i].0 == p;
    }
    ListingIsUnique(now, u, order, rows);
  }

  /** When the upload has the parts that it had at the listing, with the same contents, the
      object that the request completes is the parts as they stand. */
  lemma UnchangedPartsAreCompleted(fold: Folding, before: seq<Step>, listing: Step, since: seq<Step>, order: seq<PartId>)
    requires listing.ListForComplete? && GoesOn(since, listing.proc)
    requires listing.proc !in Run(Init(fold), before).work
    requires var steps := before + [listing] + since;
             var s := Run(Init(fold), steps);
             && Completes(s, listing.proc) && Lists(s.db, listing.upload, order)
             && NamedThroughout(fold, steps, ListedDigests(s.work[listing.proc].target.rows))
             && PartsOf(s.db, listing.upload) == PartsOf(Run(Init(fold), before).db, listing.upload)
    ensures var s := Run(Init(fold), before + [listing] + since);
            var slot := SlotOf(s.db.fold, s.work[listing.proc].target.id);
            var objects := Apply(s, Commit(listing.proc)).db.objects;
            var content := Contents(Rows(s.db, order));
            slot in objects && objects[slot].cas == Sha256(content) && objects[slot].size == |content|
  {
    var proc, u := listing.proc, listing.upload;
    var steps := before + [listing] + since;
    var s0, s := Run(Init(fold), before), Run(Init(fold), steps);
    var s1 := Apply(s0, listing);
    RunSnoc(Init(fold), before, listing);
    RunAppends(Init(fold), before + [listing], since);
    RunHandlesSame(s1, since, proc);
    assert s1.work[proc] == Merging(u, s1.work[proc].id, listing.etag, s1.work[proc].contentType,
                                    Rows(s0.db, listing.order), TotalSize(s0.db, listing.order), [], 0);
    SamePartsSameRows(s0.db, s.db, u, listing.order, order);
    assert s.work[proc].target.upload == u;
    CompletedObjectIsParts(fold, steps, proc, order);
  }
}
