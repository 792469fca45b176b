/** What the collector leaves behind, with its steps and those of requests in any order. */
module CollectionComplete {
  import opened Base
  import opened Tables
  import opened Ledger
  import opened Protocol
  import opened Collection
  import opened Draining
  import Accounting
  import LedgerSafety

  /** pending is the queue, taken what is left of the batch in hand. owed are the counts
      that requests have taken back and are still to read. */
  datatype World = World(s: State, pending: seq<Digest>, taken: seq<Digest>, owed: map<nat, Digest>)

  /** A step of a request, or its reading of a count that it took back; or the collector
      takes a batch from the queue, takes up the next key of its batch, or goes on with the
      key that it is at. */
  datatype Event =
    | Request(step: Step)
    | Read(proc: nat, readable: bool)
    | Batch(size: nat)
    | Pick(ok: bool)
    | Act(step: Step)

  function Fresh(fold: Folding): World {
    World(Init(fold), [], [], map[])
  }

  // ----- what requests queue

  function Candidates(c: Change): seq<Digest> {
    if c.Some? then AsSeq(c.value.1) else []
  }

  function CommitCandidates(db: Tables, w: Work): seq<Digest>
    requires w.Uploading?
  {
    var k, n := Sha256(w.bytes), |w.bytes|;
    match w.target
    case ToObject(id, etag, contentType) => Candidates(PutObject(db, id, ObjectRow(id.key, k, n, etag, contentType)))
    case ToPart(p, etag) => Candidates(PutPart(db, p, PartRow(k, n, etag)))
    case ToCompleted(_, id, etag, contentType, _, size) =>
      Candidates(PutObject(db, id, ObjectRow(id.key, k, size, etag, contentType)))
  }

  /** What the transaction of a step hands over for the collector. */
  function Reported(s: State, step: Step): seq<Digest> {
    match step
    case RemoveObject(id) => Candidates(DeleteObject(s.db, id))
    case Commit(p) =>
      if p in s.work && s.work[p].Uploading? && s.work[p].stage.Stored? then CommitCandidates(s.db, s.work[p]) else []
    case _ => []
  }

  /** The digest whose count a release takes back. */
  function TakenBack(s: State, step: Step): Option<Digest> {
    match step
    case Release(p, ok) =>
      if p in s.work && s.work[p].Finishing? && s.work[p].next < |s.work[p].rows| && ok
      then Some(s.work[p].rows[s.work[p].next].1) else None
    case _ => None
  }

  lemma MoveCountZeros(db: Tables, old': Option<Digest>, k: Digest, j: Digest)
    requires Zero(MoveCount(db, old', k).0, j)
    ensures Zero(db, j) || MoveCount(db, old', k).1 == Some(j)
  {
  }

  lemma PutObjectZeros(db: Tables, id: ObjectId, row: ObjectRow, j: Digest)
    requires PutObject(db, id, row).Some? && Zero(PutObject(db, id, row).value.0, j)
    ensures Zero(db, j) || j in Candidates(PutObject(db, id, row))
  {
    var found := SelectObject(db, id);
    MoveCountZeros(db, if found.Some? then Some(found.value.cas) else None, row.cas, j);
  }

  lemma PutPartZeros(db: Tables, p: PartId, row: PartRow, j: Digest)
    requires PutPart(db, p, row).Some? && Zero(PutPart(db, p, row).value.0, j)
    ensures Zero(db, j) || j in Candidates(PutPart(db, p, row))
  {
    MoveCountZeros(db, if p in db.parts then Some(db.parts[p].cas) else None, row.cas, j);
  }

  lemma CommitZeros(s: State, p: nat, j: Digest)
    requires p in s.work && s.work[p].Uploading? && s.work[p].stage.Stored?
    requires Zero(DoCommit(s, p, s.work[p]).db, j)
    ensures Zero(s.db, j) || j in CommitCandidates(s.db, s.work[p])
  {
    var w := s.work[p];
    var k, n := Sha256(w.bytes), |w.bytes|;
    match w.target
    case ToObject(id, etag, contentType) =>
      var row := ObjectRow(id.key, k, n, etag, contentType);
      if PutObject(s.db, id, row).Some? { PutObjectZeros(s.db, id, row, j); }
    case ToPart(part, etag) =>
      var row := PartRow(k, n, etag);
      if PutPart(s.db, part, row).Some? { PutPartZeros(s.db, part, row, j); }
    case ToCompleted(_, id, etag, contentType, _, size) =>
      var row := ObjectRow(id.key, k, size, etag, contentType);
      if PutObject(s.db, id, row).Some? { PutObjectZeros(s.db, id, row, j); }
  }

  lemma OthersLeaveCounts(s: State, step: Step)
    requires !Collects(step) && !step.Commit? && !step.Release? && !step.RemoveObject?
    ensures Apply(s, step).db.blobs == s.db.blobs
  {
  }

  /** A count that a step brings to zero is reported, or is about to be read. */
  lemma ZerosAreReported(s: State, step: Step, j: Digest)
    requires !Collects(step) && Zero(Apply(s, step).db, j)
    ensures Zero(s.db, j) || j in Reported(s, step) || TakenBack(s, step) == Some(j)
  {
    if step.Commit? {
      if step.proc in s.work && s.work[step.proc].Uploading? && s.work[step.proc].stage.Stored? {
        CommitZeros(s, step.proc, j);
      }
    } else if !step.Release? && !step.RemoveObject? {
      OthersLeaveCounts(s, step);
    }
  }

  // ----- the world

  /** The digest that the collector means to delete. */
  function Pursued(gc: Collector): set<Digest> {
    if gc.Idle? || gc.Restoring? then {} else {gc.key}
  }

  /** The digest is in the queue or in the batch, or a request is still to read its count. */
  predicate Queued(w: World, k: Digest) {
    k in w.pending || k in w.taken || exists p :: p in w.owed && w.owed[p] == k
  }

  predicate Tracked(w: World, k: Digest) {
    Queued(w, k) || k in Pursued(w.s.gc)
  }

  /** A request does not go on before it has read the count. */
  predicate CanTake(w: World, step: Step) {
    !Collects(step) && !(Advances(step) && step.proc in w.owed)
  }

  function Requested(w: World, step: Step): World
    requires !Collects(step)
  {
    var k := TakenBack(w.s, step);
    w.(s := Apply(w.s, step), pending := w.pending + Reported(w.s, step),
       owed := if k.Some? then w.owed[step.proc := k.value] else w.owed)
  }

  function CountRead(w: World, p: nat, readable: bool): World
    requires p in w.owed
  {
    var k := w.owed[p];
    w.(owed := w.owed - {p}, pending := if readable && Zero(w.s.db, k) then w.pending + [k] else w.pending)
  }

  function Next(w: World, e: Event): World {
    match e
    case Request(step) => if CanTake(w, step) then Requested(w, step) else w
    case Read(p, readable) => if p in w.owed then CountRead(w, p, readable) else w
    case Batch(size) =>
      if w.taken != [] || !w.s.gc.Idle? then w
      else var n := Min(size, |w.pending|); w.(pending := w.pending[n..], taken := w.pending[..n])
    case Pick(ok) =>
      if w.taken == [] || !w.s.gc.Idle? then w
      else w.(s := Collect(w.s, Check(w.taken[0], ok)), taken := w.taken[1..])
    case Act(step) =>
      if !Collects(step) || step.Check? then w else w.(s := Collect(w.s, step))
  }

  function After(w: World, events: seq<Event>): World
    decreases |events|
  {
    if events == [] then w else After(Next(w, events[0]), events[1..])
  }

  /** The count is zero, and the collector neither has the digest in its queue nor means
      to delete it. */
  predicate Dropped(w: World, k: Digest) {
    Zero(w.s.db, k) && !Tracked(w, k)
  }

  lemma NextKeepsAccounting(w: World, e: Event)
    requires Accounting.Inv(w.s)
    ensures Accounting.Inv(Next(w, e).s)
  {
    match e
    case Request(step) => Accounting.StepKeeps(w.s, step);
    case Read(_, _) =>
    case Batch(_) =>
    case Pick(ok) =>
      if w.taken != [] {
        Accounting.StepKeeps(w.s, Check(w.taken[0], ok));
      }
    case Act(step) => Accounting.StepKeeps(w.s, step);
  }

  lemma {:induction false} AfterKeepsAccounting(w: World, events: seq<Event>)
    requires Accounting.Inv(w.s)
    ensures Accounting.Inv(After(w, events).s)
    decreases |events|
  {
    if events != [] {
      NextKeepsAccounting(w, events[0]);
      AfterKeepsAccounting(Next(w, events[0]), events[1..]);
    }
  }

  lemma Reached(fold: Folding, events: seq<Event>)
    ensures Accounting.Inv(After(Fresh(fold), events).s)
  {
    Accounting.Reached(fold, []);
    AfterKeepsAccounting(Fresh(fold), events);
  }

  lemma CollectorMakesNoZeros(s: State, step: Step, k: Digest)
    requires Collects(step) && Zero(Collect(s, step).db, k)
    ensures Zero(s.db, k)
  {
  }

  lemma RequestTracks(w: World, step: Step, k: Digest)
    requires !Collects(step) && !(step.Release? && step.proc in w.owed) && Zero(Apply(w.s, step).db, k)
    ensures Zero(w.s.db, k) || Tracked(Requested(w, step), k)
  {
    ZerosAreReported(w.s, step, k);
    if TakenBack(w.s, step) == Some(k) {
      assert step.proc in Requested(w, step).owed;
    }
  }

  /** A count that an event brings to zero is tracked from then on. */
  lemma NewZerosAreTracked(w: World, e: Event, k: Digest)
    requires Zero(Next(w, e).s.db, k)
    ensures Zero(w.s.db, k) || Tracked(Next(w, e), k)
  {
    match e
    case Request(step) => if CanTake(w, step) { RequestTracks(w, step, k); }
    case Read(_, _) =>
    case Batch(_) =>
    case Pick(ok) => if w.taken != [] && w.s.gc.Idle? { CollectorMakesNoZeros(w.s, Check(w.taken[0], ok), k); }
    case Act(step) => if Collects(step) && !step.Check? { CollectorMakesNoZeros(w.s, step, k); }
  }

  // ----- when a digest is dropped

  /** A part row refers to k that was released and is not gone yet. */
  predicate ReleasedRefers(s: State, k: Digest) {
    exists p :: p in s.books.released && p in s.db.parts && s.db.parts[p].cas == k
  }

  /** What refers to a digest with count zero are released part rows. */
  lemma ZeroRefersReleased(s: State, k: Digest)
    requires Accounting.Inv(s) && !s.books.miscounted && Zero(s.db, k)
    ensures Referenced(s.db, k) <==> ReleasedRefers(s, k)
  {
    CandidateIsUnclaimed(s.db, s.books.claims, k);
    forall o | o in s.db.objects ensures s.db.objects[o].cas != k {
      assert ObjectRef(o) !in On(s.books.claims, k);
    }
    forall p | p in s.db.parts && s.db.parts[p].cas == k ensures p in s.books.released {
      assert PartRef(p) !in On(s.books.claims, k);
    }
  }

  /** The digest that the event asks the tables about, with success. */
  function Asked(w: World, e: Event): Option<Digest> {
    match e
    case Pick(ok) => if ok && w.taken != [] && w.s.gc.Idle? then Some(w.taken[0]) else None
    case Act(Recheck(ok)) => if ok && w.s.gc.Quarantined? then Some(w.s.gc.key) else None
    case Act(Confirm(ok)) => if ok && w.s.gc.Removed? then Some(w.s.gc.key) else None
    case Act(DropRow(ok)) => if ok && w.s.gc.Confirmed? then Some(w.s.gc.key) else None
    case _ => None
  }

  /** The digest at which the event fails: a question, the move to quarantine, the removal
      of the file or of the row, or the reading of the count. */
  function Failed(w: World, e: Event): Option<Digest> {
    match e
    case Read(p, readable) =>
      if !readable && p in w.owed && w.owed[p] !in Pursued(w.s.gc) then Some(w.owed[p]) else None
    case Pick(ok) => if !ok && w.taken != [] && w.s.gc.Idle? then Some(w.taken[0]) else None
    case Act(Quarantine(ok)) =>
      if !ok && w.s.gc.Checked'? && w.s.gc.key in w.s.files then Some(w.s.gc.key) else None
    case Act(Recheck(ok)) => if !ok && w.s.gc.Quarantined? then Some(w.s.gc.key) else None
    case Act(Remove(ok)) => if !ok && w.s.gc.Removing? && w.s.gc.held.Some? then Some(w.s.gc.key) else None
    case Act(Confirm(ok)) => if !ok && w.s.gc.Removed? then Some(w.s.gc.key) else None
    case Act(DropRow(ok)) => if !ok && w.s.gc.Confirmed? then Some(w.s.gc.key) else None
    case _ => None
  }

  /** The collector's question, and its deletion, find a digest with count zero still in
      use exactly when a released part row refers to it. */
  lemma AskedIsPursued(w: World, e: Event)
    requires Accounting.Inv(w.s) && !w.s.books.miscounted && Asked(w, e).Some?
    ensures var k := Asked(w, e).value;
            var v := Next(w, e);
            Zero(w.s.db, k) ==>
              if ReleasedRefers(w.s, k) then Zero(v.s.db, k) && k !in Pursued(v.s.gc)
              else k in Pursued(v.s.gc) || !Zero(v.s.db, k)
  {
    var k := Asked(w, e).value;
    if Zero(w.s.db, k) {
      ZeroRefersReleased(w.s, k);
      match e
      case Pick(_) => QuestionDecides(w.s, Check(k, true));
      case Act(step) => QuestionDecides(w.s, step);
    }
  }

  /** A digest at which something fails is given up, with its count as it was. */
  lemma FailedIsGivenUp(w: World, e: Event)
    requires Failed(w, e).Some?
    ensures var k := Failed(w, e).value;
            var v := Next(w, e);
            v.s.db == w.s.db && k !in Pursued(v.s.gc)
  {
    match e
    case Read(_, _) =>
    case Pick(_) =>
    case Act(_) =>
  }

  /** The collector is where it asks that, or deletes the row. */
  predicate Asks(gc: Collector, step: Step) {
    match step
    case Check(_, ok) => ok && gc.Idle?
    case Recheck(ok) => ok && gc.Quarantined?
    case Confirm(ok) => ok && gc.Removed?
    case DropRow(ok) => ok && gc.Confirmed?
    case _ => false
  }

  /** Each question is whether a row refers to the digest. */
  lemma QuestionDecides(s: State, step: Step)
    requires Asks(s.gc, step)
    ensures var k := if step.Check? then step.key else s.gc.key;
            var t := Collect(s, step);
            Zero(s.db, k) ==>
              if Referenced(s.db, k) then Zero(t.db, k) && k !in Pursued(t.gc) else k in Pursued(t.gc) || !Zero(t.db, k)
  {
  }

  lemma OwedElsewhere(w: World, v: World, p: nat, k: Digest)
    requires p in w.owed && v.owed == w.owed - {p} && v.taken == w.taken && v.s == w.s
    requires w.owed[p] != k && w.pending <= v.pending && Tracked(w, k)
    ensures Tracked(v, k)
  {
    if q :| q in w.owed && w.owed[q] == k {
      assert q in v.owed && v.owed[q] == k;
    }
  }

  lemma RequestStaysTracked(w: World, step: Step, k: Digest)
    requires CanTake(w, step) && Tracked(w, k)
    ensures Tracked(Requested(w, step), k)
  {
    RequestLeavesCollector(w.s, step);
    var v := Requested(w, step);
    if q :| q in w.owed && w.owed[q] == k {
      assert q in v.owed && v.owed[q] == k;
    }
  }

  lemma BatchStaysTracked(w: World, size: nat, k: Digest)
    requires Tracked(w, k)
    ensures Tracked(Next(w, Batch(size)), k)
  {
    var n := Min(size, |w.pending|);
    assert w.pending == w.pending[..n] + w.pending[n..];
  }

  lemma ReadStaysTracked(w: World, p: nat, readable: bool, k: Digest)
    requires p in w.owed && Tracked(w, k) && Zero(w.s.db, k)
    requires readable || w.owed[p] != k || k in Pursued(w.s.gc)
    ensures Tracked(CountRead(w, p, readable), k)
  {
    if w.owed[p] != k {
      OwedElsewhere(w, CountRead(w, p, readable), p, k);
    }
  }

  lemma CollectorStaysTracked(w: World, e: Event, k: Digest)
    requires e.Pick? || e.Act?
    requires Asked(w, e) != Some(k) && Failed(w, e) != Some(k) && Tracked(w, k)
    ensures Tracked(Next(w, e), k)
  {
    match e
    case Pick(ok) =>
    case Act(step) =>
  }

  /** Anything else that is tracked goes on to be. */
  lemma OthersStayTracked(w: World, e: Event, k: Digest)
    requires Asked(w, e) != Some(k) && Failed(w, e) != Some(k) && Tracked(w, k) && Zero(w.s.db, k)
    ensures Tracked(Next(w, e), k)
  {
    match e
    case Request(step) => if CanTake(w, step) { RequestStaysTracked(w, step, k); }
    case Read(p, readable) => if p in w.owed { ReadStaysTracked(w, p, readable, k); }
    case Batch(size) => BatchStaysTracked(w, size, k);
    case Pick(_) => CollectorStaysTracked(w, e, k);
    case Act(_) => CollectorStaysTracked(w, e, k);
  }

  lemma RequestLeavesCollector(s: State, step: Step)
    requires !Collects(step)
    ensures Apply(s, step).gc == s.gc
  {
  }

  /** A digest comes to be dropped exactly if its count is zero and the event fails at it,
      or the collector asks for it while a released part row still refers to it; and it is
      not queued again, with no other request still to read its count. */
  lemma DropsIffFailedOrReleased(w: World, e: Event, k: Digest)
    requires Accounting.Inv(w.s) && !w.s.books.miscounted && !Dropped(w, k)
    ensures var v := Next(w, e);
            Dropped(v, k) <==>
              && Zero(w.s.db, k) && !Queued(v, k)
              && (Failed(w, e) == Some(k) || (Asked(w, e) == Some(k) && ReleasedRefers(w.s, k)))
  {
    var v := Next(w, e);
    if Zero(v.s.db, k) {
      NewZerosAreTracked(w, e, k);
    }
    if Failed(w, e) == Some(k) {
      FailedIsGivenUp(w, e);
    } else if Asked(w, e) == Some(k) {
      AskedIsPursued(w, e);
    } else if Tracked(w, k) && Zero(w.s.db, k) {
      OthersStayTracked(w, e, k);
    }
  }

  /** While nothing fails and no request is between its first release and the deletion of
      its upload, nothing comes to be dropped. */
  lemma NothingDroppedAtRest(w: World, e: Event, k: Digest)
    requires Accounting.Inv(w.s) && !w.s.books.miscounted && w.s.books.released == {} && Failed(w, e).None?
    requires Dropped(Next(w, e), k)
    ensures Dropped(w, k)
  {
    if !Dropped(w, k) {
      DropsIffFailedOrReleased(w, e, k);
    }
  }

  // ----- after draining

  /** No request is in progress, no released part row is left, and the collector is
      between batches. */
  predicate AtRest(w: World) {
    && w.s.work == map[] && w.owed == map[] && w.s.books.released == {} && w.s.gc.Idle? && w.taken == []
  }

  lemma RestIsUnused(w: World)
    requires Accounting.Inv(w.s) && AtRest(w) && !w.s.books.miscounted
    ensures Unused(w.s.db)
  {
    forall k | Zero(w.s.db, k) ensures !Referenced(w.s.db, k) {
      ZeroRefersReleased(w.s, k);
    }
  }

  /** Collection leaves exactly what was dropped. After any run of requests and collector
      steps, in any order and with any of them failing, in which no count was taken back
      wrongly, as many batches as the queue is long empty it; then the rows with count
      zero are exactly the dropped ones, and of the files exactly those of the other
      unreferenced digests are gone. */
  lemma DrainingLeavesDropped(fold: Folding, events: seq<Event>, batch: nat, rounds: nat)
    requires var w := After(Fresh(fold), events);
             AtRest(w) && !w.s.books.miscounted && batch >= 1 && rounds >= |w.pending|
    ensures var w := After(Fresh(fold), events);
            var (d, rest) := Drained(w.s, w.pending, batch, rounds);
            && rest == [] && d.gc.Idle?
            && d.db.objects == w.s.db.objects && d.db.parts == w.s.db.parts
            && (forall k :: Zero(d.db, k) <==> Dropped(w, k))
            && (forall k :: k in w.s.files ==> (k !in d.files <==> CanDelete(w.s.db, k) && !Dropped(w, k)))
  {
    Reached(fold, events);
    var w := After(Fresh(fold), events);
    RestIsUnused(w);
    DrainSweeps(w.s, w.pending, batch, rounds);
    var (d, rest) := Drained(w.s, w.pending, batch, rounds);
    forall k ensures Zero(d.db, k) <==> Dropped(w, k) {
      assert Zero(d.db, k) <==> Zero(w.s.db, k) && k !in w.pending;
    }
  }

  lemma CountedIffReferenced(db: Tables, k: Digest)
    requires Accounted(db) && Consistent(db) && !Zero(db, k)
    ensures k in db.blobs <==> Referenced(db, k)
  {
    if k in db.blobs {
      assert Count(db, k) > 0;
      assert ObjectRows(db, k) != {} || PartRows(db, k) != {};
    }
  }

  /** Collection is complete, so that with no leak the known digests are the referenced
      ones, exactly when nothing was dropped. */
  lemma DrainingIsCompleteIffNothingDropped(fold: Folding, events: seq<Event>, batch: nat, rounds: nat)
    requires var w := After(Fresh(fold), events);
             AtRest(w) && !w.s.books.miscounted && !w.s.books.leaked && batch >= 1 && rounds >= |w.pending|
    ensures var w := After(Fresh(fold), events);
            var d := Drained(w.s, w.pending, batch, rounds).0;
            (forall k :: k in d.db.blobs <==> Referenced(d.db, k)) <==> forall k :: !Dropped(w, k)
  {
    DrainingLeavesDropped(fold, events, batch, rounds);
    Reached(fold, events);
    var w := After(Fresh(fold), events);
    RestIsUnused(w);
    DrainSweeps(w.s, w.pending, batch, rounds);
    var d := Drained(w.s, w.pending, batch, rounds).0;
    Accounting.FaultlessIsLawful(w.s);
    Accounting.AccountedIsLaw(w.s.db);
    forall k ensures (k in d.db.blobs <==> Referenced(d.db, k)) <==> !Dropped(w, k) {
      assert Referenced(d.db, k) <==> Referenced(w.s.db, k);
      if Dropped(w, k) {
        assert Zero(d.db, k) && !Referenced(w.s.db, k);
      } else if !Zero(w.s.db, k) {
        CountedIffReferenced(w.s.db, k);
      }
    }
  }

  // ----- runs of requests and collector steps

  function StepOf(w: World, e: Event): seq<Step> {
    match e
    case Request(step) => if CanTake(w, step) then [step] else []
    case Read(_, _) => []
    case Batch(_) => []
    case Pick(ok) => if w.taken == [] || !w.s.gc.Idle? then [] else [Check(w.taken[0], ok)]
    case Act(step) => if !Collects(step) || step.Check? then [] else [step]
  }

  function StepsOf(w: World, events: seq<Event>): seq<Step>
    decreases |events|
  {
    if events == [] then [] else StepOf(w, events[0]) + StepsOf(Next(w, events[0]), events[1..])
  }

  lemma NextIsRun(w: World, e: Event)
    ensures Next(w, e).s == Run(w.s, StepOf(w, e))
  {
    if StepOf(w, e) != [] {
      var step := StepOf(w, e)[0];
      assert Next(w, e).s == Apply(w.s, step);
      assert [] + [step] == [step];
      RunSnoc(w.s, [], step);
    }
  }

  /** The tables and the files change as in a run of the interleaving model. */
  lemma {:induction false} AfterIsRun(w: World, events: seq<Event>)
    ensures After(w, events).s == Run(w.s, StepsOf(w, events))
    decreases |events|
  {
    if events != [] {
      NextIsRun(w, events[0]);
      AfterIsRun(Next(w, events[0]), events[1..]);
      RunAppends(w.s, StepOf(w, events[0]), StepsOf(Next(w, events[0]), events[1..]));
    }
  }

  /** Requests that do not overlap, and of which none gives up, leave no released part row
      behind. */
  lemma NoReleasedRowLeft(fold: Folding, events: seq<Event>)
    requires var s := After(Fresh(fold), events).s; s.work == map[] && !s.books.overlapped && !s.books.abandoned
    ensures After(Fresh(fold), events).s.books.released == {}
  {
    AfterIsRun(Fresh(fold), events);
    LedgerSafety.JointlyReached(fold, StepsOf(Fresh(fold), events));
    assert After(Fresh(fold), events).s.books.released == {};
  }

  function Acts(steps: seq<Step>): seq<Event> {
    seq(|steps|, i requires 0 <= i < |steps| => Act(steps[i]))
  }

  function Collected(s: State, steps: seq<Step>): State
    requires forall i :: 0 <= i < |steps| ==> Collects(steps[i])
    decreases |steps|
  {
    if steps == [] then s else Collected(Collect(s, steps[0]), steps[1..])
  }

  lemma {:induction false} ActsCollect(w: World, steps: seq<Step>)
    requires forall i :: 0 <= i < |steps| ==> Collects(steps[i]) && !steps[i].Check?
    ensures var v := After(w, Acts(steps)); v.s == Collected(w.s, steps) && v.taken == w.taken && v.pending == w.pending
    decreases |steps|
  {
    if steps != [] {
      var next := Next(w, Act(steps[0]));
      assert Acts(steps)[0] == Act(steps[0]) && Acts(steps)[1..] == Acts(steps[1..]);
      ActsCollect(next, steps[1..]);
    }
  }

  function Rest(l: Luck): seq<Step> {
    [Quarantine(l.rename), Recheck(l.recheck), Restore(l.restore), Remove(l.remove), Confirm(l.confirm), DropRow(l.drop)]
  }

  lemma TurnIsCollected(s: State, k: Digest, l: Luck)
    ensures Turn(s, k, l) == Collected(Collect(s, Check(k, l.check)), Rest(l))
  {
    var r := Rest(l);
    var s1 := Collect(s, Check(k, l.check));
    var s2 := Collect(s1, Quarantine(l.rename));
    var s3 := Collect(s2, Recheck(l.recheck));
    var s4 := Collect(s3, Restore(l.restore));
    var s5 := Collect(s4, Remove(l.remove));
    var s6 := Collect(s5, Confirm(l.confirm));
    assert Collected(s1, r) == Collected(s2, r[1..]);
    assert r[1..][1..] == r[2..] && Collected(s2, r[1..]) == Collected(s3, r[2..]);
    assert r[2..][1..] == r[3..] && Collected(s3, r[2..]) == Collected(s4, r[3..]);
    assert r[3..][1..] == r[4..] && Collected(s4, r[3..]) == Collected(s5, r[4..]);
    assert r[4..][1..] == r[5..] && Collected(s5, r[4..]) == Collected(s6, r[5..]);
    assert r[5..][1..] == [] && Collected(s6, r[5..]) == Collect(s6, DropRow(l.drop));
  }

  /** The collector's whole turn on the key at the head of its batch, as events. */
  lemma TurnIsEvents(w: World, l: Luck)
    requires w.taken != [] && w.s.gc.Idle?
    ensures var v := After(Next(w, Pick(l.check)), Acts(Rest(l)));
            v.s == Turn(w.s, w.taken[0], l) && v.taken == w.taken[1..] && v.pending == w.pending
  {
    ActsCollect(Next(w, Pick(l.check)), Rest(l));
    TurnIsCollected(w.s, w.taken[0], l);
  }
}
