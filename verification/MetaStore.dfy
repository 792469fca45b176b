/** The reference-counted writes of src/db/meta_store.cpp, statement by statement. */
module MetaStores {
  import opened Base
  import opened Tables
  import opened MySql

  const MAX_RETRIES: nat := 3

  datatype Attempt = Committed(candidate: Option<Digest>) | Duplicate | Broken(error: Error)

  datatype Outcome = Ok(candidate: Option<Digest>) | NoSuchKey | DatabaseError(error: Error) | Exhausted

  predicate Retryable(e: Error) {
    e.Deadlock? || e.LockTimeout?
  }

  // ----- the statements of one attempt

  function Abandon(s: Session): (Session, Attempt) {
    (RollbackTx(s), Broken(s.lastError))
  }

  function Conclude(s: Session, candidate: Option<Digest>): (Session, Attempt) {
    var (s1, ok) := CommitTx(s);
    if ok then (s1, Committed(candidate)) else (s1, Broken(s1.lastError))
  }

  /** A new key is inserted straight away. */
  function FastAttempt(s: Session, id: ObjectId, row: ObjectRow): (Session, Attempt) {
    var (s1, counted) := Executed(StartTx(s), CountUp(row.cas));
    if !counted then Abandon(s1)
    else
      var (s2, inserted) := Executed(s1, InsertRow(id, row));
      if inserted then Conclude(s2, None)
      else if s2.lastError.DuplicateEntry? then (RollbackTx(s2), Duplicate)
      else Abandon(s2)
  }

  /** The count of the old digest goes down; it is a candidate if none is left. */
  function ReleaseOld(s: Session, k: Digest): (Session, bool, Option<Digest>) {
    var (s1, counted) := Executed(s, CountDown(k));
    if !counted then (s1, false, None)
    else
      var (s2, read) := Queried(s1);
      (s2, read, if read then Candidate(s2.working, k) else None)
  }

  /** The count moves from the old digest to the new one, the row is written. */
  function Rewrite(s: Session, old': Option<Digest>, k: Digest, upsert: Statement): (Session, Attempt) {
    var (s1, counted) := if old' == Some(k) then (s, true) else Executed(s, CountUp(k));
    if !counted then Abandon(s1)
    else
      var (s2, released, candidate) :=
        if old'.None? || old'.value == k then (s1, true, None) else ReleaseOld(s1, old'.value);
      if !released then Abandon(s2)
      else
        var (s3, written) := Executed(s2, upsert);
        if !written then Abandon(s3) else Conclude(s3, candidate)
  }

  function ObjectCas(db: Tables, id: ObjectId): Option<Digest> {
    match SelectObject(db, id)
    case None => None
    case Some(row) => Some(row.cas)
  }

  function PartCas(db: Tables, p: PartId): Option<Digest> {
    if p in db.parts then Some(db.parts[p].cas) else None
  }

  function SlowAttempt(s: Session, id: ObjectId, row: ObjectRow): (Session, Attempt) {
    var (s1, read) := Queried(StartTx(s));
    if !read then Abandon(s1)
    else Rewrite(s1, ObjectCas(s1.working, id), row.cas, UpsertRow(id, row))
  }

  function PartAttempt(s: Session, p: PartId, row: PartRow): (Session, Attempt) {
    var (s1, read) := Queried(StartTx(s));
    if !read then Abandon(s1)
    else Rewrite(s1, PartCas(s1.working, p), row.cas, UpsertPartRow(p, row))
  }

  /** The two paths of one attempt. */
  function OneAttempt(s: Session, id: ObjectId, row: ObjectRow): (Session, Attempt) {
    var (s1, fast) := FastAttempt(s, id, row);
    if fast.Duplicate? then SlowAttempt(s1, id, row) else (s1, fast)
  }

  // ----- whole calls

  predicate Again(attempt: nat, e: Error) {
    attempt + 1 < MAX_RETRIES && Retryable(e)
  }

  function PutObjectRun(s: Session, id: ObjectId, row: ObjectRow, attempt: nat): (Session, Outcome)
    decreases MAX_RETRIES - attempt
  {
    if attempt >= MAX_RETRIES then (s, Exhausted)
    else
      var (s1, a) := OneAttempt(s, id, row);
      match a
      case Committed(candidate) => (s1, Ok(candidate))
      case Broken(e) => if Again(attempt, e) then PutObjectRun(s1, id, row, attempt + 1) else (s1, DatabaseError(e))
      case Duplicate => (s1, DatabaseError(DuplicateEntry))
  }

  function PutPartRun(s: Session, p: PartId, row: PartRow, attempt: nat): (Session, Outcome)
    decreases MAX_RETRIES - attempt
  {
    if attempt >= MAX_RETRIES then (s, Exhausted)
    else
      var (s1, a) := PartAttempt(s, p, row);
      match a
      case Committed(candidate) => (s1, Ok(candidate))
      case Broken(e) => if Again(attempt, e) then PutPartRun(s1, p, row, attempt + 1) else (s1, DatabaseError(e))
      case Duplicate => (s1, DatabaseError(DuplicateEntry))
  }

  function DeleteObjectRun(s: Session, id: ObjectId): (Session, Outcome) {
    var (s1, read) := Queried(StartTx(s));
    if !read then (RollbackTx(s1), DatabaseError(s1.lastError))
    else if ObjectCas(s1.working, id).None? then (RollbackTx(s1), NoSuchKey)
    else
      var k := ObjectCas(s1.working, id).value;
      var (s2, deleted) := Executed(s1, DeleteRow(id));
      if !deleted then (RollbackTx(s2), DatabaseError(s2.lastError))
      else
        var (s3, released, candidate) := ReleaseOld(s2, k);
        if !released then (RollbackTx(s3), DatabaseError(s3.lastError))
        else
          var (s4, done) := CommitTx(s3);
          (s4, if done then Ok(candidate) else DatabaseError(s4.lastError))
  }

  datatype Zero = IsZero(zero: bool) | UnknownBlob | ZeroError(error: Error)

  /** Outside a transaction: the decrement commits by itself, and the read of the
      count may still fail after that. */
  function DecrementRun(s: Session, k: Digest): (Session, Zero) {
    var (s1, counted) := Executed(s, CountDown(k));
    if !counted then (s1, ZeroError(s1.lastError))
    else
      var (s2, read) := Queried(s1);
      if !read then (s2, ZeroError(s2.lastError))
      else if k !in s2.working.blobs then (s2, UnknownBlob)
      else (s2, IsZero(s2.working.blobs[k] == 0))
  }

  datatype Answer = Answer(yes: bool) | NoAnswer(error: Error)

  function Answered(s: Session, yes: bool): (Session, Answer) {
    var (s1, ok) := CommitTx(s);
    (s1, if ok then Answer(yes) else NoAnswer(s1.lastError))
  }

  predicate InObjects(db: Tables, k: Digest) {
    exists o :: o in db.objects && db.objects[o].cas == k
  }

  predicate InParts(db: Tables, k: Digest) {
    exists p :: p in db.parts && db.parts[p].cas == k
  }

  /** Three questions, one after the other, until one of them says no. */
  function CanDeleteRun(s: Session, k: Digest): (Session, Answer) {
    var (s1, read) := Queried(StartTx(s));
    if !read then (RollbackTx(s1), NoAnswer(s1.lastError))
    else if Count(s1.working, k) != 0 || k !in s1.working.blobs then Answered(s1, false)
    else
      var (s2, read2) := Queried(s1);
      if !read2 then (RollbackTx(s2), NoAnswer(s2.lastError))
      else if InObjects(s2.working, k) then Answered(s2, false)
      else
        var (s3, read3) := Queried(s2);
        if !read3 then (RollbackTx(s3), NoAnswer(s3.lastError))
        else Answered(s3, !InParts(s3.working, k))
  }

  // ----- what one transaction comes to

  /** The tables that the next transaction starts from. */
  function NextBase(s: Session): Tables {
    if s.others == [] then s.committed else s.others[0]
  }

  /** What a session has published, and what others are still to do. */
  datatype History = History(trail: seq<(Tables, Tables)>, others: seq<Tables>)

  function HistoryOf(s: Session): History {
    History(s.trail, s.others)
  }

  /** Once the next transaction has begun. */
  function NextHistory(s: Session): History {
    History(s.trail, Rest(s.others))
  }

  /** In a transaction that began with the given tables and has published nothing. */
  ghost predicate During(s: Session, base: Tables, h: History) {
    s.committed == base && HistoryOf(s) == h && (s.open || s.working == base)
  }

  ghost predicate After(s: Session, base: Tables, h: History) {
    Clean(s) && s.committed == base && HistoryOf(s) == h
  }

  /** An attempt either published the whole change or left the tables alone. */
  ghost predicate Atomic(s: Session, a: Attempt, base: Tables, h: History, change: Change) {
    match a
    case Committed(c) =>
      change.Some? && change.value.1 == c && After(s, change.value.0, h.(trail := h.trail + [(base, change.value.0)]))
    case _ => After(s, base, h)
  }

  lemma StartIsDuring(s: Session)
    requires Clean(s) && First(s.control).Fine?
    ensures var t := StartTx(s);
            && During(t, NextBase(s), NextHistory(s)) && t.open && t.working == NextBase(s)
            && t.control == Rest(s.control)
  {
  }

  lemma AbandonIsAfter(s: Session, base: Tables, h: History)
    requires During(s, base, h) && RollsBack(First(s.control))
    ensures After(RollbackTx(s), base, h) && RollbackTx(s).control == Rest(s.control)
  {
  }

  lemma StatementIsDuring(s: Session, st: Statement, base: Tables, h: History)
    requires During(s, base, h) && s.open
    ensures var (t, ok) := Executed(s, st);
            && During(t, base, h) && t.control == s.control
            && (ok ==> t.open && EffectOf(s.working, st) == Changed(t.working))
  {
  }

  lemma QueryIsDuring(s: Session, base: Tables, h: History)
    requires During(s, base, h) && s.open
    ensures var (t, ok) := Queried(s);
            During(t, base, h) && t.control == s.control && (ok ==> t.open && t.working == s.working)
  {
  }

  lemma ConcludeIsAtomic(s: Session, base: Tables, h: History, candidate: Option<Digest>)
    requires During(s, base, h) && s.open
    ensures var (t, a) := Conclude(s, candidate);
            Atomic(t, a, base, h, Some((s.working, candidate))) && !a.Duplicate? && t.control == s.control
  {
  }

  lemma FastIsAtomic(s: Session, id: ObjectId, row: ObjectRow)
    requires Clean(s) && Sure(s.control)
    ensures var (t, a) := FastAttempt(s, id, row);
            && Atomic(t, a, NextBase(s), NextHistory(s), PutObject(NextBase(s), id, row))
            && (t.control == Rest(s.control) || t.control == Rest(Rest(s.control)))
            && (a.Duplicate? ==> t.control == Rest(Rest(s.control)))
  {
    var base, h := NextBase(s), NextHistory(s);
    StartIsDuring(s);
    var s0 := StartTx(s);
    StatementIsDuring(s0, CountUp(row.cas), base, h);
    var (s1, counted) := Executed(s0, CountUp(row.cas));
    if !counted {
      AbandonIsAfter(s1, base, h);
    } else {
      StatementIsDuring(s1, InsertRow(id, row), base, h);
      var (s2, inserted) := Executed(s1, InsertRow(id, row));
      if inserted {
        ConcludeIsAtomic(s2, base, h, None);
        assert PutObject(base, id, row) == Some((s2.working, None));
      } else {
        AbandonIsAfter(s2, base, h);
      }
    }
  }

  lemma ReleaseIsDuring(s: Session, k: Digest, base: Tables, h: History)
    requires During(s, base, h) && s.open
    ensures var (t, ok, candidate) := ReleaseOld(s, k);
            && During(t, base, h) && t.control == s.control
            && (ok ==> t.open && t.working == Decrement(s.working, k) && candidate == Candidate(t.working, k))
  {
    StatementIsDuring(s, CountDown(k), base, h);
    var (s1, counted) := Executed(s, CountDown(k));
    if counted {
      QueryIsDuring(s1, base, h);
    }
  }

  /** The statements of the slow path come to the simple move of the count and the
      simple write of the row. */
  lemma RewriteIsAtomic(s: Session, old': Option<Digest>, k: Digest, upsert: Statement, h: History)
    requires During(s, s.working, h) && s.open && RollsBack(First(s.control))
    ensures var (t, a) := Rewrite(s, old', k, upsert);
            !a.Duplicate? && (t.control == s.control || t.control == Rest(s.control))
    ensures var base := s.working;
            var (counted, candidate) := MoveCount(base, old', k);
            var (t, a) := Rewrite(s, old', k, upsert);
            match EffectOf(counted, upsert)
            case Changed(after) => Atomic(t, a, base, h, Some((after, candidate)))
            case Violates(_) => Atomic(t, a, base, h, None)
  {
    var base := s.working;
    if old' != Some(k) {
      StatementIsDuring(s, CountUp(k), base, h);
    }
    var (s1, counted) := if old' == Some(k) then (s, true) else Executed(s, CountUp(k));
    if !counted {
      AbandonIsAfter(s1, base, h);
    } else {
      var skip := old'.None? || old'.value == k;
      if !skip {
        ReleaseIsDuring(s1, old'.value, base, h);
      }
      var (s2, released, candidate) := if skip then (s1, true, None) else ReleaseOld(s1, old'.value);
      if !released {
        AbandonIsAfter(s2, base, h);
      } else {
        StatementIsDuring(s2, upsert, base, h);
        var (s3, written) := Executed(s2, upsert);
        if written {
          ConcludeIsAtomic(s3, base, h, candidate);
        } else {
          AbandonIsAfter(s3, base, h);
        }
      }
    }
  }

  lemma SlowIsAtomic(s: Session, id: ObjectId, row: ObjectRow)
    requires Clean(s) && Sure(s.control)
    ensures var (t, a) := SlowAttempt(s, id, row);
            && Atomic(t, a, NextBase(s), NextHistory(s), PutObject(NextBase(s), id, row)) && !a.Duplicate?
            && (t.control == Rest(s.control) || t.control == Rest(Rest(s.control)))
  {
    var base, h := NextBase(s), NextHistory(s);
    StartIsDuring(s);
    QueryIsDuring(StartTx(s), base, h);
    var (s1, read) := Queried(StartTx(s));
    if !read {
      AbandonIsAfter(s1, base, h);
    } else {
      RewriteIsAtomic(s1, ObjectCas(base, id), row.cas, UpsertRow(id, row), h);
    }
  }

  lemma PartIsAtomic(s: Session, p: PartId, row: PartRow)
    requires Clean(s) && Sure(s.control)
    ensures var (t, a) := PartAttempt(s, p, row);
            && Atomic(t, a, NextBase(s), NextHistory(s), PutPart(NextBase(s), p, row)) && !a.Duplicate?
            && (t.control == Rest(s.control) || t.control == Rest(Rest(s.control)))
  {
    var base, h := NextBase(s), NextHistory(s);
    StartIsDuring(s);
    QueryIsDuring(StartTx(s), base, h);
    var (s1, read) := Queried(StartTx(s));
    if !read {
      AbandonIsAfter(s1, base, h);
    } else {
      RewriteIsAtomic(s1, PartCas(base, p), row.cas, UpsertPartRow(p, row), h);
    }
  }

  // ----- the theorems

  datatype Call = PutObjectCall(id: ObjectId, entry: ObjectRow) | PutPartCall(part: PartId, row: PartRow)
                | DeleteObjectCall(id: ObjectId)

  /** The simple step that a call is meant to come to. */
  function SimpleStep(db: Tables, c: Call): Change {
    match c
    case PutObjectCall(id, row) => PutObject(db, id, row)
    case PutPartCall(p, row) => PutPart(db, p, row)
    case DeleteObjectCall(id) => DeleteObject(db, id)
  }

  /** Nothing was published, or exactly one change, made from the tables as they were
      when its transaction began. */
  ghost predicate AllOrNothing(s: Session, t: Session, r: Outcome, call: Call) {
    && Clean(t)
    && match r
       case Ok(c) =>
         && |t.trail| == |s.trail| + 1 && t.trail[..|s.trail|] == s.trail
         && var (before, after) := t.trail[|s.trail|];
            SimpleStep(before, call) == Some((after, c)) && t.committed == after
            && (s.others == [] ==> before == s.committed)
       case _ => t.trail == s.trail && (s.others == [] ==> t.committed == s.committed)
  }

  /** The outcome of an attempt, from some tables that were current when it began. */
  ghost predicate AttemptOutcome(s: Session, t: Session, a: Attempt, base: Tables, call: Call) {
    exists others :: Atomic(t, a, base, History(s.trail, others), SimpleStep(base, call))
                     && (s.others == [] ==> base == s.committed && others == [])
  }

  lemma CommittedIsAllOrNothing(s: Session, t: Session, a: Attempt, base: Tables, call: Call)
    requires a.Committed? && AttemptOutcome(s, t, a, base, call)
    ensures AllOrNothing(s, t, Ok(a.candidate), call)
  {
  }

  /** After an attempt that changed nothing the rest of the call decides. */
  lemma RestDecides(s: Session, t: Session, a: Attempt, base: Tables, u: Session, r: Outcome, call: Call)
    requires !a.Committed? && AttemptOutcome(s, t, a, base, call)
    requires AllOrNothing(t, u, r, call)
    ensures AllOrNothing(s, u, r, call)
  {
  }

  lemma SkipIsRest(vs: seq<Verdict>)
    ensures Skip(vs, 1) == Rest(vs) && Skip(vs, 2) == Rest(Rest(vs))
    ensures Skip(vs, 3) == Rest(Rest(Rest(vs))) && Skip(vs, 4) == Rest(Rest(Rest(Rest(vs))))
  {
    var one, two, three := Rest(vs), Rest(Rest(vs)), Rest(Rest(Rest(vs)));
    assert Skip(three, 1) == Rest(three);
    assert Skip(two, 2) == Skip(three, 1) && Skip(two, 1) == three;
    assert Skip(one, 3) == Skip(two, 2) && Skip(one, 2) == Skip(two, 1) && Skip(one, 1) == two;
  }

  lemma AttemptIsAtomic(s: Session, id: ObjectId, row: ObjectRow)
    requires Clean(s) && Sure(s.control) && Sure(Rest(Rest(s.control)))
    ensures var (t, a) := OneAttempt(s, id, row);
            && !a.Duplicate? && (exists base :: AttemptOutcome(s, t, a, base, PutObjectCall(id, row)))
            && exists used: nat :: used <= 4 && t.control == Skip(s.control, used)
  {
    FastIsAtomic(s, id, row);
    var (s1, fast) := FastAttempt(s, id, row);
    var call := PutObjectCall(id, row);
    SkipIsRest(s.control);
    if fast.Duplicate? {
      SlowIsAtomic(s1, id, row);
      var (t, a) := SlowAttempt(s1, id, row);
      assert Atomic(t, a, NextBase(s1), History(s.trail, Rest(s1.others)), SimpleStep(NextBase(s1), call));
      assert AttemptOutcome(s, t, a, NextBase(s1), call);
    } else {
      assert Atomic(s1, fast, NextBase(s), History(s.trail, Rest(s.others)), SimpleStep(NextBase(s), call));
      assert AttemptOutcome(s, s1, fast, NextBase(s), call);
    }
  }

  lemma AttemptUsesFour(s: Session, id: ObjectId, row: ObjectRow, left: nat)
    requires Clean(s) && left >= 4 && Orderly(s.control, left)
    ensures var (t, a) := OneAttempt(s, id, row);
            && !a.Duplicate? && (exists base :: AttemptOutcome(s, t, a, base, PutObjectCall(id, row)))
            && Orderly(t.control, left - 4)
  {
    OrderlyStarts(s.control, left);
    OrderlyStarts(Rest(s.control), left - 1);
    OrderlyStarts(Rest(Rest(s.control)), left - 2);
    AttemptIsAtomic(s, id, row);
    var used: nat :| used <= 4 && OneAttempt(s, id, row).0.control == Skip(s.control, used);
    OrderlyLater(s.control, left, used, left - 4);
  }

  /** Whatever statements fail, a put commits at most one transaction. Ok means that it
      came to the simple step; an error means that it left the tables alone. The end of
      the retry loop is never reached. Each attempt left may use four verdicts on START
      TRANSACTION and ROLLBACK. */
  lemma {:induction false} PutObjectIsAtomic(s: Session, id: ObjectId, row: ObjectRow, attempt: nat)
    requires Clean(s) && attempt < MAX_RETRIES && Orderly(s.control, 4 * (MAX_RETRIES - attempt))
    ensures var (t, r) := PutObjectRun(s, id, row, attempt);
            AllOrNothing(s, t, r, PutObjectCall(id, row)) && !r.Exhausted? && !r.NoSuchKey?
    decreases MAX_RETRIES - attempt
  {
    AttemptUsesFour(s, id, row, 4 * (MAX_RETRIES - attempt));
    var (t, a) := OneAttempt(s, id, row);
    if a.Broken? && Again(attempt, a.error) {
      PutObjectIsAtomic(t, id, row, attempt + 1);
    }
    AttemptThenRest(s, id, row, attempt, t, a);
  }

  /** What an attempt comes to, and what the rest of the call comes to, put together. */
  lemma AttemptThenRest(s: Session, id: ObjectId, row: ObjectRow, attempt: nat, t: Session, a: Attempt)
    requires attempt < MAX_RETRIES && (t, a) == OneAttempt(s, id, row) && !a.Duplicate?
    requires exists base :: AttemptOutcome(s, t, a, base, PutObjectCall(id, row))
    requires a.Broken? && Again(attempt, a.error) ==>
               var (u, r) := PutObjectRun(t, id, row, attempt + 1);
               AllOrNothing(t, u, r, PutObjectCall(id, row)) && !r.Exhausted? && !r.NoSuchKey?
    ensures var (u, r) := PutObjectRun(s, id, row, attempt);
            AllOrNothing(s, u, r, PutObjectCall(id, row)) && !r.Exhausted? && !r.NoSuchKey?
  {
    var call := PutObjectCall(id, row);
    var base :| AttemptOutcome(s, t, a, base, call);
    if a.Committed? {
      CommittedIsAllOrNothing(s, t, a, base, call);
    } else if Again(attempt, a.error) {
      var (u, r) := PutObjectRun(t, id, row, attempt + 1);
      RestDecides(s, t, a, base, u, r, call);
    }
  }

  lemma PartAttemptIsAtomic(s: Session, p: PartId, row: PartRow)
    requires Clean(s) && Sure(s.control)
    ensures var (t, a) := PartAttempt(s, p, row);
            && !a.Duplicate? && (exists base :: AttemptOutcome(s, t, a, base, PutPartCall(p, row)))
            && exists used: nat :: used <= 2 && t.control == Skip(s.control, used)
  {
    SkipIsRest(s.control);
    PartIsAtomic(s, p, row);
    var (t, a) := PartAttempt(s, p, row);
    var base, call := NextBase(s), PutPartCall(p, row);
    assert Atomic(t, a, base, History(s.trail, Rest(s.others)), SimpleStep(base, call));
    assert AttemptOutcome(s, t, a, base, call);
  }

  lemma {:induction false} PutPartIsAtomic(s: Session, p: PartId, row: PartRow, attempt: nat)
    requires Clean(s) && attempt < MAX_RETRIES && Orderly(s.control, 2 * (MAX_RETRIES - attempt))
    ensures var (t, r) := PutPartRun(s, p, row, attempt);
            AllOrNothing(s, t, r, PutPartCall(p, row)) && !r.Exhausted? && !r.NoSuchKey?
    decreases MAX_RETRIES - attempt
  {
    var left := 2 * (MAX_RETRIES - attempt);
    OrderlyStarts(s.control, left);
    PartAttemptIsAtomic(s, p, row);
    var (t, a) := PartAttempt(s, p, row);
    var used: nat :| used <= 2 && t.control == Skip(s.control, used);
    var call := PutPartCall(p, row);
    var base :| AttemptOutcome(s, t, a, base, call);
    if a.Committed? {
      CommittedIsAllOrNothing(s, t, a, base, call);
    } else if Again(attempt, a.error) {
      OrderlyLater(s.control, left, used, left - 2);
      PutPartIsAtomic(t, p, row, attempt + 1);
      var (u, r) := PutPartRun(t, p, row, attempt + 1);
      RestDecides(s, t, a, base, u, r, call);
    }
  }

  lemma DeleteObjectIsAtomic(s: Session, id: ObjectId)
    requires Clean(s) && Sure(s.control)
    ensures var (t, r) := DeleteObjectRun(s, id);
            && AllOrNothing(s, t, r, DeleteObjectCall(id)) && !r.Exhausted?
            && (r.NoSuchKey? ==> DeleteObject(NextBase(s), id).None?)
  {
    var base, h := NextBase(s), NextHistory(s);
    StartIsDuring(s);
    QueryIsDuring(StartTx(s), base, h);
    var (s1, read) := Queried(StartTx(s));
    if !read || ObjectCas(s1.working, id).None? {
      AbandonIsAfter(s1, base, h);
    } else {
      var k := ObjectCas(base, id).value;
      StatementIsDuring(s1, DeleteRow(id), base, h);
      var (s2, deleted) := Executed(s1, DeleteRow(id));
      if !deleted {
        AbandonIsAfter(s2, base, h);
      } else {
        ReleaseIsDuring(s2, k, base, h);
        var (s3, released, candidate) := ReleaseOld(s2, k);
        if !released {
          AbandonIsAfter(s3, base, h);
        } else {
          ConcludeIsAtomic(s3, base, h, candidate);
        }
      }
    }
  }

  /** The decrement takes effect exactly when its own statement succeeds: an error may
      still come from reading the count afterwards. */
  lemma DecrementTakesEffect(s: Session, k: Digest)
    requires Clean(s)
    ensures var (t, r) := DecrementRun(s, k);
            && Clean(t)
            && t.committed == (if First(s.verdicts).Fine? then Decrement(s.committed, k) else s.committed)
            && (r.IsZero? ==> k in t.committed.blobs && r.zero == (t.committed.blobs[k] == 0) && First(s.verdicts).Fine?)
            && (r.UnknownBlob? ==> k !in s.committed.blobs && t.committed == s.committed)
  {
  }

  /** The answer is about the tables as they were in one transaction, and asking
      changes nothing. */
  lemma CanDeleteIsRight(s: Session, k: Digest)
    requires Clean(s) && Sure(s.control)
    ensures var (t, r) := CanDeleteRun(s, k);
            && Clean(t) && t.committed == NextBase(s)
            && (r.Answer? ==> (r.yes <==> CanDelete(NextBase(s), k)))
  {
    var base, h := NextBase(s), NextHistory(s);
    StartIsDuring(s);
    QueryIsDuring(StartTx(s), base, h);
    var (s1, read) := Queried(StartTx(s));
    if !read {
      AbandonIsAfter(s1, base, h);
    } else {
      QueryIsDuring(s1, base, h);
      var (s2, read2) := Queried(s1);
      if !read2 {
        AbandonIsAfter(s2, base, h);
      } else {
        QueryIsDuring(s2, base, h);
        var (s3, read3) := Queried(s2);
        if !read3 {
          AbandonIsAfter(s3, base, h);
        }
      }
    }
  }

  // ----- when nothing fails

  /** Nothing fails from here on; others may still change the tables in between. */
  predicate AllFine(vs: seq<Verdict>) {
    forall i :: 0 <= i < |vs| ==> vs[i].Fine?
  }

  predicate Faultless(s: Session) {
    AllFine(s.verdicts) && AllFine(s.control)
  }

  lemma FirstIsFine(vs: seq<Verdict>)
    requires AllFine(vs)
    ensures First(vs).Fine? && AllFine(Rest(vs))
  {
  }

  lemma StartsFaultless(s: Session)
    requires Faultless(s)
    ensures Faultless(StartTx(s)) && First(s.control).Fine? && StartTx(s).open
    ensures Clean(s) ==> StartTx(s).working == StartTx(s).committed == NextBase(s) && StartTx(s).others == Rest(s.others)
  {
    FirstIsFine(s.control);
  }

  lemma RollsBackFaultless(s: Session)
    requires Faultless(s)
    ensures Faultless(RollbackTx(s)) && Clean(RollbackTx(s)) && RollbackTx(s).others == s.others
  {
    FirstIsFine(s.control);
  }

  lemma ExecutesFaultless(s: Session, st: Statement)
    requires Faultless(s) && s.open
    ensures var (t, ok) := Executed(s, st);
            && Faultless(t) && t.open && t.others == s.others && t.committed == s.committed
            && (ok <==> EffectOf(s.working, st).Changed?)
            && (ok ==> Changed(t.working) == EffectOf(s.working, st))
            && (!ok ==> Violates(t.lastError) == EffectOf(s.working, st))
  {
    FirstIsFine(s.verdicts);
  }

  lemma QueriesFaultless(s: Session)
    requires Faultless(s)
    ensures var (t, ok) := Queried(s); ok && Faultless(t) && t == s.(verdicts := t.verdicts)
  {
    FirstIsFine(s.verdicts);
  }

  lemma CommitsFaultless(s: Session)
    requires Faultless(s)
    ensures CommitTx(s).1
  {
    FirstIsFine(s.verdicts);
  }

  lemma ReleasesFaultless(s: Session, k: Digest)
    requires Faultless(s) && s.open
    ensures var (t, ok, _) := ReleaseOld(s, k);
            ok && Faultless(t) && t.open && t.working == Decrement(s.working, k)
  {
    ExecutesFaultless(s, CountDown(k));
    QueriesFaultless(Executed(s, CountDown(k)).0);
  }

  /** Only the write of the row can fail, by a missing bucket or upload. */
  lemma RewriteDecides(s: Session, old': Option<Digest>, k: Digest, upsert: Statement)
    requires Faultless(s) && s.open && (upsert.UpsertRow? || upsert.UpsertPartRow?)
    ensures var a := Rewrite(s, old', k, upsert).1;
            if EffectOf(MoveCount(s.working, old', k).0, upsert).Changed? then a.Committed? else a == Broken(ForeignKey)
  {
    var s1 := if old' == Some(k) then s else Executed(s, CountUp(k)).0;
    if old' != Some(k) {
      ExecutesFaultless(s, CountUp(k));
    }
    var skip := old'.None? || old'.value == k;
    if !skip {
      ReleasesFaultless(s1, old'.value);
    }
    var s2 := if skip then s1 else ReleaseOld(s1, old'.value).0;
    ExecutesFaultless(s2, upsert);
    CommitsFaultless(Executed(s2, upsert).0);
  }

  /** A new key is inserted; a key that is there is left to the slow path. */
  lemma FastSucceeds(s: Session, id: ObjectId, row: ObjectRow)
    requires Clean(s) && Faultless(s)
    ensures var base := NextBase(s);
            var (t, a) := FastAttempt(s, id, row);
            if SlotOf(base.fold, id) in base.objects
            then a.Duplicate? && Clean(t) && Faultless(t) && t.others == Rest(s.others)
                 && (s.others == [] ==> t.committed == s.committed)
            else a.Committed? <==> PutObject(base, id, row).Some?
  {
    var base := NextBase(s);
    StartsFaultless(s);
    var s0 := StartTx(s);
    ExecutesFaultless(s0, CountUp(row.cas));
    var s1 := Executed(s0, CountUp(row.cas)).0;
    ExecutesFaultless(s1, InsertRow(id, row));
    var (s2, inserted) := Executed(s1, InsertRow(id, row));
    if inserted {
      CommitsFaultless(s2);
    } else {
      RollsBackFaultless(s2);
    }
  }

  /** The tables that decide what a put comes to: those of the slow path if the key is
      there when the fast path begins. */
  function PutBase(s: Session, id: ObjectId): Tables {
    var base := NextBase(s);
    if SlotOf(base.fold, id) !in base.objects || Rest(s.others) == [] then base else Rest(s.others)[0]
  }

  /** Without failures a put succeeds exactly when the simple step does, whatever others
      change in between. */
  lemma PutObjectSucceeds(s: Session, id: ObjectId, row: ObjectRow)
    requires Clean(s) && Faultless(s)
    ensures PutObject(PutBase(s, id), id, row).Some? ==> PutObjectRun(s, id, row, 0).1.Ok?
    ensures PutObject(PutBase(s, id), id, row).None? ==> PutObjectRun(s, id, row, 0).1 == DatabaseError(ForeignKey)
  {
    FastSucceeds(s, id, row);
    var base := NextBase(s);
    var (t, fast) := FastAttempt(s, id, row);
    if fast.Duplicate? {
      SlowDecides(t, id, row);
      assert NextBase(t) == PutBase(s, id);
    } else if fast.Broken? {
      FastFails(s, id, row);
    }
  }

  lemma SlowDecides(s: Session, id: ObjectId, row: ObjectRow)
    requires Clean(s) && Faultless(s)
    ensures var a := SlowAttempt(s, id, row).1;
            if PutObject(NextBase(s), id, row).Some? then a.Committed? else a == Broken(ForeignKey)
  {
    StartsFaultless(s);
    QueriesFaultless(StartTx(s));
    RewriteDecides(Queried(StartTx(s)).0, ObjectCas(NextBase(s), id), row.cas, UpsertRow(id, row));
  }

  lemma FastFails(s: Session, id: ObjectId, row: ObjectRow)
    requires Clean(s) && Faultless(s) && FastAttempt(s, id, row).1.Broken?
    ensures FastAttempt(s, id, row).1 == Broken(ForeignKey)
  {
    StartsFaultless(s);
    var s0 := StartTx(s);
    ExecutesFaultless(s0, CountUp(row.cas));
    var s1 := Executed(s0, CountUp(row.cas)).0;
    ExecutesFaultless(s1, InsertRow(id, row));
    if Executed(s1, InsertRow(id, row)).1 {
      CommitsFaultless(Executed(s1, InsertRow(id, row)).0);
    }
  }

  /** The same for a part. */
  lemma PutPartSucceeds(s: Session, p: PartId, row: PartRow)
    requires Clean(s) && Faultless(s)
    ensures PutPart(NextBase(s), p, row).Some? ==> PutPartRun(s, p, row, 0).1.Ok?
    ensures PutPart(NextBase(s), p, row).None? ==> PutPartRun(s, p, row, 0).1 == DatabaseError(ForeignKey)
  {
    StartsFaultless(s);
    QueriesFaultless(StartTx(s));
    RewriteDecides(Queried(StartTx(s)).0, PartCas(NextBase(s), p), row.cas, UpsertPartRow(p, row));
  }

  /** Without failures a delete succeeds exactly when there is such a row, and says so if
      not. */
  lemma DeleteObjectSucceeds(s: Session, id: ObjectId)
    requires Clean(s) && Faultless(s)
    ensures var r := DeleteObjectRun(s, id).1;
            if SelectObject(NextBase(s), id).Some? then r.Ok? else r == NoSuchKey
  {
    StartsFaultless(s);
    QueriesFaultless(StartTx(s));
    var s1 := Queried(StartTx(s)).0;
    if SelectObject(NextBase(s), id).Some? {
      var k := SelectObject(NextBase(s), id).value.cas;
      ExecutesFaultless(s1, DeleteRow(id));
      var s2 := Executed(s1, DeleteRow(id)).0;
      ReleasesFaultless(s2, k);
      CommitsFaultless(ReleaseOld(s2, k).0);
    }
  }

  /** Without failures the decrement answers whether the count is zero now, or that there
      is no such blob. */
  lemma DecrementAnswers(s: Session, k: Digest)
    requires Clean(s) && Faultless(s)
    ensures var r := DecrementRun(s, k).1;
            if k in s.committed.blobs then r == IsZero(s.committed.blobs[k] <= 1) else r == UnknownBlob
  {
    FirstIsFine(s.verdicts);
    var s1 := Executed(s, CountDown(k)).0;
    FirstIsFine(s1.verdicts);
  }

  /** Without failures the deletion check gives its answer. */
  lemma CanDeleteAnswers(s: Session, k: Digest)
    requires Clean(s) && Faultless(s)
    ensures CanDeleteRun(s, k).1 == Answer(CanDelete(NextBase(s), k))
  {
    StartsFaultless(s);
    var s0 := StartTx(s);
    QueriesFaultless(s0);
    var s1 := Queried(s0).0;
    QueriesFaultless(s1);
    var s2 := Queried(s1).0;
    QueriesFaultless(s2);
    var s3 := Queried(s2).0;
    CommitsFaultless(s1);
    CommitsFaultless(s2);
    CommitsFaultless(s3);
  }

  // ----- what goes wrong when START TRANSACTION or ROLLBACK fails

  const SOME_ID := ObjectId(0, "a")
  const SOME_ROW := ObjectRow("a", Sha256("x"), 1, "", "")
  const ONE_BUCKET := Tables((k: string) => k, {0}, map[], map[], map[], map[])

  /** START TRANSACTION fails, which is only logged; then the insert fails. The put
      answers with an error and has yet counted a reference. */
  lemma FailedStartBreaksAtomicity(s: Session)
    requires s == Session(ONE_BUCKET, ONE_BUCKET, false, NoError, [Fine, Fails(Other, false)],
                          [Fails(Other, false)], [], [])
    ensures var (t, r) := PutObjectRun(s, SOME_ID, SOME_ROW, 0);
            r == DatabaseError(Other) && Clean(s) && Count(s.committed, SOME_ROW.cas) == 0
            && Count(t.committed, SOME_ROW.cas) == 1 && t.committed.objects == map[]
  {
    var s0 := StartTx(s);
    assert s0 == s.(control := [], lastError := Other);
    var (s1, counted) := Executed(s0, CountUp(SOME_ROW.cas));
    assert counted && s1.verdicts == [Fails(Other, false)];
    var (s2, inserted) := Executed(s1, InsertRow(SOME_ID, SOME_ROW));
    assert !inserted && s2.lastError == Other && s2.committed == s1.committed;
    assert FastAttempt(s, SOME_ID, SOME_ROW) == Abandon(s2);
  }

  /** The insert times out on a lock and the ROLLBACK fails: the next attempt's START
      TRANSACTION publishes the first attempt's increment, and the put counts twice. */
  lemma FailedRollbackCountsTwice(s: Session)
    requires s == Session(ONE_BUCKET, ONE_BUCKET, false, NoError, [Fine, Fails(LockTimeout, false)],
                          [Fine, Fails(Other, false)], [], [])
    ensures var (t, r) := PutObjectRun(s, SOME_ID, SOME_ROW, 0);
            r.Ok? && Clean(s) && Count(s.committed, SOME_ROW.cas) == 0 && Count(t.committed, SOME_ROW.cas) == 2
  {
    var s0 := StartTx(s);
    assert s0 == s.(control := [Fails(Other, false)], open := true);
    var (s1, counted) := Executed(s0, CountUp(SOME_ROW.cas));
    assert counted && s1.verdicts == [Fails(LockTimeout, false)] && s1.open;
    var (s2, inserted) := Executed(s1, InsertRow(SOME_ID, SOME_ROW));
    assert !inserted && s2.lastError == LockTimeout && s2.working == s1.working && s2.verdicts == [] && s2.open;
    var s3 := RollbackTx(s2);
    assert s3.open && s3.working == s1.working && s3.control == [];
    assert FastAttempt(s, SOME_ID, SOME_ROW) == (s3, Broken(LockTimeout));
    PublishedTwice(s3);
  }

  lemma PublishedTwice(s: Session)
    requires s.open && s.verdicts == [] && s.control == [] && s.others == []
    requires s.working == Increment(ONE_BUCKET, SOME_ROW.cas)
    ensures var (t, r) := PutObjectRun(s, SOME_ID, SOME_ROW, 1);
            r.Ok? && Count(t.committed, SOME_ROW.cas) == 2
  {
    var s0 := StartTx(s);
    assert s0.open && s0.working == s.working && s0.verdicts == [];
    var (s1, counted) := Executed(s0, CountUp(SOME_ROW.cas));
    assert counted && Count(s1.working, SOME_ROW.cas) == 2;
    var (s2, inserted) := Executed(s1, InsertRow(SOME_ID, SOME_ROW));
    assert inserted;
  }

  // ----- the code

  class MetaStore {
    const conn: Connection

    constructor (conn: Connection)
      ensures this.conn == conn
    {
      this.conn := conn;
    }

    method FastPath(id: ObjectId, row: ObjectRow) returns (a: Attempt)
      modifies conn
      ensures (conn.state, a) == FastAttempt(old(conn.state), id, row)
    {
      var tx := new Transaction(conn);
      var counted := tx.Execute(CountUp(row.cas));
      if !counted {
        a := Broken(conn.state.lastError);
        tx.Destroy();
        return;
      }
      var inserted := tx.Execute(InsertRow(id, row));
      if inserted {
        var done := tx.Commit();
        a := if done then Committed(None) else Broken(conn.state.lastError);
      } else {
        a := if conn.state.lastError.DuplicateEntry? then Duplicate else Broken(conn.state.lastError);
      }
      tx.Destroy();
    }

    method ReleaseOldCount(tx: Transaction, k: Digest) returns (ok: bool, candidate: Option<Digest>)
      requires tx.conn == conn && !tx.finished
      modifies conn
      ensures (conn.state, ok, candidate) == ReleaseOld(old(conn.state), k)
    {
      candidate := None;
      ok := tx.Execute(CountDown(k));
      if !ok {
        return;
      }
      ok := tx.Query();
      if ok && k in conn.state.working.blobs && conn.state.working.blobs[k] == 0 {
        candidate := Some(k);
      }
    }

    method RewriteRow(tx: Transaction, old': Option<Digest>, k: Digest, upsert: Statement) returns (a: Attempt)
      requires tx.conn == conn && !tx.finished
      modifies conn, tx
      ensures (conn.state, a) == Rewrite(old(conn.state), old', k, upsert)
    {
      var candidate: Option<Digest> := None;
      if old'.None? || old'.value != k {
        var counted := tx.Execute(CountUp(k));
        if !counted {
          a := Broken(conn.state.lastError);
          tx.Destroy();
          return;
        }
      }
      if old'.Some? && old'.value != k {
        var released;
        released, candidate := ReleaseOldCount(tx, old'.value);
        if !released {
          a := Broken(conn.state.lastError);
          tx.Destroy();
          return;
        }
      }
      var written := tx.Execute(upsert);
      if !written {
        a := Broken(conn.state.lastError);
        tx.Destroy();
        return;
      }
      var done := tx.Commit();
      a := if done then Committed(candidate) else Broken(conn.state.lastError);
      tx.Destroy();
    }

    method SlowPath(id: ObjectId, row: ObjectRow) returns (a: Attempt)
      modifies conn
      ensures (conn.state, a) == SlowAttempt(old(conn.state), id, row)
    {
      var tx := new Transaction(conn);
      var read := tx.Query();
      if !read {
        a := Broken(conn.state.lastError);
        tx.Destroy();
        return;
      }
      a := RewriteRow(tx, ObjectCas(conn.state.working, id), row.cas, UpsertRow(id, row));
    }

    method PartPath(p: PartId, row: PartRow) returns (a: Attempt)
      modifies conn
      ensures (conn.state, a) == PartAttempt(old(conn.state), p, row)
    {
      var tx := new Transaction(conn);
      var read := tx.Query();
      if !read {
        a := Broken(conn.state.lastError);
        tx.Destroy();
        return;
      }
      a := RewriteRow(tx, PartCas(conn.state.working, p), row.cas, UpsertPartRow(p, row));
    }

    method PutObjectWithRefCount(id: ObjectId, row: ObjectRow) returns (r: Outcome)
      modifies conn
      ensures (conn.state, r) == PutObjectRun(old(conn.state), id, row, 0)
    {
      for attempt := 0 to MAX_RETRIES
        invariant PutObjectRun(conn.state, id, row, attempt) == PutObjectRun(old(conn.state), id, row, 0)
      {
        var a := FastPath(id, row);
        if a.Duplicate? {
          a := SlowPath(id, row);
        }
        match a
        case Committed(candidate) => return Ok(candidate);
        case Duplicate => return DatabaseError(DuplicateEntry);
        case Broken(error) =>
          if !Again(attempt, error) {
            return DatabaseError(error);
          }
      }
      return Exhausted;
    }

    method PutPartWithRefCount(p: PartId, row: PartRow) returns (r: Outcome)
      modifies conn
      ensures (conn.state, r) == PutPartRun(old(conn.state), p, row, 0)
    {
      for attempt := 0 to MAX_RETRIES
        invariant PutPartRun(conn.state, p, row, attempt) == PutPartRun(old(conn.state), p, row, 0)
      {
        var a := PartPath(p, row);
        match a
        case Committed(candidate) => return Ok(candidate);
        case Duplicate => return DatabaseError(DuplicateEntry);
        case Broken(error) =>
          if !Again(attempt, error) {
            return DatabaseError(error);
          }
      }
      return Exhausted;
    }

    method DeleteObjectWithRefCount(id: ObjectId) returns (r: Outcome)
      modifies conn
      ensures (conn.state, r) == DeleteObjectRun(old(conn.state), id)
    {
      var tx := new Transaction(conn);
      var read := tx.Query();
      if !read {
        r := DatabaseError(conn.state.lastError);
        tx.Destroy();
        return;
      }
      var cas := ObjectCas(conn.state.working, id);
      if cas.None? {
        tx.Destroy();
        return NoSuchKey;
      }
      var deleted := tx.Execute(DeleteRow(id));
      if !deleted {
        r := DatabaseError(conn.state.lastError);
        tx.Destroy();
        return;
      }
      var released, candidate := ReleaseOldCount(tx, cas.value);
      if !released {
        r := DatabaseError(conn.state.lastError);
        tx.Destroy();
        return;
      }
      var done := tx.Commit();
      r := if done then Ok(candidate) else DatabaseError(conn.state.lastError);
      tx.Destroy();
    }

    method DecrementRefCountAndCheckZero(k: Digest) returns (r: Zero)
      modifies conn
      ensures (conn.state, r) == DecrementRun(old(conn.state), k)
    {
      var counted := conn.Execute(CountDown(k));
      if !counted {
        return ZeroError(conn.state.lastError);
      }
      var read := conn.Query();
      if !read {
        return ZeroError(conn.state.lastError);
      }
      if k !in conn.state.working.blobs {
        return UnknownBlob;
      }
      return IsZero(conn.state.working.blobs[k] == 0);
    }

    method Answers(tx: Transaction, yes: bool) returns (r: Answer)
      requires tx.conn == conn && !tx.finished
      modifies conn, tx
      ensures tx.finished && (conn.state, r) == Answered(old(conn.state), yes)
    {
      var done := tx.Commit();
      r := if done then Answer(yes) else NoAnswer(conn.state.lastError);
    }

    method CanDeleteCasBlob(k: Digest) returns (r: Answer)
      modifies conn
      ensures (conn.state, r) == CanDeleteRun(old(conn.state), k)
    {
      var tx := new Transaction(conn);
      var read := tx.Query();
      if !read {
        r := NoAnswer(conn.state.lastError);
        tx.Destroy();
        return;
      }
      if k !in conn.state.working.blobs || conn.state.working.blobs[k] != 0 {
        r := Answers(tx, false);
        return;
      }
      read := tx.Query();
      if !read {
        r := NoAnswer(conn.state.lastError);
        tx.Destroy();
        return;
      }
      if InObjects(conn.state.working, k) {
        r := Answers(tx, false);
        return;
      }
      read := tx.Query();
      if !read {
        r := NoAnswer(conn.state.lastError);
        tx.Destroy();
        return;
      }
      r := Answers(tx, !InParts(conn.state.working, k));
    }
  }
}
