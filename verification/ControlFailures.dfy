/** Which failures of START TRANSACTION and ROLLBACK a call survives. */
module ControlFailures {
  import opened Base
  import opened Tables
  import opened MySql
  import opened MetaStores

  // ----- the first failure that matters

  /** The n-th verdict fails, the ones before it do not. */
  predicate FirstFailure(vs: seq<Verdict>, i: nat) {
    Nth(vs, i).Fails? && forall j: nat {:trigger Nth(vs, j)} :: j < i ==> Nth(vs, j).Fine?
  }

  lemma {:induction false} FindFailure(vs: seq<Verdict>, n: nat) returns (i: nat)
    requires exists j: nat :: j < n && Nth(vs, j).Fails?
    ensures i < n && FirstFailure(vs, i)
    decreases n
  {
    if exists j: nat :: j < n - 1 && Nth(vs, j).Fails? {
      i := FindFailure(vs, n - 1);
    } else {
      i := n - 1;
      var j: nat :| j < n && Nth(vs, j).Fails?;
      assert j == n - 1;
    }
  }

  /** A disorderly sequence fails before its last verdict, or fails there and leaves
      the transaction open. */
  lemma Disorder(vs: seq<Verdict>, n: nat) returns (i: nat)
    requires n >= 1 && !Orderly(vs, n)
    ensures i < n && FirstFailure(vs, i) && (i == n - 1 ==> !Nth(vs, i).drops)
  {
    var j: nat :| j < n && !(Nth(vs, j).Fine? || (j == n - 1 && Nth(vs, j).drops));
    i := FindFailure(vs, n);
    if i == n - 1 {
      assert j == i;
    }
  }

  // ----- making an attempt fail where it is wanted

  const DEAD := Fails(Deadlock, false)
  const OTHER := Fails(Other, false)

  function OldCas(row: ObjectRow): Digest {
    Sha256(row.cas.preimage + "x")
  }

  /** The bucket is there and the slot of the id is free. */
  function FreeSlot(id: ObjectId): Tables {
    Empty((k: string) => k).(buckets := {id.bucket})
  }

  /** The id has a row, with another digest. */
  function TakenSlot(id: ObjectId, row: ObjectRow): Tables {
    var free := FreeSlot(id);
    free.(blobs := map[OldCas(row) := 1], objects := map[SlotOf(free.fold, id) := row.(key := id.key, cas := OldCas(row))])
  }

  ghost predicate Ready(s: Session, db: Tables) {
    Clean(s) && s.committed == db && s.others == []
  }

  /** The next attempt starts where s stood, but for the verdicts used up. */
  ghost predicate Again'(s: Session, t: Session, db: Tables, script: nat, used: nat) {
    Ready(t, db) && t.trail == s.trail && script <= |s.verdicts| && t.verdicts == s.verdicts[script..]
    && t.control == Skip(s.control, used)
  }

  predicate FineUpTo(vs: seq<Verdict>, n: nat) {
    forall j: nat {:trigger Nth(vs, j)} :: j < n ==> Nth(vs, j).Fine?
  }

  /** The first four verdicts by name. */
  lemma Four(vs: seq<Verdict>)
    ensures Nth(vs, 0) == First(vs) && Nth(vs, 1) == First(Rest(vs))
    ensures Nth(vs, 2) == First(Rest(Rest(vs))) && Nth(vs, 3) == First(Rest(Rest(Rest(vs))))
  {
    SkipIsRest(vs);
  }

  /** The commit of the fast path fails. */
  lemma UsesOne(s: Session, id: ObjectId, row: ObjectRow) returns (t: Session)
    requires Ready(s, FreeSlot(id)) && [Fine, Fine, DEAD] <= s.verdicts && FineUpTo(s.control, 1)
    ensures OneAttempt(s, id, row) == (t, Broken(Deadlock)) && Again'(s, t, FreeSlot(id), 3, 1)
  {
    Four(s.control);
    SkipIsRest(s.control);
    var v := s.verdicts;
    assert v[0] == Fine && v[1] == Fine && v[2] == DEAD;
    t := OneAttempt(s, id, row).0;
  }

  /** The first statement fails. */
  lemma UsesTwo(s: Session, id: ObjectId, row: ObjectRow, db: Tables) returns (t: Session)
    requires Ready(s, db) && [DEAD] <= s.verdicts && FineUpTo(s.control, 2)
    ensures OneAttempt(s, id, row) == (t, Broken(Deadlock)) && Again'(s, t, db, 1, 2)
  {
    Four(s.control);
    SkipIsRest(s.control);
    assert s.verdicts[0] == DEAD;
    t := OneAttempt(s, id, row).0;
  }

  /** The fast path finds the row and rolls back. */
  lemma FindsRow(s: Session, id: ObjectId, row: ObjectRow) returns (t: Session)
    requires Ready(s, TakenSlot(id, row)) && [Fine, Fine] <= s.verdicts && FineUpTo(s.control, 2)
    ensures FastAttempt(s, id, row) == (t, Duplicate) && Again'(s, t, TakenSlot(id, row), 2, 2)
    ensures OneAttempt(s, id, row) == SlowAttempt(t, id, row)
  {
    Four(s.control);
    SkipIsRest(s.control);
    assert s.verdicts[0] == Fine && s.verdicts[1] == Fine;
    t := FastAttempt(s, id, row).0;
  }

  /** The slow path up to its last statement, in an open transaction. */
  lemma SlowRewrites(s: Session, id: ObjectId, row: ObjectRow) returns (s3: Session)
    requires s.open && s.working == TakenSlot(id, row) && |s.verdicts| >= 3
    requires s.verdicts[0] == Fine && s.verdicts[1] == Fine && s.verdicts[2] == Fine
    ensures var (s1, counted) := Executed(s, CountUp(row.cas));
            counted && ReleaseOld(s1, OldCas(row)).0 == s3 && ReleaseOld(s1, OldCas(row)).1
    ensures s3 == s.(working := s3.working, verdicts := s.verdicts[3..])
    ensures row.cas in s3.working.blobs && id.bucket in s3.working.buckets
  {
    var s1 := Executed(s, CountUp(row.cas)).0;
    assert s1.verdicts == s.verdicts[1..];
    var s2 := Executed(s1, CountDown(OldCas(row))).0;
    assert s2.verdicts == s.verdicts[2..];
    s3 := Queried(s2).0;
    assert s3.verdicts == s.verdicts[3..];
  }

  lemma OldIsOther(id: ObjectId, row: ObjectRow)
    ensures OldCas(row) != row.cas && ObjectCas(TakenSlot(id, row), id) == Some(OldCas(row))
  {
    assert |OldCas(row).preimage| == |row.cas.preimage| + 1;
  }

  lemma UpsertCommitFails(s: Session, id: ObjectId, row: ObjectRow) returns (t: Session)
    requires s.open && row.cas in s.working.blobs && id.bucket in s.working.buckets
    requires |s.verdicts| >= 2 && s.verdicts[0] == Fine && s.verdicts[1] == DEAD
    ensures var (s1, written) := Executed(s, UpsertRow(id, row));
            written && forall candidate :: Conclude(s1, candidate) == (t, Broken(Deadlock))
    ensures t == s.(working := s.committed, open := false, lastError := Deadlock, verdicts := s.verdicts[2..])
  {
    var s1 := Executed(s, UpsertRow(id, row)).0;
    assert s1.verdicts == s.verdicts[1..];
    t := CommitTx(s1).0;
    assert t.verdicts == s.verdicts[2..];
  }

  lemma SlowCommitFails(s: Session, id: ObjectId, row: ObjectRow) returns (t: Session)
    requires Ready(s, TakenSlot(id, row)) && [Fine, Fine, Fine, Fine, Fine, DEAD] <= s.verdicts && FineUpTo(s.control, 1)
    ensures SlowAttempt(s, id, row) == (t, Broken(Deadlock)) && Again'(s, t, TakenSlot(id, row), 6, 1)
  {
    Four(s.control);
    SkipIsRest(s.control);
    OldIsOther(id, row);
    var v := s.verdicts;
    assert v[0] == Fine && v[1] == Fine && v[2] == Fine && v[3] == Fine && v[4] == Fine && v[5] == DEAD;
    var s0 := Queried(StartTx(s)).0;
    assert s0.verdicts == v[1..] && s0.open && s0.working == TakenSlot(id, row);
    var s3 := SlowRewrites(s0, id, row);
    assert s3.verdicts == v[4..];
    t := UpsertCommitFails(s3, id, row);
    assert t.verdicts == v[6..];
  }

  lemma SlowQueryFails(s: Session, id: ObjectId, row: ObjectRow) returns (t: Session)
    requires Ready(s, TakenSlot(id, row)) && [DEAD] <= s.verdicts && FineUpTo(s.control, 2)
    ensures SlowAttempt(s, id, row) == (t, Broken(Deadlock)) && Again'(s, t, TakenSlot(id, row), 1, 2)
  {
    Four(s.control);
    SkipIsRest(s.control);
    assert s.verdicts[0] == DEAD;
    t := SlowAttempt(s, id, row).0;
  }

  // ----- the ends that go wrong

  /** START TRANSACTION fails: the increment commits by itself, then the insert fails. */
  lemma FastStartFails(s: Session, id: ObjectId, row: ObjectRow) returns (t: Session)
    requires Clean(s) && [Fine, OTHER] <= s.verdicts && First(s.control).Fails?
    ensures OneAttempt(s, id, row) == (t, Broken(Other)) && |t.trail| == |s.trail| + 1
  {
    assert s.verdicts[0] == Fine && s.verdicts[1] == OTHER;
    t := FastAttempt(s, id, row).0;
  }

  /** The same for the slow path, where the decrement fails. */
  lemma SlowStartFails(s: Session, id: ObjectId, row: ObjectRow) returns (t: Session)
    requires Ready(s, TakenSlot(id, row)) && [Fine, Fine, OTHER] <= s.verdicts && First(s.control).Fails?
    ensures SlowAttempt(s, id, row) == (t, Broken(Other)) && |t.trail| == |s.trail| + 1
  {
    OldIsOther(id, row);
    assert s.verdicts[0] == Fine && s.verdicts[1] == Fine && s.verdicts[2] == OTHER;
    t := SlowAttempt(s, id, row).0;
  }

  /** ROLLBACK fails and leaves the transaction open, with the increment in it. */
  lemma SlowRollbackFails(s: Session, id: ObjectId, row: ObjectRow) returns (t: Session)
    requires Ready(s, TakenSlot(id, row)) && [Fine, Fine, OTHER] <= s.verdicts
    requires First(s.control).Fine? && !RollsBack(First(Rest(s.control)))
    ensures SlowAttempt(s, id, row) == (t, Broken(Other)) && !Clean(t)
  {
    OldIsOther(id, row);
    assert s.verdicts[0] == Fine && s.verdicts[1] == Fine && s.verdicts[2] == OTHER;
    t := SlowAttempt(s, id, row).0;
  }

  // ----- reaching every position

  /** Ways for an attempt to fail and be tried again, by the number of verdicts on START
      TRANSACTION and ROLLBACK that it uses. */
  datatype Use = One | Two | Three | Four'

  datatype End = FastStart | SlowStart | SlowRollback

  function Script(u: Use): seq<Verdict> {
    match u
    case One => [Fine, Fine, DEAD]
    case Two => [DEAD]
    case Three => [Fine, Fine, Fine, Fine, Fine, Fine, Fine, DEAD]
    case Four' => [Fine, Fine, DEAD]
  }

  function Cost(u: Use): nat {
    match u case One => 1 case Two => 2 case Three => 3 case Four' => 4
  }

  function EndScript(e: End): seq<Verdict> {
    if e.FastStart? then [Fine, OTHER] else [Fine, Fine, Fine, Fine, OTHER]
  }

  function EndPosition(e: End): nat {
    match e case FastStart => 0 case SlowStart => 2 case SlowRollback => 3
  }

  function Scripts(us: seq<Use>, e: End): seq<Verdict> {
    if us == [] then EndScript(e) else Script(us[0]) + Scripts(us[1..], e)
  }

  function Position(us: seq<Use>, e: End): nat {
    if us == [] then EndPosition(e) else Cost(us[0]) + Position(us[1..], e)
  }

  /** The tables on which the attempts go that way. */
  ghost predicate Suits(db: Tables, id: ObjectId, row: ObjectRow, us: seq<Use>, e: End) {
    && (e.FastStart? || db == TakenSlot(id, row))
    && forall i :: 0 <= i < |us| ==> us[i].Two? || db == if us[i].One? then FreeSlot(id) else TakenSlot(id, row)
  }

  lemma OneAfterOther(s: Session, t: Session, u: Session, db: Tables, a: nat, b: nat, c: nat, d: nat)
    requires Again'(s, t, db, a, b) && Again'(t, u, db, c, d)
    ensures Again'(s, u, db, a + c, b + d)
  {
    SkipSum(s.control, b, d);
    assert s.verdicts[a..][c..] == s.verdicts[a + c..];
  }

  lemma UsesThree(s: Session, id: ObjectId, row: ObjectRow) returns (t: Session)
    requires Ready(s, TakenSlot(id, row)) && Script(Three) <= s.verdicts && FineUpTo(s.control, 3)
    ensures OneAttempt(s, id, row) == (t, Broken(Deadlock)) && Again'(s, t, TakenSlot(id, row), 8, 3)
  {
    assert s.verdicts[..2] == Script(Three)[..2] && s.verdicts[2..8] == Script(Three)[2..];
    var found := FindsRow(s, id, row);
    FineLater(s.control, 2, 1);
    assert found.verdicts[..6] == s.verdicts[2..8];
    t := SlowCommitFails(found, id, row);
    OneAfterOther(s, found, t, TakenSlot(id, row), 2, 2, 6, 1);
  }

  lemma UsesFour(s: Session, id: ObjectId, row: ObjectRow) returns (t: Session)
    requires Ready(s, TakenSlot(id, row)) && Script(Four') <= s.verdicts && FineUpTo(s.control, 4)
    ensures OneAttempt(s, id, row) == (t, Broken(Deadlock)) && Again'(s, t, TakenSlot(id, row), 3, 4)
  {
    assert s.verdicts[..2] == [Fine, Fine] && s.verdicts[2] == DEAD;
    var found := FindsRow(s, id, row);
    FineLater(s.control, 2, 2);
    assert found.verdicts[0] == DEAD;
    t := SlowQueryFails(found, id, row);
    OneAfterOther(s, found, t, TakenSlot(id, row), 2, 2, 1, 2);
  }

  lemma FineLater(vs: seq<Verdict>, a: nat, n: nat)
    requires FineUpTo(vs, a + n)
    ensures FineUpTo(Skip(vs, a), n)
  {
    forall j: nat | j < n ensures Nth(Skip(vs, a), j).Fine? {
      SkipSum(vs, a, j);
      assert Nth(vs, a + j) == Nth(Skip(vs, a), j);
    }
  }

  lemma FailureLater(vs: seq<Verdict>, a: nat, i: nat)
    requires FirstFailure(vs, a + i)
    ensures FirstFailure(Skip(vs, a), i) && Nth(Skip(vs, a), i) == Nth(vs, a + i)
  {
    SkipSum(vs, a, i);
    FineLater(vs, a, i);
  }

  lemma UsedUp(vs: seq<Verdict>, a: nat, i: nat)
    requires FirstFailure(vs, a + i)
    ensures FineUpTo(vs, a) && FirstFailure(Skip(vs, a), i) && Nth(Skip(vs, a), i) == Nth(vs, a + i)
  {
    FineLater(vs, 0, a);
    FailureLater(vs, a, i);
  }

  lemma UsesUp(s: Session, id: ObjectId, row: ObjectRow, db: Tables, u: Use) returns (t: Session)
    requires Ready(s, db) && Script(u) <= s.verdicts && FineUpTo(s.control, Cost(u))
    requires u.Two? || db == if u.One? then FreeSlot(id) else TakenSlot(id, row)
    ensures OneAttempt(s, id, row) == (t, Broken(Deadlock)) && Again'(s, t, db, |Script(u)|, Cost(u))
  {
    match u
    case One => t := UsesOne(s, id, row);
    case Two => t := UsesTwo(s, id, row, db);
    case Three => t := UsesThree(s, id, row);
    case Four' => t := UsesFour(s, id, row);
  }

  /** The call ends in an error and has published something, or left something open. */
  ghost predicate Torn(s: Session, t: Session, r: Outcome) {
    r.DatabaseError? && (|t.trail| == |s.trail| + 1 || !Clean(t))
  }

  lemma SlowEnd(s: Session, id: ObjectId, row: ObjectRow, e: End) returns (t: Session)
    requires Ready(s, TakenSlot(id, row)) && !e.FastStart? && s.verdicts == EndScript(e)
    requires FirstFailure(s.control, EndPosition(e)) && (e.SlowRollback? ==> !Nth(s.control, 3).drops)
    ensures OneAttempt(s, id, row) == (t, Broken(Other)) && (|t.trail| == |s.trail| + 1 || !Clean(t))
  {
    assert s.verdicts[..2] == [Fine, Fine];
    var found := FindsRow(s, id, row);
    assert found.verdicts == [Fine, Fine, OTHER];
    Four(s.control);
    SkipIsRest(s.control);
    if e.SlowStart? {
      t := SlowStartFails(found, id, row);
    } else {
      t := SlowRollbackFails(found, id, row);
    }
  }

  lemma LastAttemptTears(s: Session, id: ObjectId, row: ObjectRow, db: Tables, e: End, attempt: nat)
    requires attempt < MAX_RETRIES && Ready(s, db) && Suits(db, id, row, [], e) && s.verdicts == EndScript(e)
    requires FirstFailure(s.control, EndPosition(e)) && (e.SlowRollback? ==> !Nth(s.control, 3).drops)
    ensures var (t, r) := PutObjectRun(s, id, row, attempt); Torn(s, t, r)
  {
    if e.FastStart? {
      Four(s.control);
      var t := FastStartFails(s, id, row);
    } else {
      var t := SlowEnd(s, id, row, e);
    }
  }

  ghost predicate RunTears(s: Session, id: ObjectId, row: ObjectRow, attempt: nat)
    requires attempt < MAX_RETRIES
  {
    var (t, r) := PutObjectRun(s, id, row, attempt);
    Torn(s, t, r)
  }

  lemma Retried(s: Session, id: ObjectId, row: ObjectRow, attempt: nat, t: Session)
    requires attempt + 1 < MAX_RETRIES && OneAttempt(s, id, row) == (t, Broken(Deadlock)) && t.trail == s.trail
    requires RunTears(t, id, row, attempt + 1)
    ensures RunTears(s, id, row, attempt)
  {
  }

  lemma RestSuits(db: Tables, id: ObjectId, row: ObjectRow, us: seq<Use>, e: End)
    requires us != [] && Suits(db, id, row, us, e)
    ensures Suits(db, id, row, us[1..], e)
  {
  }

  lemma {:induction false} PlanTears(s: Session, id: ObjectId, row: ObjectRow, db: Tables, us: seq<Use>, e: End, attempt: nat)
    requires attempt + |us| < MAX_RETRIES && Ready(s, db) && Suits(db, id, row, us, e) && s.verdicts == Scripts(us, e)
    requires FirstFailure(s.control, Position(us, e))
    requires e.SlowRollback? ==> !Nth(s.control, Position(us, e)).drops
    ensures RunTears(s, id, row, attempt)
    decreases |us|
  {
    if us == [] {
      LastAttemptTears(s, id, row, db, e, attempt);
    } else {
      var u := us[0];
      assert Script(u) <= s.verdicts;
      FineLater(s.control, 0, Cost(u));
      var t := UsesUp(s, id, row, db, u);
      assert t.verdicts == Scripts(us[1..], e);
      FailureLater(s.control, Cost(u), Position(us[1..], e));
      RestSuits(db, id, row, us, e);
      PlanTears(t, id, row, db, us[1..], e, attempt + 1);
      Retried(s, id, row, attempt, t);
    }
  }

  // ----- the theorems

  /** How to reach each of the twelve positions. */
  function Plan(i: nat): (seq<Use>, End)
    requires i < 12
    ensures var (us, e) := Plan(i);
            && |us| < MAX_RETRIES && Position(us, e) == i && (e.SlowRollback? <==> i == 11)
            && (One in us ==> us == [One] && e.FastStart?)
  {
    match i
    case 0 => ([], FastStart)
    case 1 => ([One], FastStart)
    case 2 => ([Two], FastStart)
    case 3 => ([Three], FastStart)
    case 4 => ([Four'], FastStart)
    case 5 => ([Three, Two], FastStart)
    case 6 => ([Three, Three], FastStart)
    case 7 => ([Four', Three], FastStart)
    case 8 => ([Four', Four'], FastStart)
    case 9 => ([Four', Three], SlowStart)
    case 10 => ([Four', Four'], SlowStart)
    case _ => ([Four', Four'], SlowRollback)
  }

  function SessionOn(db: Tables, verdicts: seq<Verdict>, control: seq<Verdict>): Session {
    Session(db, db, false, NoError, verdicts, control, [], [])
  }

  /** The put is all or nothing, whatever the tables, the other sessions and the verdicts
      on its statements are. */
  ghost predicate PutAlwaysAtomic(control: seq<Verdict>, id: ObjectId, row: ObjectRow) {
    forall s: Session {:trigger PutObjectRun(s, id, row, 0)} :: Clean(s) && s.control == control ==>
      var (t, r) := PutObjectRun(s, id, row, 0); AllOrNothing(s, t, r, PutObjectCall(id, row))
  }

  lemma TornIsNotAtomic(s: Session, t: Session, r: Outcome, call: Call)
    requires Torn(s, t, r)
    ensures !AllOrNothing(s, t, r, call)
  {
  }

  lemma PutTears(control: seq<Verdict>, id: ObjectId, row: ObjectRow)
    requires !Orderly(control, 12)
    ensures !PutAlwaysAtomic(control, id, row)
  {
    var i := Disorder(control, 12);
    var (us, e) := Plan(i);
    var db := if us == [One] then FreeSlot(id) else TakenSlot(id, row);
    var s := SessionOn(db, Scripts(us, e), control);
    assert Suits(db, id, row, us, e);
    PlanTears(s, id, row, db, us, e, 0);
    var (t, r) := PutObjectRun(s, id, row, 0);
    TornIsNotAtomic(s, t, r, PutObjectCall(id, row));
  }

  /** For every way in which START TRANSACTION and ROLLBACK may fail: a put is all or
      nothing for all tables, all other sessions and all verdicts on its statements, if
      and only if none of the next twelve fails, but that the twelfth, which can only be
      a ROLLBACK, may take the transaction with it. */
  lemma PutAtomicIffOrderly(control: seq<Verdict>, id: ObjectId, row: ObjectRow)
    ensures PutAlwaysAtomic(control, id, row) <==> Orderly(control, 12)
  {
    if Orderly(control, 12) {
      forall s: Session | Clean(s) && s.control == control
        ensures var (t, r) := PutObjectRun(s, id, row, 0); AllOrNothing(s, t, r, PutObjectCall(id, row))
      {
        PutObjectIsAtomic(s, id, row, 0);
      }
    } else {
      PutTears(control, id, row);
    }
  }

  // ----- parts

  function NoPart(p: PartId): Tables {
    Empty((k: string) => k).(uploads := map[p.upload := UploadRow(0, "", "")])
  }

  lemma PartCommitFails(s: Session, p: PartId, row: PartRow) returns (t: Session)
    requires Ready(s, NoPart(p)) && [Fine, Fine, Fine, DEAD] <= s.verdicts && FineUpTo(s.control, 1)
    ensures PartAttempt(s, p, row) == (t, Broken(Deadlock)) && Again'(s, t, NoPart(p), 4, 1)
  {
    Four(s.control);
    SkipIsRest(s.control);
    var v := s.verdicts;
    assert v[0] == Fine && v[1] == Fine && v[2] == Fine && v[3] == DEAD;
    t := PartAttempt(s, p, row).0;
  }

  lemma PartQueryFails(s: Session, p: PartId, row: PartRow) returns (t: Session)
    requires Ready(s, NoPart(p)) && [DEAD] <= s.verdicts && FineUpTo(s.control, 2)
    ensures PartAttempt(s, p, row) == (t, Broken(Deadlock)) && Again'(s, t, NoPart(p), 1, 2)
  {
    Four(s.control);
    SkipIsRest(s.control);
    assert s.verdicts[0] == DEAD;
    t := PartAttempt(s, p, row).0;
  }

  /** START TRANSACTION or ROLLBACK fails around an upsert that fails. */
  lemma PartEnd(s: Session, p: PartId, row: PartRow) returns (t: Session)
    requires Ready(s, NoPart(p)) && [Fine, Fine, OTHER] <= s.verdicts
    requires First(s.control).Fails? || !RollsBack(First(Rest(s.control)))
    ensures PartAttempt(s, p, row) == (t, Broken(Other)) && (|t.trail| == |s.trail| + 1 || !Clean(t))
  {
    assert s.verdicts[0] == Fine && s.verdicts[1] == Fine && s.verdicts[2] == OTHER;
    t := PartAttempt(s, p, row).0;
  }

  function PartScripts(us: seq<Use>): seq<Verdict> {
    if us == [] then [Fine, Fine, OTHER]
    else (if us[0].One? then [Fine, Fine, Fine, DEAD] else [DEAD]) + PartScripts(us[1..])
  }

  lemma PartUsesUp(s: Session, p: PartId, row: PartRow, us: seq<Use>) returns (t: Session)
    requires us != [] && (us[0].One? || us[0].Two?)
    requires Ready(s, NoPart(p)) && s.verdicts == PartScripts(us) && FineUpTo(s.control, Cost(us[0]))
    ensures PartAttempt(s, p, row) == (t, Broken(Deadlock))
    ensures Ready(t, NoPart(p)) && t.trail == s.trail && t.verdicts == PartScripts(us[1..])
    ensures t.control == Skip(s.control, Cost(us[0]))
  {
    if us[0].One? {
      assert [Fine, Fine, Fine, DEAD] <= s.verdicts;
      t := PartCommitFails(s, p, row);
    } else {
      assert [DEAD] <= s.verdicts;
      t := PartQueryFails(s, p, row);
    }
  }

  ghost predicate PartRunTears(s: Session, p: PartId, row: PartRow, attempt: nat)
    requires attempt < MAX_RETRIES
  {
    var (t, r) := PutPartRun(s, p, row, attempt);
    Torn(s, t, r)
  }

  lemma PartRetried(s: Session, p: PartId, row: PartRow, attempt: nat, t: Session)
    requires attempt + 1 < MAX_RETRIES && PartAttempt(s, p, row) == (t, Broken(Deadlock)) && t.trail == s.trail
    requires PartRunTears(t, p, row, attempt + 1)
    ensures PartRunTears(s, p, row, attempt)
  {
  }

  lemma PartLastTears(s: Session, p: PartId, row: PartRow, end: nat, attempt: nat)
    requires attempt < MAX_RETRIES && Ready(s, NoPart(p)) && s.verdicts == [Fine, Fine, OTHER]
    requires end <= 1 && FirstFailure(s.control, end) && (end == 1 ==> !Nth(s.control, 1).drops)
    ensures var (t, r) := PutPartRun(s, p, row, attempt); Torn(s, t, r)
  {
    Four(s.control);
    SkipIsRest(s.control);
    var t := PartEnd(s, p, row);
  }

  ghost predicate AllRoll(us: seq<Use>) {
    forall i :: 0 <= i < |us| ==> us[i].One? || us[i].Two?
  }

  lemma PartUsesFirst(s: Session, p: PartId, row: PartRow, us: seq<Use>, i: nat) returns (t: Session)
    requires us != [] && (us[0].One? || us[0].Two?)
    requires Ready(s, NoPart(p)) && s.verdicts == PartScripts(us) && FirstFailure(s.control, Cost(us[0]) + i)
    ensures PartAttempt(s, p, row) == (t, Broken(Deadlock))
    ensures Ready(t, NoPart(p)) && t.trail == s.trail && t.verdicts == PartScripts(us[1..])
    ensures FirstFailure(t.control, i) && Nth(t.control, i) == Nth(s.control, Cost(us[0]) + i)
  {
    UsedUp(s.control, Cost(us[0]), i);
    t := PartUsesUp(s, p, row, us);
  }

  lemma {:induction false} PartPlanTears(s: Session, p: PartId, row: PartRow, us: seq<Use>, end: nat, attempt: nat)
    requires attempt + |us| < MAX_RETRIES && Ready(s, NoPart(p)) && s.verdicts == PartScripts(us) && AllRoll(us)
    requires end <= 1 && FirstFailure(s.control, Position(us, FastStart) + end)
    requires end == 1 ==> !Nth(s.control, Position(us, FastStart) + end).drops
    ensures PartRunTears(s, p, row, attempt)
    decreases |us|
  {
    if us == [] {
      PartLastTears(s, p, row, end, attempt);
    } else {
      var rest := Position(us[1..], FastStart) + end;
      assert Cost(us[0]) + rest == Position(us, FastStart) + end;
      var t := PartUsesFirst(s, p, row, us, rest);
      PartPlanTears(t, p, row, us[1..], end, attempt + 1);
      PartRetried(s, p, row, attempt, t);
    }
  }

  function PartPlan(i: nat): (us: seq<Use>)
    requires i < 6
    ensures |us| < MAX_RETRIES && Position(us, FastStart) + (if i == 5 then 1 else 0) == i
    ensures forall j :: 0 <= j < |us| ==> us[j].One? || us[j].Two?
  {
    match i
    case 0 => []
    case 1 => [One]
    case 2 => [Two]
    case 3 => [One, Two]
    case _ => [Two, Two]
  }

  ghost predicate PartAlwaysAtomic(control: seq<Verdict>, p: PartId, row: PartRow) {
    forall s: Session {:trigger PutPartRun(s, p, row, 0)} :: Clean(s) && s.control == control ==>
      var (t, r) := PutPartRun(s, p, row, 0); AllOrNothing(s, t, r, PutPartCall(p, row))
  }

  lemma PartTears(control: seq<Verdict>, p: PartId, row: PartRow)
    requires !Orderly(control, 6)
    ensures !PartAlwaysAtomic(control, p, row)
  {
    var i := Disorder(control, 6);
    var us := PartPlan(i);
    var s := SessionOn(NoPart(p), PartScripts(us), control);
    PartPlanTears(s, p, row, us, if i == 5 then 1 else 0, 0);
    var (t, r) := PutPartRun(s, p, row, 0);
    TornIsNotAtomic(s, t, r, PutPartCall(p, row));
  }

  /** The same for a part, which can reach six of them. */
  lemma PartAtomicIffOrderly(control: seq<Verdict>, p: PartId, row: PartRow)
    ensures PartAlwaysAtomic(control, p, row) <==> Orderly(control, 6)
  {
    if Orderly(control, 6) {
      forall s: Session | Clean(s) && s.control == control
        ensures var (t, r) := PutPartRun(s, p, row, 0); AllOrNothing(s, t, r, PutPartCall(p, row))
      {
        PutPartIsAtomic(s, p, row, 0);
      }
    } else {
      PartTears(control, p, row);
    }
  }

  // ----- deletes

  ghost predicate DeleteAlwaysAtomic(control: seq<Verdict>, id: ObjectId) {
    forall s: Session {:trigger DeleteObjectRun(s, id)} :: Clean(s) && s.control == control ==>
      var (t, r) := DeleteObjectRun(s, id); AllOrNothing(s, t, r, DeleteObjectCall(id))
  }

  /** START TRANSACTION or ROLLBACK fails around a decrement that fails. */
  lemma DeleteEnds(s: Session, id: ObjectId, row: ObjectRow)
    requires Ready(s, TakenSlot(id, row)) && s.verdicts == [Fine, Fine, OTHER]
    requires First(s.control).Fails? || !RollsBack(First(Rest(s.control)))
    ensures var (t, r) := DeleteObjectRun(s, id); Torn(s, t, r)
  {
    OldIsOther(id, row);
    assert s.verdicts[0] == Fine && s.verdicts[1] == Fine && s.verdicts[2] == OTHER;
    assert SlotOf(s.committed.fold, id) in s.committed.objects;
  }

  lemma DeleteTears(control: seq<Verdict>, id: ObjectId)
    requires !Orderly(control, 2)
    ensures !DeleteAlwaysAtomic(control, id)
  {
    var i := Disorder(control, 2);
    Four(control);
    var row := ObjectRow("", Sha256(""), 0, "", "");
    var s := SessionOn(TakenSlot(id, row), [Fine, Fine, OTHER], control);
    var (t, r) := DeleteObjectRun(s, id);
    DeleteEnds(s, id, row);
    TornIsNotAtomic(s, t, r, DeleteObjectCall(id));
  }

  /** The same for a delete, which can reach two of them. */
  lemma DeleteAtomicIffOrderly(control: seq<Verdict>, id: ObjectId)
    ensures DeleteAlwaysAtomic(control, id) <==> Orderly(control, 2)
  {
    if Orderly(control, 2) {
      OrderlyStarts(control, 2);
      forall s: Session | Clean(s) && s.control == control
        ensures var (t, r) := DeleteObjectRun(s, id); AllOrNothing(s, t, r, DeleteObjectCall(id))
      {
        DeleteObjectIsAtomic(s, id);
      }
    } else {
      DeleteTears(control, id);
    }
  }
}
