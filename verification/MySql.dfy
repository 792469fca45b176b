/** A MySQL session, and the transaction wrapper of src/db/mysql_tx.cpp. */
module MySql {
  import opened Base
  import opened Tables

  datatype Error = NoError | Deadlock | LockTimeout | DuplicateEntry | ForeignKey | Other

  /** What becomes of a statement sent to the server. A failure may also take the
      open transaction with it, as a deadlock does. */
  datatype Verdict = Fine | Fails(error: Error, drops: bool)

  datatype Statement =
    | CountUp(key: Digest)
    | CountDown(key: Digest)
    | InsertRow(id: ObjectId, entry: ObjectRow)
    | UpsertRow(id: ObjectId, entry: ObjectRow)
    | DeleteRow(id: ObjectId)
    | UpsertPartRow(part: PartId, row: PartRow)

  datatype Effect = Changed(db: Tables) | Violates(error: Error)

  function EffectOf(db: Tables, st: Statement): Effect {
    match st
    case CountUp(k) => Changed(Increment(db, k))
    case CountDown(k) => Changed(Decrement(db, k))
    case InsertRow(id, row) =>
      if SlotOf(db.fold, id) in db.objects then Violates(DuplicateEntry) else Upserted(UpsertObject(db, id, row))
    case UpsertRow(id, row) => Upserted(UpsertObject(db, id, row))
    case DeleteRow(id) => Changed(DeleteObjectRow(db, id))
    case UpsertPartRow(p, row) => Upserted(UpsertPart(db, p, row))
  }

  function Upserted(after: Option<Tables>): Effect {
    if after.Some? then Changed(after.value) else Violates(ForeignKey)
  }

  /** committed is what other sessions see, working what this session sees, and the
      two differ only while a transaction is open. verdicts decides the statements and
      COMMIT, control decides START TRANSACTION and ROLLBACK. others holds the tables as
      other sessions leave them by the time of each next START TRANSACTION. trail is
      history: before and after, for each change this session published. */
  datatype Session = Session(committed: Tables, working: Tables, open: bool, lastError: Error,
                             verdicts: seq<Verdict>, control: seq<Verdict>, others: seq<Tables>,
                             trail: seq<(Tables, Tables)>)

  function First(vs: seq<Verdict>): Verdict {
    if vs == [] then Fine else vs[0]
  }

  function Rest<T>(xs: seq<T>): seq<T> {
    if xs == [] then xs else xs[1..]
  }

  function Failed(s: Session, v: Verdict): Session
    requires v.Fails?
  {
    if v.drops then s.(lastError := v.error, open := false, working := s.committed) else s.(lastError := v.error)
  }

  /** Outside a transaction a statement commits by itself. */
  function Wrote(s: Session, db: Tables): Session {
    if s.open then s.(working := db)
    else s.(working := db, committed := db, trail := s.trail + [(s.committed, db)])
  }

  function Executed(s: Session, st: Statement): (Session, bool) {
    var s1 := s.(verdicts := Rest(s.verdicts));
    if First(s.verdicts).Fails? then (Failed(s1, First(s.verdicts)), false)
    else match EffectOf(s.working, st)
         case Changed(db) => (Wrote(s1, db), true)
         case Violates(e) => (s1.(lastError := e), false)
  }

  /** A query; its rows are read from working. */
  function Queried(s: Session): (Session, bool) {
    var s1 := s.(verdicts := Rest(s.verdicts));
    if First(s.verdicts).Fails? then (Failed(s1, First(s.verdicts)), false) else (s1, true)
  }

  function Published(s: Session): Session {
    s.(committed := s.working, open := false, trail := s.trail + [(s.committed, s.working)])
  }

  /** START TRANSACTION publishes a transaction that is still open. */
  function StartTx(s: Session): Session {
    var s1 := s.(control := Rest(s.control));
    if First(s.control).Fails? then Failed(s1, First(s.control))
    else
      var s2 := if s.open then Published(s1) else s1;
      var now := if s.others == [] then s2.committed else s.others[0];
      s2.(committed := now, working := now, open := true, others := Rest(s.others))
  }

  function RollbackTx(s: Session): Session {
    var s1 := s.(control := Rest(s.control));
    if First(s.control).Fails? then Failed(s1, First(s.control)) else s1.(working := s.committed, open := false)
  }

  /** A COMMIT that fails has rolled back. */
  function CommitTx(s: Session): (Session, bool) {
    var s1 := s.(verdicts := Rest(s.verdicts));
    if First(s.verdicts).Fails?
    then (s1.(lastError := First(s.verdicts).error, open := false, working := s.committed), false)
    else (if s.open then Published(s1) else s1, true)
  }

  /** Between transactions: nothing is pending. */
  ghost predicate Clean(s: Session) {
    !s.open && s.working == s.committed
  }

  // ----- the verdicts on START TRANSACTION and ROLLBACK

  function Skip(vs: seq<Verdict>, n: nat): seq<Verdict> {
    if n == 0 then vs else Skip(Rest(vs), n - 1)
  }

  /** The verdict on the n-th START TRANSACTION or ROLLBACK from now. */
  function Nth(vs: seq<Verdict>, n: nat): Verdict {
    First(Skip(vs, n))
  }

  /** The transaction is rolled back, if only because the server has dropped it. */
  predicate RollsBack(v: Verdict) {
    v.Fine? || v.drops
  }

  /** None of the next n fails, but that the last may take the transaction with it. */
  predicate Orderly(vs: seq<Verdict>, n: nat) {
    forall i: nat {:trigger Nth(vs, i)} :: i < n ==> Nth(vs, i).Fine? || (i == n - 1 && Nth(vs, i).drops)
  }

  /** The next transaction starts, and can be rolled back. */
  predicate Sure(vs: seq<Verdict>) {
    First(vs).Fine? && RollsBack(First(Rest(vs)))
  }

  lemma OrderlyStarts(vs: seq<Verdict>, n: nat)
    requires n >= 2 && Orderly(vs, n)
    ensures Sure(vs) && Orderly(Rest(vs), n - 1)
  {
    assert Nth(vs, 0) == First(vs);
    assert Nth(vs, 1) == First(Rest(vs)) by {
      assert Skip(vs, 1) == Skip(Rest(vs), 0);
    }
    forall i: nat | i < n - 1 ensures Nth(Rest(vs), i).Fine? || (i == n - 2 && Nth(Rest(vs), i).drops) {
      assert Nth(vs, i + 1) == Nth(Rest(vs), i);
    }
  }

  lemma {:induction false} SkipSum(vs: seq<Verdict>, a: nat, b: nat)
    ensures Skip(Skip(vs, a), b) == Skip(vs, a + b)
    decreases a
  {
    if a > 0 {
      SkipSum(Rest(vs), a - 1, b);
    }
  }

  lemma {:induction false} OrderlyLater(vs: seq<Verdict>, n: nat, used: nat, left: nat)
    requires Orderly(vs, n) && used + left <= n
    ensures Orderly(Skip(vs, used), left)
  {
    forall i: nat | i < left ensures Nth(Skip(vs, used), i).Fine? || (i == left - 1 && Nth(Skip(vs, used), i).drops) {
      SkipSum(vs, used, i);
      assert Nth(vs, used + i) == Nth(Skip(vs, used), i);
    }
  }

  class Connection {
    var state: Session

    constructor (s: Session)
      ensures state == s
    {
      state := s;
    }

    method Execute(st: Statement) returns (ok: bool)
      modifies this
      ensures (state, ok) == Executed(old(state), st)
    {
      var v := First(state.verdicts);
      state := state.(verdicts := Rest(state.verdicts));
      match v
      case Fails(error, drops) =>
        state := state.(lastError := error);
        if drops {
          state := state.(open := false, working := state.committed);
        }
        return false;
      case Fine =>
        match EffectOf(state.working, st)
        case Violates(error) =>
          state := state.(lastError := error);
          return false;
        case Changed(db) =>
          if !state.open {
            state := state.(trail := state.trail + [(state.committed, db)], committed := db);
          }
          state := state.(working := db);
          return true;
    }

    method Query() returns (ok: bool)
      modifies this
      ensures (state, ok) == Queried(old(state))
    {
      var v := First(state.verdicts);
      state := state.(verdicts := Rest(state.verdicts));
      ok := v.Fine?;
      if v.Fails? {
        state := Failed(state, v);
      }
    }
  }

  class Transaction {
    const conn: Connection
    var finished: bool

    /** A START TRANSACTION that fails is logged and otherwise passed over. */
    constructor (conn: Connection)
      modifies conn
      ensures this.conn == conn && !finished
      ensures conn.state == StartTx(old(conn.state))
    {
      this.conn := conn;
      finished := false;
      new;
      conn.state := StartTx(conn.state);
    }

    method Commit() returns (ok: bool)
      modifies this, conn
      ensures finished
      ensures if old(finished) then !ok && conn.state == old(conn.state)
              else (conn.state, ok) == CommitTx(old(conn.state))
    {
      if finished {
        return false;
      }
      finished := true;
      var (s, done) := CommitTx(conn.state);
      conn.state := s;
      return done;
    }

    method Rollback()
      modifies this, conn
      ensures finished
      ensures conn.state == if old(finished) then old(conn.state) else RollbackTx(old(conn.state))
    {
      if finished {
        return;
      }
      finished := true;
      conn.state := RollbackTx(conn.state);
    }

    /** The destructor: what was not finished is rolled back. */
    method Destroy()
      modifies this, conn
      ensures conn.state == if old(finished) then old(conn.state) else RollbackTx(old(conn.state))
    {
      if !finished {
        Rollback();
      }
    }

    method Execute(st: Statement) returns (ok: bool)
      modifies conn
      ensures if finished then !ok && conn.state == old(conn.state)
              else (conn.state, ok) == Executed(old(conn.state), st)
    {
      if finished {
        return false;
      }
      ok := conn.Execute(st);
    }

    method Query() returns (ok: bool)
      modifies conn
      ensures if finished then !ok && conn.state == old(conn.state)
              else (conn.state, ok) == Queried(old(conn.state))
    {
      if finished {
        return false;
      }
      ok := conn.Query();
    }
  }
}
