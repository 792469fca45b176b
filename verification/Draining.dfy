/** What batches take from the queue when all goes well. */
module Draining {
  import opened Base
  import opened Tables
  import opened Protocol
  import opened Collection

  predicate Zero(db: Tables, k: Digest) {
    k in db.blobs && db.blobs[k] == 0
  }

  /** A turn in which all goes well. */
  function GoodTurn(s: State, k: Digest): State {
    Turn(s, k, ALL_WELL)
  }

  /** What a key's turn makes of a state, and what holds of the state after some turns. */
  type Taker = (State, Digest) -> State
  type Judgement = (State, seq<Digest>) -> bool

  /** The state after a turn on each of the keys. */
  function Each(turn: Taker, s: State, ks: seq<Digest>): State
    decreases |ks|
  {
    if ks == [] then s else turn(Each(turn, s, ks[..|ks| - 1]), ks[|ks| - 1])
  }

  /** The state and the queue after some batches. */
  function Batches(turn: Taker, s: State, pending: seq<Digest>, batch: nat, rounds: nat): (State, seq<Digest>)
    decreases rounds
  {
    if rounds == 0 then (s, pending)
    else var n := Min(batch, |pending|);
         Batches(turn, Each(turn, s, pending[..n]), pending[n..], batch, rounds - 1)
  }

  function Drained(s: State, pending: seq<Digest>, batch: nat, rounds: nat): (State, seq<Digest>) {
    Batches(GoodTurn, s, pending, batch, rounds)
  }

  lemma {:induction false} EachAppend(turn: Taker, s: State, a: seq<Digest>, b: seq<Digest>)
    ensures Each(turn, s, a + b) == Each(turn, Each(turn, s, a), b)
    decreases |b|
  {
    if b == [] {
      assert a + b == a;
    } else {
      var front, last := b[..|b| - 1], b[|b| - 1];
      assert (a + b)[..|a + b| - 1] == a + front && (a + b)[|a + b| - 1] == last;
      EachAppend(turn, s, a, front);
    }
  }

  lemma {:induction false} EachKeeps(turn: Taker, s: State, ks: seq<Digest>, good: Judgement)
    requires good(s, [])
    requires forall t: State, front: seq<Digest>, k: Digest :: good(t, front) ==> good(turn(t, k), front + [k])
    ensures good(Each(turn, s, ks), ks)
    decreases |ks|
  {
    if ks != [] {
      var front, last := ks[..|ks| - 1], ks[|ks| - 1];
      EachKeeps(turn, s, front, good);
      assert front + [last] == ks;
    }
  }

  /** Batch by batch the queue is emptied, and each of its keys has its turn. */
  lemma {:induction false} BatchesAreEach(turn: Taker, s: State, pending: seq<Digest>, batch: nat, rounds: nat)
    requires batch >= 1 && rounds >= |pending|
    ensures Batches(turn, s, pending, batch, rounds) == (Each(turn, s, pending), [])
    decreases rounds
  {
    if rounds > 0 {
      var n := Min(batch, |pending|);
      assert pending[..n] + pending[n..] == pending;
      BatchesAreEach(turn, Each(turn, s, pending[..n]), pending[n..], batch, rounds - 1);
      EachAppend(turn, s, pending[..n], pending[n..]);
    }
  }

  /** The batch method gives each key its turn. */
  lemma {:induction false} TurnsAreEach(s: State, ks: seq<Digest>)
    ensures Turns(s, ks, i => ALL_WELL) == Each(GoodTurn, s, ks)
    decreases |ks|
  {
    if ks != [] {
      TurnsAreEach(s, ks[..|ks| - 1]);
    }
  }

  /** What has count zero may go. */
  ghost predicate Unused(db: Tables) {
    forall k :: Zero(db, k) ==> !Referenced(db, k)
  }

  /** What is left of s once the zero rows among the keys went, and their files. */
  ghost predicate Swept(s: State, t: State, ks: seq<Digest>) {
    && t.gc.Idle? && t.work == map[] && t.db.objects == s.db.objects && t.db.parts == s.db.parts
    && (forall k :: k in t.db.blobs <==> k in s.db.blobs && !(k in ks && s.db.blobs[k] == 0))
    && (forall k :: k in t.db.blobs && k in s.db.blobs ==> t.db.blobs[k] == s.db.blobs[k])
    && (forall k :: k in t.files <==> k in s.files && !(k in ks && Zero(s.db, k)))
  }

  /** What a turn leaves of row and file, with nothing in between and any of its operations
      failing. A digest that may not be deleted, or whose check or move to quarantine fails,
      is left alone. If the second check fails the file goes back, or else it is gone and the
      row stays, as it does if the removal or the callback fails. Only if all goes well both
      are gone. */
  lemma TurnComesTo(s: State, k: Digest, l: Luck)
    requires s.gc.Idle?
    ensures var t := Turn(s, k, l);
            && t.gc.Idle? && t.work.Keys == s.work.Keys && t.used == s.used
            && (var begun := l.check && CanDelete(s.db, k) && (l.rename || k !in s.files);
                var removed := begun && l.recheck && (l.remove || k !in s.files);
                && t.db == (if removed && l.confirm && l.drop then s.db.(blobs := s.db.blobs - {k}) else s.db)
                && t.files == if begun && (l.recheck || !l.restore) then s.files - {k} else s.files)
  {
    var s1 := Collect(s, Check(k, l.check));
    var s2 := Collect(s1, Quarantine(l.rename));
    if s2.gc.Quarantined? {
      Taken(s, k, l.rename);
      FromQuarantine(s2, k, l);
      assert k in s.files ==> (s.files - {k})[k := s.files[k]] == s.files;
      assert k !in s.files ==> s.files - {k} == s.files;
    }
  }

  lemma Taken(s: State, k: Digest, rename: bool)
    requires s.gc.Idle? && CanDelete(s.db, k) && (rename || k !in s.files)
    ensures var t := Collect(Collect(s, Check(k, true)), Quarantine(rename));
            && t.gc == Quarantined(k, if k in s.files then Some(s.files[k]) else None)
            && t.db == s.db && t.files == s.files - {k} && t.work.Keys == s.work.Keys && t.used == s.used
  {
    assert k !in s.files ==> s.files - {k} == s.files;
  }

  lemma FromQuarantine(s: State, k: Digest, l: Luck)
    requires s.gc.Quarantined? && s.gc.key == k && CanDelete(s.db, k) && k !in s.files
    ensures var s3 := Collect(s, Recheck(l.recheck));
            var s5 := Collect(Collect(s3, Restore(l.restore)), Remove(l.remove));
            var t := Collect(Collect(s5, Confirm(l.confirm)), DropRow(l.drop));
            var removed := l.recheck && (l.remove || s.gc.held.None?);
            && t.gc.Idle? && t.work.Keys == s.work.Keys && t.used == s.used
            && t.db == (if removed && l.confirm && l.drop then s.db.(blobs := s.db.blobs - {k}) else s.db)
            && t.files == if !l.recheck && s.gc.held.Some? && l.restore then s.files[k := s.gc.held.value] else s.files
  {
    if l.recheck {
      var s3 := Collect(s, Recheck(true));
      assert s3.gc == Removing(k, s.gc.held) && s3.db == s.db && s3.files == s.files;
    }
  }

  /** A turn in which all goes well takes the row and the file, or changes nothing. */
  lemma TurnTakes(s: State, k: Digest)
    requires s.gc.Idle? && s.work == map[]
    ensures var t := Turn(s, k, ALL_WELL);
            if CanDelete(s.db, k)
            then t == s.(db := s.db.(blobs := s.db.blobs - {k}), files := s.files - {k}, books := Protocol.Dropped(s.books, k))
            else t == s
  {
    if CanDelete(s.db, k) {
      assert Straddle(s.work, k) == map[] && Spoil(map[], k) == map[];
      if k !in s.files {
        assert s.files - {k} == s.files;
      }
    }
  }

  lemma TurnSweeps(s: State, k: Digest)
    requires s.gc.Idle? && s.work == map[] && Unused(s.db)
    ensures Swept(s, GoodTurn(s, k), [k]) && Unused(GoodTurn(s, k).db)
  {
    TurnTakes(s, k);
    assert Zero(s.db, k) ==> CanDelete(s.db, k);
    var t := GoodTurn(s, k);
    assert forall j :: Referenced(t.db, j) <==> Referenced(s.db, j);
  }

  lemma SweptFurther(s: State, t: State, u: State, ks: seq<Digest>, js: seq<Digest>)
    requires Swept(s, t, ks) && Swept(t, u, js)
    ensures Swept(s, u, ks + js)
  {
    assert forall k :: k in ks + js <==> k in ks || k in js;
    assert forall k :: Zero(t.db, k) <==> Zero(s.db, k) && k !in ks;
  }

  ghost predicate SweptOf(s: State, t: State, ks: seq<Digest>) {
    Swept(s, t, ks) && Unused(t.db)
  }

  lemma SweepOne(s: State, t: State, front: seq<Digest>, last: Digest)
    requires SweptOf(s, t, front)
    ensures SweptOf(s, GoodTurn(t, last), front + [last])
  {
    TurnSweeps(t, last);
    SweptFurther(s, t, GoodTurn(t, last), front, [last]);
  }

  lemma TurnsSweep(s: State, ks: seq<Digest>)
    requires s.gc.Idle? && s.work == map[] && Unused(s.db)
    ensures Swept(s, Each(GoodTurn, s, ks), ks)
  {
    var swept := (t: State, front: seq<Digest>) => SweptOf(s, t, front);
    forall t: State, front: seq<Digest>, k: Digest | swept(t, front) ensures swept(GoodTurn(t, k), front + [k]) {
      SweepOne(s, t, front, k);
    }
    EachKeeps(GoodTurn, s, ks, swept);
  }

  lemma DrainSweeps(s: State, pending: seq<Digest>, batch: nat, rounds: nat)
    requires s.gc.Idle? && s.work == map[] && Unused(s.db) && batch >= 1 && rounds >= |pending|
    ensures Drained(s, pending, batch, rounds).1 == [] && Swept(s, Drained(s, pending, batch, rounds).0, pending)
  {
    BatchesAreEach(GoodTurn, s, pending, batch, rounds);
    TurnsSweep(s, pending);
  }
}
