/** The collector of src/storage/gc.cpp, one batch at a time. */
module Collection {
  import opened Base
  import opened Tables
  import opened Protocol

  /** Which of the fallible operations on one key succeed: the first check, the rename
      into quarantine, the second check, the rename back, the removal, and in the
      server's callback the third check and the deletion of the row. */
  datatype Luck = Luck(check: bool, rename: bool, recheck: bool, restore: bool, remove: bool, confirm: bool, drop: bool)

  const ALL_WELL := Luck(true, true, true, true, true, true, true)

  /** The collector's whole turn on one key, with nothing in between. */
  function Turn(s: State, k: Digest, l: Luck): State {
    var s1 := Collect(s, Check(k, l.check));
    var s2 := Collect(s1, Quarantine(l.rename));
    var s3 := Collect(s2, Recheck(l.recheck));
    var s4 := Collect(s3, Restore(l.restore));
    var s5 := Collect(s4, Remove(l.remove));
    var s6 := Collect(s5, Confirm(l.confirm));
    Collect(s6, DropRow(l.drop))
  }

  /** The turns on the keys of a batch; luck goes by the place in the batch. */
  function Turns(s: State, ks: seq<Digest>, luck: nat -> Luck): State
    decreases |ks|
  {
    if ks == [] then s
    else var last := |ks| - 1; Turn(Turns(s, ks[..last], luck), ks[last], luck(last))
  }

  /** The luck of the places from the n-th on. */
  function From(luck: nat -> Luck, n: nat): nat -> Luck {
    (i: nat) => luck(n + i)
  }

  type Turning = (State, Digest, Luck) -> State

  function TurnsBy(turn: Turning, s: State, ks: seq<Digest>, luck: nat -> Luck): State
    decreases |ks|
  {
    if ks == [] then s
    else var last := |ks| - 1; turn(TurnsBy(turn, s, ks[..last], luck), ks[last], luck(last))
  }

  lemma {:induction false} TurnsAreBy(s: State, ks: seq<Digest>, luck: nat -> Luck)
    ensures Turns(s, ks, luck) == TurnsBy(Turn, s, ks, luck)
    decreases |ks|
  {
    if ks != [] {
      TurnsAreBy(s, ks[..|ks| - 1], luck);
    }
  }

  lemma {:induction false} TurnsByAppend(turn: Turning, s: State, a: seq<Digest>, b: seq<Digest>, luck: nat -> Luck)
    ensures TurnsBy(turn, s, a + b, luck) == TurnsBy(turn, TurnsBy(turn, s, a, luck), b, From(luck, |a|))
    decreases |b|
  {
    if b == [] {
      assert a + b == a;
    } else {
      var front, last := b[..|b| - 1], b[|b| - 1];
      assert (a + b)[..|a + b| - 1] == a + front && (a + b)[|a + b| - 1] == last;
      TurnsByAppend(turn, s, a, front, luck);
    }
  }

  /** A batch that follows another one goes on from where that one has come to, with the luck
      of its own places. */
  lemma TurnsAppend(s: State, a: seq<Digest>, b: seq<Digest>, luck: nat -> Luck)
    ensures Turns(s, a + b, luck) == Turns(Turns(s, a, luck), b, From(luck, |a|))
  {
    TurnsByAppend(Turn, s, a, b, luck);
    TurnsAreBy(s, a + b, luck);
    TurnsAreBy(s, a, luck);
    TurnsAreBy(Turns(s, a, luck), b, From(luck, |a|));
  }

  /** The digest counts as deleted: it could be, and its file is out of the way for good. */
  predicate Deletes(s: State, k: Digest, l: Luck) {
    l.check && CanDelete(s.db, k) && l.recheck && (k in s.files ==> l.rename && l.remove)
  }

  /** The digest counts as failed: something that was tried for it did not succeed. */
  predicate Fails(s: State, k: Digest, l: Luck) {
    !l.check || (CanDelete(s.db, k) && (!l.recheck || (k in s.files && !(l.rename && l.remove))))
  }

  function Tally(s: State, ks: seq<Digest>, luck: nat -> Luck, counts: (State, Digest, Luck) -> bool): nat
    decreases |ks|
  {
    if ks == [] then 0
    else
      var last := |ks| - 1;
      Tally(s, ks[..last], luck, counts) + if counts(Turns(s, ks[..last], luck), ks[last], luck(last)) then 1 else 0
  }

  class GarbageCollector {
    var world: State
    var pending: seq<Digest>
    const batchSize: int

    constructor (world: State, batchSize: int)
      ensures this.world == world && pending == [] && this.batchSize == batchSize
    {
      this.world, pending, this.batchSize := world, [], batchSize;
    }

    method AddPendingDelete(k: Digest)
      modifies `pending
      ensures pending == old(pending) + [k]
    {
      pending := pending + [k];
    }

    method TakeBatch() returns (batch: seq<Digest>)
      modifies `pending
      ensures old(pending) == batch + pending
      ensures |batch| == Min(if batchSize < 0 then 0 else batchSize, |old(pending)|)
    {
      batch := [];
      while pending != [] && |batch| < batchSize
        invariant old(pending) == batch + pending
        invariant |batch| <= if batchSize < 0 then 0 else batchSize
        decreases |pending|
      {
        assert batch + pending == (batch + [pending[0]]) + pending[1..];
        batch := batch + [pending[0]];
        pending := pending[1..];
      }
    }

    /** The file that was taken goes back to its path. */
    method PutBack(k: Digest, held: Option<Octets>, ok: bool) returns (done: bool)
      requires world.gc == Quarantined(k, held)
      modifies `world
      ensures done == (held.None? || ok)
      ensures world == Collect(Collect(old(world), Recheck(false)), Restore(ok))
    {
      if held.None? {
        world := world.(gc := Idle);
        return true;
      }
      if ok {
        world := world.(gc := Idle, files := world.files[k := held.value]);
        return true;
      }
      var lost := Referenced(world.db, k) && k !in world.files;
      world := world.(gc := Idle, work := Strand(world.work, k),
                      mishaps := world.mishaps.(unrestored := world.mishaps.unrestored || lost));
      return false;
    }

    /** The server's callback: the row goes if it still may. */
    method OnDeleted(k: Digest, confirm: bool, drop: bool)
      requires world.gc == Removed(k)
      modifies `world
      ensures world == Collect(Collect(old(world), Confirm(confirm)), DropRow(drop))
    {
      if !confirm || !CanDelete(world.db, k) {
        world := world.(gc := Idle);
        return;
      }
      world := world.(gc := Idle);
      if drop {
        world := world.(db := world.db.(blobs := world.db.blobs - {k}), books := Dropped(world.books, k));
      }
    }

    /** The file, if there is one, is taken out of the way. */
    method TakeAway(k: Digest, rename: bool) returns (taken: bool)
      requires world.gc == Checked'(k)
      modifies `world
      ensures world == Collect(old(world), Quarantine(rename))
      ensures taken <==> world.gc.Quarantined?
    {
      if k !in world.files {
        world := world.(gc := Quarantined(k, None), work := Straddle(world.work, k));
        return true;
      }
      if !rename {
        world := world.(gc := Idle);
        return false;
      }
      world := world.(gc := Quarantined(k, Some(world.files[k])), files := world.files - {k},
                      work := Straddle(world.work, k));
      return true;
    }

    /** One key: checked, taken away, checked again, and then removed or put back. */
    method CollectOne(k: Digest, l: Luck) returns (deleted: bool, failed: bool)
      requires world.gc.Idle?
      modifies `world
      ensures world.gc.Idle? && world == Turn(old(world), k, l)
      ensures deleted == Deletes(old(world), k, l) && failed == Fails(old(world), k, l)
    {
      deleted, failed := false, false;
      if !l.check || !CanDelete(world.db, k) {
        failed := !l.check;
        return;
      }
      world := world.(gc := Checked'(k));
      var taken := TakeAway(k, l.rename);
      if !taken {
        failed := true;
        return;
      }
      var held := world.gc.held;
      if !l.recheck || !CanDelete(world.db, k) {
        var done := PutBack(k, held, l.restore);
        failed := !l.recheck || !done;
        return;
      }
      world := world.(gc := Removing(k, held), work := Spoil(world.work, k));
      if held.Some? && !l.remove {
        world := world.(gc := Idle);
        failed := true;
        return;
      }
      world := world.(gc := Removed(k));
      OnDeleted(k, l.confirm, l.drop);
      deleted := true;
    }

    /** The keys of a batch in the order in which they were queued. */
    method ProcessBatch(luck: nat -> Luck) returns (batch: seq<Digest>, deletedCount: nat, failCount: nat)
      requires world.gc.Idle?
      modifies this
      ensures old(pending) == batch + pending
      ensures |batch| == Min(if batchSize < 0 then 0 else batchSize, |old(pending)|)
      ensures world.gc.Idle? && world == Turns(old(world), batch, luck)
      ensures deletedCount == Tally(old(world), batch, luck, Deletes)
      ensures failCount == Tally(old(world), batch, luck, Fails)
    {
      deletedCount, failCount := 0, 0;
      batch := TakeBatch();
      for i := 0 to |batch|
        invariant world.gc.Idle? && world == Turns(old(world), batch[..i], luck)
        invariant old(pending) == batch + pending
        invariant deletedCount == Tally(old(world), batch[..i], luck, Deletes)
        invariant failCount == Tally(old(world), batch[..i], luck, Fails)
      {
        var deleted, failed := CollectOne(batch[i], luck(i));
        assert batch[..i + 1][..i] == batch[..i];
        if deleted {
          deletedCount := deletedCount + 1;
        }
        if failed {
          failCount := failCount + 1;
        }
      }
      assert batch[..|batch|] == batch;
    }
  }
}
