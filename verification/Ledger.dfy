/** Reference counts as claims: every unit of a count is held by one claimant. */
module Ledger {
  import opened Base
  import opened Tables

  /** Who can hold a unit of a reference count. Lost claims have no row any more. */
  datatype Ref = ObjectRef(slot: Slot) | PartRef(part: PartId) | Lost(number: nat)

  type Claims = map<Ref, Digest>

  function On(c: Claims, k: Digest): set<Ref> {
    set r | r in c && c[r] == k
  }

  /** Each count is the number of claims on that digest, for which there is a row. */
  ghost predicate Backed(db: Tables, c: Claims) {
    forall k :: Count(db, k) == |On(c, k)|
  }

  lemma ClaimAdded(c: Claims, r: Ref, k: Digest)
    requires r !in c
    ensures On(c[r := k], k) == On(c, k) + {r}
    ensures |On(c[r := k], k)| == |On(c, k)| + 1
    ensures forall j :: j != k ==> On(c[r := k], j) == On(c, j)
  {
    assert On(c[r := k], k) == On(c, k) + {r};
    forall j | j != k ensures On(c[r := k], j) == On(c, j) {
    }
  }

  lemma ClaimDropped(c: Claims, r: Ref)
    requires r in c
    ensures On(c - {r}, c[r]) == On(c, c[r]) - {r}
    ensures |On(c - {r}, c[r])| == |On(c, c[r])| - 1
    ensures forall j :: j != c[r] ==> On(c - {r}, j) == On(c, j)
  {
    assert On(c - {r}, c[r]) == On(c, c[r]) - {r};
    forall j | j != c[r] ensures On(c - {r}, j) == On(c, j) {
    }
  }

  /** An increment for a new claim. */
  lemma IncrementBacked(db: Tables, c: Claims, r: Ref, k: Digest)
    requires Backed(db, c) && r !in c
    ensures Backed(Increment(db, k), c[r := k])
  {
    ClaimAdded(c, r, k);
    forall j ensures Count(Increment(db, k), j) == |On(c[r := k], j)| {
      assert Count(db, j) == |On(c, j)|;
      if j != k {
        assert On(c[r := k], j) == On(c, j);
        assert Count(Increment(db, k), j) == Count(db, j);
      } else {
        assert Count(Increment(db, k), j) == Count(db, j) + 1;
      }
    }
  }

  /** A decrement for a dropped claim: the count is not yet zero, so the floor is
      never met. */
  lemma DecrementBacked(db: Tables, c: Claims, r: Ref)
    requires Backed(db, c) && r in c
    ensures c[r] in db.blobs && db.blobs[c[r]] > 0
    ensures Backed(Decrement(db, c[r]), c - {r})
  {
    ClaimDropped(c, r);
    assert r in On(c, c[r]);
  }

  /** The claims of the rows themselves. */
  function LiveRefs(db: Tables): set<Ref> {
    (set s | s in db.objects :: ObjectRef(s)) + (set p | p in db.parts :: PartRef(p))
  }

  function CasOf(db: Tables, r: Ref): Digest
    requires r in LiveRefs(db)
  {
    match r
    case ObjectRef(s) => db.objects[s].cas
    case PartRef(p) => db.parts[p].cas
  }

  function Live(db: Tables): Claims {
    map r | r in LiveRefs(db) :: CasOf(db, r)
  }

  /** Rows of objects and rows of parts that refer to k. */
  function ObjectRows(db: Tables, k: Digest): set<Slot> {
    set s | s in db.objects && db.objects[s].cas == k
  }

  function PartRows(db: Tables, k: Digest): set<PartId> {
    set p | p in db.parts && db.parts[p].cas == k
  }

  /** The accounting law: each count is the number of object rows plus the number
      of part rows that refer to the digest. */
  ghost predicate Accounted(db: Tables) {
    forall k :: Count(db, k) == |ObjectRows(db, k)| + |PartRows(db, k)|
  }

  lemma {:induction false} ObjectRefCount(ss: set<Slot>)
    ensures |set s | s in ss :: ObjectRef(s)| == |ss|
    decreases |ss|
  {
    var refs := set s | s in ss :: ObjectRef(s);
    if ss != {} {
      var s :| s in ss;
      ObjectRefCount(ss - {s});
      assert refs == (set t | t in ss - {s} :: ObjectRef(t)) + {ObjectRef(s)};
    } else {
      assert refs == {};
    }
  }

  lemma {:induction false} PartRefCount(ps: set<PartId>)
    ensures |set p | p in ps :: PartRef(p)| == |ps|
    decreases |ps|
  {
    var refs := set p | p in ps :: PartRef(p);
    if ps != {} {
      var p :| p in ps;
      PartRefCount(ps - {p});
      assert refs == (set t | t in ps - {p} :: PartRef(t)) + {PartRef(p)};
    } else {
      assert refs == {};
    }
  }

  lemma LiveOn(db: Tables, k: Digest)
    ensures |On(Live(db), k)| == |ObjectRows(db, k)| + |PartRows(db, k)|
  {
    var os := set s | s in ObjectRows(db, k) :: ObjectRef(s);
    var ps := set p | p in PartRows(db, k) :: PartRef(p);
    assert On(Live(db), k) == os + ps;
    assert os !! ps;
    ObjectRefCount(ObjectRows(db, k));
    PartRefCount(PartRows(db, k));
  }

  /** The law is that the rows' own claims back the counts. */
  lemma AccountedIffBacked(db: Tables)
    ensures Accounted(db) <==> Backed(db, Live(db))
  {
    forall k ensures |On(Live(db), k)| == |ObjectRows(db, k)| + |PartRows(db, k)| {
      LiveOn(db, k);
    }
  }

  /** Moving a count from the old digest to the new one moves the claim. */
  lemma MoveCountBacked(db: Tables, c: Claims, r: Ref, old': Option<Digest>, k: Digest)
    requires Backed(db, c)
    requires if old'.Some? then r in c && c[r] == old'.value else r !in c
    ensures Backed(MoveCount(db, old', k).0, c[r := k])
  {
    if old'.None? {
      IncrementBacked(db, c, r, k);
    } else if old'.value == k {
      assert c[r := k] == c;
    } else {
      DecrementBacked(db, c, r);
      IncrementBacked(Decrement(db, old'.value), c - {r}, r, k);
      assert (c - {r})[r := k] == c[r := k];
      CountsCommute(db, old'.value, k);
    }
  }

  lemma CountsCommute(db: Tables, a: Digest, b: Digest)
    requires a != b
    ensures Increment(Decrement(db, a), b) == Decrement(Increment(db, b), a)
  {
    assert Increment(Decrement(db, a), b).blobs == Decrement(Increment(db, b), a).blobs;
  }

  /** The digest that lost a reference is reported exactly when none is left. */
  lemma CandidateIsUnclaimed(db: Tables, c: Claims, k: Digest)
    requires Backed(db, c) && k in db.blobs
    ensures Candidate(db, k) == Some(k) <==> On(c, k) == {}
  {
  }
}
