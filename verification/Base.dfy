/** Vocabulary shared by every part of the model. */
module Base {

  /** A byte string: each character stands for one octet. */
  type Octets = string

  datatype Option<+T> = None | Some(value: T)

  /** SHA-256 as a free constructor: distinct contents have distinct digests. */
  datatype Digest = Sha256(preimage: Octets)

  function AsSeq<T>(x: Option<T>): seq<T> {
    if x.Some? then [x.value] else []
  }

  function Min(a: nat, b: nat): nat {
    if a < b then a else b
  }

  function Concat(pieces: seq<Octets>): Octets {
    if pieces == [] then [] else pieces[0] + Concat(pieces[1..])
  }

  lemma {:induction false} ConcatSnoc(pieces: seq<Octets>, last: Octets)
    ensures Concat(pieces + [last]) == Concat(pieces) + last
  {
    if pieces == [] {
      assert [last][1..] == [];
    } else {
      assert (pieces + [last])[1..] == pieces[1..] + [last];
      ConcatSnoc(pieces[1..], last);
      assert pieces[0] + (Concat(pieces[1..]) + last) == (pieces[0] + Concat(pieces[1..])) + last;
    }
  }
}
