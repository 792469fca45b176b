/** Which part lists complete an upload, and the listing they are compared with. */
module Multipart {
  import opened Base
  import opened Tables
  import opened Protocol

  const MAX_LISTED: nat := 10000

  datatype ServerPart = ServerPart(number: nat, cas: Digest, size: nat, etag: string)
  datatype ClientPart = ClientPart(number: int, etag: string)

  /** An ETag without its quotes. */
  function Normalize(etag: string): string {
    if |etag| >= 2 && etag[0] == '"' && etag[|etag| - 1] == '"' then etag[1..|etag| - 1] else etag
  }

  predicate Quoted(etag: string) {
    |etag| >= 2 && etag[0] == '"' && etag[|etag| - 1] == '"'
  }

  /** Quotes around an ETag are taken off, once; an ETag without them is left as it is. */
  lemma NormalizeUnquotes(etag: string)
    ensures Normalize("\"" + etag + "\"") == etag
    ensures !Quoted(etag) ==> Normalize(etag) == etag
    ensures Quoted(etag) ==> etag == "\"" + Normalize(etag) + "\""
  {
    var quoted := "\"" + etag + "\"";
    assert quoted[1..|quoted| - 1] == etag;
    if Quoted(etag) {
      assert etag == [etag[0]] + etag[1..|etag| - 1] + [etag[|etag| - 1]];
    }
  }

  // ----- listing

  predicate Ascending(parts: seq<ServerPart>) {
    forall i, j :: 0 <= i < j < |parts| ==> parts[i].number < parts[j].number
  }

  function ServerParts(db: Tables, order: seq<PartId>): (parts: seq<ServerPart>)
    requires forall i :: 0 <= i < |order| ==> order[i] in db.parts
    ensures |parts| == |order|
  {
    seq(|order|, i requires 0 <= i < |order| =>
      var row := db.parts[order[i]]; ServerPart(order[i].number, row.cas, row.size, row.etag))
  }

  /** One page of a listing. The query is asked for one row more than the page takes,
      and that row tells whether the page is all. */
  method ListParts(all: seq<ServerPart>, maxParts: nat)
    returns (parts: seq<ServerPart>, truncated: bool, nextMarker: nat)
    ensures parts == all[..Min(maxParts, |all|)]
    ensures truncated <==> |all| > maxParts
    ensures nextMarker == if truncated then all[maxParts].number else 0
  {
    var rows := all[..Min(|all|, maxParts + 1)];
    parts, truncated, nextMarker := [], false, 0;
    var count := 0;
    while count < |rows|
      invariant 0 <= count <= |rows| && count <= maxParts
      invariant parts == all[..count] && !truncated && nextMarker == 0
    {
      if count >= maxParts {
        truncated, nextMarker := true, rows[count].number;
        break;
      }
      parts := parts + [rows[count]];
      count := count + 1;
    }
  }

  /** Ascending numbers from low on, all at most high, are no more than there is room for. */
  lemma {:induction false} AscendingFits(parts: seq<ServerPart>, low: nat, high: nat)
    requires Ascending(parts) && low <= high + 1
    requires forall i :: 0 <= i < |parts| ==> low <= parts[i].number <= high
    ensures |parts| <= high + 1 - low
    decreases |parts|
  {
    if parts != [] {
      AscendingFits(parts[1..], parts[0].number + 1, high);
    }
  }

  ghost predicate NumbersInRange(db: Tables) {
    forall p :: p in db.parts ==> 1 <= p.number <= MAX_PART_NUMBER
  }

  ghost predicate TargetsInRange(work: map<nat, Work>) {
    forall q :: q in work && work[q].Uploading? && work[q].target.ToPart? ==>
      1 <= work[q].target.part.number <= MAX_PART_NUMBER
  }

  lemma PutsAddOnePart(db: Tables, id: ObjectId, entry: ObjectRow, p: PartId, row: PartRow)
    ensures PutObject(db, id, entry).Some? ==> PutObject(db, id, entry).value.0.parts == db.parts
    ensures PutPart(db, p, row).Some? ==> PutPart(db, p, row).value.0.parts == db.parts[p := row]
  {
  }

  lemma CommitKeepsRange(s: State, p: nat)
    requires NumbersInRange(s.db) && TargetsInRange(s.work) && p in s.work && s.work[p].Uploading?
    ensures var t := DoCommit(s, p, s.work[p]); NumbersInRange(t.db) && TargetsInRange(t.work)
  {
    var w := s.work[p];
    var k := Sha256(w.bytes);
    var t := DoCommit(s, p, w);
    var noObject, noPart := ObjectRow("", k, 0, "", ""), PartRow(k, 0, "");
    match w.target
    case ToObject(id, etag, contentType) =>
      PutsAddOnePart(s.db, id, ObjectRow(id.key, k, |w.bytes|, etag, contentType), PartId(0, 0), noPart);
      assert t.work == s.work - {p} && t.db.parts == s.db.parts;
    case ToPart(part, etag) =>
      PutsAddOnePart(s.db, ObjectId(0, ""), noObject, part, PartRow(k, |w.bytes|, etag));
      assert t.work == s.work - {p};
    case ToCompleted(u, id, etag, contentType, rows, size) =>
      PutsAddOnePart(s.db, id, ObjectRow(id.key, k, size, etag, contentType), PartId(0, 0), noPart);
      assert t.db.parts == s.db.parts;
  }

  lemma ProceedKeepsRange(s: State, step: Step)
    requires NumbersInRange(s.db) && TargetsInRange(s.work) && Advances(step) && step.proc in s.work && !step.Commit?
    ensures var t := Proceed(s, step, s.work[step.proc]); NumbersInRange(t.db) && TargetsInRange(t.work)
  {
  }

  lemma StraddleKeepsRange(work: map<nat, Work>, k: Digest)
    requires TargetsInRange(work)
    ensures TargetsInRange(Straddle(work, k)) && TargetsInRange(Spoil(work, k))
  {
  }

  lemma CollectKeepsRange(s: State, step: Step)
    requires NumbersInRange(s.db) && TargetsInRange(s.work) && Collects(step)
    ensures var t := Collect(s, step); NumbersInRange(t.db) && TargetsInRange(t.work)
  {
    if s.gc.Checked'? || s.gc.Quarantined? { StraddleKeepsRange(s.work, s.gc.key); }
  }

  lemma StepKeepsRange(s: State, step: Step)
    requires NumbersInRange(s.db) && TargetsInRange(s.work)
    ensures var t := Apply(s, step); NumbersInRange(t.db) && TargetsInRange(t.work)
  {
    if Collects(step) {
      CollectKeepsRange(s, step);
    } else if Starts(step) {
    } else if Advances(step) {
      if step.proc !in s.work {
      } else if step.Commit? {
        if s.work[step.proc].Uploading? { CommitKeepsRange(s, step.proc); }
      } else {
        ProceedKeepsRange(s, step);
      }
    }
  }

  lemma {:induction false} RunKeepsRange(s: State, steps: seq<Step>)
    requires NumbersInRange(s.db) && TargetsInRange(s.work)
    ensures NumbersInRange(Run(s, steps).db)
    decreases |steps|
  {
    if steps != [] {
      StepKeepsRange(s, steps[0]);
      RunKeepsRange(Apply(s, steps[0]), steps[1..]);
    }
  }

  /** In every run, a listing of an upload's parts fits into one page, so that the
      bounded listing that completing and aborting use leaves none out. */
  lemma ListingIsComplete(fold: Folding, steps: seq<Step>, upload: nat, order: seq<PartId>)
    requires Lists(Run(Init(fold), steps).db, upload, order)
    ensures |order| <= MAX_LISTED
  {
    var db := Run(Init(fold), steps).db;
    RunKeepsRange(Init(fold), steps);
    AscendingFits(ServerParts(db, order), 1, MAX_PART_NUMBER);
  }

  // ----- comparing

  /** What a client must name to complete an upload with these parts. */
  function Named(server: seq<ServerPart>): (r: seq<ClientPart>)
    ensures |r| == |server|
  {
    seq(|server|, i requires 0 <= i < |server| => ClientPart(server[i].number, Normalize(server[i].etag)))
  }

  /** The client's list as it is compared. */
  function Unquoted(sent: seq<ClientPart>): (r: seq<ClientPart>)
    ensures |r| == |sent|
  {
    seq(|sent|, i requires 0 <= i < |sent| => ClientPart(sent[i].number, Normalize(sent[i].etag)))
  }

  predicate Sorted(parts: seq<ClientPart>) {
    forall i, j :: 0 <= i < j < |parts| ==> parts[i].number <= parts[j].number
  }

  function Insert(p: ClientPart, parts: seq<ClientPart>): (r: seq<ClientPart>)
    ensures |r| == |parts| + 1
  {
    if parts == [] || p.number <= parts[0].number then [p] + parts
    else [parts[0]] + Insert(p, parts[1..])
  }

  function SortByNumber(parts: seq<ClientPart>): (r: seq<ClientPart>)
    ensures |r| == |parts|
  {
    if parts == [] then [] else Insert(parts[0], SortByNumber(parts[1..]))
  }

  lemma {:induction false} InsertPermutes(p: ClientPart, parts: seq<ClientPart>)
    ensures multiset(Insert(p, parts)) == multiset(parts) + multiset{p}
  {
    if parts == [] || p.number <= parts[0].number {
    } else {
      InsertPermutes(p, parts[1..]);
      assert parts == [parts[0]] + parts[1..];
    }
  }

  lemma {:induction false} InsertSorts(p: ClientPart, parts: seq<ClientPart>)
    requires Sorted(parts)
    ensures Sorted(Insert(p, parts))
  {
    if parts == [] || p.number <= parts[0].number {
    } else {
      var r := Insert(p, parts[1..]);
      InsertSorts(p, parts[1..]);
      forall i | 0 <= i < |r| ensures parts[0].number <= r[i].number {
        assert r[0].number <= r[i].number;
        assert r[0] == p || r[0] == parts[1];
      }
    }
  }

  /** What std::sort leaves: the same parts, by number. */
  lemma {:induction false} SortByNumberSorts(parts: seq<ClientPart>)
    ensures Sorted(SortByNumber(parts)) && multiset(SortByNumber(parts)) == multiset(parts)
  {
    if parts != [] {
      SortByNumberSorts(parts[1..]);
      InsertSorts(parts[0], SortByNumber(parts[1..]));
      InsertPermutes(parts[0], SortByNumber(parts[1..]));
      assert parts == [parts[0]] + parts[1..];
    }
  }

  function Sum(parts: seq<ServerPart>): nat {
    if parts == [] then 0 else Sum(parts[..|parts| - 1]) + parts[|parts| - 1].size
  }

  datatype Match = Accepted(keys: seq<Digest>, size: nat) | CountMismatch | NumberMismatch | EtagMismatch(number: int)

  /** The client's list, sorted by number, against the parts that are stored. */
  method MatchParts(client: seq<ClientPart>, server: seq<ServerPart>) returns (m: Match)
    ensures m.Accepted? <==> SortByNumber(client) == Named(server)
    ensures m.Accepted? ==> m.size == Sum(server) && |m.keys| == |server|
                            && forall i :: 0 <= i < |server| ==> m.keys[i] == server[i].cas
    ensures m.CountMismatch? <==> |client| != |server|
    ensures m.NumberMismatch? ==>
              exists i :: 0 <= i < |client| == |server| && SortByNumber(client)[..i] == Named(server)[..i]
                          && SortByNumber(client)[i].number != server[i].number
    ensures m.EtagMismatch? ==>
              exists i :: 0 <= i < |client| == |server| && SortByNumber(client)[..i] == Named(server)[..i]
                          && SortByNumber(client)[i].number == server[i].number == m.number
                          && SortByNumber(client)[i].etag != Normalize(server[i].etag)
  {
    var sorted := SortByNumber(client);
    if |sorted| != |server| {
      return CountMismatch;
    }
    var keys: seq<Digest> := [];
    var total := 0;
    for i := 0 to |sorted|
      invariant sorted[..i] == Named(server)[..i]
      invariant total == Sum(server[..i]) && |keys| == i
      invariant forall j :: 0 <= j < i ==> keys[j] == server[j].cas
    {
      if sorted[i].number != server[i].number {
        return NumberMismatch;
      }
      if sorted[i].etag != Normalize(server[i].etag) {
        return EtagMismatch(sorted[i].number);
      }
      keys := keys + [server[i].cas];
      assert server[..i + 1][..i] == server[..i];
      total := total + server[i].size;
    }
    assert sorted[..|sorted|] == sorted && server[..|sorted|] == server;
    return Accepted(keys, total);
  }

  lemma SameLength(a: seq<ClientPart>, b: seq<ClientPart>)
    requires multiset(a) == multiset(b)
    ensures |a| == |b|
  {
    assert |multiset(a)| == |a| && |multiset(b)| == |b|;
  }

  lemma WithoutFirst(a: seq<ClientPart>)
    requires a != []
    ensures multiset(a[1..]) == multiset(a) - multiset{a[0]}
  {
    assert a == [a[0]] + a[1..];
  }

  lemma SmallestFirst(a: seq<ClientPart>, b: seq<ClientPart>)
    requires a != [] && b != [] && Sorted(a) && multiset(a) == multiset(b)
    requires forall i, j :: 0 <= i < j < |b| ==> b[i].number < b[j].number
    ensures a[0] == b[0]
  {
    assert a[0] in multiset(b) && b[0] in multiset(a);
  }

  /** A sorted list is determined by what is in it, when the numbers differ. */
  lemma {:induction false} SortedIsUnique(a: seq<ClientPart>, b: seq<ClientPart>)
    requires Sorted(a) && multiset(a) == multiset(b)
    requires forall i, j :: 0 <= i < j < |b| ==> b[i].number < b[j].number
    ensures a == b
    decreases |a|
  {
    SameLength(a, b);
    if a != [] {
      SmallestFirst(a, b);
      WithoutFirst(a);
      WithoutFirst(b);
      SortedIsUnique(a[1..], b[1..]);
    }
  }

  /** An upload completes exactly when the client names each stored part once, with its
      ETag, in any order. */
  lemma AcceptedIffPermutation(client: seq<ClientPart>, server: seq<ServerPart>)
    requires Ascending(server)
    ensures SortByNumber(client) == Named(server) <==> multiset(client) == multiset(Named(server))
  {
    SortByNumberSorts(client);
    if multiset(client) == multiset(Named(server)) {
      SortedIsUnique(SortByNumber(client), Named(server));
    }
  }

  /** What the replies to the parts' uploads and the listing tell the client. */
  function Told(numbers: seq<nat>, etags: seq<string>): (r: seq<ClientPart>)
    requires |numbers| == |etags|
  {
    seq(|numbers|, i requires 0 <= i < |numbers| => ClientPart(numbers[i], etags[i]))
  }

  /** The client may send each ETag with its quotes or without. */
  predicate SentAs(sent: seq<ClientPart>, meant: seq<ClientPart>) {
    |sent| == |meant| && forall i :: 0 <= i < |sent| ==>
      && sent[i].number == meant[i].number && !Quoted(meant[i].etag)
      && (sent[i].etag == meant[i].etag || sent[i].etag == "\"" + meant[i].etag + "\"")
  }

  /** With the ETags stored in quotes, as the upload of a part stores them, the lists that
      are accepted are the orders of the part numbers with these ETags, quoted or not. */
  lemma AcceptedIffTold(sent: seq<ClientPart>, meant: seq<ClientPart>, server: seq<ServerPart>, etags: seq<string>)
    requires Ascending(server) && |etags| == |server| && SentAs(sent, meant)
    requires forall i :: 0 <= i < |server| ==> server[i].etag == "\"" + etags[i] + "\""
    ensures var told := Told(seq(|server|, i requires 0 <= i < |server| => server[i].number), etags);
            SortByNumber(Unquoted(sent)) == Named(server) <==> multiset(meant) == multiset(told)
  {
    var told := Told(seq(|server|, i requires 0 <= i < |server| => server[i].number), etags);
    forall i | 0 <= i < |server| ensures told[i] == Named(server)[i] {
      NormalizeUnquotes(etags[i]);
    }
    forall i | 0 <= i < |sent| ensures Unquoted(sent)[i] == meant[i] {
      NormalizeUnquotes(meant[i].etag);
    }
    assert told == Named(server) && Unquoted(sent) == meant;
    AcceptedIffPermutation(meant, server);
  }
}
