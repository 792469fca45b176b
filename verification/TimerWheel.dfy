/** The timer wheel of src/net/epoll/timer_wheel.cpp, as a map from id to deadline. */
module TimerWheels {
  import opened Base

  /** A live timer: the ticks until it fires, and what it was set with. */
  datatype Timer = Timer(due: nat, repeats: bool, interval: nat)

  type Timers = map<nat, Timer>

  /** Ticks from now until a wheel of size w reaches the slot delay ahead. */
  function Wait(delay: nat, w: nat): (n: nat)
    requires delay >= 1 && w >= 1
    ensures 1 <= n <= w
  {
    if delay <= w then delay else Wait(delay - w, w)
  }

  lemma {:induction false} WaitIsRemainder(delay: nat, w: nat)
    requires delay >= 1 && w >= 1
    ensures Wait(delay, w) == (delay - 1) % w + 1
    decreases delay
  {
    if delay <= w {
      RemainderIs(delay - 1, 0, delay - 1, w);
    } else {
      WaitIsRemainder(delay - w, w);
      var q, r := (delay - w - 1) / w, (delay - w - 1) % w;
      assert delay - 1 == (q + 1) * w + r;
      RemainderIs(delay - 1, q + 1, r, w);
    }
  }

  lemma RemainderIs(x: nat, q: int, r: nat, w: nat)
    requires r < w && x == q * w + r
    ensures x % w == r
  {
    var d := x / w;
    assert x == d * w + x % w;
    if q > d {
      Scaled(d + 1, q, w);
    } else if q < d {
      Scaled(q + 1, d, w);
    }
  }

  lemma Scaled(a: int, b: int, w: nat)
    requires a <= b
    ensures a * w <= b * w
  {
  }

  /** The slot delay ahead of current comes up after Wait(delay) ticks. */
  lemma SlotAhead(current: nat, delay: nat, w: nat)
    requires current < w && delay >= 1
    ensures var slot := (current + delay) % w;
            slot < w && Wait(delay, w) == if slot > current then slot - current else slot + w - current
  {
    WaitIsRemainder(delay, w);
    var q, r := (delay - 1) / w, (delay - 1) % w;
    assert delay - 1 == q * w + r;
    if current + r + 1 < w {
      RemainderIs(current + delay, q, current + r + 1, w);
    } else {
      assert (q + 1) * w == q * w + w;
      RemainderIs(current + delay, q + 1, current + r + 1 - w, w);
    }
  }

  function Delay(seconds: int): (d: nat)
    ensures d >= 1
  {
    if seconds <= 0 then 1 else seconds
  }

  /** The timers a tick fires. */
  function Firing(m: Timers): set<nat> {
    set id | id in m && m[id].due == 1
  }

  /** One tick: due timers fire, and come back if they repeat. */
  function Ticked(m: Timers, w: nat): Timers
    requires w >= 1 && Sound(m, w)
  {
    map id | id in m && (m[id].due > 1 || m[id].repeats) ::
      if m[id].due > 1 then m[id].(due := m[id].due - 1) else m[id].(due := Wait(m[id].interval, w))
  }

  predicate Sound(m: Timers, w: nat) {
    forall id :: id in m ==> 1 <= m[id].due <= w && m[id].interval >= 1
  }

  function Added(m: Timers, id: nat, seconds: int, repeats: bool, w: nat): Timers
    requires w >= 1
  {
    m[id := Timer(Wait(Delay(seconds), w), repeats, Delay(seconds))]
  }

  function Refreshed(m: Timers, id: nat, seconds: int, w: nat): Timers
    requires w >= 1 && Sound(m, w)
  {
    if id !in m then m else
    var interval := if seconds > 0 then seconds else m[id].interval;
    m[id := Timer(Wait(interval, w), m[id].repeats, interval)]
  }

  /** A wheel entry. Buckets and the id map share entries, so both hold handles. */
  type Handle = nat
  datatype Entry = Entry(id: nat, repeats: bool, interval: nat, cancelled: bool)

  /** The wheel's fields as one value; slots records where each entry was put. */
  datatype Wheel = Wheel(size: nat, current: nat, buckets: seq<seq<Handle>>, entries: map<Handle, Entry>,
                         timers: map<nat, Handle>, nextId: nat, nextEntry: Handle,
                         slots: map<Handle, nat>)

  predicate Distinct(b: seq<Handle>) {
    forall j, k :: 0 <= j < k < |b| ==> b[j] != b[k]
  }

  ghost predicate InBucket(w: Wheel, i: nat, h: Handle) {
    i < |w.buckets| && h in w.buckets[i]
  }

  /** Every handle in a bucket is a known entry, put there, and there once. */
  ghost predicate BucketsOk(w: Wheel, pending: set<Handle>) {
    && w.size >= 1 && |w.buckets| == w.size && w.current < w.size
    && (forall i, h :: InBucket(w, i, h) ==>
          && h in w.entries && h in w.slots && w.slots[h] == i && h !in pending
          && w.entries[h].interval >= 1)
    && (forall i :: 0 <= i < w.size ==> Distinct(w.buckets[i]))
  }

  /** A live entry, in the wheel or pending, is the one its id is mapped to. */
  ghost predicate OwnsId(w: Wheel, h: Handle)
    requires h in w.entries
  {
    w.entries[h].id in w.timers && w.timers[w.entries[h].id] == h
  }

  ghost predicate PendingOk(w: Wheel, pending: set<Handle>) {
    forall h :: h in pending ==>
      h in w.entries && !w.entries[h].cancelled && w.entries[h].interval >= 1 && OwnsId(w, h)
  }

  ghost predicate EntriesOk(w: Wheel) {
    forall h :: h in w.entries ==> h < w.nextEntry && w.entries[h].id < w.nextId
  }

  ghost predicate IdsOk(w: Wheel, pending: set<Handle>) {
    w.current < w.size && forall id :: id in w.timers ==> LiveEntry(w, id, pending)
  }

  /** The invariant while the entries in pending are out of the wheel: an id is in
      the map exactly when one live entry, in the wheel or pending, carries it. */
  ghost predicate Inv(w: Wheel, pending: set<Handle>) {
    && BucketsOk(w, pending)
    && (forall i, h :: InBucket(w, i, h) && !w.entries[h].cancelled ==> OwnsId(w, h))
    && IdsOk(w, pending)
    && PendingOk(w, pending)
    && EntriesOk(w)
  }

  ghost predicate LiveEntry(w: Wheel, id: nat, pending: set<Handle>)
    requires id in w.timers
  {
    var h := w.timers[id];
    && h in w.entries && w.entries[h].id == id && !w.entries[h].cancelled && w.entries[h].interval >= 1
    && (h !in pending ==> h in w.slots && w.slots[h] < w.size && InBucket(w, w.slots[h], h))
  }

  /** Position j of bucket i holds a live entry with that id. */
  ghost predicate LiveAt(w: Wheel, i: nat, j: nat, id: nat) {
    && i < |w.buckets| && j < |w.buckets[i]| && w.buckets[i][j] in w.entries
    && w.entries[w.buckets[i][j]].id == id && !w.entries[w.buckets[i][j]].cancelled
  }

  /** At every state an id is in the map if and only if a live entry with that id is
      in the wheel, and then there is exactly one. */
  lemma OneLiveEntry(w: Wheel, id: nat)
    requires Inv(w, {})
    ensures id in w.timers <==> exists i: nat, j: nat :: LiveAt(w, i, j, id)
    ensures forall i: nat, j: nat, k: nat, l: nat :: LiveAt(w, i, j, id) && LiveAt(w, k, l, id) ==> i == k && j == l
  {
    if id in w.timers {
      assert LiveEntry(w, id, {});
      var h := w.timers[id];
      var j :| 0 <= j < |w.buckets[w.slots[h]]| && w.buckets[w.slots[h]][j] == h;
      assert LiveAt(w, w.slots[h], j, id);
    }
    forall i: nat, j: nat | LiveAt(w, i, j, id)
      ensures id in w.timers && w.timers[id] == w.buckets[i][j] && w.slots[w.buckets[i][j]] == i
    {
      assert InBucket(w, i, w.buckets[i][j]);
    }
  }

  /** Ticks until the wheel reaches a slot. */
  ghost function Ahead(w: Wheel, slot: nat): (n: nat)
    requires slot < w.size && w.current < w.size
    ensures 1 <= n <= w.size
  {
    if slot > w.current then slot - w.current else slot + w.size - w.current
  }

  ghost function TimerOf(w: Wheel, pending: set<Handle>, id: nat): Timer
    requires w.current < w.size && id in w.timers && LiveEntry(w, id, pending)
  {
    var h := w.timers[id];
    var e := w.entries[h];
    Timer(if h in pending then Wait(e.interval, w.size) else Ahead(w, w.slots[h]), e.repeats, e.interval)
  }

  /** The abstraction: live timers and when they are due, pending ones as just set. */
  ghost function Live(w: Wheel, pending: set<Handle>): (m: Timers)
    requires IdsOk(w, pending)
  {
    map id | id in w.timers :: TimerOf(w, pending, id)
  }

  lemma LiveSound(w: Wheel, pending: set<Handle>)
    requires Inv(w, pending)
    ensures Sound(Live(w, pending), w.size)
  {
    forall id | id in w.timers ensures 1 <= Live(w, pending)[id].due <= w.size && Live(w, pending)[id].interval >= 1 {
      assert LiveEntry(w, id, pending);
    }
  }

  /** The handle goes to the back of the bucket its interval leads to. */
  ghost function Placed(w: Wheel, h: Handle): Wheel
    requires w.size >= 1 && |w.buckets| == w.size && h in w.entries
  {
    var slot := (w.current + w.entries[h].interval) % w.size;
    w.(buckets := w.buckets[slot := w.buckets[slot] + [h]], slots := w.slots[h := slot])
  }

  /** Placing adds the one handle to the one bucket. */
  lemma PlacedMembers(w: Wheel, h: Handle, pending: set<Handle>)
    requires Inv(w, pending) && h in pending
    ensures var v := Placed(w, h);
            forall i, g :: InBucket(v, i, g) <==> (g == h && i == v.slots[h]) || InBucket(w, i, g)
    ensures forall i, g :: InBucket(w, i, g) ==> g != h
  {
    var v := Placed(w, h);
    SlotAhead(w.current, w.entries[h].interval, w.size);
    assert v.buckets[v.slots[h]] == w.buckets[v.slots[h]] + [h];
  }

  lemma PlacedBuckets(w: Wheel, h: Handle, pending: set<Handle>)
    requires Inv(w, pending) && h in pending
    ensures BucketsOk(Placed(w, h), pending - {h})
  {
    var v := Placed(w, h);
    PlacedMembers(w, h, pending);
    var slot := v.slots[h];
    forall i | 0 <= i < v.size ensures Distinct(v.buckets[i]) {
      assert Distinct(w.buckets[i]);
      assert h in w.buckets[slot] ==> InBucket(w, slot, h);
    }
    forall i, g | InBucket(v, i, g)
      ensures g in v.entries && g in v.slots && v.slots[g] == i && g !in pending - {h} && v.entries[g].interval >= 1
    {
      assert g != h ==> InBucket(w, i, g);
    }
  }

  lemma PlacedKeeps(w: Wheel, h: Handle, pending: set<Handle>)
    requires Inv(w, pending) && h in pending
    ensures Inv(Placed(w, h), pending - {h})
    ensures Live(Placed(w, h), pending - {h}) == Live(w, pending)
  {
    var v := Placed(w, h);
    PlacedMembers(w, h, pending);
    PlacedBuckets(w, h, pending);
    forall id | id in v.timers ensures LiveEntry(v, id, pending - {h}) {
      assert LiveEntry(w, id, pending);
    }
    forall i, g | InBucket(v, i, g) && !v.entries[g].cancelled ensures OwnsId(v, g) {
      assert OwnsId(w, g);
    }
    forall g | g in pending - {h} ensures OwnsId(v, g) {
      assert OwnsId(w, g);
    }
    PlacedLive(w, h, pending);
  }

  lemma PlacedLive(w: Wheel, h: Handle, pending: set<Handle>)
    requires Inv(w, pending) && h in pending && Inv(Placed(w, h), pending - {h})
    ensures Live(Placed(w, h), pending - {h}) == Live(w, pending)
  {
    SlotAhead(w.current, w.entries[h].interval, w.size);
    var v := Placed(w, h);
    forall id | id in w.timers ensures TimerOf(v, pending - {h}, id) == TimerOf(w, pending, id) {
      assert LiveEntry(w, id, pending) && LiveEntry(v, id, pending - {h});
    }
  }

  class TimerWheel {
    const size: nat
    var current: nat
    var buckets: seq<seq<Handle>>
    var entries: map<Handle, Entry>
    var timers: map<nat, Handle>
    var nextId: nat
    var nextEntry: Handle
    ghost var slots: map<Handle, nat>

    ghost function View(): Wheel
      reads this
    {
      Wheel(size, current, buckets, entries, timers, nextId, nextEntry, slots)
    }

    ghost predicate Valid()
      reads this
    {
      Inv(View(), {})
    }

    ghost function Timers(): (m: Timers)
      requires Valid()
      reads this
      ensures Sound(m, size)
    {
      LiveSound(View(), {});
      Live(View(), {})
    }

    constructor (size: nat)
      requires size >= 1
      ensures Valid() && this.size == size && Timers() == map[]
    {
      this.size := size;
      current, nextId, nextEntry := 0, 1, 0;
      buckets := seq(size, i => []);
      entries, timers, slots := map[], map[], map[];
    }

    /** A new entry, not yet in the wheel. */
    method NewEntry(e: Entry) returns (h: Handle)
      modifies this
      ensures h == old(nextEntry)
      ensures View() == old(View()).(entries := old(entries)[h := e], nextEntry := h + 1)
    {
      h := nextEntry;
      nextEntry := nextEntry + 1;
      entries := entries[h := e];
    }

    method Place(h: Handle)
      requires size >= 1 && |buckets| == size && h in entries
      modifies this
      ensures View() == Placed(old(View()), h)
    {
      var slot := (current + entries[h].interval) % size;
      buckets := buckets[slot := buckets[slot] + [h]];
      slots := slots[h := slot];
    }

    method AddTimer(seconds: int, repeats: bool) returns (id: nat)
      requires Valid()
      modifies this
      ensures Valid() && id == old(nextId) && id !in old(Timers())
      ensures Timers() == Added(old(Timers()), id, seconds, repeats, size)
    {
      ghost var w := View();
      id := nextId;
      nextId := nextId + 1;
      var h := NewEntry(Entry(id, repeats, Delay(seconds), false));
      timers := timers[id := h];
      AddedKeeps(w, View(), id, h);
      PlacedKeeps(View(), h, {h});
      Place(h);
      assert {h} - {h} == {};
    }

    method CancelTimer(id: nat)
      requires Valid()
      modifies this
      ensures Valid() && Timers() == old(Timers()) - {id}
    {
      ghost var w := View();
      if id in timers {
        var h := timers[id];
        assert LiveEntry(w, id, {});
        entries := entries[h := entries[h].(cancelled := true)];
        timers := timers - {id};
        CancelledKeeps(w, View(), id);
      }
    }

    method RefreshTimer(id: nat, seconds: int)
      requires Valid()
      modifies this
      ensures Valid() && Timers() == Refreshed(old(Timers()), id, seconds, size)
    {
      ghost var w := View();
      if id in timers {
        var h := timers[id];
        assert LiveEntry(w, id, {});
        var e := entries[h];
        if e.cancelled {
          return;
        }
        var fresh' := NewEntry(e.(interval := if seconds > 0 then seconds else e.interval));
        entries := entries[h := e.(cancelled := true)];
        timers := timers[id := fresh'];
        RefreshedKeeps(w, View(), id, fresh');
        PlacedKeeps(View(), fresh', {fresh'});
        Place(fresh');
        assert {fresh'} - {fresh'} == {};
      }
    }

    /** Advances one slot and returns the ids that fired, in bucket order. */
    method Tick() returns (fired: seq<nat>)
      requires Valid()
      modifies this
      ensures Valid() && Timers() == Ticked(old(Timers()), size)
      ensures Distinct(fired) && (forall id :: id in fired <==> id in Firing(old(Timers())))
    {
      ghost var w := View();
      var repeating;
      fired, repeating := Fire();
      EmptiedKeeps(w);
      EmptiedLive(w);
      forall id ensures id in fired <==> id in Firing(Live(w, {})) {
        if id in w.timers {
          DueNext(w, id);
        }
      }
      PlaceAll(repeating);
    }

    /** Puts the repeating entries back, each an interval ahead. */
    method PlaceAll(repeating: seq<Handle>)
      requires Distinct(repeating) && Inv(View(), Members(repeating))
      modifies this
      ensures Valid() && Timers() == Live(old(View()), Members(repeating))
    {
      ghost var goal := Live(View(), Members(repeating));
      var k := 0;
      assert repeating[k..] == repeating;
      while k < |repeating|
        invariant k <= |repeating|
        invariant Inv(View(), Members(repeating[k..])) && Live(View(), Members(repeating[k..])) == goal
      {
        var h := repeating[k];
        RestAfter(repeating, k);
        PlacedKeeps(View(), h, Members(repeating[k..]));
        Place(h);
        k := k + 1;
      }
      assert Members(repeating[k..]) == {};
    }

    /** Fires the next bucket's live entries and empties it. */
    method Fire() returns (fired: seq<nat>, repeating: seq<Handle>)
      requires Valid()
      modifies this
      ensures View() == Emptied(old(View()))
      ensures Distinct(repeating) && Members(repeating) == Repeating(old(View()))
      ensures Distinct(fired)
      ensures forall id :: id in fired <==> id in old(timers) && old(timers)[id] in old(buckets)[current]
    {
      ghost var w := View();
      NextSlot(w);
      var next := (current + 1) % size;
      fired, repeating := Visit(next);
      current := next;
      buckets := buckets[next := []];
      assert Members(repeating) == Repeating(w);
    }

    method Visit(next: nat) returns (fired: seq<nat>, repeating: seq<Handle>)
      requires Valid() && next == (current + 1) % size && next < size
      modifies this
      ensures FiredSoFar(old(View()), next, old(buckets)[next], fired, repeating)
      ensures Known(old(View())) && View() == old(View()).(timers := Unfired(old(View()), old(buckets)[next]))
    {
      ghost var w := View();
      EntryKnown(w);
      var b := buckets[next];
      fired, repeating := [], [];
      var i := 0;
      while i < |b|
        invariant i <= |b|
        invariant FiredSoFar(w, next, b[..i], fired, repeating)
        invariant View() == w.(timers := Unfired(w, b[..i]))
      {
        fired, repeating := VisitStep(w, next, b, i, fired, repeating);
        i := i + 1;
      }
      assert b[..i] == b;
    }

    method VisitStep(ghost w: Wheel, ghost next: nat, b: seq<Handle>, i: nat,
                     fired: seq<nat>, repeating: seq<Handle>)
      returns (fired': seq<nat>, repeating': seq<Handle>)
      requires Inv(w, {}) && Known(w) && next == (w.current + 1) % w.size && next < w.size
      requires b == w.buckets[next] && i < |b|
      requires FiredSoFar(w, next, b[..i], fired, repeating)
      requires View() == w.(timers := Unfired(w, b[..i]))
      modifies this`timers
      ensures FiredSoFar(w, next, b[..i + 1], fired', repeating')
      ensures View() == w.(timers := Unfired(w, b[..i + 1]))
    {
      FireOne(w, b, i);
      FiredStep(w, next, b, i, fired, repeating);
      fired', repeating' := VisitOne(b[i], fired, repeating);
    }

    /** A cancelled entry is passed over; a live one fires, and is kept if it repeats. */
    method VisitOne(h: Handle, fired: seq<nat>, repeating: seq<Handle>)
      returns (fired': seq<nat>, repeating': seq<Handle>)
      requires h in entries
      modifies this`timers
      ensures var e := entries[h];
              && fired' == (if e.cancelled then fired else fired + [e.id])
              && repeating' == (if e.cancelled || !e.repeats then repeating else repeating + [h])
              && timers == if e.cancelled || e.repeats then old(timers) else old(timers) - {e.id}
    {
      fired', repeating' := fired, repeating;
      if !entries[h].cancelled {
        fired' := fired' + [entries[h].id];
        if entries[h].repeats {
          repeating' := repeating' + [h];
        } else {
          timers := timers - {entries[h].id};
        }
      }
    }
  }

  /** What the loop over the bucket has collected from its first entries. */
  ghost predicate FiredSoFar(w: Wheel, next: nat, b: seq<Handle>, fired: seq<nat>, repeating: seq<Handle>) {
    && Distinct(repeating) && Distinct(fired)
    && (forall h :: h in repeating <==>
          h in b && InBucket(w, next, h) && h in w.entries && !w.entries[h].cancelled && w.entries[h].repeats)
    && (forall id :: id in fired <==> id in w.timers && w.timers[id] in b)
  }

  lemma DistinctSnoc(s: seq<Handle>, x: Handle)
    requires Distinct(s) && x !in s
    ensures Distinct(s + [x])
  {
  }

  lemma FiredStep(w: Wheel, next: nat, b: seq<Handle>, i: nat, fired: seq<nat>, repeating: seq<Handle>)
    requires i < |b| && b[i] in w.entries && b[i] !in b[..i] && InBucket(w, next, b[i])
    requires FiredSoFar(w, next, b[..i], fired, repeating)
    requires var e := w.entries[b[i]];
             forall id :: id in w.timers && w.timers[id] == b[i] <==> !e.cancelled && id == e.id
    ensures var e := w.entries[b[i]];
            FiredSoFar(w, next, b[..i + 1], if e.cancelled then fired else fired + [e.id],
                       if e.cancelled || !e.repeats then repeating else repeating + [b[i]])
  {
    var e := w.entries[b[i]];
    assert b[..i + 1] == b[..i] + [b[i]];
    if !e.cancelled {
      assert e.id in w.timers && w.timers[e.id] == b[i];
      assert e.id !in fired && b[i] !in repeating;
      DistinctSnoc(fired, e.id);
      DistinctSnoc(repeating, b[i]);
    }
  }

  lemma RestAfter(s: seq<Handle>, k: nat)
    requires k < |s| && Distinct(s)
    ensures s[k] in Members(s[k..]) && Members(s[k..]) - {s[k]} == Members(s[k + 1..])
  {
    assert s[k..] == [s[k]] + s[k + 1..];
  }

  /** What visiting one entry of the bucket changes in the id map. */
  lemma FireOne(w: Wheel, b: seq<Handle>, i: nat)
    requires Inv(w, {}) && w.current < w.size && i < |b|
    requires var next := (w.current + 1) % w.size; b == w.buckets[next]
    requires Known(w)
    ensures b[i] in w.entries && b[i] !in b[..i] && b[..i + 1] == b[..i] + [b[i]]
    ensures InBucket(w, (w.current + 1) % w.size, b[i])
    ensures var e := w.entries[b[i]];
            && (forall id :: id in w.timers && w.timers[id] == b[i] <==> !e.cancelled && id == e.id)
            && Unfired(w, b[..i + 1]) ==
               if e.cancelled || e.repeats then Unfired(w, b[..i]) else Unfired(w, b[..i]) - {e.id}
  {
    var next := (w.current + 1) % w.size;
    var h := b[i];
    assert InBucket(w, next, h) && Distinct(b) && b[..i + 1] == b[..i] + [h];
    forall id | id in w.timers ensures w.timers[id] == h ==> !w.entries[h].cancelled && id == w.entries[h].id {
      assert LiveEntry(w, id, {});
    }
    assert !w.entries[h].cancelled ==> OwnsId(w, h);
  }

  function Members(s: seq<Handle>): set<Handle> {
    set h | h in s
  }

  /** Every id in the map leads to an entry. */
  predicate Known(w: Wheel) {
    forall id :: id in w.timers ==> w.timers[id] in w.entries
  }

  /** The map after the live, non-repeating entries of a bucket have fired. */
  function Unfired(w: Wheel, b: seq<Handle>): map<nat, Handle>
    requires Known(w)
  {
    map id | id in w.timers && (w.timers[id] !in b || w.entries[w.timers[id]].repeats) :: w.timers[id]
  }

  /** The wheel when a tick has emptied its bucket and holds the repeating entries. */
  ghost function Emptied(w: Wheel): Wheel
    requires Inv(w, {})
  {
    var next := (w.current + 1) % w.size;
    EntryKnown(w);
    w.(current := next, timers := Unfired(w, w.buckets[next]), buckets := w.buckets[next := []])
  }

  ghost function Repeating(w: Wheel): set<Handle>
    requires Inv(w, {})
  {
    var next := (w.current + 1) % w.size;
    set h | h in w.buckets[next] && InBucket(w, next, h) && !w.entries[h].cancelled && w.entries[h].repeats
  }

  lemma EntryKnown(w: Wheel)
    requires Inv(w, {})
    ensures Known(w)
  {
    forall id | id in w.timers ensures w.timers[id] in w.entries {
      assert LiveEntry(w, id, {});
    }
  }

  lemma NextSlot(w: Wheel)
    requires w.current < w.size
    ensures (w.current + 1) % w.size == if w.current + 1 < w.size then w.current + 1 else 0
  {
    if w.current + 1 < w.size {
      RemainderIs(w.current + 1, 0, w.current + 1, w.size);
    } else {
      RemainderIs(w.current + 1, 1, 0, w.size);
    }
  }

  /** A live timer is in the next bucket exactly when it is due in one tick. */
  lemma DueNext(w: Wheel, id: nat)
    requires Inv(w, {}) && id in w.timers
    ensures var next := (w.current + 1) % w.size;
            LiveEntry(w, id, {}) && (w.timers[id] in w.buckets[next] <==> TimerOf(w, {}, id).due == 1)
  {
    var next := (w.current + 1) % w.size;
    NextSlot(w);
    assert LiveEntry(w, id, {});
    var h := w.timers[id];
    if h in w.buckets[next] {
      assert InBucket(w, next, h);
    }
  }

  lemma EmptiedKeeps(w: Wheel)
    requires Inv(w, {})
    ensures Inv(Emptied(w), Repeating(w))
  {
    var v, r := Emptied(w), Repeating(w);
    var next := v.current;
    NextSlot(w);
    EntryKnown(w);
    forall i, h | InBucket(v, i, h) ensures InBucket(w, i, h) && h !in w.buckets[next] && h !in r {
      assert i != next && InBucket(w, i, h) && w.slots[h] == i;
      assert h in w.buckets[next] ==> InBucket(w, next, h);
    }
    forall i | 0 <= i < v.size ensures Distinct(v.buckets[i]) {
      assert Distinct(w.buckets[i]);
    }
    forall id | id in v.timers ensures LiveEntry(v, id, r) {
      assert LiveEntry(w, id, {});
      assert w.timers[id] !in r ==> w.timers[id] !in w.buckets[next];
    }
    forall i, h | InBucket(v, i, h) && !v.entries[h].cancelled ensures OwnsId(v, h) {
      assert InBucket(w, i, h) && OwnsId(w, h);
    }
    forall h | h in r ensures OwnsId(v, h) {
      assert InBucket(w, next, h) && OwnsId(w, h);
    }
  }

  lemma EmptiedTimer(w: Wheel, id: nat)
    requires Inv(w, {}) && Inv(Emptied(w), Repeating(w)) && id in Emptied(w).timers
    ensures LiveEntry(w, id, {}) && LiveEntry(Emptied(w), id, Repeating(w))
    ensures var t := TimerOf(w, {}, id);
            TimerOf(Emptied(w), Repeating(w), id) ==
            if t.due > 1 then t.(due := t.due - 1) else t.(due := Wait(t.interval, w.size))
  {
    DueNext(w, id);
    NextSlot(w);
    var v, r := Emptied(w), Repeating(w);
    var h := w.timers[id];
    assert LiveEntry(v, id, r);
    assert h in r <==> h in w.buckets[v.current];
  }

  lemma EmptiedLive(w: Wheel)
    requires Inv(w, {}) && Inv(Emptied(w), Repeating(w))
    ensures Sound(Live(w, {}), w.size)
    ensures Live(Emptied(w), Repeating(w)) == Ticked(Live(w, {}), w.size)
  {
    LiveSound(w, {});
    EmptiedIds(w);
    var v := Emptied(w);
    forall id | id in v.timers ensures TimerOf(v, Repeating(w), id) == Ticked(Live(w, {}), w.size)[id] {
      EmptiedTimer(w, id);
    }
  }

  lemma EmptiedIds(w: Wheel)
    requires Inv(w, {}) && Sound(Live(w, {}), w.size)
    ensures Emptied(w).timers.Keys == Ticked(Live(w, {}), w.size).Keys
  {
    var m := Live(w, {});
    EntryKnown(w);
    forall id | id in w.timers
      ensures id in Emptied(w).timers <==> m[id].due > 1 || m[id].repeats
    {
      DueNext(w, id);
    }
  }

  /** An id that gets a new, still unplaced entry; no other id is touched. */
  lemma LiveAfterUpdate(w: Wheel, v: Wheel, id: nat, h: Handle)
    requires IdsOk(w, {}) && IdsOk(v, {h}) && v.timers == w.timers[id := h]
    requires h in v.entries && v.entries[h].interval >= 1
    requires v.size == w.size && v.current == w.current && v.slots == w.slots
    requires forall j :: j in w.timers && j != id ==>
               && w.timers[j] in w.entries && w.timers[j] in v.entries
               && w.timers[j] != h && v.entries[w.timers[j]] == w.entries[w.timers[j]]
    ensures var e := v.entries[h];
            Live(v, {h}) == Live(w, {})[id := Timer(Wait(e.interval, w.size), e.repeats, e.interval)]
  {
    var e := v.entries[h];
    var m := Live(w, {})[id := Timer(Wait(e.interval, w.size), e.repeats, e.interval)];
    forall j | j in v.timers ensures Live(v, {h})[j] == m[j] {
      if j == id {
        assert LiveEntry(v, id, {h});
      } else {
        OtherTimer(w, v, h, j);
      }
    }
  }

  lemma OtherTimer(w: Wheel, v: Wheel, h: Handle, j: nat)
    requires IdsOk(w, {}) && IdsOk(v, {h}) && j in w.timers && j in v.timers && v.timers[j] == w.timers[j]
    requires v.size == w.size && v.current == w.current && v.slots == w.slots
    requires w.timers[j] in w.entries && w.timers[j] in v.entries
    requires w.timers[j] != h && v.entries[w.timers[j]] == w.entries[w.timers[j]]
    ensures LiveEntry(v, j, {h}) && LiveEntry(w, j, {}) && TimerOf(v, {h}, j) == TimerOf(w, {}, j)
  {
    assert LiveEntry(w, j, {}) && LiveEntry(v, j, {h});
  }

  /** A new id with a new entry, which is still to be placed. */
  lemma AddedKeeps(w: Wheel, v: Wheel, id: nat, h: Handle)
    requires Inv(w, {}) && id == w.nextId && h == w.nextEntry && h in v.entries
    requires v.entries[h].id == id && !v.entries[h].cancelled && v.entries[h].interval >= 1
    requires v == w.(entries := w.entries[h := v.entries[h]], timers := w.timers[id := h],
                     nextId := id + 1, nextEntry := h + 1)
    ensures id !in w.timers && Inv(v, {h})
    ensures var e := v.entries[h];
            Live(v, {h}) == Live(w, {})[id := Timer(Wait(e.interval, w.size), e.repeats, e.interval)]
  {
    assert id in w.timers ==> LiveEntry(w, id, {});
    SameBuckets(w, v, h);
    forall j | j in v.timers ensures LiveEntry(v, j, {h}) {
      assert j != id ==> LiveEntry(w, j, {});
    }
    forall i, g | InBucket(v, i, g) && !v.entries[g].cancelled ensures OwnsId(v, g) {
      assert OwnsId(w, g);
    }
    forall j | j in w.timers ensures w.timers[j] in w.entries && w.timers[j] < h {
      assert LiveEntry(w, j, {});
    }
    LiveAfterUpdate(w, v, id, h);
  }

  /** Buckets stay well-formed when entries are only added or marked. */
  lemma SameBuckets(w: Wheel, v: Wheel, h: Handle)
    requires Inv(w, {}) && h == w.nextEntry
    requires v.size == w.size && v.current == w.current && v.buckets == w.buckets && v.slots == w.slots
    requires forall g :: g in w.entries ==> g in v.entries && v.entries[g].interval == w.entries[g].interval
    ensures BucketsOk(v, {h})
    ensures forall i, g :: InBucket(v, i, g) <==> InBucket(w, i, g)
  {
    assert forall i, g :: InBucket(v, i, g) <==> InBucket(w, i, g);
  }

  lemma CancelledKeeps(w: Wheel, v: Wheel, id: nat)
    requires Inv(w, {}) && id in w.timers && w.timers[id] in w.entries
    requires var h := w.timers[id];
             v == w.(entries := w.entries[h := w.entries[h].(cancelled := true)], timers := w.timers - {id})
    ensures Inv(v, {}) && Live(v, {}) == Live(w, {}) - {id}
  {
    assert LiveEntry(w, id, {});
    assert forall i, g :: InBucket(v, i, g) <==> InBucket(w, i, g);
    forall j | j in v.timers ensures LiveEntry(v, j, {}) {
      assert LiveEntry(w, j, {});
    }
    forall i, g | InBucket(v, i, g) && !v.entries[g].cancelled ensures OwnsId(v, g) {
      assert OwnsId(w, g);
    }
    CancelledLive(w, v, id);
  }

  lemma CancelledLive(w: Wheel, v: Wheel, id: nat)
    requires IdsOk(w, {}) && IdsOk(v, {}) && v.timers == w.timers - {id}
    requires v.size == w.size && v.current == w.current && v.slots == w.slots
    requires forall j :: j in v.timers ==>
               w.timers[j] in w.entries && w.timers[j] in v.entries && v.entries[w.timers[j]] == w.entries[w.timers[j]]
    ensures Live(v, {}) == Live(w, {}) - {id}
  {
    forall j | j in v.timers ensures TimerOf(v, {}, j) == TimerOf(w, {}, j) {
      assert LiveEntry(w, j, {}) && LiveEntry(v, j, {});
    }
  }

  /** The id moves to a new entry, which is still to be placed; the old one is dead. */
  lemma RefreshedKeeps(w: Wheel, v: Wheel, id: nat, h: Handle)
    requires Inv(w, {}) && id in w.timers && w.timers[id] in w.entries && h == w.nextEntry && h in v.entries
    requires v.entries[h].id == id && !v.entries[h].cancelled && v.entries[h].interval >= 1
    requires var g := w.timers[id];
             v == w.(entries := w.entries[h := v.entries[h]][g := w.entries[g].(cancelled := true)],
                     timers := w.timers[id := h], nextEntry := h + 1)
    ensures Inv(v, {h})
    ensures var e := v.entries[h];
            Live(v, {h}) == Live(w, {})[id := Timer(Wait(e.interval, w.size), e.repeats, e.interval)]
  {
    assert LiveEntry(w, id, {});
    SameBuckets(w, v, h);
    forall j | j in v.timers ensures LiveEntry(v, j, {h}) {
      assert LiveEntry(w, j, {});
    }
    forall i, g | InBucket(v, i, g) && !v.entries[g].cancelled ensures OwnsId(v, g) {
      assert OwnsId(w, g);
    }
    forall j | j in w.timers && j != id
      ensures w.timers[j] in w.entries && w.timers[j] < h && v.entries[w.timers[j]] == w.entries[w.timers[j]]
    {
      assert LiveEntry(w, j, {});
    }
    LiveAfterUpdate(w, v, id, h);
  }

  // ----- runs

  predicate SoundTimer(t: Option<Timer>, w: nat) {
    t.Some? ==> 1 <= t.value.due <= w && t.value.interval >= 1
  }

  function Look(m: Timers, id: nat): Option<Timer> {
    if id in m then Some(m[id]) else None
  }

  /** What a tick does to one timer. */
  function TickOne(t: Option<Timer>, w: nat): (r: Option<Timer>)
    requires w >= 1 && SoundTimer(t, w)
    ensures SoundTimer(r, w)
  {
    if t.None? then None
    else if t.value.due > 1 then Some(t.value.(due := t.value.due - 1))
    else if t.value.repeats then Some(t.value.(due := Wait(t.value.interval, w)))
    else None
  }

  /** The timer after n ticks. */
  function After(t: Option<Timer>, w: nat, n: nat): (r: Option<Timer>)
    requires w >= 1 && SoundTimer(t, w)
    ensures SoundTimer(r, w)
    decreases n
  {
    if n == 0 then t else After(TickOne(t, w), w, n - 1)
  }

  /** The timer fires on the n-th tick from now. */
  predicate FiresOn(t: Option<Timer>, w: nat, n: nat)
    requires w >= 1 && SoundTimer(t, w) && n >= 1
  {
    var before := After(t, w, n - 1);
    before.Some? && before.value.due == 1
  }

  lemma {:induction false} AfterWaiting(t: Timer, w: nat, n: nat)
    requires w >= 1 && SoundTimer(Some(t), w) && n < t.due
    ensures After(Some(t), w, n) == Some(t.(due := t.due - n))
    decreases n
  {
    if n > 0 {
      AfterWaiting(t.(due := t.due - 1), w, n - 1);
    }
  }

  lemma {:induction false} AfterGone(w: nat, n: nat)
    requires w >= 1
    ensures After(None, w, n) == None
    decreases n
  {
    if n > 0 {
      AfterGone(w, n - 1);
    }
  }

  lemma {:induction false} AfterSum(t: Option<Timer>, w: nat, a: nat, b: nat)
    requires w >= 1 && SoundTimer(t, w)
    ensures After(t, w, a + b) == After(After(t, w, a), w, b)
    decreases a
  {
    if a > 0 {
      AfterSum(TickOne(t, w), w, a - 1, b);
    }
  }

  /** From the tick a timer fires on, the future is that of the timer set again,
      or of no timer. */
  lemma AfterFiring(t: Timer, w: nat, n: nat)
    requires w >= 1 && SoundTimer(Some(t), w) && n >= t.due
    ensures var again := if t.repeats then Some(t.(due := Wait(t.interval, w))) else None;
            After(Some(t), w, n) == After(again, w, n - t.due)
  {
    AfterWaiting(t, w, t.due - 1);
    AfterSum(Some(t), w, t.due - 1, n - t.due + 1);
  }

  /** A timer that does not repeat fires on exactly one tick, the one it is due on. */
  lemma OneShot(t: Timer, w: nat, n: nat)
    requires w >= 1 && SoundTimer(Some(t), w) && !t.repeats && n >= 1
    ensures FiresOn(Some(t), w, n) <==> n == t.due
  {
    if n <= t.due {
      AfterWaiting(t, w, n - 1);
    } else {
      AfterFiring(t, w, n - 1);
      AfterGone(w, n - 1 - t.due);
    }
  }

  /** n ticks from now is due ticks, or due ticks and some whole periods. */
  predicate OnPeriod(n: nat, due: nat, period: nat)
    requires period >= 1
  {
    n >= due && (n - due) % period == 0
  }

  /** A repeating timer fires when due and then every Wait(interval) ticks, and on
      no other tick. */
  lemma {:induction false} Repeats(t: Timer, w: nat, n: nat)
    requires w >= 1 && SoundTimer(Some(t), w) && t.repeats && n >= 1
    ensures FiresOn(Some(t), w, n) <==> OnPeriod(n, t.due, Wait(t.interval, w))
    decreases n
  {
    var period := Wait(t.interval, w);
    if n < t.due {
      AfterWaiting(t, w, n - 1);
    } else if n == t.due {
      AfterWaiting(t, w, n - 1);
      RemainderIs(0, 0, 0, period);
    } else {
      AfterFiring(t, w, n - 1);
      Repeats(t.(due := period), w, n - t.due);
      PeriodShift(n - t.due, period);
    }
  }

  lemma PeriodShift(x: nat, period: nat)
    requires x >= 1 && period >= 1
    ensures x % period == 0 <==> OnPeriod(x, period, period)
  {
    var q, r := x / period, x % period;
    if x < period {
      RemainderIs(x, 0, x, period);
    } else {
      assert x - period == (q - 1) * period + r;
      RemainderIs(x - period, q - 1, r, period);
    }
  }

  /** Anything that can happen to the wheel. */
  datatype Op = Tick | Add(id: nat, seconds: int, repeats: bool) | Refresh(id: nat, seconds: int) | Cancel(id: nat)

  function Apply(m: Timers, w: nat, op: Op): (r: Timers)
    requires w >= 1 && Sound(m, w)
    ensures Sound(r, w)
  {
    match op
    case Tick => Ticked(m, w)
    case Add(id, seconds, repeats) => Added(m, id, seconds, repeats, w)
    case Refresh(id, seconds) => Refreshed(m, id, seconds, w)
    case Cancel(id) => m - {id}
  }

  function Run(m: Timers, w: nat, ops: seq<Op>): (r: Timers)
    requires w >= 1 && Sound(m, w)
    ensures Sound(r, w)
    decreases |ops|
  {
    if ops == [] then m else Run(Apply(m, w, ops[0]), w, ops[1..])
  }

  function Ticks(ops: seq<Op>): nat {
    if ops == [] then 0 else (if ops[0].Tick? then 1 else 0) + Ticks(ops[1..])
  }

  predicate Untouched(id: nat, ops: seq<Op>) {
    forall i :: 0 <= i < |ops| ==> ops[i].Tick? || ops[i].id != id
  }

  /** Whatever is done to other timers between the ticks, a timer only sees the ticks. */
  lemma {:induction false} OnlyTicksMatter(m: Timers, w: nat, id: nat, ops: seq<Op>)
    requires w >= 1 && Sound(m, w) && Untouched(id, ops)
    ensures Look(Run(m, w, ops), id) == After(Look(m, id), w, Ticks(ops))
    decreases |ops|
  {
    if ops != [] {
      assert ops[0].Tick? || ops[0].id != id;
      OnlyTicksMatter(Apply(m, w, ops[0]), w, id, ops[1..]);
    }
  }

  /** The timer fires on the next tick after ops. */
  predicate FiresAfter(m: Timers, w: nat, id: nat, ops: seq<Op>)
    requires w >= 1 && Sound(m, w)
  {
    id in Firing(Run(m, w, ops))
  }

  /** The wheel's promise for a timer set to wait for an interval: in every run that
      leaves it alone it fires on tick Wait(interval), which is ((d-1) mod w)+1, and
      on no other if it does not repeat; else on each multiple of it. */
  lemma PromiseKept(m: Timers, w: nat, id: nat, ops: seq<Op>)
    requires w >= 1 && Sound(m, w) && Untouched(id, ops)
    requires id in m && m[id].due == Wait(m[id].interval, w)
    ensures var n, wait := Ticks(ops) + 1, Wait(m[id].interval, w);
            && wait == (m[id].interval - 1) % w + 1
            && (FiresAfter(m, w, id, ops) <==> if m[id].repeats then OnPeriod(n, wait, wait) else n == wait)
  {
    var n := Ticks(ops) + 1;
    WaitIsRemainder(m[id].interval, w);
    OnlyTicksMatter(m, w, id, ops);
    if m[id].repeats {
      Repeats(m[id], w, n);
    } else {
      OneShot(m[id], w, n);
    }
  }

  /** Added, refreshed and cancelled timers in every run that leaves them alone. */
  lemma AddedFires(m: Timers, w: nat, id: nat, seconds: int, repeats: bool, ops: seq<Op>)
    requires w >= 1 && Sound(m, w) && Untouched(id, ops)
    ensures var added := Added(m, id, seconds, repeats, w);
            var n, wait := Ticks(ops) + 1, Wait(Delay(seconds), w);
            && Sound(added, w) && (1 <= seconds <= w ==> wait == seconds)
            && (FiresAfter(added, w, id, ops) <==> if repeats then OnPeriod(n, wait, wait) else n == wait)
  {
    PromiseKept(Added(m, id, seconds, repeats, w), w, id, ops);
  }

  lemma RefreshedFires(m: Timers, w: nat, id: nat, seconds: int, ops: seq<Op>)
    requires w >= 1 && Sound(m, w) && Untouched(id, ops) && id in m
    ensures var refreshed := Refreshed(m, id, seconds, w);
            var wait := Wait(if seconds > 0 then seconds else m[id].interval, w);
            var n := Ticks(ops) + 1;
            && Sound(refreshed, w)
            && (FiresAfter(refreshed, w, id, ops) <==> if m[id].repeats then OnPeriod(n, wait, wait) else n == wait)
  {
    PromiseKept(Refreshed(m, id, seconds, w), w, id, ops);
  }

  lemma CancelledNeverFires(m: Timers, w: nat, id: nat, ops: seq<Op>)
    requires w >= 1 && Sound(m, w) && Untouched(id, ops)
    ensures !FiresAfter(m - {id}, w, id, ops)
  {
    OnlyTicksMatter(m - {id}, w, id, ops);
    AfterGone(w, Ticks(ops));
  }
}
