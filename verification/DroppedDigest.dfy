/** A single abort, with the collector at work, leaves a file that nothing will collect. */
module DroppedDigest {
  import opened Base
  import opened Tables
  import opened Protocol
  import opened StraddledUpload
  import opened OverlappingRequests
  import opened Draining
  import opened CollectionComplete

  function Requests(steps: seq<Step>): seq<Event> {
    seq(|steps|, i requires 0 <= i < |steps| => Request(steps[i]))
  }

  /** An upload of one part is begun and aborted. The release of the part queues its digest;
      the collector takes it up before the upload is deleted, finds the part's row, and
      leaves it. */
  const DROPPING_RUN: seq<Event> := Requests(ABORT_LISTED) + [Request(Release(1, true)), Read(1, true)]
                                    + [Batch(1), Pick(true), Request(Cascade(1, true))]

  // ----- requests alone

  /** What the requests of a run queue. */
  function AllReported(s: State, steps: seq<Step>): seq<Digest>
    decreases |steps|
  {
    if steps == [] then []
    else var last := |steps| - 1; AllReported(s, steps[..last]) + Reported(Run(s, steps[..last]), steps[last])
  }

  lemma {:induction false} AfterAppends(w: World, a: seq<Event>, b: seq<Event>)
    ensures After(w, a + b) == After(After(w, a), b)
    decreases |a|
  {
    if a == [] {
      assert a + b == b;
    } else {
      assert (a + b)[1..] == a[1..] + b;
      AfterAppends(Next(w, a[0]), a[1..], b);
    }
  }

  lemma AfterSnoc(w: World, a: seq<Event>, e: Event)
    ensures After(w, a + [e]) == Next(After(w, a), e)
  {
    AfterAppends(w, a, [e]);
    var v := After(w, a);
    assert After(Next(v, e), []) == Next(v, e);
  }

  lemma {:induction false} RequestsQueue(fold: Folding, steps: seq<Step>)
    requires forall i :: 0 <= i < |steps| ==> !Collects(steps[i]) && !steps[i].Release?
    ensures After(Fresh(fold), Requests(steps))
            == World(Run(Init(fold), steps), AllReported(Init(fold), steps), [], map[])
    decreases |steps|
  {
    if steps != [] {
      var front, last := steps[..|steps| - 1], steps[|steps| - 1];
      RequestsQueue(fold, front);
      assert Requests(steps) == Requests(front) + [Request(last)];
      AfterSnoc(Fresh(fold), Requests(front), Request(last));
      LastOfRun(Init(fold), steps);
    }
  }

  // ----- what the abort queues

  lemma OneMoreReported(run: seq<Step>, n: nat)
    requires n < |run|
    ensures AllReported(START, run[..n + 1]) == AllReported(START, run[..n]) + Reported(At(run, n), run[n])
  {
    assert run[..n + 1][..n] == run[..n];
  }

  lemma Unreported(s: State, step: Step)
    requires !step.RemoveObject? && !step.Commit? && !step.Release?
    ensures Reported(s, step) == []
  {
  }

  lemma OpeningQueuesNothing(run: seq<Step>)
    requires ABORT_LISTED <= run
    ensures AllReported(START, run[..7]) == []
  {
    assert OPENING <= run;
    UpToStoredPart(run);
    FirstPutQueuesNothing();
    forall i | 0 <= i < 7 ensures Reported(At(run, i), run[i]) == [] {
      if i == 5 {
        assert run[5] == Commit(0);
      } else {
        assert run[i] == ABORT_LISTED[i];
        Unreported(At(run, i), run[i]);
      }
    }
    for n := 0 to 7
      invariant AllReported(START, run[..n]) == []
    {
      OneMoreReported(run, n);
    }
  }

  lemma FirstPutQueuesNothing()
    ensures Reported(STORED_PART, Commit(0)) == []
  {
    assert MoveCount(STORED_PART.db, None, K).1 == None;
  }

  lemma ListingQueuesNothing(run: seq<Step>)
    requires run == ABORT_LISTED
    ensures AllReported(START, run) == [] && Run(START, run) == ABORTING
  {
    OpeningQueuesNothing(run);
    UpToAborting(run);
    assert run[..7] == run;
  }

  lemma ReleaseOwes()
    ensures Next(World(ABORTING, [], [], map[]), Request(Release(1, true))) == World(RELEASED, [], [], map[1 := K])
  {
    Releasing();
    assert TakenBack(ABORTING, Release(1, true)) == Some(K);
  }

  lemma ReadQueues()
    ensures Next(World(RELEASED, [], [], map[1 := K]), Read(1, true)) == World(RELEASED, [K], [], map[])
  {
    assert Zero(RELEASED.db, K);
    assert map[1 := K] - {1} == map[];
  }

  // ----- the collector comes first, then the upload goes

  lemma PartStillRefers()
    ensures !CanDelete(RELEASED.db, K) && Zero(RELEASED.db, K)
  {
    assert RELEASED.db.parts[PART].cas == K;
  }

  lemma TakenUp(w: World)
    requires w == World(RELEASED, [K], [], map[])
    ensures Next(Next(w, Batch(1)), Pick(true)) == World(RELEASED, [], [], map[])
  {
    PartStillRefers();
    assert [K][1..] == [] && [K][..1] == [K];
    assert Next(w, Batch(1)) == World(RELEASED, [], [K], map[]);
  }

  /** The upload's row and its part are gone; the digest's row and file are not. */
  const LEFT := RELEASED.(db := Tables(PLAIN, {0}, map[K := 0], map[], map[], map[]), work := map[], books := NO_BOOKS)

  lemma UploadGone()
    ensures Apply(RELEASED, Cascade(1, true)) == LEFT
  {
    assert DeleteUpload(RELEASED.db, 1) == LEFT.db;
    assert RELEASED.work - {1} == map[];
    assert Cascaded(RELEASED.books, RELEASED.db, LEFT.db) == NO_BOOKS;
  }

  lemma CascadeQueuesNothing(w: World)
    requires w == World(RELEASED, [], [], map[])
    ensures Next(w, Request(Cascade(1, true))) == World(LEFT, [], [], map[])
  {
    UploadGone();
    Unreported(RELEASED, Cascade(1, true));
  }

  lemma ThreeMoreEvents(w: World, a: seq<Event>, b: Event, c: Event, d: Event)
    ensures After(w, a + [b, c, d]) == Next(Next(Next(After(w, a), b), c), d)
  {
    AfterSnoc(w, a, b);
    AfterSnoc(w, a + [b], c);
    AfterSnoc(w, a + [b] + [c], d);
    assert a + [b, c, d] == a + [b] + [c] + [d];
  }

  lemma AbortListed(steps: seq<Step>)
    requires steps == ABORT_LISTED
    ensures After(Fresh(PLAIN), Requests(steps)) == World(ABORTING, [], [], map[])
  {
    assert forall i :: 0 <= i < |steps| ==> !Collects(steps[i]) && !steps[i].Release?;
    RequestsQueue(PLAIN, steps);
    ListingQueuesNothing(steps);
  }

  lemma TwoMoreEvents(w: World, a: seq<Event>, b: Event, c: Event)
    ensures After(w, a + [b, c]) == Next(Next(After(w, a), b), c)
  {
    AfterSnoc(w, a, b);
    AfterSnoc(w, a + [b], c);
    assert a + [b, c] == a + [b] + [c];
  }

  lemma AbortBegun(steps: seq<Step>)
    requires steps == ABORT_LISTED
    ensures After(Fresh(PLAIN), Requests(steps) + [Request(Release(1, true)), Read(1, true)])
            == World(RELEASED, [K], [], map[])
  {
    AbortListed(steps);
    TwoMoreEvents(Fresh(PLAIN), Requests(steps), Request(Release(1, true)), Read(1, true));
    ReleaseOwes();
    ReadQueues();
  }

  lemma AbortEnds(steps: seq<Step>, begun: seq<Event>)
    requires steps == ABORT_LISTED && begun == Requests(steps) + [Request(Release(1, true)), Read(1, true)]
    ensures After(Fresh(PLAIN), begun + [Batch(1), Pick(true), Request(Cascade(1, true))]) == World(LEFT, [], [], map[])
  {
    AbortBegun(steps);
    ThreeMoreEvents(Fresh(PLAIN), begun, Batch(1), Pick(true), Request(Cascade(1, true)));
    TakenUp(World(RELEASED, [K], [], map[]));
    CascadeQueuesNothing(World(RELEASED, [], [], map[]));
  }

  /** At the end of the run no request is in progress, the queue is empty, and the
      collector is idle; the digest could be deleted, and its file is there. No requests
      overlapped and nothing failed. */
  lemma AbortLeavesFile(run: seq<Event>)
    requires run == DROPPING_RUN
    ensures var w := After(Fresh(PLAIN), run);
            && AtRest(w) && w.pending == [] && CollectionComplete.Dropped(w, K)
            && CanDelete(w.s.db, K) && K in w.s.files
            && w.s.books == NO_BOOKS && w.s.mishaps == NO_MISHAPS
  {
    AbortEnds(ABORT_LISTED, Requests(ABORT_LISTED) + [Request(Release(1, true)), Read(1, true)]);
  }
}
