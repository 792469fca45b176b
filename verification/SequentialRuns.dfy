/** Requests one after the other, with the collector at work in between: the counts
    are exact after each request. */
module SequentialRuns {
  import opened Ledger
  import opened Protocol
  import opened Tables
  import Accounting
  import LedgerSafety

  /** No request starts while another is in progress. */
  predicate Sequential(s: State, steps: seq<Step>)
    decreases |steps|
  {
    steps == [] ||
    (&& (Collects(steps[0]) || Advances(steps[0]) || s.work == map[])
     && Sequential(Apply(s, steps[0]), steps[1..]))
  }

  ghost predicate Inv(s: State) {
    && LedgerSafety.Joint(s)
    && (forall p, q :: p in s.work && q in s.work ==> p == q)
    && (!s.books.abandoned ==> !s.books.overlapped)
  }

  lemma NobodyReleases(s: State)
    requires Inv(s) && !s.books.abandoned && forall q :: q in s.work ==> !s.work[q].Finishing?
    ensures s.books.released == {}
  {
  }

  lemma JointKept(s: State, step: Step)
    requires LedgerSafety.Joint(s)
    ensures LedgerSafety.Joint(Apply(s, step))
  {
    Accounting.StepKeeps(s, step);
    LedgerSafety.StepKeepsSeparate(s, step);
  }

  lemma AlterKeeps(s: State, step: Step)
    requires Inv(s) && s.work == map[] && !Collects(step) && !Starts(step) && !Advances(step)
    ensures Inv(Apply(s, step))
  {
    JointKept(s, step);
    assert forall u :: !Busy(s, u);
  }

  lemma StartKeeps(s: State, step: Step)
    requires Inv(s) && s.work == map[] && Starts(step)
    ensures Inv(Apply(s, step))
  {
    JointKept(s, step);
    assert forall u :: !Busy(s, u);
    if !s.books.abandoned { NobodyReleases(s); }
  }

  lemma CollectKeeps(s: State, step: Step)
    requires Inv(s) && Collects(step)
    ensures Inv(Apply(s, step))
  {
    JointKept(s, step);
    CollectorKeepsWork(s, step);
  }

  lemma CollectorKeepsWork(s: State, step: Step)
    requires Collects(step)
    ensures var t := Apply(s, step);
            t.work.Keys == s.work.Keys && t.books.overlapped == s.books.overlapped && t.books.abandoned == s.books.abandoned
  {
  }

  /** The request that commits is the only one, so nobody handles an upload. */
  lemma CommitKeepsApart(s: State, p: nat)
    requires Inv(s) && p in s.work && s.work[p].Uploading? && s.work[p].stage.Stored?
    ensures var t := DoCommit(s, p, s.work[p]);
            (!t.books.abandoned ==> !t.books.overlapped) && t.work.Keys <= s.work.Keys
  {
    match s.work[p].target
    case ToPart(part, etag) =>
      assert !Busy(s, part.upload);
      if !s.books.abandoned { NobodyReleases(s); }
    case _ =>
  }

  lemma ProceedKeepsApart(s: State, step: Step)
    requires Inv(s) && Advances(step) && step.proc in s.work && !step.Commit?
    ensures var t := Apply(s, step);
            (!t.books.abandoned ==> !t.books.overlapped) && t.work.Keys <= s.work.Keys
  {
    if step.Cascade? {
      CascadeKeepsApart(s, step.proc, step.ok);
    } else if step.Release? {
      ReleaseKeepsApart(s, step.proc, step.ok);
    } else {
      OthersKeepApart(s, step);
    }
  }

  lemma CascadeKeepsApart(s: State, p: nat, ok: bool)
    requires Inv(s) && p in s.work
    ensures var t := Apply(s, Cascade(p, ok));
            (!t.books.abandoned ==> !t.books.overlapped) && t.work.Keys <= s.work.Keys
  {
  }

  lemma ReleaseKeepsApart(s: State, p: nat, ok: bool)
    requires Inv(s) && p in s.work
    ensures var t := Apply(s, Release(p, ok));
            (!t.books.abandoned ==> !t.books.overlapped) && t.work.Keys <= s.work.Keys
  {
  }

  lemma OthersKeepApart(s: State, step: Step)
    requires Advances(step) && step.proc in s.work && !step.Commit? && !step.Cascade? && !step.Release?
    ensures var t := Apply(s, step); t.books == s.books && t.work.Keys <= s.work.Keys
  {
  }

  lemma ProceedKeeps(s: State, step: Step)
    requires Inv(s) && Advances(step)
    ensures Inv(Apply(s, step))
  {
    JointKept(s, step);
    if step.proc in s.work {
      var w := s.work[step.proc];
      if !step.Commit? {
        ProceedKeepsApart(s, step);
      } else if w.Uploading? && w.stage.Stored? {
        CommitKeepsApart(s, step.proc);
      }
    }
  }

  lemma {:induction false} RunKeeps(s: State, steps: seq<Step>)
    requires Inv(s) && Sequential(s, steps)
    ensures Inv(Run(s, steps))
    decreases |steps|
  {
    if steps != [] {
      if Collects(steps[0]) {
        CollectKeeps(s, steps[0]);
      } else if Advances(steps[0]) {
        ProceedKeeps(s, steps[0]);
      } else if Starts(steps[0]) {
        StartKeeps(s, steps[0]);
      } else {
        AlterKeeps(s, steps[0]);
      }
      RunKeeps(Apply(s, steps[0]), steps[1..]);
    }
  }

  /** The accounting law over sequential runs: when no request is in progress, each
      count is the number of rows that refer to the digest. */
  lemma SequentialCountsAreExact(fold: Folding, steps: seq<Step>)
    requires Sequential(Init(fold), steps)
    requires var s := Run(Init(fold), steps); s.work == map[] && !s.books.leaked && !s.books.abandoned
    ensures Accounted(Run(Init(fold), steps).db)
  {
    LedgerSafety.JointlyReached(fold, []);
    RunKeeps(Init(fold), steps);
    LedgerSafety.QuietCountsAreExact(fold, steps);
  }
}
