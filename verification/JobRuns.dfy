// Runners and admin operations over one jobs table at once. A runner's round is one
// transaction: it locks due rows, writes to them, and commits all or nothing. The rows a
// runner holds are skipped by other runners and make admin updates wait.

module JobRuns {
  import opened Prelude
  import opened Jobs

  // A round under way: rows as read under lock, and the updates written so far.
  datatype Runner = Runner(legacy: bool, batch: seq<nat>, rows: map<nat, Job>, patches: seq<Patch>)

  datatype State = State(jobs: map<nat, Job>, runners: map<nat, Runner>)

  const INIT: State := State(map[], map[])

  datatype Action =
    | Create(job: Job)
    | Take(r: nat, legacy: bool, now: int, limit: nat, batch: seq<nat>)
    | Process(r: nat, attempt: Attempt, appFound: bool)
    | Commit(r: nat)
    | Abort(r: nat)
    | Retry(id: nat, now: int)
    | Deadletter(id: nat)

  predicate Held(s: State, id: nat) {
    exists r :: r in s.runners && id in s.runners[r].batch
  }

  // Rows the service inserts: a callback or unified job due at once, or a failed queue
  // message to be retried after the delay its own retry count gives.
  ghost predicate Newborn(j: Job) {
    && j.nextRetryAt.Some?
    && (|| (j.status == PENDING && j.retryCount == 0)
        || (j.status == RETRYING && exists at :: j.nextRetryAt == Some(NextRetry(j.retryCount, at))))
  }

  ghost predicate Enabled(s: State, a: Action) {
    match a
    case Create(job) => job.id !in s.jobs && Newborn(job)
    case Take(r, _, now, limit, batch) =>
      && r !in s.runners && |batch| <= limit
      && (forall i, k :: 0 <= i < k < |batch| ==> batch[i] != batch[k])
      && (forall id :: id in batch ==> id in s.jobs && Due(s.jobs[id], now) && !Held(s, id))
      && (forall i, k :: 0 <= i < k < |batch| ==>
            s.jobs[batch[i]].nextRetryAt.value <= s.jobs[batch[k]].nextRetryAt.value)
    case Process(r, _, _) => r in s.runners && |s.runners[r].patches| < |s.runners[r].batch|
    case Commit(r) => r in s.runners && |s.runners[r].patches| == |s.runners[r].batch|
    case Abort(r) => r in s.runners
    case Retry(id, _) => id in s.jobs && !Held(s, id)
    case Deadletter(id) => id in s.jobs && !Held(s, id)
  }

  function PatchOf(legacy: bool, j: Job, a: Attempt, appFound: bool): Patch {
    if legacy then LegacyPatch(j, a, appFound) else DbPatch(j, a)
  }

  // The table with a runner's updates written to it.
  function Write(jobs: map<nat, Job>, batch: seq<nat>, patches: seq<Patch>): map<nat, Job>
    requires |patches| <= |batch|
    decreases |patches|
  {
    if patches == [] then jobs
    else
      var id := batch[0];
      Write(if id in jobs then jobs[id := Apply(patches[0], jobs[id])] else jobs, batch[1..], patches[1..])
  }

  function Step(s: State, a: Action): State {
    match a
    case Create(job) => s.(jobs := s.jobs[job.id := job])
    case Take(r, legacy, _, _, batch) =>
      s.(runners := s.runners[r := Runner(legacy, batch, map id | id in batch && id in s.jobs :: s.jobs[id], [])])
    case Process(r, attempt, appFound) =>
      if r in s.runners && |s.runners[r].patches| < |s.runners[r].batch|
         && s.runners[r].batch[|s.runners[r].patches|] in s.runners[r].rows then
        var x := s.runners[r];
        var job := x.rows[x.batch[|x.patches|]];
        var patch := PatchOf(x.legacy, job, attempt, appFound);
        s.(runners := s.runners[r := x.(patches := x.patches + [patch])])
      else s
    case Commit(r) =>
      if r in s.runners && |s.runners[r].patches| <= |s.runners[r].batch|
      then State(Write(s.jobs, s.runners[r].batch, s.runners[r].patches), s.runners - {r})
      else s
    case Abort(r) => s.(runners := s.runners - {r})
    case Retry(id, now) => if id in s.jobs then s.(jobs := s.jobs[id := Apply(ResetPatch(now), s.jobs[id])]) else s
    case Deadletter(id) => if id in s.jobs then s.(jobs := s.jobs[id := Apply(DEADLETTER, s.jobs[id])]) else s
  }

  function Run(s: State, acts: seq<Action>): State
    decreases |acts|
  {
    if acts == [] then s else Run(Step(s, acts[0]), acts[1..])
  }

  ghost predicate Legal(s: State, acts: seq<Action>)
    decreases |acts|
  {
    acts == [] || (Enabled(s, acts[0]) && Legal(Step(s, acts[0]), acts[1..]))
  }

  // --- the invariant --------------------------------------------------------------------

  // A job waits for a time exactly when it is not in a final state.
  predicate WaitsIff(j: Job) { j.nextRetryAt.None? <==> Terminal(j.status) }

  ghost predicate PatchFor(x: Runner, k: int, p: Patch)
    requires 0 <= k < |x.batch|
  {
    x.batch[k] in x.rows
    && exists a, appFound :: p == PatchOf(x.legacy, x.rows[x.batch[k]], a, appFound)
  }

  ghost predicate RunnerOk(jobs: map<nat, Job>, x: Runner) {
    && (forall i, k :: 0 <= i < k < |x.batch| ==> x.batch[i] != x.batch[k])
    && |x.patches| <= |x.batch|
    && (forall id :: id in x.batch ==>
          id in jobs && id in x.rows && jobs[id] == x.rows[id] && !Terminal(jobs[id].status))
    && (forall k :: 0 <= k < |x.patches| ==> PatchFor(x, k, x.patches[k]))
  }

  ghost predicate Inv(s: State) {
    && (forall id :: id in s.jobs ==> s.jobs[id].id == id && WaitsIff(s.jobs[id]))
    && (forall r :: r in s.runners ==> RunnerOk(s.jobs, s.runners[r]))
    && (forall q, r, id :: q in s.runners && r in s.runners && q != r && id in s.runners[q].batch ==>
          id !in s.runners[r].batch)
  }

  lemma {:induction false} WriteFrame(jobs: map<nat, Job>, batch: seq<nat>, patches: seq<Patch>, id: nat)
    requires |patches| <= |batch| && id !in batch
    ensures Write(jobs, batch, patches).Keys == jobs.Keys
    ensures id in jobs ==> Write(jobs, batch, patches)[id] == jobs[id]
    decreases |patches|
  {
    if patches != [] {
      var b := batch[0];
      WriteFrame(if b in jobs then jobs[b := Apply(patches[0], jobs[b])] else jobs, batch[1..], patches[1..], id);
    }
  }

  lemma {:induction false} WriteAt(jobs: map<nat, Job>, batch: seq<nat>, patches: seq<Patch>, k: int)
    requires |patches| <= |batch| && 0 <= k < |patches| && batch[k] in jobs
    requires forall i, j :: 0 <= i < j < |batch| ==> batch[i] != batch[j]
    ensures Write(jobs, batch, patches).Keys == jobs.Keys
    ensures Write(jobs, batch, patches)[batch[k]] == Apply(patches[k], jobs[batch[k]])
    decreases |patches|
  {
    var b := batch[0];
    var jobs1 := if b in jobs then jobs[b := Apply(patches[0], jobs[b])] else jobs;
    if k == 0 {
      WriteFrame(jobs1, batch[1..], patches[1..], b);
    } else {
      WriteAt(jobs1, batch[1..], patches[1..], k - 1);
    }
  }

  // Any runner's update of a row that is not final keeps the row in order; the legacy
  // failure update, which does not touch the status, would not on a final one.
  lemma {:induction false} PatchKeepsWaits(x: Runner, k: int, p: Patch, j: Job)
    requires 0 <= k < |x.batch| && PatchFor(x, k, p) && j == x.rows[x.batch[k]] && !Terminal(j.status) && WaitsIff(j)
    ensures WaitsIff(Apply(p, j))
  {
  }

  lemma LegacyFailureNeedsLiveRow(read: Job, row: Job, a: Attempt)
    requires read.callback && !a.success && read.retryCount + 1 < read.maxRetries
    ensures WaitsIff(Apply(LegacyPatch(read, a, true), row)) <==> !Terminal(row.status)
  {
  }

  lemma {:induction false} CommitOk(s: State, r: nat)
    requires Inv(s) && Enabled(s, Commit(r))
    ensures Inv(Step(s, Commit(r)))
  {
    hide Write, WaitsIff;
    var x := s.runners[r];
    var s2 := Step(s, Commit(r));
    forall id | id in s.jobs || id in s2.jobs
      ensures id in s.jobs && id in s2.jobs
      ensures id !in x.batch ==> s2.jobs[id] == s.jobs[id]
      ensures s2.jobs[id].id == id && WaitsIff(s2.jobs[id])
    {
      if id in x.batch {
        var k :| 0 <= k < |x.batch| && x.batch[k] == id;
        WriteAt(s.jobs, x.batch, x.patches, k);
        PatchKeepsWaits(x, k, x.patches[k], s.jobs[id]);
      } else {
        WriteFrame(s.jobs, x.batch, x.patches, id);
      }
    }
  }

  lemma {:induction false} ProcessOk(s: State, a: Action)
    requires Inv(s) && a.Process? && Enabled(s, a)
    ensures Inv(Step(s, a))
  {
    var x := s.runners[a.r];
    var k := |x.patches|;
    assert x.batch[k] in x.batch;
    var y := Step(s, a).runners[a.r];
    assert PatchFor(y, k, y.patches[k]);
    forall i | 0 <= i < k ensures PatchFor(y, i, y.patches[i]) {
      assert PatchFor(x, i, x.patches[i]);
    }
  }

  lemma {:induction false} AdminOk(s: State, a: Action)
    requires Inv(s) && Enabled(s, a) && (a.Retry? || a.Deadletter? || a.Create?)
    ensures Inv(Step(s, a))
  {
    forall r | r in s.runners ensures RunnerOk(Step(s, a).jobs, s.runners[r]) {
      assert RunnerOk(s.jobs, s.runners[r]);
      var x := s.runners[r];
      forall id | id in x.batch ensures Step(s, a).jobs[id] == s.jobs[id] {
        assert Held(s, id);
      }
    }
  }

  lemma {:induction false} TakeOk(s: State, a: Action)
    requires Inv(s) && Enabled(s, a) && (a.Take? || a.Abort?)
    ensures Inv(Step(s, a))
  {
    if a.Take? {
      forall r, id | r in s.runners && id in s.runners[r].batch ensures Held(s, id) {
      }
    }
  }

  lemma {:induction false} StepKeepsInv(s: State, a: Action)
    requires Inv(s) && Enabled(s, a)
    ensures Inv(Step(s, a))
  {
    match a
    case Process(_, _, _) => ProcessOk(s, a);
    case Commit(r) => CommitOk(s, r);
    case Take(_, _, _, _, _) => TakeOk(s, a);
    case Abort(_) => TakeOk(s, a);
    case _ => AdminOk(s, a);
  }

  lemma {:induction false} RunKeepsInv(s: State, acts: seq<Action>)
    requires Inv(s) && Legal(s, acts)
    ensures Inv(Run(s, acts))
    decreases |acts|
  {
    if acts != [] {
      StepKeepsInv(s, acts[0]);
      RunKeepsInv(Step(s, acts[0]), acts[1..]);
    }
  }

  // In every reachable state no job is held by two runners, and a job has a next time
  // exactly when it is not SUCCEEDED, FAILED or DEAD.
  lemma {:induction false} HeldOnceAndWaiting(acts: seq<Action>)
    requires Legal(INIT, acts)
    ensures var s := Run(INIT, acts);
      && (forall q, r, id ::
            q in s.runners && r in s.runners && id in s.runners[q].batch && id in s.runners[r].batch ==> q == r)
      && (forall id :: id in s.jobs ==> (s.jobs[id].nextRetryAt.None? <==> Terminal(s.jobs[id].status)))
  {
    RunKeepsInv(INIT, acts);
  }

  // A round that commits does to the table what the service's method does to its batch.
  lemma {:induction false} CommitIsRound(s: State, r: nat) returns (attempts: seq<Attempt>)
    requires Inv(s) && Enabled(s, Commit(r)) && !s.runners[r].legacy
    ensures |attempts| == |s.runners[r].batch|
    ensures Ran(s.jobs, s.runners[r].batch, attempts, Step(s, Commit(r)).jobs)
  {
    var x := s.runners[r];
    attempts := [];
    while |attempts| < |x.batch|
      invariant |attempts| <= |x.batch|
      invariant forall k :: 0 <= k < |attempts| ==>
                  x.batch[k] in x.rows && x.patches[k] == DbPatch(x.rows[x.batch[k]], attempts[k])
    {
      assert PatchFor(x, |attempts|, x.patches[|attempts|]);
      var a, appFound :| x.patches[|attempts|] == PatchOf(x.legacy, x.rows[x.batch[|attempts|]], a, appFound);
      attempts := attempts + [a];
    }
    var after := Step(s, Commit(r)).jobs;
    forall id | id in s.jobs && id !in x.batch
      ensures id in after && after[id] == s.jobs[id] && after.Keys == s.jobs.Keys
    {
      WriteFrame(s.jobs, x.batch, x.patches, id);
    }
    forall k | 0 <= k < |x.batch| && x.batch[k] in s.jobs
      ensures after.Keys == s.jobs.Keys
      ensures x.batch[k] in after
      ensures after[x.batch[k]] == Apply(DbPatch(s.jobs[x.batch[k]], attempts[k]), s.jobs[x.batch[k]])
    {
      WriteAt(s.jobs, x.batch, x.patches, k);
      assert x.batch[k] in x.batch;
    }
    if x.batch == [] { assert after == s.jobs; }
  }

  // The same for a legacy round.
  lemma {:induction false} CommitIsLegacyRound(s: State, r: nat) returns (attempts: seq<Attempt>, apps: seq<bool>)
    requires Inv(s) && Enabled(s, Commit(r)) && s.runners[r].legacy
    ensures |attempts| == |apps| == |s.runners[r].batch|
    ensures RanLegacy(s.jobs, s.runners[r].batch, attempts, apps, Step(s, Commit(r)).jobs)
  {
    var x := s.runners[r];
    attempts, apps := [], [];
    while |attempts| < |x.batch|
      invariant |attempts| == |apps| <= |x.batch|
      invariant forall k :: 0 <= k < |attempts| ==>
                  x.batch[k] in x.rows && x.patches[k] == LegacyPatch(x.rows[x.batch[k]], attempts[k], apps[k])
    {
      assert PatchFor(x, |attempts|, x.patches[|attempts|]);
      var a, appFound :| x.patches[|attempts|] == PatchOf(x.legacy, x.rows[x.batch[|attempts|]], a, appFound);
      attempts, apps := attempts + [a], apps + [appFound];
    }
    var after := Step(s, Commit(r)).jobs;
    hide LegacyPatch;
    forall id | id in s.jobs && id !in x.batch
      ensures id in after && after[id] == s.jobs[id] && after.Keys == s.jobs.Keys
    {
      WriteFrame(s.jobs, x.batch, x.patches, id);
    }
    forall k | 0 <= k < |x.batch| && x.batch[k] in s.jobs
      ensures after.Keys == s.jobs.Keys && x.batch[k] in after
      ensures after[x.batch[k]] == Apply(LegacyPatch(s.jobs[x.batch[k]], attempts[k], apps[k]), s.jobs[x.batch[k]])
    {
      WriteAt(s.jobs, x.batch, x.patches, k);
      assert x.batch[k] in x.batch;
    }
    if x.batch == [] { assert after == s.jobs; }
  }

  // --- how often a job is run -----------------------------------------------------------

  // Committed runDueDbJobs rounds along a run that included the job.
  ghost function TimesRun(s: State, acts: seq<Action>, id: nat): nat
    decreases |acts|
  {
    if acts == [] then 0
    else
      (if acts[0].Commit? && acts[0].r in s.runners && !s.runners[acts[0].r].legacy && id in s.runners[acts[0].r].batch
       then 1 else 0)
      + TimesRun(Step(s, acts[0]), acts[1..], id)
  }

  lemma {:induction false} StepSpends(s: State, a: Action, id: nat)
    requires Inv(s) && Enabled(s, a) && id in s.jobs && !(a.Retry? && a.id == id)
    ensures id in Step(s, a).jobs
    ensures Budget(Step(s, a).jobs[id]) <= Budget(s.jobs[id])
    ensures a.Commit? && !s.runners[a.r].legacy && id in s.runners[a.r].batch ==>
              Budget(Step(s, a).jobs[id]) < Budget(s.jobs[id])
  {
    if a.Commit? {
      var x := s.runners[a.r];
      assert RunnerOk(s.jobs, x);
      if id in x.batch {
        var k :| 0 <= k < |x.batch| && x.batch[k] == id;
        WriteAt(s.jobs, x.batch, x.patches, k);
        assert PatchFor(x, k, x.patches[k]);
        PatchSpends(x, k, x.patches[k]);
      } else {
        WriteFrame(s.jobs, x.batch, x.patches, id);
      }
    }
  }

  lemma {:induction false} PatchSpends(x: Runner, k: int, p: Patch)
    requires 0 <= k < |x.batch| && PatchFor(x, k, p) && !Terminal(x.rows[x.batch[k]].status)
    ensures var j := x.rows[x.batch[k]];
      Budget(Apply(p, j)) <= Budget(j) && (!x.legacy ==> Budget(Apply(p, j)) < Budget(j))
  {
  }

  // Between admin resets of a job, over any interleaving, the committed rounds that run it
  // and the budget it has left never exceed the budget it started with, which is
  // max(1, maxRetries - retryCount). So it is run at most that often, and once it is final
  // it stays final and is never run again.
  lemma {:induction false} RunsAreBounded(s: State, acts: seq<Action>, id: nat)
    requires Inv(s) && Legal(s, acts) && id in s.jobs
    requires forall i :: 0 <= i < |acts| ==> !(acts[i].Retry? && acts[i].id == id)
    ensures id in Run(s, acts).jobs
    ensures TimesRun(s, acts, id) + Budget(Run(s, acts).jobs[id]) <= Budget(s.jobs[id])
    ensures Terminal(s.jobs[id].status) ==> Terminal(Run(s, acts).jobs[id].status) && TimesRun(s, acts, id) == 0
    decreases |acts|
  {
    if acts != [] {
      StepSpends(s, acts[0], id);
      StepKeepsInv(s, acts[0]);
      RunsAreBounded(Step(s, acts[0]), acts[1..], id);
    }
  }
}
