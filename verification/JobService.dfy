// The jobs table, the two runners over it and the admin operations; backoff and drain.
// Times are milliseconds.

module Jobs {
  import opened Prelude

  datatype Status = PENDING | RETRYING | SUCCEEDED | FAILED | DEAD

  // `callback` marks a legacy CALLBACK_HTTP job; unified jobs have a message group.
  datatype Job = Job(id: nat, callback: bool, groupId: Option<string>, status: Status,
                     retryCount: int, maxRetries: int, nextRetryAt: Option<int>, lastError: Option<string>)

  predicate Terminal(s: Status) { s.SUCCEEDED? || s.FAILED? || s.DEAD? }

  // What running a job came to: whether it succeeded, the error if not, and the time the
  // failure handler reads from the clock.
  datatype Attempt = Attempt(success: bool, error: string, at: int)

  // --- backoff --------------------------------------------------------------------------

  function Pow2(n: nat): (p: nat)
    ensures p >= 1
  {
    if n == 0 then 1 else 2 * Pow2(n - 1)
  }

  const CAP: int := 86_400_000

  // min(2^k * 60, 86400) seconds, cut to whole milliseconds by Date.
  function DelayMs(k: int): int {
    if k >= 0 then Min(Pow2(k) * 60_000, CAP) else 60_000 / Pow2(-k)
  }

  function NextRetry(k: int, at: int): int { at + DelayMs(k) }

  // --- row updates ----------------------------------------------------------------------

  // A partial row update: None leaves the column alone.
  datatype Patch = Patch(status: Option<Status>, retryCount: Option<int>,
                         nextRetryAt: Option<Option<int>>, lastError: Option<Option<string>>)

  const NOTHING: Patch := Patch(None, None, None, None)

  function Apply(p: Patch, j: Job): Job {
    j.(status := if p.status.Some? then p.status.value else j.status,
       retryCount := if p.retryCount.Some? then p.retryCount.value else j.retryCount,
       nextRetryAt := if p.nextRetryAt.Some? then p.nextRetryAt.value else j.nextRetryAt,
       lastError := if p.lastError.Some? then p.lastError.value else j.lastError)
  }

  const DONE: Patch := Patch(Some(SUCCEEDED), None, Some(None), Some(None))

  function Failure(j: Job, error: string, at: int, retrying: Option<Status>): Patch {
    var retryCount := j.retryCount + 1;
    if retryCount >= j.maxRetries
    then Patch(Some(FAILED), Some(retryCount), Some(None), Some(Some(error)))
    else Patch(retrying, Some(retryCount), Some(Some(NextRetry(retryCount, at))), Some(Some(error)))
  }

  // dbJobToMessage refuses a job without a message group, and that counts as a failure.
  predicate Succeeds(j: Job, a: Attempt) {
    a.success && j.groupId.Some? && j.groupId.value != ""
  }

  // runDueDbJobs on one job.
  function DbPatch(j: Job, a: Attempt): Patch {
    if Succeeds(j, a) then DONE else Failure(j, a.error, a.at, Some(RETRYING))
  }

  // runDueJobs on one job: without its app, or for a unified job, it throws and writes
  // nothing; its failure path leaves the status column alone.
  function LegacyPatch(j: Job, a: Attempt, appFound: bool): Patch {
    if !appFound || !j.callback then NOTHING
    else if a.success then DONE
    else Failure(j, a.error, a.at, None)
  }

  predicate Due(j: Job, now: int) {
    (j.status.PENDING? || j.status.RETRYING?) && j.nextRetryAt.Some? && j.nextRetryAt.value <= now
  }

  // What the due-jobs query may return: as many due rows as the limit allows, each once,
  // in order of nextRetryAt, leaving only rows that are due no earlier.
  ghost predicate DueBatch(jobs: map<nat, Job>, now: int, limit: nat, batch: seq<nat>) {
    && (forall i, k :: 0 <= i < k < |batch| ==> batch[i] != batch[k])
    && (forall id :: id in batch ==> id in jobs && Due(jobs[id], now))
    && |batch| <= limit
    && (|batch| < limit ==> forall id :: id in jobs && Due(jobs[id], now) ==> id in batch)
    && (forall i, k :: 0 <= i < k < |batch| ==> jobs[batch[i]].nextRetryAt.value <= jobs[batch[k]].nextRetryAt.value)
    && (forall id, i :: id in jobs && Due(jobs[id], now) && id !in batch && 0 <= i < |batch| ==>
          jobs[batch[i]].nextRetryAt.value <= jobs[id].nextRetryAt.value)
  }

  // The table after a round, row by row.
  ghost predicate Ran(jobs: map<nat, Job>, batch: seq<nat>, attempts: seq<Attempt>, after: map<nat, Job>)
    requires |attempts| == |batch|
  {
    && after.Keys == jobs.Keys
    && (forall i :: 0 <= i < |batch| && batch[i] in jobs ==>
          after[batch[i]] == Apply(DbPatch(jobs[batch[i]], attempts[i]), jobs[batch[i]]))
    && (forall id :: id in jobs && id !in batch ==> after[id] == jobs[id])
  }

  ghost predicate RanLegacy(jobs: map<nat, Job>, batch: seq<nat>, attempts: seq<Attempt>, apps: seq<bool>,
          after: map<nat, Job>)
    requires |attempts| == |batch| == |apps|
  {
    && after.Keys == jobs.Keys
    && (forall i :: 0 <= i < |batch| && batch[i] in jobs ==>
          after[batch[i]] == Apply(LegacyPatch(jobs[batch[i]], attempts[i], apps[i]), jobs[batch[i]]))
    && (forall id :: id in jobs && id !in batch ==> after[id] == jobs[id])
  }

  function Successes(jobs: map<nat, Job>, batch: seq<nat>, attempts: seq<Attempt>): nat
    requires |attempts| == |batch|
  {
    if batch == [] then 0
    else
      var n := |batch| - 1;
      Successes(jobs, batch[..n], attempts[..n])
      + (if batch[n] in jobs && Succeeds(jobs[batch[n]], attempts[n]) then 1 else 0)
  }

  // Jobs whose legacy execution did not throw, failed callbacks included.
  function Handled(jobs: map<nat, Job>, batch: seq<nat>, apps: seq<bool>): nat
    requires |apps| == |batch|
  {
    if batch == [] then 0
    else
      var n := |batch| - 1;
      Handled(jobs, batch[..n], apps[..n]) + (if batch[n] in jobs && apps[n] && jobs[batch[n]].callback then 1 else 0)
  }

  // --- rows after a run, column by column -----------------------------------------------

  // A runDueDbJobs run: done, or to be tried again, or failed for good.
  ghost predicate DbRow(j: Job, a: Attempt, row: Job) {
    var ok := a.success && j.groupId.Some? && j.groupId.value != "";
    && row.id == j.id && row.callback == j.callback && row.groupId == j.groupId && row.maxRetries == j.maxRetries
    && (ok ==>
          row.status == SUCCEEDED && row.retryCount == j.retryCount && row.nextRetryAt == None && row.lastError == None)
    && (!ok ==> row.retryCount == j.retryCount + 1 && row.lastError == Some(a.error))
    && (!ok && j.retryCount + 1 < j.maxRetries ==>
          row.status == RETRYING && row.nextRetryAt == Some(a.at + DelayMs(j.retryCount + 1)))
    && (!ok && j.retryCount + 1 >= j.maxRetries ==> row.status == FAILED && row.nextRetryAt == None)
  }

  // A runDueJobs run: a unified job, or one whose app is gone, is left as it was, and a job to
  // be tried again keeps its status.
  ghost predicate LegacyRow(j: Job, a: Attempt, appFound: bool, row: Job) {
    if !appFound || !j.callback then row == j
    else if a.success then row == j.(status := SUCCEEDED, nextRetryAt := None, lastError := None)
    else if j.retryCount + 1 < j.maxRetries then
      row == j.(retryCount := j.retryCount + 1, nextRetryAt := Some(a.at + DelayMs(j.retryCount + 1)),
                lastError := Some(a.error))
    else
      row == j.(status := FAILED, retryCount := j.retryCount + 1, nextRetryAt := None, lastError := Some(a.error))
  }

  // What a round does to each row, and how the count it returns comes about.
  lemma {:induction false} RoundRows(jobs: map<nat, Job>, batch: seq<nat>, attempts: seq<Attempt>, after: map<nat, Job>)
    requires |attempts| == |batch| && Ran(jobs, batch, attempts, after)
    requires forall id :: id in batch ==> id in jobs
    ensures after.Keys == jobs.Keys
    ensures forall i :: 0 <= i < |batch| ==> DbRow(jobs[batch[i]], attempts[i], after[batch[i]])
    ensures forall id :: id in jobs && id !in batch ==> after[id] == jobs[id]
    ensures Successes(jobs, batch, attempts) == |DoneAt(jobs, batch, attempts)|
  {
    CountSuccesses(jobs, batch, attempts);
  }

  ghost function DoneAt(jobs: map<nat, Job>, batch: seq<nat>, attempts: seq<Attempt>): set<int>
    requires |attempts| == |batch| && forall id :: id in batch ==> id in jobs
  {
    set i | 0 <= i < |batch| && attempts[i].success
            && jobs[batch[i]].groupId.Some? && jobs[batch[i]].groupId.value != ""
  }

  lemma {:induction false} DoneGrows(jobs: map<nat, Job>, batch: seq<nat>, attempts: seq<Attempt>)
    requires |attempts| == |batch| > 0 && forall id :: id in batch ==> id in jobs
    ensures var n := |batch| - 1;
      |DoneAt(jobs, batch, attempts)|
      == |DoneAt(jobs, batch[..n], attempts[..n])| + (if Succeeds(jobs[batch[n]], attempts[n]) then 1 else 0)
  {
    var n := |batch| - 1;
    var all, before := DoneAt(jobs, batch, attempts), DoneAt(jobs, batch[..n], attempts[..n]);
    assert all == if Succeeds(jobs[batch[n]], attempts[n]) then before + {n} else before;
  }

  lemma {:induction false} CountSuccesses(jobs: map<nat, Job>, batch: seq<nat>, attempts: seq<Attempt>)
    requires |attempts| == |batch| && forall id :: id in batch ==> id in jobs
    ensures Successes(jobs, batch, attempts) == |DoneAt(jobs, batch, attempts)|
  {
    if batch == [] {
      assert DoneAt(jobs, batch, attempts) == {};
    } else {
      DoneGrows(jobs, batch, attempts);
      hide DoneAt, Succeeds;
      CountSuccesses(jobs, batch[..|batch| - 1], attempts[..|batch| - 1]);
    }
  }

  lemma {:induction false} LegacyRows(jobs: map<nat, Job>, batch: seq<nat>, attempts: seq<Attempt>, apps: seq<bool>,
          after: map<nat, Job>)
    requires |attempts| == |batch| == |apps| && RanLegacy(jobs, batch, attempts, apps, after)
    requires forall id :: id in batch ==> id in jobs
    ensures after.Keys == jobs.Keys
    ensures forall i :: 0 <= i < |batch| ==> LegacyRow(jobs[batch[i]], attempts[i], apps[i], after[batch[i]])
    ensures forall id :: id in jobs && id !in batch ==> after[id] == jobs[id]
    ensures Handled(jobs, batch, apps) == |HandledAt(jobs, batch, apps)|
  {
    CountHandled(jobs, batch, apps);
  }

  ghost function HandledAt(jobs: map<nat, Job>, batch: seq<nat>, apps: seq<bool>): set<int>
    requires |apps| == |batch| && forall id :: id in batch ==> id in jobs
  {
    set i | 0 <= i < |batch| && apps[i] && jobs[batch[i]].callback
  }

  lemma {:induction false} HandledGrows(jobs: map<nat, Job>, batch: seq<nat>, apps: seq<bool>)
    requires |apps| == |batch| > 0 && forall id :: id in batch ==> id in jobs
    ensures var n := |batch| - 1;
      |HandledAt(jobs, batch, apps)|
      == |HandledAt(jobs, batch[..n], apps[..n])| + (if apps[n] && jobs[batch[n]].callback then 1 else 0)
  {
    var n := |batch| - 1;
    var all, before := HandledAt(jobs, batch, apps), HandledAt(jobs, batch[..n], apps[..n]);
    assert all == if apps[n] && jobs[batch[n]].callback then before + {n} else before;
  }

  lemma {:induction false} CountHandled(jobs: map<nat, Job>, batch: seq<nat>, apps: seq<bool>)
    requires |apps| == |batch| && forall id :: id in batch ==> id in jobs
    ensures Handled(jobs, batch, apps) == |HandledAt(jobs, batch, apps)|
  {
    if batch == [] {
      assert HandledAt(jobs, batch, apps) == {};
    } else {
      HandledGrows(jobs, batch, apps);
      hide HandledAt;
      CountHandled(jobs, batch[..|batch| - 1], apps[..|batch| - 1]);
    }
  }

  // The due-jobs query: only PENDING and RETRYING rows whose time has come, each once, the
  // longest due first, and none left out that is due longer than one returned or while the
  // limit is not reached.
  lemma {:induction false} QueryReturns(jobs: map<nat, Job>, now: int, limit: nat, batch: seq<nat>, id: nat)
    requires DueBatch(jobs, now, limit, batch) && id in jobs
    ensures var j := jobs[id];
      var due := (j.status == PENDING || j.status == RETRYING) && j.nextRetryAt.Some? && j.nextRetryAt.value <= now;
      && |batch| <= limit && (id in batch ==> due)
      && (due && id !in batch ==>
            && |batch| == limit
            && forall i :: 0 <= i < |batch| ==>
                 batch[i] in jobs && jobs[batch[i]].nextRetryAt.Some?
                 && jobs[batch[i]].nextRetryAt.value <= j.nextRetryAt.value)
      && (forall i, k :: 0 <= i < k < |batch| ==>
            && batch[i] != batch[k] && batch[i] in jobs && batch[k] in jobs
            && jobs[batch[i]].nextRetryAt.Some? && jobs[batch[k]].nextRetryAt.Some?
            && jobs[batch[i]].nextRetryAt.value <= jobs[batch[k]].nextRetryAt.value)
  {
    forall i | 0 <= i < |batch| ensures batch[i] in jobs && jobs[batch[i]].nextRetryAt.Some? {
      assert batch[i] in batch;
    }
  }

  // A failed job with retries left is due again from its delay on and not before; a job that
  // succeeded or failed for good never is.
  lemma {:induction false} DueAfterRun(j: Job, a: Attempt, row: Job, t: int)
    requires DbRow(j, a, row)
    ensures Due(row, t) <==>
      !(a.success && j.groupId.Some? && j.groupId.value != "") && j.retryCount + 1 < j.maxRetries
      && t >= a.at + DelayMs(j.retryCount + 1)
  {
  }

  lemma RanNone(jobs: map<nat, Job>)
    ensures Ran(jobs, [], [], jobs) && Successes(jobs, [], []) == 0
    ensures RanLegacy(jobs, [], [], [], jobs) && Handled(jobs, [], []) == 0
  {
  }

  // One more job of the batch: its row is still as it was, and the round goes on with it.
  lemma {:induction false} RanMore(jobs: map<nat, Job>, batch: seq<nat>, attempts: seq<Attempt>, id: nat, a: Attempt,
          tx: map<nat, Job>)
    requires |attempts| == |batch| && id in jobs && id !in batch && Ran(jobs, batch, attempts, tx)
    ensures id in tx && tx[id] == jobs[id]
    ensures Ran(jobs, batch + [id], attempts + [a], tx[id := Apply(DbPatch(jobs[id], a), jobs[id])])
    ensures Successes(jobs, batch + [id], attempts + [a])
         == Successes(jobs, batch, attempts) + (if Succeeds(jobs[id], a) then 1 else 0)
  {
    hide DbPatch, Apply, Succeeds;
    assert (batch + [id])[..|batch|] == batch && (attempts + [a])[..|batch|] == attempts;
  }

  lemma {:induction false} RanLegacyMore(jobs: map<nat, Job>, batch: seq<nat>, attempts: seq<Attempt>, apps: seq<bool>,
                                  id: nat, a: Attempt, app: bool, tx: map<nat, Job>)
    requires |attempts| == |batch| == |apps| && id in jobs && id !in batch && RanLegacy(jobs, batch, attempts, apps, tx)
    ensures id in tx && tx[id] == jobs[id]
    ensures RanLegacy(jobs, batch + [id], attempts + [a], apps + [app],
                      tx[id := Apply(LegacyPatch(jobs[id], a, app), jobs[id])])
    ensures Handled(jobs, batch + [id], apps + [app])
         == Handled(jobs, batch, apps) + (if app && jobs[id].callback then 1 else 0)
  {
    hide LegacyPatch, Apply;
    assert (batch + [id])[..|batch|] == batch && (apps + [app])[..|batch|] == apps;
  }

  lemma Longer<T>(s: seq<T>, i: nat)
    requires i < |s|
    ensures s[..i] + [s[i]] == s[..i + 1]
  {
  }

  class JobService {
    var jobs: map<nat, Job>

    constructor ()
      ensures jobs == map[]
    {
      jobs := map[];
    }

    // `batch` is the query's answer; `attempts` how each job in it fares.
    method RunDueDbJobs(limit: nat, ghost now: int, batch: seq<nat>, attempts: seq<Attempt>) returns (processed: nat)
      requires DueBatch(jobs, now, limit, batch) && |attempts| == |batch|
      modifies this
      ensures Ran(old(jobs), batch, attempts, jobs)
      ensures processed == Successes(old(jobs), batch, attempts)
    {
      hide Ran, Successes;
      var txJobs := jobs;
      processed := 0;
      var i := 0;
      RanNone(jobs);
      while i < |batch|
        invariant 0 <= i <= |batch|
        invariant Ran(jobs, batch[..i], attempts[..i], txJobs)
        invariant processed == Successes(jobs, batch[..i], attempts[..i])
        modifies {}
      {
        var id := batch[i];
        assert id in batch && id !in batch[..i];
        Longer(batch, i);
        Longer(attempts, i);
        RanMore(jobs, batch[..i], attempts[..i], id, attempts[i], txJobs);
        var job := txJobs[id];
        if Succeeds(job, attempts[i]) {
          txJobs := txJobs[id := Apply(DONE, job)];
          processed := processed + 1;
        } else {
          var retryCount := job.retryCount + 1;
          if retryCount >= job.maxRetries {
            txJobs := txJobs[id := job.(status := FAILED, retryCount := retryCount, nextRetryAt := None,
                                        lastError := Some(attempts[i].error))];
          } else {
            var nextRetryAt := NextRetry(retryCount, attempts[i].at);
            txJobs := txJobs[id := job.(status := RETRYING, retryCount := retryCount,
                                        nextRetryAt := Some(nextRetryAt), lastError := Some(attempts[i].error))];
          }
        }
        i := i + 1;
      }
      assert batch[..i] == batch && attempts[..i] == attempts;
      jobs := txJobs;
    }

    method ExecuteHttpCallback(job: Job, a: Attempt) returns (row: Job)
      requires job.callback
      ensures row == Apply(LegacyPatch(job, a, true), job) && LegacyRow(job, a, true, row)
    {
      if a.success {
        return job.(status := SUCCEEDED, nextRetryAt := None, lastError := None);
      }
      var retryCount := job.retryCount + 1;
      if retryCount >= job.maxRetries {
        return job.(status := FAILED, retryCount := retryCount, nextRetryAt := None, lastError := Some(a.error));
      }
      return job.(retryCount := retryCount, nextRetryAt := Some(a.at + DelayMs(retryCount)),
                  lastError := Some(a.error));
    }

    method RunDueJobs(limit: nat, ghost now: int, batch: seq<nat>, attempts: seq<Attempt>,
            apps: seq<bool>) returns (processed: nat)
      requires DueBatch(jobs, now, limit, batch) && |attempts| == |batch| == |apps|
      modifies this
      ensures RanLegacy(old(jobs), batch, attempts, apps, jobs)
      ensures processed == Handled(old(jobs), batch, apps)
    {
      hide RanLegacy, Handled;
      var txJobs := jobs;
      processed := 0;
      var i := 0;
      RanNone(jobs);
      while i < |batch|
        invariant 0 <= i <= |batch|
        invariant RanLegacy(jobs, batch[..i], attempts[..i], apps[..i], txJobs)
        invariant processed == Handled(jobs, batch[..i], apps[..i])
        modifies {}
      {
        var id := batch[i];
        assert id in batch && id !in batch[..i];
        Longer(batch, i);
        Longer(attempts, i);
        Longer(apps, i);
        RanLegacyMore(jobs, batch[..i], attempts[..i], apps[..i], id, attempts[i], apps[i], txJobs);
        var job := txJobs[id];
        if apps[i] && job.callback {
          var row := ExecuteHttpCallback(job, attempts[i]);
          txJobs := txJobs[id := row];
          processed := processed + 1;
        } else {
          assert txJobs == txJobs[id := job];
        }
        i := i + 1;
      }
      assert batch[..i] == batch && attempts[..i] == attempts && apps[..i] == apps;
      jobs := txJobs;
    }

    method RetryJob(id: nat, now: int) returns (found: bool)
      modifies this
      ensures found <==> id in old(jobs)
      ensures jobs ==
        if !found then old(jobs)
        else old(jobs)[id := old(jobs)[id].(status := PENDING, retryCount := 0, nextRetryAt := Some(now),
                                            lastError := None)]
    {
      found := id in jobs;
      if found {
        jobs := jobs[id := jobs[id].(status := PENDING, retryCount := 0, nextRetryAt := Some(now), lastError := None)];
      }
    }

    method DeadletterJob(id: nat) returns (found: bool)
      modifies this
      ensures found <==> id in old(jobs)
      ensures jobs ==
        if !found then old(jobs) else old(jobs)[id := old(jobs)[id].(status := DEAD, nextRetryAt := None)]
    {
      found := id in jobs;
      if found {
        jobs := jobs[id := jobs[id].(status := DEAD, nextRetryAt := None)];
      }
    }
  }

  function ResetPatch(now: int): Patch { Patch(Some(PENDING), Some(0), Some(Some(now)), Some(None)) }
  const DEADLETTER: Patch := Patch(Some(DEAD), None, Some(None), None)

  // --- backoff arithmetic ---------------------------------------------------------------

  lemma {:induction false} Pow2Monotone(a: nat, b: nat)
    requires a <= b
    ensures Pow2(a) <= Pow2(b)
    decreases b
  {
    if a < b { Pow2Monotone(a, b - 1); }
  }

  lemma MulMonotone(x: nat, y: nat, a: nat, b: nat)
    requires x <= y && a <= b
    ensures x * a <= y * b
  {
    assert x * a <= y * a <= y * b;
  }

  lemma DivBounds(n: nat, d: nat)
    requires d > 0
    ensures n / d * d <= n < (n / d + 1) * d
  {
  }

  lemma {:induction false} DivMonotone(n: nat, a: nat, b: nat)
    requires 0 < a <= b
    ensures n / b <= n / a
  {
    DivBounds(n, a);
    DivBounds(n, b);
    if n / b > n / a {
      MulMonotone(n / a + 1, n / b, a, b);
    }
  }

  // Delays never shrink as the retry count grows, whatever its sign, and are capped at a
  // day. A retry is strictly later than its failure exactly for counts above -16.
  lemma {:induction false} DelayFacts(a: int, b: int)
    requires a <= b
    ensures 0 <= DelayMs(a) <= DelayMs(b) <= CAP
    ensures DelayMs(a) > 0 <==> a > -16
    ensures DelayMs(a) == CAP <==> a >= 11
  {
    if a >= 0 {
      Pow2Monotone(a, b);
    } else if b < 0 {
      Pow2Monotone(-b, -a);
      DivMonotone(60_000, Pow2(-b), Pow2(-a));
    }
    PowersAround(a);
  }

  lemma {:induction false} SomePowers()
    ensures Pow2(1) == 2 && Pow2(10) == 1024 && Pow2(11) == 2048 && Pow2(15) == 32768 && Pow2(16) == 65536
  {
    assert Pow2(4) == 16 && Pow2(8) == 256 && Pow2(12) == 4096;
  }

  lemma {:induction false} PowersAround(a: int)
    ensures a >= 11 ==> Pow2(a) >= 2048
    ensures 0 <= a < 11 ==> Pow2(a) <= 1024
    ensures a <= -16 ==> 60_000 / Pow2(-a) == 0
    ensures -16 < a < 0 ==> 0 < 60_000 / Pow2(-a) <= 30_000
  {
    SomePowers();
    hide Pow2;
    if a >= 11 {
      Pow2Monotone(11, a);
    } else if a >= 0 {
      Pow2Monotone(a, 10);
    } else if a > -16 {
      Pow2Monotone(-a, 15);
      Pow2Monotone(1, -a);
      DivMonotone(60_000, Pow2(-a), 32768);
      DivMonotone(60_000, 2, Pow2(-a));
    } else {
      Pow2Monotone(16, -a);
      DivMonotone(60_000, 65536, Pow2(-a));
    }
  }

  // The delay after a first failure is two minutes. From one minute at count 0 on each delay
  // is twice the one before or a day, and below 0 half of the one above, whole milliseconds.
  lemma {:induction false} DelayDoubles(k: int)
    ensures DelayMs(0) == 60_000 && DelayMs(1) == 120_000
    ensures k >= 0 ==> DelayMs(k + 1) == Min(2 * DelayMs(k), 86_400_000)
    ensures k < 0 ==> DelayMs(k) == DelayMs(k + 1) / 2
  {
    SomePowers();
    if k < -1 {
      HalfOfQuotient(60_000, Pow2(-k - 1));
    }
  }

  lemma {:induction false} HalfOfQuotient(n: nat, d: nat)
    requires d > 0
    ensures n / (2 * d) == n / d / 2
  {
    var q, h := n / d, n / d / 2;
    DivBounds(n, d);
    assert h * (2 * d) == 2 * h * d;
    MulMonotone(2 * h, q, d, d);
    MulMonotone(q + 1, 2 * h + 2, d, d);
    assert (h + 1) * (2 * d) == (2 * h + 2) * d;
    QuotientIs(n, 2 * d, h);
  }

  lemma {:induction false} QuotientIs(n: nat, d: nat, q: nat)
    requires d > 0 && q * d <= n < (q + 1) * d
    ensures n / d == q
  {
    DivBounds(n, d);
    if n / d < q {
      MulMonotone(n / d + 1, q, d, d);
    } else if n / d > q {
      MulMonotone(q + 1, n / d, d, d);
    }
  }

  // Time a job that always fails spends waiting, from retry count r until it is FAILED.
  function TotalWait(r: int, max: int): int
    decreases max - r
  {
    if r + 1 >= max then 0 else DelayMs(r + 1) + TotalWait(r + 1, max)
  }

  // From retry count 0 with m retries: (2^m - 2) minutes while no delay reaches the cap,
  // which is so for every m up to 11; each retry past that adds a day.
  lemma {:induction false} TotalWaitClosed(m: int)
    requires m >= 1
    ensures TotalWait(0, m) == if m <= 11 then (Pow2(m) - 2) * 60_000 else (Pow2(11) - 2) * 60_000 + (m - 11) * CAP
  {
    WaitFrom(0, m);
  }

  lemma {:induction false} WaitFrom(r: int, m: int)
    requires 0 <= r < m
    ensures TotalWait(r, m) ==
      if m <= 11 then (Pow2(m) - Pow2(r + 1)) * 60_000
      else if r <= 10 then (Pow2(11) - Pow2(r + 1)) * 60_000 + (m - 11) * CAP
      else (m - r - 1) * CAP
    decreases m - r
  {
    if r + 1 < m {
      WaitFrom(r + 1, m);
      PowersAround(r + 1);
    }
  }

  // --- how often a job is run -----------------------------------------------------------

  // Runs a job still has before it is out of the runners' reach, if every run fails.
  function Budget(j: Job): nat {
    if Terminal(j.status) then 0
    else if j.maxRetries - j.retryCount >= 1 then j.maxRetries - j.retryCount else 1
  }

  // A run uses up some of the budget; a failed one exactly one.
  lemma {:induction false} RunSpends(j: Job, a: Attempt)
    requires !Terminal(j.status)
    ensures Budget(Apply(DbPatch(j, a), j)) < Budget(j)
    ensures Terminal(Apply(DbPatch(j, a), j).status) <==> Budget(Apply(DbPatch(j, a), j)) == 0
    ensures !Succeeds(j, a) ==> Budget(Apply(DbPatch(j, a), j)) == Budget(j) - 1
  {
  }

  // A reset job is PENDING from the start, due at once and not before, with its whole budget
  // back; a dead-lettered one is DEAD and due at no time. No other column changes.
  lemma {:induction false} AdminEffects(j: Job, now: int)
    ensures var reset := Apply(ResetPatch(now), j);
      && reset == j.(status := PENDING, retryCount := 0, nextRetryAt := Some(now), lastError := None)
      && (forall t :: Due(reset, t) <==> t >= now)
      && Budget(reset) == (if j.maxRetries >= 1 then j.maxRetries else 1)
    ensures var dead := Apply(DEADLETTER, j);
      dead == j.(status := DEAD, nextRetryAt := None) && Budget(dead) == 0 && forall t :: !Due(dead, t)
  {
  }

  // A job run again and again with every attempt failing.
  function KeepFailing(j: Job, attempts: seq<Attempt>): Job
    decreases |attempts|
  {
    if attempts == [] then j else KeepFailing(Apply(DbPatch(j, attempts[0]), j), attempts[1..])
  }

  function Waits(j: Job, attempts: seq<Attempt>): int
    decreases |attempts|
  {
    if attempts == [] then 0
    else
      var next := Apply(DbPatch(j, attempts[0]), j);
      (if next.nextRetryAt.Some? then next.nextRetryAt.value - attempts[0].at else 0) + Waits(next, attempts[1..])
  }

  // Exactly max(1, maxRetries - r) failed runs take a job from retry count r to FAILED, not
  // fewer, and the delays scheduled on the way add up to TotalWait.
  lemma {:induction false} ExhaustsExactly(j: Job, attempts: seq<Attempt>)
    requires !Terminal(j.status) && |attempts| <= Budget(j)
    requires forall i :: 0 <= i < |attempts| ==> !attempts[i].success
    ensures KeepFailing(j, attempts).status.FAILED? <==> |attempts| == Budget(j)
    ensures !KeepFailing(j, attempts).status.FAILED? ==> !Terminal(KeepFailing(j, attempts).status)
    ensures |attempts| == Budget(j) ==> Waits(j, attempts) == TotalWait(j.retryCount, j.maxRetries)
    decreases |attempts|
  {
    if attempts != [] {
      RunSpends(j, attempts[0]);
      var next := Apply(DbPatch(j, attempts[0]), j);
      if Terminal(next.status) {
        assert attempts[1..] == [];
      } else {
        ExhaustsExactly(next, attempts[1..]);
      }
    }
  }

  // --- drain ----------------------------------------------------------------------------

  ghost function DueIds(jobs: map<nat, Job>, now: int): set<nat> {
    set id | id in jobs && Due(jobs[id], now)
  }

  datatype Round = Round(batch: seq<nat>, attempts: seq<Attempt>)

  // After a failed attempt at the query's own time a job is due again exactly when its
  // count is so far below zero that the delay rounds to nothing.
  lemma {:induction false} DueAgainIff(j: Job, a: Attempt, now: int)
    requires Due(j, now) && a.at >= now
    ensures var next := Apply(DbPatch(j, a), j);
      Due(next, now) <==> !Succeeds(j, a) && j.retryCount + 1 < j.maxRetries && a.at == now && j.retryCount + 1 <= -16
  {
    DelayFacts(j.retryCount + 1, j.retryCount + 1);
  }

  // Rounds run one after another on what the previous left, each seeing the due rows as of
  // the same time and failing no earlier than that.
  ghost predicate Rounds(jobs: map<nat, Job>, now: int, limit: nat, rounds: seq<Round>, tables: seq<map<nat, Job>>) {
    && |tables| == |rounds| + 1 && tables[0] == jobs
    && forall i :: 0 <= i < |rounds| ==>
         && |rounds[i].attempts| == |rounds[i].batch|
         && (forall k :: 0 <= k < |rounds[i].attempts| ==> rounds[i].attempts[k].at >= now)
         && DueBatch(tables[i], now, limit, rounds[i].batch)
         && Ran(tables[i], rounds[i].batch, rounds[i].attempts, tables[i + 1])
  }

  ghost function Members(batch: seq<nat>): set<nat> {
    set id | id in batch
  }

  lemma {:induction false} BatchSize(batch: seq<nat>)
    requires forall i, k :: 0 <= i < k < |batch| ==> batch[i] != batch[k]
    ensures |Members(batch)| == |batch|
  {
    if batch == [] {
      assert Members(batch) == {};
    } else {
      var n := |batch| - 1;
      BatchSize(batch[..n]);
      assert Members(batch) == Members(batch[..n]) + {batch[n]};
    }
  }

  ghost predicate LaterAttempts(r: Round, now: int) {
    |r.attempts| == |r.batch| && forall k :: 0 <= k < |r.attempts| ==> r.attempts[k].at >= now
  }

  lemma {:induction false} AttemptedNotDue(jobs: map<nat, Job>, now: int, limit: nat, r: Round, after: map<nat, Job>,
          id: nat)
    requires LaterAttempts(r, now) && DueBatch(jobs, now, limit, r.batch) && Ran(jobs, r.batch, r.attempts, after)
    requires id in r.batch && jobs[id].retryCount >= -16
    ensures id in after && !Due(after[id], now)
  {
    var i :| 0 <= i < |r.batch| && r.batch[i] == id;
    DueAgainIff(jobs[id], r.attempts[i], now);
  }

  lemma {:induction false} RoundLeaves(jobs: map<nat, Job>, now: int, limit: nat, r: Round, after: map<nat, Job>)
    requires LaterAttempts(r, now) && DueBatch(jobs, now, limit, r.batch) && Ran(jobs, r.batch, r.attempts, after)
    requires forall id :: id in DueIds(jobs, now) ==> jobs[id].retryCount >= -16
    ensures Members(r.batch) <= DueIds(jobs, now)
    ensures DueIds(after, now) == DueIds(jobs, now) - Members(r.batch)
    ensures forall id :: id in DueIds(after, now) ==> after[id] == jobs[id]
  {
    forall id | id in r.batch ensures id in DueIds(jobs, now) && id !in DueIds(after, now) {
      AttemptedNotDue(jobs, now, limit, r, after, id);
    }
  }

  lemma {:induction false} RoundDrains(jobs: map<nat, Job>, now: int, limit: nat, r: Round, after: map<nat, Job>)
    requires LaterAttempts(r, now) && DueBatch(jobs, now, limit, r.batch) && Ran(jobs, r.batch, r.attempts, after)
    requires forall id :: id in DueIds(jobs, now) ==> jobs[id].retryCount >= -16
    ensures |DueIds(after, now)| == if |DueIds(jobs, now)| > limit then |DueIds(jobs, now)| - limit else 0
  {
    RoundLeaves(jobs, now, limit, r, after);
    BatchSize(r.batch);
    assert |DueIds(jobs, now) - Members(r.batch)| == |DueIds(jobs, now)| - |Members(r.batch)|;
    if |r.batch| < limit {
      assert DueIds(jobs, now) == Members(r.batch);
    }
  }

  function Attempted(rounds: seq<Round>, id: nat): nat {
    if rounds == [] then 0 else (if id in rounds[0].batch then 1 else 0) + Attempted(rounds[1..], id)
  }

  // With a positive limit and no job further below zero than -16, the n due jobs are each
  // attempted exactly once, and nothing else is, within any number k of rounds with
  // k * limit >= n, so in ceil(n / limit); fewer rounds leave some job due.
  lemma {:induction false} DrainsFairly(jobs: map<nat, Job>, now: int, limit: nat, rounds: seq<Round>,
          tables: seq<map<nat, Job>>)
    requires limit > 0 && Rounds(jobs, now, limit, rounds, tables)
    requires forall id :: id in DueIds(jobs, now) ==> jobs[id].retryCount >= -16
    ensures forall id :: Attempted(rounds, id) <= (if id in DueIds(jobs, now) then 1 else 0)
    ensures DueIds(tables[|rounds|], now) == {} <==> |rounds| * limit >= |DueIds(jobs, now)|
    ensures DueIds(tables[|rounds|], now) == {} ==> forall id :: id in DueIds(jobs, now) ==> Attempted(rounds, id) == 1
    decreases |rounds|
  {
    var n := |DueIds(jobs, now)|;
    if rounds == [] {
      assert n == 0 <==> DueIds(jobs, now) == {};
    } else {
      var next := tables[1];
      FirstRound(jobs, now, limit, rounds, tables);
      TailRounds(jobs, now, limit, rounds, tables);
      OneRoundLess(|rounds| - 1, limit, n);
      hide Rounds;
      DrainsFairly(next, now, limit, rounds[1..], tables[1..]);
      forall id ensures id in rounds[0].batch <==> id in Members(rounds[0].batch) {
      }
    }
  }

  lemma OneRoundLess(k: nat, limit: nat, n: nat)
    ensures (k + 1) * limit >= n <==> k * limit >= if n > limit then n - limit else 0
  {
    assert (k + 1) * limit == k * limit + limit;
  }

  lemma {:induction false} FirstRound(jobs: map<nat, Job>, now: int, limit: nat, rounds: seq<Round>,
          tables: seq<map<nat, Job>>)
    requires limit > 0 && Rounds(jobs, now, limit, rounds, tables) && rounds != []
    requires forall id :: id in DueIds(jobs, now) ==> jobs[id].retryCount >= -16
    ensures var next, batch := tables[1], Members(rounds[0].batch);
      && batch <= DueIds(jobs, now) && DueIds(next, now) == DueIds(jobs, now) - batch
      && (forall id :: id in DueIds(next, now) ==> next[id].retryCount >= -16)
      && |DueIds(next, now)| == if |DueIds(jobs, now)| > limit then |DueIds(jobs, now)| - limit else 0
  {
    var r := rounds[0];
    assert Ran(tables[0], rounds[0].batch, rounds[0].attempts, tables[0 + 1]);
    assert LaterAttempts(r, now);
    RoundLeaves(jobs, now, limit, r, tables[1]);
    RoundDrains(jobs, now, limit, r, tables[1]);
  }

  lemma {:induction false} TailRounds(jobs: map<nat, Job>, now: int, limit: nat, rounds: seq<Round>,
          tables: seq<map<nat, Job>>)
    requires Rounds(jobs, now, limit, rounds, tables) && rounds != []
    ensures Rounds(tables[1], now, limit, rounds[1..], tables[1..])
    ensures tables[1..][|rounds[1..]|] == tables[|rounds|]
  {
    assert forall i :: 0 <= i < |rounds| - 1 ==> rounds[1..][i] == rounds[i + 1];
    assert forall i :: 0 <= i < |tables| - 1 ==> tables[1..][i] == tables[i + 1];
  }
}
