// One poll of a source queue, and one of the main queue, with anything allowed to fail.

module Polling {
  import opened Prelude
  import opened JsValues
  import opened Normalise

  datatype Message = Message(id: nat, raw: Raw)

  // How forwarding one message fares: the send can fail, or the delete after it; and after
  // a failure the row for the jobs table can fail to be saved. `first` are the values
  // generated for the forward, `again` those generated anew when the failure is saved.
  datatype Fate = Fate(sendFails: bool, deleteFails: bool, saveFails: bool, first: Fresh, again: Fresh)

  datatype QueueConfig = QueueConfig(url: string, maxMessages: nat, enabled: bool)
  datatype PollError = UnknownQueue
  datatype PollResult = Forwarded(count: nat) | Threw(error: PollError)

  // createUnifiedJob in DB mode stamps the message before it becomes a row.
  const DEFAULT_APP: string := "eb3fcbb2-7bb3-4ac7-aa38-1cb4bf00e405"

  function Stamped(u: Unified, f: Fresh): Unified {
    u.(metadata := u.metadata.(
      jobId := Val(f.jobId),
      appId := if u.metadata.appId.Val? then u.metadata.appId else Val(DEFAULT_APP),
      groupId := u.execution.kind,
      createdAt := Val(f.createdAt),
      retryCount := Val(0)))
  }

  // The elements at the indices a test picks, in order.
  function Pick<T>(s: seq<T>, keep: seq<bool>): seq<T>
    requires |s| == |keep|
  {
    if s == [] then []
    else Pick(s[..|s| - 1], keep[..|s| - 1]) + (if keep[|s| - 1] then [s[|s| - 1]] else [])
  }

  function Sends(fates: seq<Fate>): seq<bool> { seq(|fates|, i requires 0 <= i < |fates| => !fates[i].sendFails) }
  function Deletes(fates: seq<Fate>): seq<bool> {
    seq(|fates|, i requires 0 <= i < |fates| => !fates[i].sendFails && !fates[i].deleteFails)
  }
  function Forms(received: seq<Message>, queue: string, fates: seq<Fate>): seq<Unified>
    requires |received| == |fates|
  {
    seq(|received|, i requires 0 <= i < |received| => Bridge(received[i].raw, queue, fates[i].first))
  }

  function Rows(received: seq<Message>, queue: string, fates: seq<Fate>): seq<Unified>
    requires |received| == |fates|
  {
    seq(|received|, i requires 0 <= i < |received| =>
      SavedForm(received[i], queue, fates[i]))
  }

  // The form a failed message is saved in.
  function SavedForm(m: Message, queue: string, f: Fate): Unified {
    Stamped(Bridge(m.raw, queue, f.again), f.again)
  }

  // The row of a failed message, column by column: what the bridge would forward, with a new
  // job id, the default app if it names none, its execution type for a group and no retries.
  // It is saved when its send or its delete failed, unless the insert fails or its app id is
  // the empty text.
  lemma SavedColumns(m: Message, queue: string, f: Fate)
    ensures var u, row := Bridge(m.raw, queue, f.again), SavedForm(m, queue, f);
      && row.lambda == u.lambda && row.execution == u.execution
      && row.metadata == Metadata(Val(f.again.jobId),
                                  if u.metadata.appId.Val? then u.metadata.appId
                                  else Val("eb3fcbb2-7bb3-4ac7-aa38-1cb4bf00e405"),
                                  u.execution.kind, u.metadata.idempotencyKey, Val(f.again.createdAt), Val(0))
      && (IsSaved(m, queue, f) <==>
            (f.sendFails || f.deleteFails) && !f.saveFails && u.metadata.appId != Val(""))
  {
  }

  // A failed message becomes a row unless the insert fails or its app id is the empty text.
  predicate IsSaved(m: Message, queue: string, f: Fate) {
    (f.sendFails || f.deleteFails) && !f.saveFails && SavedForm(m, queue, f).metadata.appId != Val("")
  }

  function Saves(received: seq<Message>, queue: string, fates: seq<Fate>): seq<bool>
    requires |received| == |fates|
  {
    seq(|received|, i requires 0 <= i < |received| => IsSaved(received[i], queue, fates[i]))
  }

  function Ids(ms: seq<Message>): set<nat> { set m | m in ms :: m.id }

  function Without(queue: seq<Message>, gone: set<nat>): seq<Message> {
    if queue == [] then []
    else Without(queue[..|queue| - 1], gone)
         + (if queue[|queue| - 1].id in gone then [] else [queue[|queue| - 1]])
  }

  ghost predicate Places<T>(s: seq<T>, keep: seq<bool>, picked: seq<T>, from: seq<nat>)
    requires |s| == |keep|
  {
    && |from| == |picked|
    && (forall i :: 0 <= i < |from| ==> from[i] < |s| && keep[from[i]] && picked[i] == s[from[i]])
    && (forall i, j :: 0 <= i < j < |from| ==> from[i] < from[j])
  }

  ghost predicate Covers(keep: seq<bool>, from: seq<nat>) {
    forall k :: 0 <= k < |keep| && keep[k] ==> k in from
  }

  lemma {:induction false} PlacesMore<T>(s: seq<T>, keep: seq<bool>, picked: seq<T>, from: seq<nat>, x: T, k: bool)
    requires |s| == |keep| && Places(s, keep, picked, from)
    ensures Places(s + [x], keep + [k], if k then picked + [x] else picked, if k then from + [|s|] else from)
  {
  }

  lemma {:induction false} CoversMore(keep: seq<bool>, from: seq<nat>, k: bool)
    requires Covers(keep, from)
    ensures Covers(keep + [k], if k then from + [|keep|] else from)
  {
    var from1 := if k then from + [|keep|] else from;
    forall j | 0 <= j < |keep| + 1 && (keep + [k])[j] ensures j in from1 {
      if j < |keep| {
        assert j in from;
      } else {
        assert from1[|from|] == j;
      }
    }
  }

  lemma NoPlaces<T>(s: seq<T>, keep: seq<bool>)
    requires s == [] && keep == []
    ensures Places(s, keep, Pick(s, keep), []) && Covers(keep, [])
  {
  }

  lemma {:induction false} LastPick<T>(s: seq<T>, keep: seq<bool>)
    requires |s| == |keep| > 0
    ensures var n := |s| - 1;
      && s[..n] + [s[n]] == s && keep[..n] + [keep[n]] == keep
      && Pick(s, keep) == if keep[n] then Pick(s[..n], keep[..n]) + [s[n]] else Pick(s[..n], keep[..n])
  {
  }

  lemma {:induction false} PickPlaces<T>(s: seq<T>, keep: seq<bool>) returns (from: seq<nat>)
    requires |s| == |keep|
    ensures Places(s, keep, Pick(s, keep), from) && Covers(keep, from)
  {
    hide Places, Covers, Pick;
    if s == [] {
      from := [];
      NoPlaces(s, keep);
    } else {
      var n := |s| - 1;
      var before := PickPlaces(s[..n], keep[..n]);
      from := if keep[n] then before + [n] else before;
      LastPick(s, keep);
      PlacesMore(s[..n], keep[..n], Pick(s[..n], keep[..n]), before, s[n], keep[n]);
      CoversMore(keep[..n], before, keep[n]);
    }
  }

  // Picking keeps order and drops nothing it was told to keep: a subsequence with the
  // positions it came from.
  lemma {:induction false} PickIsSubsequence<T>(s: seq<T>, keep: seq<bool>) returns (from: seq<nat>)
    requires |s| == |keep|
    ensures |from| == |Pick(s, keep)|
    ensures forall i :: 0 <= i < |from| ==> from[i] < |s| && keep[from[i]] && Pick(s, keep)[i] == s[from[i]]
    ensures forall i, j :: 0 <= i < j < |from| ==> from[i] < from[j]
    ensures forall k :: 0 <= k < |s| && keep[k] ==> k in from
  {
    from := PickPlaces(s, keep);
  }

  lemma {:induction false} WithoutFacts(queue: seq<Message>, gone: set<nat>)
    ensures forall m :: m in Without(queue, gone) <==> m in queue && m.id !in gone
  {
    if queue != [] {
      WithoutFacts(queue[..|queue| - 1], gone);
      assert queue == queue[..|queue| - 1] + [queue[|queue| - 1]];
    }
  }

  lemma {:induction false} WithoutMore(queue: seq<Message>, gone: set<nat>, id: nat)
    ensures Without(Without(queue, gone), {id}) == Without(queue, gone + {id})
  {
    if queue != [] {
      WithoutMore(queue[..|queue| - 1], gone, id);
      var last := queue[|queue| - 1];
      var rest := Without(queue[..|queue| - 1], gone);
      if last.id in gone {
        assert Without(queue, gone) == rest;
      } else {
        assert Without(queue, gone) == rest + [last] && (rest + [last])[..|rest|] == rest;
      }
    }
  }

  lemma {:induction false} WithoutNone(queue: seq<Message>)
    ensures Without(queue, {}) == queue
  {
    if queue != [] {
      WithoutNone(queue[..|queue| - 1]);
      assert queue == queue[..|queue| - 1] + [queue[|queue| - 1]];
    }
  }

  // What a poll adds to the main queue and to the jobs table, and takes off its own queue.
  function SentBy(received: seq<Message>, queue: string, fates: seq<Fate>): seq<Unified>
    requires |received| == |fates|
  {
    Pick(Forms(received, queue, fates), Sends(fates))
  }

  function SavedBy(received: seq<Message>, queue: string, fates: seq<Fate>): seq<Unified>
    requires |received| == |fates|
  {
    Pick(Rows(received, queue, fates), Saves(received, queue, fates))
  }

  function DeletedBy(received: seq<Message>, fates: seq<Fate>): seq<Message>
    requires |received| == |fates|
  {
    Pick(received, Deletes(fates))
  }

  lemma {:induction false} NoneYet(received: seq<Message>, queue: string, fates: seq<Fate>)
    requires |received| == |fates|
    ensures SentBy(received[..0], queue, fates[..0]) == [] && SavedBy(received[..0], queue, fates[..0]) == []
    ensures DeletedBy(received[..0], fates[..0]) == [] && Ids(DeletedBy(received[..0], fates[..0])) == {}
  {
  }

  // One turn of the loop, seen by each of the lists it builds.
  lemma {:induction false} OneMore(received: seq<Message>, queue: string, fates: seq<Fate>, i: int)
    requires |received| == |fates| && 0 <= i < |received|
    ensures var m, f, ms, fs := received[i], fates[i], received[..i], fates[..i];
      && SentBy(received[..i + 1], queue, fates[..i + 1])
         == SentBy(ms, queue, fs) + (if f.sendFails then [] else [Bridge(m.raw, queue, f.first)])
      && SavedBy(received[..i + 1], queue, fates[..i + 1])
         == SavedBy(ms, queue, fs) + (if IsSaved(m, queue, f) then [SavedForm(m, queue, f)] else [])
      && DeletedBy(received[..i + 1], fates[..i + 1])
         == DeletedBy(ms, fs) + (if f.sendFails || f.deleteFails then [] else [m])
      && Ids(DeletedBy(received[..i + 1], fates[..i + 1]))
         == Ids(DeletedBy(ms, fs)) + (if f.sendFails || f.deleteFails then {} else {m.id})
  {
    hide Bridge, Stamped;
    var ms, fs, ms1, fs1 := received[..i], fates[..i], received[..i + 1], fates[..i + 1];
    assert Forms(ms1, queue, fs1)[..i] == Forms(ms, queue, fs) && Sends(fs1)[..i] == Sends(fs);
    assert Rows(ms1, queue, fs1)[..i] == Rows(ms, queue, fs) && Saves(ms1, queue, fs1)[..i] == Saves(ms, queue, fs);
    assert ms1[..i] == ms && Deletes(fs1)[..i] == Deletes(fs);
  }

  lemma {:induction false} PickMember<T>(s: seq<T>, keep: seq<bool>, x: T)
    requires |s| == |keep|
    ensures x in Pick(s, keep) <==> exists i :: 0 <= i < |s| && keep[i] && s[i] == x
  {
    var from := PickIsSubsequence(s, keep);
    if x in Pick(s, keep) {
      var k :| 0 <= k < |from| && Pick(s, keep)[k] == x;
      assert s[from[k]] == x;
    }
    forall i | 0 <= i < |s| && keep[i] && s[i] == x ensures x in Pick(s, keep) {
      var k :| 0 <= k < |from| && from[k] == i;
      assert Pick(s, keep)[k] == x;
    }
  }

  // A received message leaves the source queue exactly when its send and its delete both
  // went through.
  lemma {:induction false} StaysUnlessDeleted(source: seq<Message>, received: seq<Message>, fates: seq<Fate>, i: int)
    requires |received| == |fates| && 0 <= i < |received| && received[i] in source
    requires forall j, k :: 0 <= j < k < |received| ==> received[j].id != received[k].id
    ensures received[i] in Without(source, Ids(DeletedBy(received, fates)))
            <==> fates[i].sendFails || fates[i].deleteFails
  {
    WithoutFacts(source, Ids(DeletedBy(received, fates)));
    PickMember(received, Deletes(fates), received[i]);
    if Deletes(fates)[i] {
      assert received[i] in DeletedBy(received, fates);
    } else {
      forall m | m in DeletedBy(received, fates) ensures m.id != received[i].id {
        PickMember(received, Deletes(fates), m);
        var k :| 0 <= k < |received| && Deletes(fates)[k] && received[k] == m;
        assert k != i;
      }
    }
  }

  // Forwarded plus failed is received; every message whose send went through is in the
  // list sent, so every deleted one is; every failed one that can be saved is a new row.
  lemma {:induction false} PollAccounts(received: seq<Message>, queue: string, fates: seq<Fate>, i: int)
    requires |received| == |fates| && 0 <= i < |received|
    ensures |DeletedBy(received, fates)| + |Pick(received, Failures(fates))| == |received|
    ensures !fates[i].sendFails ==> Bridge(received[i].raw, queue, fates[i].first) in SentBy(received, queue, fates)
    ensures IsSaved(received[i], queue, fates[i]) ==>
              SavedForm(received[i], queue, fates[i]) in SavedBy(received, queue, fates)
  {
    hide Bridge, Stamped, IsSaved;
    PickComplement(received, Deletes(fates), Failures(fates));
    PickMember(Forms(received, queue, fates), Sends(fates), Forms(received, queue, fates)[i]);
    PickMember(Rows(received, queue, fates), Saves(received, queue, fates), Rows(received, queue, fates)[i]);
    assert Sends(fates)[i] == !fates[i].sendFails;
    assert Saves(received, queue, fates)[i] == IsSaved(received[i], queue, fates[i]);
  }

  function Failures(fates: seq<Fate>): seq<bool> {
    seq(|fates|, i requires 0 <= i < |fates| => fates[i].sendFails || fates[i].deleteFails)
  }

  lemma {:induction false} PickComplement<T>(s: seq<T>, a: seq<bool>, b: seq<bool>)
    requires |s| == |a| == |b| && forall i :: 0 <= i < |s| ==> a[i] == !b[i]
    ensures |Pick(s, a)| + |Pick(s, b)| == |s|
  {
    if s != [] {
      PickComplement(s[..|s| - 1], a[..|s| - 1], b[..|s| - 1]);
    }
  }

  class MultiQueuePolling {
    var source: seq<Message>     // the polled queue; a received message stays until deleted
    var sent: seq<Unified>       // what the main queue was given, in order
    var rows: seq<Unified>       // failed messages saved as jobs

    constructor (source: seq<Message>)
      ensures this.source == source && sent == [] && rows == []
    {
      this.source, sent, rows := source, [], [];
    }

    // Send, then delete; the answer says whether both went through.
    method ForwardOne(m: Message, queue: string, fate: Fate) returns (ok: bool)
      modifies this
      ensures ok <==> !fate.sendFails && !fate.deleteFails
      ensures sent == old(sent) + (if fate.sendFails then [] else [Bridge(m.raw, queue, fate.first)])
      ensures source == if ok then Without(old(source), {m.id}) else old(source)
      ensures rows == old(rows)
    {
      var unified := Bridge(m.raw, queue, fate.first);
      if fate.sendFails {
        return false;
      }
      sent := sent + [unified];
      if fate.deleteFails {
        return false;
      }
      source := Without(source, {m.id});
      return true;
    }

    method SaveFailedMessage(m: Message, queue: string, fate: Fate)
      requires fate.sendFails || fate.deleteFails
      modifies this
      ensures rows == old(rows) + (if IsSaved(m, queue, fate) then [SavedForm(m, queue, fate)] else [])
      ensures sent == old(sent) && source == old(source)
    {
      var row := Stamped(Bridge(m.raw, queue, fate.again), fate.again);
      if !fate.saveFails && row.metadata.appId != Val("") {
        rows := rows + [row];
      }
    }

    // `received` is what the queue hands out and `fates` how each message fares. The main
    // queue gets the forms of the messages whose send went through, in order; the count
    // returned is the number deleted from the source queue, and the rest are saved as jobs.
    method PollQueue(queue: string, config: Option<QueueConfig>, received: seq<Message>, fates: seq<Fate>)
      returns (r: PollResult)
      requires |received| == |fates|
      modifies this
      ensures r.Threw? <==> config.None?
      ensures config.None? || !config.value.enabled || config.value.url == "" ==>
                unchanged(this) && (r.Forwarded? ==> r.count == 0)
      ensures r.Forwarded? && config.value.enabled && config.value.url != "" ==>
                && sent == old(sent) + SentBy(received, queue, fates)
                && rows == old(rows) + SavedBy(received, queue, fates)
                && source == Without(old(source), Ids(DeletedBy(received, fates)))
                && r.count == |DeletedBy(received, fates)|
    {
      hide SentBy, SavedBy, DeletedBy, Bridge, Stamped, Without, Ids;
      if config.None? {
        return Threw(UnknownQueue);
      }
      if !config.value.enabled || config.value.url == "" {
        return Forwarded(0);
      }
      var forwarded, failed := 0, 0;
      var i := 0;
      WithoutNone(source);
      NoneYet(received, queue, fates);
      while i < |received|
        invariant 0 <= i <= |received| && forwarded + failed == i
        invariant forwarded == |DeletedBy(received[..i], fates[..i])|
        invariant sent == old(sent) + SentBy(received[..i], queue, fates[..i])
        invariant rows == old(rows) + SavedBy(received[..i], queue, fates[..i])
        invariant source == Without(old(source), Ids(DeletedBy(received[..i], fates[..i])))
      {
        OneMore(received, queue, fates, i);
        WithoutMore(old(source), Ids(DeletedBy(received[..i], fates[..i])), received[i].id);
        ghost var deleted := Ids(DeletedBy(received[..i], fates[..i]));
        assert deleted + {} == deleted;
        var ok := ForwardOne(received[i], queue, fates[i]);
        if ok {
          forwarded := forwarded + 1;
        } else {
          failed := failed + 1;
          SaveFailedMessage(received[i], queue, fates[i]);
        }
        i := i + 1;
      }
      assert received[..i] == received && fates[..i] == fates;
      return Forwarded(forwarded);
    }
  }
}

// One poll of the main queue: parse, process, delete; a failed message is saved as a job
// and stays queued.
module MainPolling {
  import opened Prelude
  import opened JsValues
  import opened Normalise
  import opened Polling
  import Jobs

  // A main-queue message; None is a body that does not parse.
  datatype Queued = Queued(id: nat, message: Option<Unified>)
  datatype Outcome = Outcome(processFails: bool, deleteFails: bool, saveFails: bool, at: int)

  predicate Valid(q: Queued) { q.message.Some? && MainAccepts(q.message.value) }
  predicate Runs(q: Queued, o: Outcome) { Valid(q) && !o.processFails }

  function Ran(received: seq<Queued>, os: seq<Outcome>): seq<bool>
    requires |received| == |os|
  {
    seq(|received|, i requires 0 <= i < |received| => Runs(received[i], os[i]))
  }

  function Gone(received: seq<Queued>, os: seq<Outcome>): seq<bool>
    requires |received| == |os|
  {
    seq(|received|, i requires 0 <= i < |received| => Runs(received[i], os[i]) && !os[i].deleteFails)
  }

  // The retry a failed message is saved with.
  datatype Saved = Saved(message: Unified, retryCount: int, nextRetryAt: int)

  predicate IsKept(q: Queued, o: Outcome) {
    Valid(q) && (o.processFails || o.deleteFails) && !o.saveFails && Truthy(q.message.value.metadata.appId)
  }

  function SavedRow(q: Queued, o: Outcome): Saved
    requires Valid(q)
  {
    var count := if q.message.value.metadata.retryCount.Val? then q.message.value.metadata.retryCount.value else 0;
    Saved(q.message.value, count, Jobs.NextRetry(count, o.at))
  }

  function SavedRows(received: seq<Queued>, os: seq<Outcome>): seq<Saved>
    requires |received| == |os|
  {
    if received == [] then []
    else
      var n := |received| - 1;
      SavedRows(received[..n], os[..n]) + (if IsKept(received[n], os[n]) then [SavedRow(received[n], os[n])] else [])
  }

  function Remaining(queue: seq<Queued>, gone: seq<Queued>): seq<Queued> {
    if queue == [] then []
    else Remaining(queue[..|queue| - 1], gone) + (if queue[|queue| - 1] in gone then [] else [queue[|queue| - 1]])
  }

  lemma {:induction false} RemainingMore(queue: seq<Queued>, gone: seq<Queued>, q: Queued)
    ensures Remaining(Remaining(queue, gone), [q]) == Remaining(queue, gone + [q])
  {
    if queue != [] {
      RemainingMore(queue[..|queue| - 1], gone, q);
      var last, rest := queue[|queue| - 1], Remaining(queue[..|queue| - 1], gone);
      if last in gone {
        assert Remaining(queue, gone) == rest;
      } else {
        assert Remaining(queue, gone) == rest + [last] && (rest + [last])[..|rest|] == rest;
      }
    }
  }

  lemma {:induction false} RemainingNone(queue: seq<Queued>)
    ensures Remaining(queue, []) == queue
  {
    if queue != [] {
      RemainingNone(queue[..|queue| - 1]);
      assert queue == queue[..|queue| - 1] + [queue[|queue| - 1]];
    }
  }

  class MainQueue {
    var queue: seq<Queued>
    var processed: seq<Queued>   // successfully processed, in order
    var rows: seq<Saved>

    constructor (queue: seq<Queued>)
      ensures this.queue == queue && processed == [] && rows == []
    {
      this.queue, processed, rows := queue, [], [];
    }

    // The count returned is the number deleted, and every deleted message was processed in
    // the same turn before it.
    method PollAndProcess(received: seq<Queued>, os: seq<Outcome>) returns (count: nat)
      requires |received| == |os|
      modifies this
      ensures processed == old(processed) + Pick(received, Ran(received, os))
      ensures queue == Remaining(old(queue), Pick(received, Gone(received, os)))
      ensures rows == old(rows) + SavedRows(received, os)
      ensures count == |Pick(received, Gone(received, os))|
    {
      hide MainAccepts, SavedRow, Remaining;
      count := 0;
      var i := 0;
      RemainingNone(queue);
      while i < |received|
        invariant 0 <= i <= |received|
        invariant processed == old(processed) + Pick(received[..i], Ran(received[..i], os[..i]))
        invariant queue == Remaining(old(queue), Pick(received[..i], Gone(received[..i], os[..i])))
        invariant rows == old(rows) + SavedRows(received[..i], os[..i])
        invariant count == |Pick(received[..i], Gone(received[..i], os[..i]))|
      {
        var q, o := received[i], os[i];
        OneMoreQueued(received, os, i);
        ghost var gone := Pick(received[..i], Gone(received[..i], os[..i]));
        assert gone + [] == gone;
        RemainingMore(old(queue), gone, q);
        var ok := false;
        if Valid(q) && !o.processFails {
          processed := processed + [q];
          if !o.deleteFails {
            queue := Remaining(queue, [q]);
            count := count + 1;
            ok := true;
          }
        }
        if !ok && Valid(q) && !o.saveFails && Truthy(q.message.value.metadata.appId) {
          rows := rows + [SavedRow(q, o)];
        }
        i := i + 1;
      }
      assert received[..i] == received && os[..i] == os;
    }
  }

  lemma {:induction false} OneMoreQueued(received: seq<Queued>, os: seq<Outcome>, i: int)
    requires |received| == |os| && 0 <= i < |received|
    ensures var q, o, qs, ps, qs1, ps1 := received[i], os[i], received[..i], os[..i], received[..i + 1], os[..i + 1];
      && Pick(qs1, Ran(qs1, ps1)) == Pick(qs, Ran(qs, ps)) + (if Runs(q, o) then [q] else [])
      && Pick(qs1, Gone(qs1, ps1)) == Pick(qs, Gone(qs, ps)) + (if Runs(q, o) && !o.deleteFails then [q] else [])
      && SavedRows(qs1, ps1) == SavedRows(qs, ps) + (if IsKept(q, o) then [SavedRow(q, o)] else [])
  {
    var qs1, ps1 := received[..i + 1], os[..i + 1];
    assert qs1[..i] == received[..i] && ps1[..i] == os[..i];
    assert Ran(qs1, ps1)[..i] == Ran(received[..i], os[..i]) && Gone(qs1, ps1)[..i] == Gone(received[..i], os[..i]);
  }

  // Deleted messages were processed; one that was not deleted is still queued unless an
  // equal one was.
  lemma {:induction false} DeletedWereProcessed(received: seq<Queued>, os: seq<Outcome>, q: Queued)
    requires |received| == |os| && q in Pick(received, Gone(received, os))
    ensures q in Pick(received, Ran(received, os)) && Valid(q)
  {
    PickMember(received, Gone(received, os), q);
    PickMember(received, Ran(received, os), q);
    var i :| 0 <= i < |received| && Gone(received, os)[i] && received[i] == q;
    assert Ran(received, os)[i];
  }

  lemma {:induction false} RemainingFacts(queue: seq<Queued>, gone: seq<Queued>)
    ensures forall q :: q in Remaining(queue, gone) <==> q in queue && q !in gone
  {
    if queue != [] {
      RemainingFacts(queue[..|queue| - 1], gone);
      assert queue == queue[..|queue| - 1] + [queue[|queue| - 1]];
    }
  }

  // A received message was processed exactly when it parses, passes validation and processing
  // succeeds, and leaves the queue exactly when its delete went through as well.
  lemma {:induction false} LeavesWhenDone(queue: seq<Queued>, received: seq<Queued>, os: seq<Outcome>, i: int)
    requires |received| == |os| && 0 <= i < |received| && received[i] in queue
    requires forall j, k :: 0 <= j < k < |received| ==> received[j] != received[k]
    ensures var done := received[i].message.Some? && MainAccepts(received[i].message.value) && !os[i].processFails;
      && (received[i] in Pick(received, Ran(received, os)) <==> done)
      && (received[i] !in Remaining(queue, Pick(received, Gone(received, os))) <==> done && !os[i].deleteFails)
  {
    hide MainAccepts;
    RemainingFacts(queue, Pick(received, Gone(received, os)));
    PickMember(received, Ran(received, os), received[i]);
    PickMember(received, Gone(received, os), received[i]);
    assert Ran(received, os)[i] == Runs(received[i], os[i]);
    assert Gone(received, os)[i] == (Runs(received[i], os[i]) && !os[i].deleteFails);
  }

  // The row a failed message is saved as: the message itself, its own retry count or 0, and
  // the delay that count gives.
  ghost predicate SavedAs(q: Queued, o: Outcome, row: Saved) {
    && q.message.Some? && MainAccepts(q.message.value) && (o.processFails || o.deleteFails) && !o.saveFails
    && NonEmpty(q.message.value.metadata.appId) && row.message == q.message.value
    && row.retryCount == (match q.message.value.metadata.retryCount case Val(n) => n case _ => 0)
    && row.nextRetryAt == o.at + Jobs.DelayMs(row.retryCount)
  }

  ghost predicate ToSave(q: Queued, o: Outcome) {
    && q.message.Some? && MainAccepts(q.message.value) && (o.processFails || o.deleteFails) && !o.saveFails
    && NonEmpty(q.message.value.metadata.appId)
  }

  lemma {:induction false} LastRow(received: seq<Queued>, os: seq<Outcome>)
    requires |received| == |os| > 0
    ensures var n := |received| - 1;
      var before := SavedRows(received[..n], os[..n]);
      if ToSave(received[n], os[n])
      then exists row :: SavedAs(received[n], os[n], row) && SavedRows(received, os) == before + [row]
      else SavedRows(received, os) == before
  {
    hide MainAccepts;
    var n := |received| - 1;
    if ToSave(received[n], os[n]) {
      assert SavedAs(received[n], os[n], SavedRow(received[n], os[n]));
    }
  }

  lemma {:induction false} RowsAreSaved(received: seq<Queued>, os: seq<Outcome>, row: Saved)
    requires |received| == |os| && row in SavedRows(received, os)
    ensures exists i :: 0 <= i < |received| && SavedAs(received[i], os[i], row)
  {
    hide SavedAs, ToSave;
    var n := |received| - 1;
    LastRow(received, os);
    if row in SavedRows(received[..n], os[..n]) {
      RowsAreSaved(received[..n], os[..n], row);
      var i :| 0 <= i < n && SavedAs(received[..n][i], os[..n][i], row);
      assert SavedAs(received[i], os[i], row);
    } else {
      assert SavedAs(received[n], os[n], row);
    }
  }

  lemma {:induction false} SavedIsRow(received: seq<Queued>, os: seq<Outcome>, i: int)
    requires |received| == |os| && 0 <= i < |received| && ToSave(received[i], os[i])
    ensures exists row :: row in SavedRows(received, os) && SavedAs(received[i], os[i], row)
  {
    hide SavedAs, ToSave;
    var n := |received| - 1;
    LastRow(received, os);
    if i < n {
      SavedIsRow(received[..n], os[..n], i);
      var row :| row in SavedRows(received[..n], os[..n]) && SavedAs(received[i], os[i], row);
      assert row in SavedRows(received, os);
    } else {
      var row :| SavedAs(received[n], os[n], row)
                 && SavedRows(received, os) == SavedRows(received[..n], os[..n]) + [row];
      assert row in SavedRows(received, os);
    }
  }

  // The rows of a poll are those of the valid messages that were not processed and deleted,
  // had an app and could be saved: each of them, and no others.
  lemma {:induction false} RowsOfPoll(received: seq<Queued>, os: seq<Outcome>)
    requires |received| == |os|
    ensures forall row :: row in SavedRows(received, os) ==>
              exists i :: 0 <= i < |received| && SavedAs(received[i], os[i], row)
    ensures forall i :: 0 <= i < |received| && ToSave(received[i], os[i]) ==>
              exists row :: row in SavedRows(received, os) && SavedAs(received[i], os[i], row)
  {
    hide SavedAs, ToSave, SavedRows;
    forall row | row in SavedRows(received, os)
      ensures exists i :: 0 <= i < |received| && SavedAs(received[i], os[i], row)
    {
      RowsAreSaved(received, os, row);
    }
    forall i | 0 <= i < |received| && ToSave(received[i], os[i])
      ensures exists row :: row in SavedRows(received, os) && SavedAs(received[i], os[i], row)
    {
      SavedIsRow(received, os, i);
    }
  }
}
