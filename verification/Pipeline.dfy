// Source queues, the bridge, the API, the main queue and its consumers, all at once, with
// every send, delete and processing free to fail and every message free to come again.

module Pipeline {
  import opened Prelude
  import opened JsValues
  import opened Normalise
  import Decimal
  import Polling

  datatype Put = Put(queue: string, raw: Raw)

  // What the main queue accepted, under which deduplication id, and which source message it
  // was made from, if it was not sent there by the API.
  datatype Entry = Entry(message: Unified, key: string, origin: Option<nat>)

  datatype Worker =
    | Carrying(id: nat)      // the bridge has received a source message
    | Sent(id: nat)          // ... and the main queue has acknowledged it
    | Working(entry: nat)    // a consumer has received a main-queue message
    | Worked(entry: nat)     // ... and has processed it

  datatype State = State(
    put: map<nat, Put>,          // everything ever put in a source queue
    source: set<nat>,            // what is still there
    accepted: map<nat, Entry>,   // everything the main queue ever enqueued
    main: set<nat>,              // what is still there
    window: map<string, nat>,    // deduplication ids the main queue still remembers
    done: set<nat>,              // what was processed successfully
    workers: map<nat, Worker>)

  const INIT: State := State(map[], {}, map[], {}, map[], {}, map[])

  datatype Action =
    | PutMessage(id: nat, message: Put)
    | Receive(w: nat, id: nat)
    | Send(w: nat, entry: nat, f: Fresh, acknowledged: bool)
    | Submit(entry: nat, job: Unified, stamp: nat)   // the API sends a job straight to the main queue
    | Delete(w: nat)
    | GiveUp(w: nat)             // any failure or crash; what was received stays queued
    | Forget(key: string)        // the deduplication window passes
    | Fetch(w: nat, entry: nat)
    | Process(w: nat)
    | DeleteMain(w: nat)

  function FormOf(p: Put, f: Fresh): Unified { Bridge(p.raw, p.queue, f) }
  function KeyIn(u: Unified): string { if u.metadata.idempotencyKey.Val? then u.metadata.idempotencyKey.value else "" }
  // A job sent by the API without a key is deduplicated by its id and the time.
  function SubmitKey(u: Unified, stamp: nat): string {
    if Truthy(u.metadata.idempotencyKey) then u.metadata.idempotencyKey.value
    else (if u.metadata.jobId.Val? then u.metadata.jobId.value else "") + "-" + Decimal.Text(stamp)
  }

  ghost predicate OwnKey(p: Put) { BringsKey(Parse(p.raw)) }

  // A generated key contains a random id and is new.
  ghost predicate FreshKey(s: State, p: Put, f: Fresh) {
    !OwnKey(p) ==> forall e :: e in s.accepted ==> s.accepted[e].key != KeyIn(FormOf(p, f))
  }

  ghost predicate Enabled(s: State, a: Action) {
    match a
    case PutMessage(id, _) => id !in s.put
    case Receive(w, id) => w !in s.workers && id in s.source
    case Send(w, entry, f, _) =>
      w in s.workers && s.workers[w].Carrying? && s.workers[w].id in s.put && entry !in s.accepted
      && FreshKey(s, s.put[s.workers[w].id], f)
    case Submit(entry, _, _) => entry !in s.accepted
    case Delete(w) => w in s.workers && s.workers[w].Sent?
    case GiveUp(w) => w in s.workers
    case Forget(key) => key in s.window
    case Fetch(w, entry) => w !in s.workers && entry in s.main
    case Process(w) =>
      w in s.workers && s.workers[w].Working? && s.workers[w].entry in s.accepted
      && MainAccepts(s.accepted[s.workers[w].entry].message)
    case DeleteMain(w) => w in s.workers && s.workers[w].Worked?
  }

  // A FIFO queue drops what it has seen under the same deduplication id within the window.
  function Enqueue(s: State, entry: nat, e: Entry): State {
    if e.key in s.window then s
    else s.(accepted := s.accepted[entry := e], main := s.main + {entry}, window := s.window[e.key := entry])
  }

  function Step(s: State, a: Action): State {
    match a
    case PutMessage(id, message) => s.(put := s.put[id := message], source := s.source + {id})
    case Receive(w, id) => s.(workers := s.workers[w := Carrying(id)])
    case Send(w, entry, f, acknowledged) =>
      if w in s.workers && s.workers[w].Carrying? && s.workers[w].id in s.put then
        var id := s.workers[w].id;
        var u := FormOf(s.put[id], f);
        var workers := if acknowledged then s.workers[w := Sent(id)] else s.workers - {w};
        Enqueue(s.(workers := workers), entry, Entry(u, KeyIn(u), Some(id)))
      else s
    case Submit(entry, job, stamp) => Enqueue(s, entry, Entry(job, SubmitKey(job, stamp), None))
    case Delete(w) =>
      if w in s.workers && s.workers[w].Sent?
      then s.(source := s.source - {s.workers[w].id}, workers := s.workers - {w}) else s
    case GiveUp(w) => s.(workers := s.workers - {w})
    case Forget(key) => s.(window := s.window - {key})
    case Fetch(w, entry) => s.(workers := s.workers[w := Working(entry)])
    case Process(w) =>
      if w in s.workers && s.workers[w].Working?
      then s.(done := s.done + {s.workers[w].entry}, workers := s.workers[w := Worked(s.workers[w].entry)]) else s
    case DeleteMain(w) =>
      if w in s.workers && s.workers[w].Worked?
      then s.(main := s.main - {s.workers[w].entry}, workers := s.workers - {w}) else s
  }

  function Run(s: State, acts: seq<Action>): State
    decreases |acts|
  {
    if acts == [] then s else Run(Step(s, acts[0]), acts[1..])
  }

  ghost predicate Legal(s: State, acts: seq<Action>)
    decreases |acts|
  {
    acts == [] || (Enabled(s, acts[0]) && Legal(Step(s, acts[0]), acts[1..]))
  }

  // --- the invariant --------------------------------------------------------------------

  ghost predicate MadeFrom(e: Entry, p: Put) {
    exists f :: e.message == FormOf(p, f)
  }

  // A message got through if the main queue enqueued its own form or, for a message that
  // brings a key along, a message under that key.
  ghost predicate Through(s: State, id: nat) {
    id in s.put && exists e :: e in s.accepted && CountsFor(s.accepted[e], s.put[id], id)
  }

  ghost predicate CountsFor(e: Entry, p: Put, id: nat) {
    e.origin == Some(id) || (OwnKey(p) && exists f :: e.key == KeyIn(FormOf(p, f)))
  }

  // Every message is still queued or got through, and a bridge only deletes what has.
  ghost predicate SourceOk(s: State) {
    && s.source <= s.put.Keys
    && (forall id :: id in s.put ==> id in s.source || Through(s, id))
    && (forall w :: w in s.workers && s.workers[w].Carrying? ==> s.workers[w].id in s.put)
    && (forall w :: w in s.workers && s.workers[w].Sent? ==> Through(s, s.workers[w].id))
  }

  // Everything enqueued is a form of some message, and still queued or processed; a
  // consumer only deletes what it has processed.
  ghost predicate MainOk(s: State) {
    && (forall e :: e in s.accepted && s.accepted[e].origin.Some? ==>
          s.accepted[e].origin.value in s.put && MadeFrom(s.accepted[e], s.put[s.accepted[e].origin.value]))
    && (forall e :: e in s.accepted <==> e in s.main || e in s.done)
    && (forall e :: e in s.done ==> MainAccepts(s.accepted[e].message))
    && (forall w :: w in s.workers && s.workers[w].Worked? ==> s.workers[w].entry in s.done)
  }

  ghost predicate WindowOk(s: State) {
    forall k :: k in s.window ==> s.window[k] in s.accepted && s.accepted[s.window[k]].key == k
  }

  ghost predicate Inv(s: State) {
    SourceOk(s) && MainOk(s) && WindowOk(s)
  }

  // What got through stays through as messages are put and enqueued.
  lemma {:induction false} StaysThrough(s: State, t: State, id: nat)
    requires Through(s, id) && id in t.put && t.put[id] == s.put[id]
    requires forall e :: e in s.accepted ==> e in t.accepted && t.accepted[e] == s.accepted[e]
    ensures Through(t, id)
  {
    var e :| e in s.accepted && CountsFor(s.accepted[e], s.put[id], id);
    assert e in t.accepted && CountsFor(t.accepted[e], t.put[id], id);
  }

  lemma {:induction false} SendGoesThrough(s: State, a: Action)
    requires WindowOk(s) && a.Send? && Enabled(s, a)
    ensures Through(Step(s, a), s.workers[a.w].id)
  {
    hide Bridge, Parse;
    var id := s.workers[a.w].id;
    var u := FormOf(s.put[id], a.f);
    var t := Step(s, a);
    if KeyIn(u) in s.window {
      var e := s.window[KeyIn(u)];
      assert OwnKey(s.put[id]);
      assert CountsFor(t.accepted[e], t.put[id], id);
    } else {
      assert CountsFor(t.accepted[a.entry], t.put[id], id);
    }
  }

  lemma {:induction false} StepSourceOk(s: State, a: Action)
    requires SourceOk(s) && WindowOk(s) && Enabled(s, a)
    ensures SourceOk(Step(s, a))
  {
    hide Bridge, Parse, FreshKey, WindowOk, CountsFor, MainAccepts;
    var t := Step(s, a);
    if a.Send? { SendGoesThrough(s, a); }
    forall id | Through(s, id) ensures Through(t, id) {
      StaysThrough(s, t, id);
    }
  }

  lemma {:induction false} StepMainOk(s: State, a: Action)
    requires SourceOk(s) && MainOk(s) && Enabled(s, a)
    ensures MainOk(Step(s, a))
  {
    hide Bridge, Parse, FreshKey, MainAccepts, Through, FormOf;
    var t := Step(s, a);
    forall e | e in t.accepted && t.accepted[e].origin.Some?
      ensures t.accepted[e].origin.value in t.put && MadeFrom(t.accepted[e], t.put[t.accepted[e].origin.value])
    {
      if e in s.accepted {
        assert MadeFrom(s.accepted[e], s.put[s.accepted[e].origin.value]);
      }
    }
  }

  lemma {:induction false} StepWindowOk(s: State, a: Action)
    requires WindowOk(s) && Enabled(s, a)
    ensures WindowOk(Step(s, a))
  {
    hide Bridge, Parse, FreshKey, MainAccepts, FormOf, KeyIn;
  }

  lemma {:induction false} StepKeepsInv(s: State, a: Action)
    requires Inv(s) && Enabled(s, a)
    ensures Inv(Step(s, a))
  {
    hide SourceOk, MainOk, WindowOk, Enabled;
    StepSourceOk(s, a);
    StepMainOk(s, a);
    StepWindowOk(s, a);
  }

  lemma {:induction false} RunKeepsInv(s: State, acts: seq<Action>)
    requires Inv(s) && Legal(s, acts)
    ensures Inv(Run(s, acts))
    decreases |acts|
  {
    if acts != [] {
      StepKeepsInv(s, acts[0]);
      RunKeepsInv(Step(s, acts[0]), acts[1..]);
    }
  }

  // Nothing is lost: every message ever put in a source queue is still there, or the main
  // queue enqueued a form of it, or, if it brings a key along, enqueued a message under
  // that key; and everything enqueued is still there or was processed successfully.
  lemma {:induction false} NothingIsLost(acts: seq<Action>)
    requires Legal(INIT, acts)
    ensures var s := Run(INIT, acts);
      && (forall id :: id in s.put ==>
            || id in s.source
            || (exists e, f :: e in s.accepted
                               && s.accepted[e].message == Bridge(s.put[id].raw, s.put[id].queue, f))
            || (BringsKey(Parse(s.put[id].raw))
                && exists e, f :: e in s.accepted
                     && Bridge(s.put[id].raw, s.put[id].queue, f).metadata.idempotencyKey == Val(s.accepted[e].key)))
      && (forall e :: e in s.accepted ==> e in s.main || (e in s.done && MainAccepts(s.accepted[e].message)))
  {
    hide Bridge, Parse, MainAccepts, BringsKey;
    RunKeepsInv(INIT, acts);
    var s := Run(INIT, acts);
    forall id | id in s.put && id !in s.source
      ensures (exists e, f :: e in s.accepted
                              && s.accepted[e].message == Bridge(s.put[id].raw, s.put[id].queue, f))
           || (BringsKey(Parse(s.put[id].raw))
               && exists e, f :: e in s.accepted
                    && Bridge(s.put[id].raw, s.put[id].queue, f).metadata.idempotencyKey == Val(s.accepted[e].key))
    {
      var e :| e in s.accepted && CountsFor(s.accepted[e], s.put[id], id);
      if s.accepted[e].origin == Some(id) {
        var f :| s.accepted[e].message == FormOf(s.put[id], f);
        assert s.accepted[e].message == Bridge(s.put[id].raw, s.put[id].queue, f);
      } else {
        var f :| s.accepted[e].key == KeyIn(FormOf(s.put[id], f));
        BridgedKey(s.put[id], f);
      }
    }
  }

  lemma {:induction false} BridgedKey(p: Put, f: Fresh)
    ensures Bridge(p.raw, p.queue, f).metadata.idempotencyKey == Val(KeyIn(FormOf(p, f)))
  {
    Complete(Parse(p.raw), p.queue, f);
  }

  // A message without a key of its own is therefore enqueued in its own form, with its own
  // path and body, before it can leave its source queue.
  lemma {:induction false} KeylessIsForwarded(acts: seq<Action>, id: nat)
    requires Legal(INIT, acts) && id in Run(INIT, acts).put && !BringsKey(Parse(Run(INIT, acts).put[id].raw))
    requires id !in Run(INIT, acts).source
    ensures var s := Run(INIT, acts);
      exists e, f :: e in s.accepted && s.accepted[e].message == Bridge(s.put[id].raw, s.put[id].queue, f)
  {
    hide Bridge, Parse, MainAccepts, BringsKey;
    NothingIsLost(acts);
  }

  // A forwarded message whose method is not one the main queue knows is never processed and
  // stays in the main queue for good.
  lemma {:induction false} UnknownMethodStays(acts: seq<Action>, e: nat)
    requires Legal(INIT, acts) && e in Run(INIT, acts).accepted
    requires var s := Run(INIT, acts);
      s.accepted[e].origin.Some? && s.accepted[e].origin.value in s.put
      && !KnownMethod(Parse(s.put[s.accepted[e].origin.value].raw))
    ensures e in Run(INIT, acts).main && e !in Run(INIT, acts).done
  {
    hide Bridge, Parse, MainAccepts, KnownMethod;
    RunKeepsInv(INIT, acts);
    var s := Run(INIT, acts);
    var p := s.put[s.accepted[e].origin.value];
    var f :| s.accepted[e].message == FormOf(p, f);
    ForwardedAcceptedIff(p.raw, p.queue, f);
  }

  // --- a turn of the bridge's loop ------------------------------------------------------

  lemma {:induction false} TwoSteps(s: State, a: Action, b: Action)
    requires Enabled(s, a) && Enabled(Step(s, a), b)
    ensures Legal(s, [a, b]) && Run(s, [a, b]) == Step(Step(s, a), b)
  {
    hide Step, Enabled;
    assert [a, b][1..] == [b] && [b][1..] == [];
    assert Legal(Step(Step(s, a), b), []) && Run(Step(Step(s, a), b), []) == Step(Step(s, a), b);
    assert Legal(Step(s, a), [b]) && Run(Step(s, a), [b]) == Step(Step(s, a), b);
  }

  lemma {:induction false} ThreeSteps(s: State, a: Action, b: Action, c: Action)
    requires Enabled(s, a) && Enabled(Step(s, a), b) && Enabled(Step(Step(s, a), b), c)
    ensures Legal(s, [a, b, c]) && Run(s, [a, b, c]) == Step(Step(Step(s, a), b), c)
  {
    hide Step, Enabled;
    assert [a, b, c][1..] == [b, c];
    TwoSteps(Step(s, a), b, c);
  }

  // What a turn of the polling loop does to the queues, given how it fares.
  function Turned(s: State, id: nat, entry: nat, fate: Polling.Fate): State
    requires id in s.put
  {
    if fate.sendFails then s
    else
      var u := FormOf(s.put[id], fate.first);
      var sent := Enqueue(s, entry, Entry(u, KeyIn(u), Some(id)));
      if fate.deleteFails then sent else sent.(source := sent.source - {id})
  }

  // Send and delete of one received message, with every way they can fail, is a run of the
  // machine.
  lemma {:induction false} TurnRuns(s: State, w: nat, id: nat, entry: nat, fate: Polling.Fate)
    returns (acts: seq<Action>)
    requires id in s.put && id in s.source && w !in s.workers && entry !in s.accepted
    requires FreshKey(s, s.put[id], fate.first)
    ensures Legal(s, acts) && Run(s, acts) == Turned(s, id, entry, fate)
  {
    hide Bridge, Parse, FormOf, KeyIn, OwnKey;
    var s1 := Step(s, Receive(w, id));
    assert s.workers[w := Carrying(id)] - {w} == s.workers;
    if fate.sendFails {
      acts := [Receive(w, id), GiveUp(w)];
      TwoSteps(s, Receive(w, id), GiveUp(w));
    } else {
      var send := Send(w, entry, fate.first, true);
      var s2 := Step(s1, send);
      assert s2.workers == s.workers[w := Sent(id)] && s2.workers - {w} == s.workers;
      if fate.deleteFails {
        acts := [Receive(w, id), send, GiveUp(w)];
        ThreeSteps(s, Receive(w, id), send, GiveUp(w));
      } else {
        acts := [Receive(w, id), send, Delete(w)];
        ThreeSteps(s, Receive(w, id), send, Delete(w));
      }
    }
  }
}
