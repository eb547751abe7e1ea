/**
 What the hub must do. HubGuarantees says what no run does; here every event is answered exactly: the
 messages that leave the hub, the requests still in hand, and the continuations that wait. Acceptance
 is judged by the observer of HubMonitor, requests are told apart by their arrival.
 */
module HubEffects {
  import opened Options
  import opened HubModel
  import opened HubSafety
  import opened HubSteps
  import opened HubMonitor
  import opened HubHistory
  import opened HubRuns
  import opened HubTheorems
  import opened HubMemory
  import opened HubDrops

  // ---- Vocabulary ----

  /** Entries that leave the hub; the others are bookkeeping. */
  predicate Leaves(e: Entry) {
    e.HubEnd? || e.Relayed? || e.Forwarded? || e.Upstream? || e.HubCancel? || e.Refused?
  }

  /** Everything the hub has sent or refused, in order. */
  function Messages(log: History): seq<Entry> {
    match log
    case Start => []
    case Then(before, e) => Messages(before) + if Leaves(e) then [e] else []
  }

  /** Continuations stay, and each operation opened in between, a probe from the queue, waits for its authorization. */
  predicate OpensMore(s: State, n: State) {
    && s.ops <= n.ops && n.nextTask == s.nextTask + |n.ops| - |s.ops|
    && (forall k | k in s.tasks :: k in n.tasks && n.tasks[k] == s.tasks[k])
    && (forall k | k in n.tasks :: k in s.tasks || s.nextTask <= k < n.nextTask)
    && (forall k | s.nextTask <= k < n.nextTask :: k in n.tasks && n.tasks[k] == OpenAuth(|s.ops| + k - s.nextTask))
    && (forall t | |s.ops| <= t < |n.ops| :: FleetProbe(n.ops[t].request))
  }

  /** Exactly the requests `gone` left the hub; the record of every other open request is untouched. */
  ghost predicate Holding(s: State, n: State, gone: set<nat>) {
    && (forall a: nat :: InHand(n, a) <==> InHand(s, a) && a !in gone)
    && (forall p | p in s.pending :: p.token < |s.ops| && s.ops[p.token].arrival !in gone ==> p in n.pending)
  }

  ghost predicate Effect(s: State, n: State, said: seq<Entry>, gone: set<nat>) {
    && n == s.(pending := n.pending, probes := n.probes, completed := n.completed, tasks := n.tasks,
               nextTask := n.nextTask, ops := n.ops, log := n.log)
    && Messages(n.log) == Messages(s.log) + said
    && OpensMore(s, n) && Holding(s, n, gone)
  }

  /** Open requests under an id. */
  function OpenUnder(s: State, id: string): set<nat> {
    set a | 0 <= a < |s.arrivals| && HasRecord(s.pending, s.ops, a) && s.arrivals[a].request.id == id
  }

  /** Requests of worker `w` under an id. */
  function OwnedUnder(s: State, w: Wire, id: string): set<nat> {
    set a | 0 <= a < |s.arrivals| && s.arrivals[a].worker == w && s.arrivals[a].request.id == id
  }

  function OwnedBy(s: State, w: Wire): set<nat> {
    set a | 0 <= a < |s.arrivals| && s.arrivals[a].worker == w
  }

  // ---- Effects of the building blocks ----

  lemma Sends(log: History, e: Entry)
    ensures Messages(Then(log, e)) == if Leaves(e) then Messages(log) + [e] else Messages(log)
  {
  }

  lemma Composed(s: State, m: State, n: State, said: seq<Entry>, more: seq<Entry>, all: seq<Entry>,
                 gone: set<nat>, left: set<nat>, out: set<nat>)
    requires Effect(s, m, said, gone) && Effect(m, n, more, left) && all == said + more && out == gone + left
    ensures Effect(s, n, all, out)
  {
    hide InHand, FleetProbe, Messages;
    assert OpensMore(s, n);
    forall p | p in s.pending && p.token < |s.ops| && s.ops[p.token].arrival !in out ensures p in n.pending {
      assert p in m.pending && m.ops[p.token] == s.ops[p.token];
    }
  }

  lemma SameGone(s: State, n: State, said: seq<Entry>, gone: set<nat>, left: set<nat>)
    requires Effect(s, n, said, gone) && forall a: nat | InHand(s, a) :: a in gone <==> a in left
    ensures Effect(s, n, said, left)
  {
    hide OpensMore, Messages;
    forall p | p in s.pending && p.token < |s.ops| && s.ops[p.token].arrival !in left ensures p in n.pending {
      assert IsRecord(p, s.ops, s.ops[p.token].arrival) && InHand(s, s.ops[p.token].arrival);
    }
  }

  lemma SaidEffect(s: State, e: Entry)
    ensures Effect(s, Say(s, e), if Leaves(e) then [e] else [], {})
  {
    assert forall a: nat :: InHand(Say(s, e), a) == InHand(s, a);
  }

  lemma NoEffect(s: State)
    ensures Effect(s, s, [], {})
  {
  }

  lemma DropEffect(s: State, i: nat)
    requires Core(s) && OpenedOnce(s.ops, s.probes) && i < |s.pending|
    ensures s.pending[i].token < |s.ops| && Effect(s, Drop(s, i), [], {s.ops[s.pending[i].token].arrival})
  {
    hide Core, OpenedOnce, HasRecord, HasProbe, Insert;
    KnownTokens(s);
    var p, n := s.pending[i], Drop(s, i);
    var gone := s.ops[p.token].arrival;
    assert IsRecord(p, s.ops, gone);
    Sends(s.log, Closed(p.token));
    Sends(Then(s.log, Closed(p.token)), Remembered(p.worker, p.request.id));
    assert Messages(n.log) == Messages(s.log) + [];
    forall a: nat ensures InHand(n, a) <==> InHand(s, a) && a != gone {
      if a == gone {
        NoneLeft(s, i, a);
      } else {
        if HasRecord(s.pending, s.ops, a) { RecordKept(s.pending, s.ops, i, a); }
        if HasRecord(Without(s.pending, i), s.ops, a) { RecordFewer(s.pending, s.ops, i, a); }
      }
    }
    forall x | x in s.pending && x.token < |s.ops| && s.ops[x.token].arrival != gone ensures x in n.pending {
      var k :| 0 <= k < |s.pending| && s.pending[k] == x;
      assert Without(s.pending, i)[if k < i then k else k - 1] == x;
    }
  }

  lemma RecordFewer(ps: seq<Pending>, ops: seq<Op>, i: nat, a: nat)
    requires i < |ps| && HasRecord(Without(ps, i), ops, a)
    ensures HasRecord(ps, ops, a)
  {
    WithoutIn(ps, i);
  }

  lemma PromoteEffect(s: State)
    requires Core(s) && s.host.Some? && s.probes != [] && ProbeCapacity(s.lim, s.pending)
    ensures Effect(s, Promote(s), [], {})
  {
    hide Core, Refuses;
    PromoteReserves(s);
    KnownTokens(s);
    TasksGood(s);
    HeadProbe(s);
    var q, n := s.probes[0], Promote(s);
    assert forall k | k in s.tasks :: k < s.nextTask;
    assert OpensMore(s, n);
    forall a: nat ensures InHand(n, a) <==> InHand(s, a) { PromoteInHand(s, a); }
  }

  lemma HeadProbe(s: State)
    requires Core(s) && s.probes != []
    ensures FleetProbe(s.probes[0].request)
  {
    assert s.probes[0] in s.probes;
  }

  lemma PromoteInHand(s: State, a: nat)
    requires Core(s) && s.host.Some? && s.probes != [] && ProbeCapacity(s.lim, s.pending)
    ensures InHand(Promote(s), a) <==> InHand(s, a)
  {
    hide Core, Refuses;
    PromoteReserves(s);
    KnownTokens(s);
    var q, n := s.probes[0], Promote(s);
    assert q in s.probes;
    assert n.pending[|s.pending|] in n.pending && IsRecord(n.pending[|s.pending|], n.ops, q.arrival);
    assert forall p | p in n.pending :: p in s.pending || p.token == |s.ops|;
    assert forall p | p in s.pending :: p in n.pending && IsRecord(p, n.ops, a) == IsRecord(p, s.ops, a);
    assert forall x | x in n.probes :: x in s.probes;
    assert forall x | x in s.probes :: x == q || x in n.probes;
  }

  lemma {:induction false} DrainEffect(s: State)
    requires Core(s)
    ensures Effect(s, Drain(s), [], {})
    decreases |s.probes|
  {
    hide Core, Effect;
    if s.host.Some? && s.probes != [] && ProbeCapacity(s.lim, s.pending) {
      PromoteReserves(s);
      PromoteEffect(s);
      DrainEffect(Promote(s));
      Composed(s, Promote(s), Drain(s), [], [], [], {}, {}, {});
    } else {
      NoEffect(s);
    }
  }

  lemma RecordIn(s: State, i: nat)
    requires Core(s) && i < |s.pending|
    ensures var p := s.pending[i];
            p.token < |s.ops| && ArrivedAs(s.arrivals, s.ops[p.token].arrival, p.request, p.worker)
    ensures OpenUnder(s, s.pending[i].request.id) == {s.ops[s.pending[i].token].arrival}
  {
    RecordArrival(s, i);
    var p := s.pending[i];
    var b := s.ops[p.token].arrival;
    assert p in s.pending && IsRecord(p, s.ops, b);
    forall a | a in OpenUnder(s, p.request.id) ensures a == b {
      var x :| x in s.pending && IsRecord(x, s.ops, a);
      var k :| 0 <= k < |s.pending| && s.pending[k] == x;
      RecordArrival(s, k);
      OneRecord(s, i, k);
    }
  }

  lemma NoneUnder(s: State, id: string)
    requires Core(s) && PendingAt(s.pending, id) < 0
    ensures OpenUnder(s, id) == {}
  {
    forall i | 0 <= i < |s.pending|
      ensures s.pending[i].token < |s.ops|
      ensures var b := s.ops[s.pending[i].token].arrival; b < |s.arrivals| && s.arrivals[b].request.id != id
    {
      RecordArrival(s, i);
    }
  }

  /** Finishing an id releases the request open under it, whichever it is, and says nothing. */
  lemma FinishEffect(s: State, id: string)
    requires Core(s) && OpenedOnce(s.ops, s.probes)
    ensures Effect(s, Finish(s, id), [], OpenUnder(s, id))
  {
    hide Core, OpenedOnce, Effect, Drop, Drain, OpenUnder;
    var i := PendingAt(s.pending, id);
    if i >= 0 {
      DropKeeps(s, i);
      DropEffect(s, i);
      RecordIn(s, i);
      DrainEffect(Drop(s, i));
      Composed(s, Drop(s, i), Finish(s, id), [], [], [], OpenUnder(s, id), {}, OpenUnder(s, id));
    } else {
      NoneUnder(s, id);
      DrainEffect(s);
    }
  }

  lemma UnavailableEffect(s: State, op: Op)
    requires Core(s) && OpenedOnce(s.ops, s.probes)
    ensures Effect(s, Unavailable(s, op), [HubEnd(op.worker, op.request.id)], OpenUnder(s, op.request.id))
  {
    hide Core, OpenedOnce, Effect, Finish, OpenUnder;
    var id := op.request.id;
    var t, e := Finish(s, id), HubEnd(op.worker, id);
    FinishEffect(s, id);
    SaidEffect(t, e);
    Composed(s, t, Say(t, e), [], [e], [e], OpenUnder(s, id), {}, OpenUnder(s, id));
  }

  lemma CancelProbeInHand(s: State, i: nat, a: nat)
    requires Core(s) && OpenedOnce(s.ops, s.probes) && i < |s.probes|
    ensures InHand(CancelProbe(s, i), a) <==> InHand(s, a) && a != s.probes[i].arrival
  {
    hide Core, Insert, HasRecord, OpenedOnce;
    QueueInOrder(s);
    WithoutIn(s.probes, i);
    var q := s.probes[i];
    assert q in s.probes;
    assert forall x | x in Without(s.probes, i) :: x in s.probes && x.arrival != q.arrival;
    if HasProbe(s.probes, a) && a != q.arrival { ProbeKept(s.probes, i, a); }
    if HasRecord(s.pending, s.ops, a) { RecordNotQueued(s, q, a); }
  }

  lemma CancelProbeEffect(s: State, i: nat)
    requires Core(s) && OpenedOnce(s.ops, s.probes) && i < |s.probes|
    ensures var q := s.probes[i]; Effect(s, CancelProbe(s, i), [HubEnd(q.worker, q.request.id)], {q.arrival})
  {
    hide Core, Insert, InHand, Messages, OpenedOnce;
    var q := s.probes[i];
    var left := Then(s.log, Withdrawn(q.arrival));
    Sends(s.log, Withdrawn(q.arrival));
    Sends(left, Remembered(q.worker, q.request.id));
    Sends(Then(left, Remembered(q.worker, q.request.id)), HubEnd(q.worker, q.request.id));
    forall a: nat ensures InHand(CancelProbe(s, i), a) <==> InHand(s, a) && a !in {q.arrival} {
      CancelProbeInHand(s, i, a);
    }
  }

  lemma RecordNotQueued(s: State, q: Probe, a: nat)
    requires Core(s) && OpenedOnce(s.ops, s.probes) && q in s.probes && HasRecord(s.pending, s.ops, a)
    ensures a != q.arrival
  {
    hide Core;
    var p :| p in s.pending && IsRecord(p, s.ops, a);
    assert s.ops[p.token] in s.ops;
  }

  lemma CancelPendingEffect(s: State, i: nat)
    requires Stable(s) && OpenedOnce(s.ops, s.probes) && i < |s.pending|
    ensures var p := s.pending[i];
            && s.host.Some?
            && Effect(s, CancelPending(s, i), [HubCancel(p.token, s.host.value.connection), HubEnd(p.worker, p.request.id)],
                      OpenUnder(s, p.request.id))
  {
    hide Stable, Core, OpenedOnce, Effect, Finish, OpenUnder, Metered;
    RecordFacts(s, i);
    StableCore(s);
    var p := s.pending[i];
    var e, f := HubCancel(p.token, s.host.value.connection), HubEnd(p.worker, p.request.id);
    var told := Say(s, e);
    var ended := Say(told, f);
    SaidEffect(s, e);
    SaidEffect(told, f);
    Composed(s, told, ended, [e], [f], [e, f], {}, {}, {});
    Quiet(s, ended);
    FinishEffect(ended, p.request.id);
    SameUnder(s, ended, p.request.id);
    Composed(s, ended, CancelPending(s, i), [e, f], [], [e, f], {}, OpenUnder(s, p.request.id), OpenUnder(s, p.request.id));
  }

  lemma SameUnder(s: State, t: State, id: string)
    requires t.pending == s.pending && t.ops == s.ops && t.arrivals == s.arrivals
    ensures OpenUnder(t, id) == OpenUnder(s, id)
  {
  }

  // ---- Operations as the observer sees them ----

  /** Operation `t` is open under `id`. */
  predicate OpenAs(s: State, t: nat, id: string) {
    var ph := Observe(s.lim, t, s.log); ph.Live? && ph.op.request.id == id
  }

  /** It is worker `w`'s. */
  predicate OpenFor(s: State, t: nat, w: Wire, id: string) {
    OpenAs(s, t, id) && Observe(s.lim, t, s.log).op.worker == w
  }

  predicate QueuedFor(s: State, w: Wire, id: string) {
    exists q | q in s.probes :: q.worker == w && q.request.id == id
  }

  lemma LiveRecord(s: State, t: nat) returns (i: nat)
    requires Stable(s) && Told(s) && Observe(s.lim, t, s.log).Live?
    ensures i < |s.pending| && s.pending[i].token == t && t < |s.ops| && s.pending[i].last >= -1
    ensures Observe(s.lim, t, s.log) == LiveOf(s.ops[t], s.seen, s.pending[i])
    ensures s.ops[t].request == s.pending[i].request && s.ops[t].worker == s.pending[i].worker
    ensures PendingAt(s.pending, s.pending[i].request.id) == i
    ensures s.host.Some? && s.host.value.connection == s.ops[t].connection
  {
    hide Stable;
    assert Observe(s.lim, t, s.log) == Expected(s.pending, s.ops, s.seen, t);
    i := TokenAt(s.pending, t);
    RecordFacts(s, i);
    SameIndex(s, i, PendingAt(s.pending, s.pending[i].request.id));
  }

  lemma RecordLive(s: State, i: nat)
    requires Stable(s) && Told(s) && i < |s.pending|
    ensures var p := s.pending[i];
            && p.token < |s.ops| && p.last >= -1
            && s.ops[p.token].request == p.request && s.ops[p.token].worker == p.worker
            && Observe(s.lim, p.token, s.log) == LiveOf(s.ops[p.token], s.seen, p)
  {
    hide Stable, Core;
    RecordFacts(s, i);
    StableCore(s);
    TokensDistinct(s);
    TokenFound(s.pending, i);
    assert Observe(s.lim, s.pending[i].token, s.log) == Expected(s.pending, s.ops, s.seen, s.pending[i].token);
  }

  lemma FoundOpen(s: State, id: string, w: Wire)
    requires Stable(s) && Told(s)
    ensures var i := PendingAt(s.pending, id);
            i >= 0 ==>
              && OpenAs(s, s.pending[i].token, id)
              && (OpenFor(s, s.pending[i].token, w, id) <==> s.pending[i].worker == w)
  {
    hide Stable, Told;
    var i := PendingAt(s.pending, id);
    if i >= 0 { RecordLive(s, i); }
  }

  lemma QueuePlace(s: State, w: Wire, id: string)
    requires Core(s)
    ensures QueuedFor(s, w, id) <==> ProbeAt(s.probes, id) >= 0 && s.probes[ProbeAt(s.probes, id)].worker == w
    ensures QueuedFor(s, w, id) ==> PendingAt(s.pending, id) < 0
  {
    hide Core;
    Separate(s);
    var k := ProbeAt(s.probes, id);
    if k >= 0 { assert s.probes[k] in s.probes; }
    if QueuedFor(s, w, id) {
      var q :| q in s.probes && q.worker == w && q.request.id == id;
      var j :| 0 <= j < |s.probes| && s.probes[j] == q;
      assert j == k;
    }
  }

  /** A request in hand is one of its arrival's worker, under its arrival's id. */
  lemma WhoHolds(s: State, a: nat)
    requires Core(s) && InHand(s, a)
    ensures a < |s.arrivals|
    ensures var v, i := s.arrivals[a].worker, s.arrivals[a].request.id;
            || (exists k :: 0 <= k < |s.pending| && IsRecord(s.pending[k], s.ops, a)
                            && s.pending[k].worker == v && s.pending[k].request.id == i)
            || (exists k :: 0 <= k < |s.probes| && s.probes[k].arrival == a
                            && s.probes[k].worker == v && s.probes[k].request.id == i)
  {
    hide Core;
    if HasRecord(s.pending, s.ops, a) {
      var p :| p in s.pending && IsRecord(p, s.ops, a);
      var k :| 0 <= k < |s.pending| && s.pending[k] == p;
      RecordArrival(s, k);
      assert IsRecord(s.pending[k], s.ops, a);
    } else {
      var q :| q in s.probes && q.arrival == a;
      var k :| 0 <= k < |s.probes| && s.probes[k] == q;
      ProbeFacts(s, k);
      assert s.probes[k].arrival == a;
    }
  }

  // ---- Cancelling ----

  /** Worker `w`'s request under `id` is stopped: its host hears of it if it was open, the worker in any case. */
  ghost predicate Cancelled(s: State, n: State, w: Wire, id: string) {
    && (forall t: nat | OpenFor(s, t, w, id) ::
          Effect(s, n, [HubCancel(t, Observe(s.lim, t, s.log).op.connection), HubEnd(w, id)], OwnedUnder(s, w, id)))
    && (QueuedFor(s, w, id) ==> Effect(s, n, [HubEnd(w, id)], OwnedUnder(s, w, id)))
    && ((forall t: nat :: !OpenFor(s, t, w, id)) && !QueuedFor(s, w, id) ==> n == s)
  }

  lemma CancelExactly(s: State, id: string, w: Wire)
    requires Stable(s) && Told(s) && OpenedOnce(s.ops, s.probes)
    ensures Cancelled(s, Cancel(s, id, w), w, id)
  {
    hide Stable, Told, Core, OpenedOnce, Effect, CancelProbe, CancelPending, OwnedUnder, OpenUnder, InHand;
    StableCore(s);
    QueuePlace(s, w, id);
    FoundOpen(s, id, w);
    var n, q, i := Cancel(s, id, w), ProbeAt(s.probes, id), PendingAt(s.pending, id);
    if q >= 0 && s.probes[q].worker == w {
      CancelProbeEffect(s, q);
      ProbeOwned(s, q);
      SameGone(s, n, [HubEnd(w, id)], {s.probes[q].arrival}, OwnedUnder(s, w, id));
      forall t: nat ensures !OpenFor(s, t, w, id) { OpenIsRecord(s, t, w, id); }
    } else {
      forall t: nat | OpenFor(s, t, w, id)
        ensures Effect(s, n, [HubCancel(t, Observe(s.lim, t, s.log).op.connection), HubEnd(w, id)], OwnedUnder(s, w, id))
      {
        OpenIsRecord(s, t, w, id);
        CancelPendingEffect(s, i);
        RecordOwned(s, i);
        SameGone(s, n, [HubCancel(t, s.host.value.connection), HubEnd(w, id)], OpenUnder(s, id), OwnedUnder(s, w, id));
      }
    }
  }

  lemma OpenIsRecord(s: State, t: nat, w: Wire, id: string)
    requires Stable(s) && Told(s)
    ensures var i := PendingAt(s.pending, id);
            OpenFor(s, t, w, id) ==>
              && i >= 0 && s.pending[i].token == t && s.pending[i].worker == w
              && s.host.Some? && Observe(s.lim, t, s.log).op.connection == s.host.value.connection
  {
    hide Stable, Told;
    if OpenFor(s, t, w, id) { var i := LiveRecord(s, t); }
  }

  lemma ProbeOwned(s: State, q: nat)
    requires Core(s) && OpenedOnce(s.ops, s.probes) && q < |s.probes|
    ensures var p := s.probes[q];
            forall a: nat | InHand(s, a) :: a in {p.arrival} <==> a in OwnedUnder(s, p.worker, p.request.id)
  {
    hide Core, OpenedOnce, InHand, HasRecord, HasProbe;
    Separate(s);
    ProbeFacts(s, q);
    forall a: nat | InHand(s, a) && a in OwnedUnder(s, s.probes[q].worker, s.probes[q].request.id)
      ensures a == s.probes[q].arrival
    {
      WhoHolds(s, a);
    }
  }

  lemma RecordOwned(s: State, i: nat)
    requires Core(s) && i < |s.pending|
    ensures var p := s.pending[i];
            forall a: nat | InHand(s, a) :: a in OpenUnder(s, p.request.id) <==> a in OwnedUnder(s, p.worker, p.request.id)
  {
    hide Core, InHand, HasRecord, HasProbe, OpenUnder;
    Separate(s);
    RecordIn(s, i);
    forall a: nat | InHand(s, a) && a in OwnedUnder(s, s.pending[i].worker, s.pending[i].request.id)
      ensures a == s.ops[s.pending[i].token].arrival
    {
      WhoHolds(s, a);
      forall k | 0 <= k < |s.pending| ensures s.pending[k].request.id == s.pending[i].request.id ==> k == i {
        OneRecord(s, i, k);
      }
    }
  }

  // ---- A worker that closes ----

  function Tail<T>(s: seq<T>, i: nat): seq<T> {
    if i < |s| then s[i..] else []
  }

  lemma TailSteps<T>(s: seq<T>, i: nat)
    ensures i < |s| ==> Tail(s, i) == [s[i]] + Tail(s, i + 1) && Tail(s, i)[1..] == Tail(s, i + 1)
    ensures Tail(s, 0) == s
  {
  }

  function Withdrawals(qs: seq<Probe>, w: Wire): seq<Entry> {
    if qs == [] then []
    else (if qs[0].worker == w then [HubEnd(w, qs[0].request.id)] else []) + Withdrawals(qs[1..], w)
  }

  function Stops(ps: seq<Pending>, w: Wire, connection: nat): seq<Entry> {
    if ps == [] then []
    else (if ps[0].worker == w then [HubCancel(ps[0].token, connection), HubEnd(w, ps[0].request.id)] else [])
         + Stops(ps[1..], w, connection)
  }

  lemma {:induction false} StopsSplit(ps: seq<Pending>, more: seq<Pending>, w: Wire, connection: nat)
    requires forall p | p in more :: p.worker != w
    ensures Stops(ps + more, w, connection) == Stops(ps, w, connection)
    decreases |ps|, |more|
  {
    if ps != [] {
      assert (ps + more)[1..] == ps[1..] + more;
      StopsSplit(ps[1..], more, w, connection);
    } else if more != [] {
      assert ps + more == more;
      assert [] + more[1..] == more[1..];
      StopsSplit([], more[1..], w, connection);
    } else {
      assert ps + more == ps;
    }
  }

  function WaitingOf(s: State, w: Wire): set<nat> {
    set a | 0 <= a < |s.arrivals| && HasProbe(s.probes, a) && s.arrivals[a].worker == w
  }

  lemma NoneWaiting(s: State, w: Wire)
    requires Core(s) && forall q | q in s.probes :: q.worker != w
    ensures WaitingOf(s, w) == {}
  {
    forall j | 0 <= j < |s.probes|
      ensures s.probes[j].arrival < |s.arrivals| && s.arrivals[s.probes[j].arrival].worker != w
    {
      ProbeFacts(s, j);
      assert s.probes[j] in s.probes;
    }
  }

  lemma OneFewerWaiting(s: State, i: nat, w: Wire)
    requires Core(s) && i < |s.probes| && s.probes[i].worker == w
    ensures WaitingOf(s, w) == {s.probes[i].arrival} + WaitingOf(CancelProbe(s, i), w)
  {
    hide Core, Insert;
    var q, n := s.probes[i], CancelProbe(s, i);
    ProbeFacts(s, i);
    WithoutIn(s.probes, i);
    assert q in s.probes;
    forall a: nat | HasProbe(s.probes, a) && a != q.arrival ensures HasProbe(n.probes, a) { ProbeKept(s.probes, i, a); }
  }

  lemma {:induction false} CloseProbesEffect(s: State, w: Wire, i: nat)
    requires Stable(s) && OpenedOnce(s.ops, s.probes)
    requires forall j | 0 <= j < i && j < |s.probes| :: s.probes[j].worker != w
    ensures Effect(s, CloseProbes(s, w, i), Withdrawals(Tail(s.probes, i), w), WaitingOf(s, w))
    ensures OpenedOnce(CloseProbes(s, w, i).ops, CloseProbes(s, w, i).probes)
    ensures CloseProbes(s, w, i).pending == s.pending
    decreases |s.probes| - i
  {
    hide Stable, Core, Effect, WaitingOf, CancelProbe, OpenedOnce;
    StableCore(s);
    TailSteps(s.probes, i);
    if i >= |s.probes| {
      NoneWaiting(s, w);
      NoEffect(s);
    } else if s.probes[i].worker == w {
      var m := CancelProbe(s, i);
      CancelProbeStable(s, i);
      Dequeued(s, i);
      CancelProbeEffect(s, i);
      OneFewerWaiting(s, i, w);
      CloseProbesEffect(m, w, i);
      assert Tail(m.probes, i) == Tail(s.probes, i + 1);
      Composed(s, m, CloseProbes(s, w, i), [HubEnd(w, s.probes[i].request.id)],
               Withdrawals(Tail(m.probes, i), w), Withdrawals(Tail(s.probes, i), w),
               {s.probes[i].arrival}, WaitingOf(m, w), WaitingOf(s, w));
    } else {
      CloseProbesEffect(s, w, i + 1);
      assert Withdrawals(Tail(s.probes, i), w) == Withdrawals(Tail(s.probes, i + 1), w);
    }
  }

  lemma Dequeued(s: State, i: nat)
    requires i < |s.probes|
    ensures var n := CancelProbe(s, i);
            n.probes == Without(s.probes, i) && n.ops == s.ops && n.pending == s.pending
            && (OpenedOnce(s.ops, s.probes) ==> OpenedOnce(n.ops, n.probes))
    ensures |Without(s.probes, i)| == |s.probes| - 1 && forall j | 0 <= j < i :: Without(s.probes, i)[j] == s.probes[j]
  {
    WithoutIn(s.probes, i);
  }

  lemma {:induction false} DrainFrom(s: State, w: Wire)
    requires Core(s) && forall q | q in s.probes :: q.worker != w
    ensures s.pending <= Drain(s).pending
    ensures forall p | p in Drain(s).pending[|s.pending|..] :: p.worker != w
    decreases |s.probes|
  {
    hide Core, ProbeCapacity, Refuses;
    DrainExtends(s);
    if s.host.Some? && s.probes != [] && ProbeCapacity(s.lim, s.pending) {
      PromoteReserves(s);
      DrainExtends(Promote(s));
      DrainFrom(Promote(s), w);
    }
  }

  lemma StoppedOne(s: State, i: nat, w: Wire)
    requires Stable(s) && i < |s.pending| && s.pending[i].worker == w
    requires forall q | q in s.probes :: q.worker != w
    requires s.host.Some?
    ensures var m, c := CancelPending(s, i), s.host.value.connection;
            Stops(Tail(s.pending, i), w, c) == [HubCancel(s.pending[i].token, c), HubEnd(w, s.pending[i].request.id)]
                                               + Stops(Tail(m.pending, i), w, c)
  {
    hide Core, Stable, Drain, Drop;
    var p := s.pending[i];
    var c := s.host.value.connection;
    var ended := Say(Say(s, HubCancel(p.token, c)), HubEnd(p.worker, p.request.id));
    Quiet(s, ended);
    StableCore(ended);
    SameIndex(s, i, PendingAt(ended.pending, p.request.id));
    DropKeeps(ended, i);
    var d := Drop(ended, i);
    DroppedAre(ended, i);
    DrainFrom(d, w);
    var m := Drain(d);
    var more := m.pending[|d.pending|..];
    assert m.pending == d.pending + more;
    TailSteps(s.pending, i);
    assert Tail(m.pending, i) == Tail(s.pending, i + 1) + more;
    StopsSplit(Tail(s.pending, i + 1), more, w, c);
  }

  lemma DroppedAre(s: State, i: nat)
    requires i < |s.pending|
    ensures Drop(s, i).pending == s.pending[..i] + s.pending[i + 1..] && Drop(s, i).probes == s.probes
  {
  }

  lemma {:induction false} ClosePendingEffect(s: State, w: Wire, i: nat)
    requires Stable(s) && Chronicle(s, {})
    requires forall j | 0 <= j < i && j < |s.pending| :: s.pending[j].worker != w
    requires forall q | q in s.probes :: q.worker != w
    ensures Effect(s, ClosePending(s, w, i),
                   if s.host.Some? then Stops(Tail(s.pending, i), w, s.host.value.connection) else [], OwnedBy(s, w))
    decreases |s.probes|, |s.pending| - i
  {
    hide Stable, Core, Chronicle, Effect, CancelPending, OwnedBy;
    StableCore(s);
    TailSteps(s.pending, i);
    if i >= |s.pending| {
      NoneOwned(s, w);
      NoEffect(s);
      SameGone(s, s, [], {}, OwnedBy(s, w));
    } else if s.pending[i].worker == w {
      var m := CancelPending(s, i);
      CancelPendingStable(s, i);
      CancelPendingShrinks(s, i);
      CancelPendingChron(s, i);
      CancelPendingExtends(s, i, w);
      ChronicleOnce(s);
      CancelPendingEffect(s, i);
      StoppedOne(s, i, w);
      ClosePendingEffect(m, w, i);
      EffectRest(s, m, [HubCancel(s.pending[i].token, s.host.value.connection), HubEnd(w, s.pending[i].request.id)],
                 OpenUnder(s, s.pending[i].request.id));
      OwnedSame(s, m, i, w);
      var c := s.host.value.connection;
      Composed(s, m, ClosePending(s, w, i), [HubCancel(s.pending[i].token, c), HubEnd(w, s.pending[i].request.id)],
               Stops(Tail(m.pending, i), w, c), Stops(Tail(s.pending, i), w, c),
               OpenUnder(s, s.pending[i].request.id), OwnedBy(m, w), OwnedBy(s, w));
    } else {
      ClosePendingEffect(s, w, i + 1);
      assert s.host.Some? ==>
        Stops(Tail(s.pending, i), w, s.host.value.connection) == Stops(Tail(s.pending, i + 1), w, s.host.value.connection);
    }
  }

  lemma ChronicleOnce(s: State)
    requires Chronicle(s, {})
    ensures Told(s) && OpenedOnce(s.ops, s.probes)
  {
  }

  lemma NoneOwned(s: State, w: Wire)
    requires Core(s) && forall j | 0 <= j < |s.pending| :: s.pending[j].worker != w
    requires forall q | q in s.probes :: q.worker != w
    ensures forall a: nat | InHand(s, a) :: a !in OwnedBy(s, w)
  {
    hide Core, InHand;
    forall a: nat | InHand(s, a) ensures a !in OwnedBy(s, w) {
      WhoHolds(s, a);
      assert forall k | 0 <= k < |s.probes| :: s.probes[k] in s.probes;
    }
  }

  lemma OwnedSame(s: State, m: State, i: nat, w: Wire)
    requires Core(s) && i < |s.pending| && s.pending[i].worker == w && m.arrivals == s.arrivals && m.host == s.host
    ensures OwnedBy(s, w) == OpenUnder(s, s.pending[i].request.id) + OwnedBy(m, w)
  {
    hide Core, OpenUnder;
    RecordIn(s, i);
  }

  /** Closing a worker stops each of its requests, tells it so for each, and touches no other worker's. */
  lemma CloseWorkerEffect(s: State, w: Wire)
    requires Stable(s) && Chronicle(s, {})
    ensures Effect(s, CloseWorker(s, w),
                   Withdrawals(s.probes, w) + if s.host.Some? then Stops(s.pending, w, s.host.value.connection) else [],
                   OwnedBy(s, w))
  {
    hide Stable, Core, Chronicle, Effect, OwnedBy, WaitingOf, CloseProbes, ClosePending;
    ChronicleOnce(s);
    CloseProbesStable(s, w, 0);
    CloseProbesChron(s, w, 0);
    CloseProbesEffect(s, w, 0);
    var m := CloseProbes(s, w, 0);
    ClosePendingEffect(m, w, 0);
    TailSteps(s.probes, 0);
    TailSteps(s.pending, 0);
    EffectRest(s, m, Withdrawals(s.probes, w), WaitingOf(s, w));
    assert OwnedBy(s, w) == WaitingOf(s, w) + OwnedBy(m, w) by { WaitingOwned(s, m, w); }
    Composed(s, m, CloseWorker(s, w), Withdrawals(s.probes, w),
             if s.host.Some? then Stops(s.pending, w, s.host.value.connection) else [],
             Withdrawals(s.probes, w) + if s.host.Some? then Stops(s.pending, w, s.host.value.connection) else [],
             WaitingOf(s, w), OwnedBy(m, w), OwnedBy(s, w));
  }

  lemma EffectRest(s: State, m: State, said: seq<Entry>, gone: set<nat>)
    requires Effect(s, m, said, gone)
    ensures m.host == s.host && m.arrivals == s.arrivals && s.ops <= m.ops
  {
  }

  lemma WaitingOwned(s: State, m: State, w: Wire)
    requires m.arrivals == s.arrivals
    ensures OwnedBy(s, w) == WaitingOf(s, w) + OwnedBy(m, w)
  {
  }

  // ---- Losing the host ----

  function PendingRuns(ps: seq<Pending>): set<string> {
    set p | p in ps :: p.request.run
  }

  function ProbeRuns(qs: seq<Probe>): set<string> {
    set q | q in qs :: q.request.run
  }

  lemma NoRuns()
    ensures PendingRuns([]) == {} && ProbeRuns([]) == {}
  {
  }

  lemma PendingRunsCons(ps: seq<Pending>)
    requires ps != []
    ensures PendingRuns(ps) == {ps[0].request.run} + PendingRuns(ps[1..])
  {
    assert forall p | p in ps :: p == ps[0] || p in ps[1..];
  }

  lemma ProbeRunsCons(qs: seq<Probe>)
    requires qs != []
    ensures ProbeRuns(qs) == {qs[0].request.run} + ProbeRuns(qs[1..])
  {
    assert forall q | q in qs :: q == qs[0] || q in qs[1..];
  }

  function Farewells(ps: seq<Pending>): seq<Entry> {
    seq(|ps|, i requires 0 <= i < |ps| => HubEnd(ps[i].worker, ps[i].request.id))
  }

  function QueueFarewells(qs: seq<Probe>): seq<Entry> {
    seq(|qs|, i requires 0 <= i < |qs| => HubEnd(qs[i].worker, qs[i].request.id))
  }

  lemma {:induction false} LosePendingSays(s: State)
    ensures Messages(LosePending(s).log) == Messages(s.log) + Farewells(s.pending)
    ensures LosePending(s).lostRuns == s.lostRuns + PendingRuns(s.pending)
    decreases |s.pending|
  {
    hide Messages, PendingRuns;
    if s.pending != [] {
      var n, p := LoseFirstPending(s), s.pending[0];
      var closed := Then(s.log, Closed(p.token));
      Sends(s.log, Closed(p.token));
      Sends(closed, Lost(p.request.run));
      Sends(Then(closed, Lost(p.request.run)), HubEnd(p.worker, p.request.id));
      LosePendingSays(n);
      assert Farewells(s.pending) == [HubEnd(p.worker, p.request.id)] + Farewells(s.pending[1..]);
      PendingRunsCons(s.pending);
    } else {
      assert Farewells(s.pending) == [];
      NoRuns();
    }
  }

  lemma LoseFirstProbeSays(s: State)
    requires s.probes != []
    ensures var n, q := LoseFirstProbe(s), s.probes[0];
            && n.probes == s.probes[1..] && n.lostRuns == s.lostRuns + {q.request.run}
            && Messages(n.log) == Messages(s.log) + [HubEnd(q.worker, q.request.id)]
  {
    hide Insert, Messages;
    var q := s.probes[0];
    var lost := Then(s.log, Lost(q.request.run));
    var left := Then(lost, Withdrawn(q.arrival));
    Sends(s.log, Lost(q.request.run));
    Sends(lost, Withdrawn(q.arrival));
    Sends(left, Remembered(q.worker, q.request.id));
    Sends(Then(left, Remembered(q.worker, q.request.id)), HubEnd(q.worker, q.request.id));
  }

  lemma {:induction false} LoseProbesSays(s: State)
    ensures Messages(LoseProbes(s).log) == Messages(s.log) + QueueFarewells(s.probes)
    ensures LoseProbes(s).lostRuns == s.lostRuns + ProbeRuns(s.probes)
    decreases |s.probes|
  {
    hide Messages, ProbeRuns, LoseFirstProbe;
    NoRuns();
    if s.probes != [] {
      var q := s.probes[0];
      LoseFirstProbeSays(s);
      LoseProbesSays(LoseFirstProbe(s));
      assert QueueFarewells(s.probes) == [HubEnd(q.worker, q.request.id)] + QueueFarewells(s.probes[1..]);
      ProbeRunsCons(s.probes);
    } else {
      assert QueueFarewells(s.probes) == [];
    }
  }

  /** The host goes: everything in hand is ended, its runs are lost, and nothing else is. */
  ghost predicate Hostless(s: State, n: State) {
    && n == s.(host := None, relay := false, pending := [], probes := [],
               lostRuns := s.lostRuns + PendingRuns(s.pending) + ProbeRuns(s.probes), completed := n.completed, log := n.log)
    && Messages(n.log) == Messages(s.log) + Farewells(s.pending) + QueueFarewells(s.probes)
  }

  lemma DetachExactly(s: State)
    requires Core(s)
    ensures Hostless(s, Detach(s))
  {
    hide Core, Messages, Farewells, QueueFarewells, PendingRuns, ProbeRuns;
    var u := Unhost(s);
    UnhostKeeps(s);
    LosePendingKeeps(u);
    LosePendingSays(u);
    LoseProbesKeeps(LosePending(u));
    LoseProbesSays(LosePending(u));
  }
}
