/**
 What every step of the hub keeps: slot limits, queue order, record identity and per-operation
 counters. `Core` holds even inside a step (while `detach` is still emptying the maps, or after a
 slot was freed and before the queue was drained); `Stable` holds between steps.
 */
module HubSafety {
  import opened Options
  import opened HubModel

  // ---- The invariant, one predicate per group of fields ----

  predicate DistinctPending(ps: seq<Pending>) {
    forall i, j | 0 <= i < j < |ps| :: ps[i].request.id != ps[j].request.id
  }

  predicate DistinctProbes(qs: seq<Probe>) {
    forall i, j | 0 <= i < j < |qs| :: qs[i].request.id != qs[j].request.id
  }

  predicate Apart(ps: seq<Pending>, qs: seq<Probe>) {
    forall p, q | p in ps && q in qs :: p.request.id != q.request.id
  }

  /** A record agrees with the history of reservations, and was opened on the newest connection. */
  predicate Known(p: Pending, ops: seq<Op>, connections: nat) {
    && p.token < |ops|
    && ops[p.token].request == p.request
    && ops[p.token].worker == p.worker
    && ops[p.token].connection + 1 == connections
  }

  predicate Registered(ps: seq<Pending>, ops: seq<Op>, connections: nat) {
    forall p | p in ps :: Known(p, ops, connections)
  }

  predicate Newest(host: Option<Host>, ops: seq<Op>, connections: nat) {
    && (host.Some? ==> host.value.connection + 1 == connections)
    && (forall op | op in ops :: op.connection < connections)
  }

  predicate Sized(lim: Limits, ps: seq<Pending>, qs: seq<Probe>) {
    && |ps| <= lim.inFlight
    && CountProbes(ps) <= lim.inFlight / 2
    && |qs| <= MAX_PROBES
  }

  predicate Waiting(qs: seq<Probe>, seen: set<string>) {
    forall q | q in qs :: FleetProbe(q.request) && q.request.id !in seen
  }

  /** While a host is attached, nothing of a lost run is queued and only board runs of it are open. */
  predicate Fenced(host: Option<Host>, ps: seq<Pending>, qs: seq<Probe>, lost: set<string>) {
    host.Some? ==>
      && (qs != [] ==> |lost| < MAX_HISTORY)
      && (forall q | q in qs :: q.request.run !in lost)
      && (forall p | p in ps :: p.request.run in lost ==> p.request.operation.BoardRun?)
  }

  /** The stream window, the callback window and the byte budgets of one record. */
  predicate Metered(lim: Limits, p: Pending) {
    && -1 <= p.ack <= p.last <= p.ack + lim.window
    && p.bytes <= lim.totalBytes
    && p.workerBytes <= lim.totalBytes
    && |p.calls| <= lim.window
    && (Hermes(p.request) ==>
          && p.providerBytes + p.otherBytes == p.workerBytes
          && p.providerBytes <= MAX_PROVIDER_BYTES
          && p.otherBytes <= MAX_OTHER_BYTES)
    && (!Hermes(p.request) ==> p.providerBytes == 0 && p.otherBytes == 0)
  }

  predicate AllMetered(lim: Limits, ps: seq<Pending>) {
    forall p | p in ps :: Metered(lim, p)
  }

  predicate GoodTask(t: Task, ops: seq<Op>) {
    && t.token < |ops|
    && (t.FrameAuth? ==>
          && !t.frame.Health?
          && t.frame.id == ops[t.token].request.id
          && t.connection == ops[t.token].connection)
  }

  predicate Tasked(tasks: map<nat, Task>, nextTask: nat, ops: seq<Op>) {
    forall k | k in tasks :: k < nextTask && GoodTask(tasks[k], ops)
  }

  /** At most one authorization is outstanding per record. */
  predicate AskedOnce(tasks: map<nat, Task>) {
    forall k, l | k in tasks && l in tasks && tasks[k].OpenAuth? && tasks[l].OpenAuth? ::
      tasks[k].token == tasks[l].token ==> k == l
  }

  /** A record whose authorization is outstanding has not been forwarded. */
  predicate Unsent(tasks: map<nat, Task>, ps: seq<Pending>, seen: set<string>) {
    forall k, p | k in tasks && tasks[k].OpenAuth? && p in ps ::
      p.token == tasks[k].token ==> p.request.id !in seen
  }

  predicate ArrivedAs(arrivals: seq<Arrival>, n: nat, r: Request, w: Wire) {
    n < |arrivals| && arrivals[n] == Arrival(r, w)
  }

  predicate Arrived(ops: seq<Op>, qs: seq<Probe>, arrivals: seq<Arrival>) {
    && (forall op | op in ops :: ArrivedAs(arrivals, op.arrival, op.request, op.worker))
    && (forall q | q in qs :: ArrivedAs(arrivals, q.arrival, q.request, q.worker))
  }

  /** Probes are opened in the order in which they arrived. */
  predicate OpenedInOrder(ops: seq<Op>) {
    forall t, u | 0 <= t < u < |ops| && FleetProbe(ops[t].request) && FleetProbe(ops[u].request) ::
      ops[t].arrival < ops[u].arrival
  }

  predicate QueuedInOrder(qs: seq<Probe>) {
    forall i, j | 0 <= i < j < |qs| :: qs[i].arrival < qs[j].arrival
  }

  predicate OpenedBeforeQueued(ops: seq<Op>, qs: seq<Probe>) {
    forall op, q | op in ops && q in qs && FleetProbe(op.request) :: op.arrival < q.arrival
  }

  predicate Identity(s: State) {
    && DistinctPending(s.pending) && DistinctProbes(s.probes) && Apart(s.pending, s.probes)
    && Registered(s.pending, s.ops, s.connections) && Newest(s.host, s.ops, s.connections)
  }

  predicate Limited(s: State) {
    && Sized(s.lim, s.pending, s.probes)
    && AllMetered(s.lim, s.pending)
    && Waiting(s.probes, s.seen)
    && Fenced(s.host, s.pending, s.probes, s.lostRuns)
  }

  predicate Scheduled(s: State) {
    Tasked(s.tasks, s.nextTask, s.ops) && AskedOnce(s.tasks) && Unsent(s.tasks, s.pending, s.seen)
  }

  predicate Ordered(s: State) {
    && Arrived(s.ops, s.probes, s.arrivals)
    && OpenedInOrder(s.ops) && QueuedInOrder(s.probes) && OpenedBeforeQueued(s.ops, s.probes)
  }

  predicate Core(s: State) {
    Identity(s) && Limited(s) && Scheduled(s) && Ordered(s)
  }

  predicate Stable(s: State) {
    && Core(s)
    && (s.host.None? ==> s.pending == [] && s.probes == [])
    && (s.probes != [] ==> !ProbeCapacity(s.lim, s.pending))
  }

  // ---- Counting probes ----

  lemma {:induction false} CountAppend(a: seq<Pending>, b: seq<Pending>)
    ensures CountProbes(a + b) == CountProbes(a) + CountProbes(b)
    decreases |b|
  {
    if b == [] {
      assert a + b == a;
    } else {
      assert (a + b)[..|a + b| - 1] == a + b[..|b| - 1];
      CountAppend(a, b[..|b| - 1]);
    }
  }

  lemma CountSnoc(a: seq<Pending>, p: Pending)
    ensures CountProbes(a + [p]) == CountProbes(a) + (if FleetProbe(p.request) then 1 else 0)
  {
    assert (a + [p])[..|a|] == a;
  }

  lemma CountSplit(ps: seq<Pending>, i: nat)
    requires i < |ps|
    ensures CountProbes(ps) == CountProbes(ps[..i]) + (if FleetProbe(ps[i].request) then 1 else 0) + CountProbes(ps[i + 1..])
  {
    hide CountProbes;
    assert ps == ps[..i] + [ps[i]] + ps[i + 1..];
    CountAppend(ps[..i] + [ps[i]], ps[i + 1..]);
    CountSnoc(ps[..i], ps[i]);
  }

  lemma CountWithout(ps: seq<Pending>, i: nat)
    requires i < |ps|
    ensures CountProbes(Without(ps, i)) == CountProbes(ps) - (if FleetProbe(ps[i].request) then 1 else 0)
  {
    hide CountProbes;
    CountSplit(ps, i);
    CountAppend(ps[..i], ps[i + 1..]);
  }

  lemma CountUpdate(ps: seq<Pending>, i: nat, p: Pending)
    requires i < |ps| && p.request == ps[i].request
    ensures CountProbes(ps[i := p]) == CountProbes(ps)
  {
    hide CountProbes;
    var qs := ps[i := p];
    assert qs[..i] == ps[..i] && qs[i + 1..] == ps[i + 1..];
    CountSplit(ps, i);
    CountSplit(qs, i);
  }

  // ---- Removing a record or a probe ----

  lemma WithoutIn<T>(s: seq<T>, i: nat)
    requires i < |s|
    ensures forall x | x in Without(s, i) :: x in s
    ensures |Without(s, i)| == |s| - 1
    ensures forall k | 0 <= k < |s| - 1 :: Without(s, i)[k] == if k < i then s[k] else s[k + 1]
  {
  }

  lemma WithoutPending(ps: seq<Pending>, i: nat)
    requires i < |ps| && DistinctPending(ps)
    ensures DistinctPending(Without(ps, i))
    ensures forall p | p in Without(ps, i) :: p in ps && p.request.id != ps[i].request.id
  {
    WithoutIn(ps, i);
  }

  lemma WithoutProbe(qs: seq<Probe>, i: nat)
    requires i < |qs| && DistinctProbes(qs) && QueuedInOrder(qs)
    ensures DistinctProbes(Without(qs, i)) && QueuedInOrder(Without(qs, i))
    ensures forall q | q in Without(qs, i) :: q in qs && q.request.id != qs[i].request.id
  {
    WithoutIn(qs, i);
  }

  /** Fewer records and fewer probes satisfy everything but the pairwise orders. */
  lemma FewerKeeps(s: State, ps: seq<Pending>, qs: seq<Probe>)
    requires Core(s)
    requires forall p | p in ps :: p in s.pending
    requires forall q | q in qs :: q in s.probes
    requires qs != [] ==> s.probes != []
    requires DistinctPending(ps) && DistinctProbes(qs) && QueuedInOrder(qs)
    requires Sized(s.lim, ps, qs)
    ensures Core(s.(pending := ps, probes := qs))
  {
  }

  lemma DropKeeps(s: State, i: nat)
    requires Core(s) && i < |s.pending|
    ensures Core(Drop(s, i))
  {
    CountWithout(s.pending, i);
    WithoutPending(s.pending, i);
    FewerKeeps(s, Without(s.pending, i), s.probes);
  }

  lemma CancelProbeKeeps(s: State, i: nat)
    requires Core(s) && i < |s.probes|
    ensures Core(CancelProbe(s, i))
  {
    WithoutProbe(s.probes, i);
    FewerKeeps(s, s.pending, Without(s.probes, i));
  }

  // ---- Changing a record ----

  lemma UpdateKeeps(s: State, i: nat, p: Pending)
    requires Core(s) && i < |s.pending|
    requires p.token == s.pending[i].token && p.request == s.pending[i].request && p.worker == s.pending[i].worker
    requires Metered(s.lim, p)
    ensures Core(s.(pending := s.pending[i := p]))
  {
    hide Identity, Limited;
    UpdateIdentity(s, i, p);
    UpdateLimited(s, i, p);
    assert forall x | x in s.pending[i := p] :: x == p || x in s.pending;
    assert s.pending[i] in s.pending;
  }

  lemma UpdateIdentity(s: State, i: nat, p: Pending)
    requires Core(s) && i < |s.pending|
    requires p.token == s.pending[i].token && p.request == s.pending[i].request && p.worker == s.pending[i].worker
    ensures Identity(s.(pending := s.pending[i := p]))
  {
    hide Limited, Scheduled, Ordered;
    assert forall x | x in s.pending[i := p] :: x == p || x in s.pending;
    assert s.pending[i] in s.pending;
  }

  lemma UpdateLimited(s: State, i: nat, p: Pending)
    requires Core(s) && i < |s.pending| && p.request == s.pending[i].request && Metered(s.lim, p)
    ensures Limited(s.(pending := s.pending[i := p]))
  {
    hide Identity, Scheduled, Ordered, Metered;
    CountUpdate(s.pending, i, p);
    assert forall x | x in s.pending[i := p] :: x == p || x in s.pending;
    assert s.pending[i] in s.pending;
  }

  lemma AwaitKeeps(s: State, t: Task)
    requires Core(s) && GoodTask(t, s.ops) && !t.OpenAuth?
    ensures Core(Await(s, t))
  {
  }

  // ---- Adding a record or a probe ----

  lemma ReserveIdentity(s: State, r: Request, w: Wire, arrival: nat)
    requires Core(s) && s.host.Some?
    requires PendingAt(s.pending, r.id) < 0 && ProbeAt(s.probes, r.id) < 0
    ensures Identity(Reserve(s, r, w, arrival))
  {
    hide Limited, Scheduled, Ordered;
    var n := Reserve(s, r, w, arrival);
    assert DistinctPending(n.pending) && Apart(n.pending, n.probes);
    assert Registered(n.pending, n.ops, n.connections) by {
      assert forall p | p in s.pending :: Known(p, s.ops, s.connections) && Known(p, n.ops, n.connections);
    }
  }

  lemma ReserveLimited(s: State, r: Request, w: Wire, arrival: nat)
    requires Core(s) && !Refuses(s, r) && (FleetProbe(r) ==> ProbeCapacity(s.lim, s.pending))
    ensures Limited(Reserve(s, r, w, arrival))
  {
    var p := Pending(|s.ops|, r, w, -1, -1, 0, 0, 0, 0, map[]);
    CountSnoc(s.pending, p);
    assert Metered(s.lim, p);
  }

  lemma ReserveScheduled(s: State, r: Request, w: Wire, arrival: nat)
    requires Core(s) && s.host.Some? && r.id !in s.seen
    ensures Scheduled(Reserve(s, r, w, arrival))
  {
    var n := Reserve(s, r, w, arrival);
    assert forall k | k in s.tasks :: GoodTask(s.tasks[k], s.ops) && GoodTask(s.tasks[k], n.ops);
    assert forall p | p in s.pending :: Known(p, s.ops, s.connections);
  }

  predicate NextInLine(s: State, r: Request, arrival: nat) {
    FleetProbe(r) ==>
      && (forall op | op in s.ops && FleetProbe(op.request) :: op.arrival < arrival)
      && (forall q | q in s.probes :: arrival < q.arrival)
  }

  lemma ReserveOrdered(s: State, r: Request, w: Wire, arrival: nat)
    requires Core(s) && s.host.Some?
    requires ArrivedAs(s.arrivals, arrival, r, w) && NextInLine(s, r, arrival)
    ensures Ordered(Reserve(s, r, w, arrival))
  {
  }

  lemma ReserveKeeps(s: State, r: Request, w: Wire, arrival: nat)
    requires Core(s) && !Refuses(s, r) && (FleetProbe(r) ==> ProbeCapacity(s.lim, s.pending))
    requires ArrivedAs(s.arrivals, arrival, r, w) && NextInLine(s, r, arrival)
    ensures Core(Reserve(s, r, w, arrival))
  {
    ReserveIdentity(s, r, w, arrival);
    ReserveLimited(s, r, w, arrival);
    ReserveScheduled(s, r, w, arrival);
    ReserveOrdered(s, r, w, arrival);
  }

  lemma EnqueueKeeps(s: State, r: Request, w: Wire, arrival: nat)
    requires Core(s) && !Refuses(s, r) && FleetProbe(r)
    requires ArrivedAs(s.arrivals, arrival, r, w)
    requires forall op | op in s.ops :: op.arrival < arrival
    requires forall q | q in s.probes :: q.arrival < arrival
    ensures Core(s.(probes := s.probes + [Probe(r, w, arrival)]))
  {
    EnqueueIdentity(s, r, w, arrival);
    EnqueueLimited(s, r, w, arrival);
    assert Ordered(s.(probes := s.probes + [Probe(r, w, arrival)]));
  }

  lemma EnqueueIdentity(s: State, r: Request, w: Wire, arrival: nat)
    requires Core(s) && PendingAt(s.pending, r.id) < 0 && ProbeAt(s.probes, r.id) < 0
    ensures Identity(s.(probes := s.probes + [Probe(r, w, arrival)]))
  {
    hide Limited, Scheduled, Ordered;
  }

  lemma EnqueueLimited(s: State, r: Request, w: Wire, arrival: nat)
    requires Core(s) && !Refuses(s, r) && FleetProbe(r)
    ensures Limited(s.(probes := s.probes + [Probe(r, w, arrival)]))
  {
    hide Identity, Scheduled, Ordered;
  }

  // ---- Draining the probe queue ----

  lemma QueueHead(s: State)
    requires Core(s) && s.host.Some? && s.probes != []
    ensures var q := s.probes[0]; var t := s.(probes := s.probes[1..]);
            Core(t) && NextInLine(t, q.request, q.arrival) && ArrivedAs(t.arrivals, q.arrival, q.request, q.worker)
  {
    var t := s.(probes := s.probes[1..]);
    FewerKeeps(s, s.pending, t.probes);
    assert s.probes[0] in s.probes;
  }

  lemma HeadNotRefused(s: State)
    requires Core(s) && s.host.Some? && s.probes != []
    ensures !Refuses(s.(probes := s.probes[1..]), s.probes[0].request)
  {
    assert s.probes[0] in s.probes;
  }

  /** A probe that reaches the head of the queue is never refused and never queued again. */
  lemma PromoteReserves(s: State)
    requires Core(s) && s.host.Some? && s.probes != [] && ProbeCapacity(s.lim, s.pending)
    ensures var q := s.probes[0];
            Promote(s) == Reserve(s.(probes := s.probes[1..]), q.request, q.worker, q.arrival)
    ensures Core(Promote(s))
  {
    hide Core;
    var q := s.probes[0];
    QueueHead(s);
    HeadNotRefused(s);
    ReserveKeeps(s.(probes := s.probes[1..]), q.request, q.worker, q.arrival);
  }

  lemma {:induction false} DrainKeeps(s: State)
    requires Core(s)
    ensures Core(Drain(s))
    ensures s.host.Some? && Drain(s).probes != [] ==> !ProbeCapacity(s.lim, Drain(s).pending)
    ensures Drain(s).lim == s.lim && Drain(s).arrivals == s.arrivals && Drain(s).connections == s.connections
    ensures Drain(s).host == s.host && s.ops <= Drain(s).ops
    decreases |s.probes|
  {
    hide Core;
    if s.host.Some? && s.probes != [] && ProbeCapacity(s.lim, s.pending) {
      PromoteReserves(s);
      DrainKeeps(Promote(s));
    }
  }

  lemma FinishKeeps(s: State, id: string)
    requires Core(s)
    ensures Core(Finish(s, id))
    ensures s.host.Some? && Finish(s, id).probes != [] ==> !ProbeCapacity(s.lim, Finish(s, id).pending)
    ensures Finish(s, id).host == s.host && s.ops <= Finish(s, id).ops && Finish(s, id).arrivals == s.arrivals
    ensures Finish(s, id).lim == s.lim
  {
    hide Core;
    var i := PendingAt(s.pending, id);
    if i >= 0 { DropKeeps(s, i); }
    DrainKeeps(if i >= 0 then Drop(s, i) else s);
  }

  // ---- Steps keep Stable ----

  /** The log, the memory of ended ids and the relay capability are free to change. */
  lemma Quiet(s: State, t: State)
    requires t == s.(log := t.log, completed := t.completed, relay := t.relay)
    ensures Core(s) ==> Core(t)
    ensures Stable(s) ==> Stable(t)
  {
  }

  lemma FinishStable(s: State, id: string)
    requires Stable(s)
    ensures Stable(Finish(s, id))
    ensures Finish(s, id).lim == s.lim
  {
    hide Core;
    FinishKeeps(s, id);
  }

  lemma CancelPendingStable(s: State, i: nat)
    requires Stable(s) && i < |s.pending|
    ensures Stable(CancelPending(s, i))
    ensures s.ops <= CancelPending(s, i).ops && CancelPending(s, i).arrivals == s.arrivals
    ensures CancelPending(s, i).lim == s.lim
  {
    hide Stable, Core, Finish;
    var p := s.pending[i];
    var told := if s.host.Some? then Say(s, HubCancel(p.token, s.host.value.connection)) else s;
    var ended := Say(told, HubEnd(p.worker, p.request.id));
    Quiet(s, ended);
    FinishStable(ended, p.request.id);
    StableCore(ended);
    FinishKeeps(ended, p.request.id);
  }

  lemma StableCore(s: State)
    requires Stable(s)
    ensures Core(s)
  {
  }

  lemma CancelProbeStable(s: State, i: nat)
    requires Stable(s) && i < |s.probes|
    ensures Stable(CancelProbe(s, i))
    ensures CancelProbe(s, i).lim == s.lim
  {
    hide Core;
    CancelProbeKeeps(s, i);
  }

  lemma CancelStable(s: State, id: string, w: Wire)
    requires Stable(s)
    ensures Stable(Cancel(s, id, w))
    ensures Cancel(s, id, w).lim == s.lim
  {
    hide Stable, CancelProbe, CancelPending;
    var q := ProbeAt(s.probes, id);
    var i := PendingAt(s.pending, id);
    if q >= 0 && s.probes[q].worker == w {
      CancelProbeStable(s, q);
    } else if i >= 0 && s.pending[i].worker == w {
      CancelPendingStable(s, i);
    }
  }

  lemma LoseFirstPendingKeeps(s: State)
    requires Core(s) && s.host.None? && s.pending != []
    ensures Core(LoseFirstPending(s))
  {
    var t := s.(lostRuns := s.lostRuns + {s.pending[0].request.run});
    assert Core(t);
    DropKeeps(t, 0);
    assert s.pending[1..] == Without(s.pending, 0);
    var d := Drop(t, 0);
    Quiet(d, LoseFirstPending(s));
  }

  lemma {:induction false} LosePendingKeeps(s: State)
    requires Core(s) && s.host.None?
    ensures Core(LosePending(s))
    ensures LosePending(s) == s.(pending := [], lostRuns := LosePending(s).lostRuns, log := LosePending(s).log)
    decreases |s.pending|
  {
    hide Core;
    if s.pending != [] {
      LoseFirstPendingKeeps(s);
      LosePendingKeeps(LoseFirstPending(s));
    }
  }

  lemma LoseFirstProbeKeeps(s: State)
    requires Core(s) && s.host.None? && s.probes != []
    ensures Core(LoseFirstProbe(s))
  {
    var t := Lose(s, s.probes[0].request.run);
    assert Core(t);
    CancelProbeKeeps(t, 0);
  }

  lemma {:induction false} LoseProbesKeeps(s: State)
    requires Core(s) && s.host.None?
    ensures Core(LoseProbes(s))
    ensures LoseProbes(s) ==
            s.(probes := [], lostRuns := LoseProbes(s).lostRuns, completed := LoseProbes(s).completed, log := LoseProbes(s).log)
    decreases |s.probes|
  {
    hide Core;
    if s.probes != [] {
      LoseFirstProbeKeeps(s);
      LoseProbesKeeps(LoseFirstProbe(s));
    }
  }

  lemma UnhostKeeps(s: State)
    requires Core(s)
    ensures Core(Unhost(s))
  {
  }

  lemma DetachKeeps(s: State)
    requires Core(s)
    ensures Stable(Detach(s))
    ensures Detach(s).host.None? && Detach(s).pending == [] && Detach(s).probes == []
    ensures Detach(s).ops == s.ops && Detach(s).arrivals == s.arrivals && Detach(s).lim == s.lim
    ensures Detach(s).seen == s.seen && Detach(s).connections == s.connections && Detach(s).tasks == s.tasks
  {
    hide Core;
    var u := Unhost(s);
    UnhostKeeps(s);
    LosePendingKeeps(u);
    LoseProbesKeeps(LosePending(u));
  }

  lemma AttachStable(s: State, wire: Wire, ownerId: string, registration: string)
    requires Stable(s)
    ensures Stable(Attach(s, wire, ownerId, registration))
    ensures Attach(s, wire, ownerId, registration).lim == s.lim
  {
    hide Detach;
    DetachKeeps(s);
  }

  lemma {:induction false} CloseProbesStable(s: State, w: Wire, i: nat)
    requires Stable(s)
    requires forall j | 0 <= j < i && j < |s.probes| :: s.probes[j].worker != w
    ensures Stable(CloseProbes(s, w, i))
    ensures forall q | q in CloseProbes(s, w, i).probes :: q.worker != w
    ensures CloseProbes(s, w, i).arrivals == s.arrivals && CloseProbes(s, w, i).ops == s.ops
    ensures CloseProbes(s, w, i).lim == s.lim
    decreases |s.probes| - i
  {
    hide Stable;
    if i >= |s.probes| {
    } else if s.probes[i].worker == w {
      CancelProbeStable(s, i);
      WithoutIn(s.probes, i);
      CloseProbesStable(CancelProbe(s, i), w, i);
    } else {
      CloseProbesStable(s, w, i + 1);
    }
  }

  lemma {:induction false} DrainExtends(s: State)
    requires Core(s)
    ensures s.pending <= Drain(s).pending
    ensures forall q | q in Drain(s).probes :: q in s.probes
    decreases |s.probes|
  {
    hide Core, Refuses, ProbeCapacity;
    if s.host.Some? && s.probes != [] && ProbeCapacity(s.lim, s.pending) {
      PromoteReserves(s);
      DrainExtends(Promote(s));
    }
  }

  lemma CancelPendingExtends(s: State, i: nat, w: Wire)
    requires Stable(s) && i < |s.pending|
    requires forall j | 0 <= j < i :: s.pending[j].worker != w
    requires forall q | q in s.probes :: q.worker != w
    ensures var t := CancelPending(s, i);
            && (forall j | 0 <= j < i && j < |t.pending| :: t.pending[j].worker != w)
            && (forall q | q in t.probes :: q.worker != w)
  {
    hide Core, Stable, Drain, Drop;
    var p := s.pending[i];
    var told := if s.host.Some? then Say(s, HubCancel(p.token, s.host.value.connection)) else s;
    var ended := Say(told, HubEnd(p.worker, p.request.id));
    Quiet(s, ended);
    StableCore(ended);
    SameIndex(s, i, PendingAt(ended.pending, p.request.id));
    DropShape(ended, i);
    DropKeeps(ended, i);
    DrainExtends(Drop(ended, i));
  }

  lemma DropShape(s: State, i: nat)
    requires i < |s.pending|
    ensures Drop(s, i).probes == s.probes && |Drop(s, i).pending| == |s.pending| - 1
    ensures forall j | 0 <= j < i :: Drop(s, i).pending[j] == s.pending[j]
  {
  }

  lemma SameIndex(s: State, i: nat, k: nat)
    requires Stable(s) && i < |s.pending| && k < |s.pending|
    ensures s.pending[i].request.id == s.pending[k].request.id ==> i == k
  {
  }

  lemma {:induction false} ClosePendingStable(s: State, w: Wire, i: nat)
    requires Stable(s)
    requires forall j | 0 <= j < i && j < |s.pending| :: s.pending[j].worker != w
    requires forall q | q in s.probes :: q.worker != w
    ensures Stable(ClosePending(s, w, i))
    ensures ClosePending(s, w, i).lim == s.lim
    ensures forall p | p in ClosePending(s, w, i).pending :: p.worker != w
    ensures forall q | q in ClosePending(s, w, i).probes :: q.worker != w
    decreases |s.probes|, |s.pending| - i
  {
    hide Stable, CancelPending;
    if i >= |s.pending| {
    } else if s.pending[i].worker == w {
      CancelPendingStable(s, i);
      CancelPendingShrinks(s, i);
      CancelPendingExtends(s, i, w);
      ClosePendingStable(CancelPending(s, i), w, i);
    } else {
      ClosePendingStable(s, w, i + 1);
    }
  }

  /** Closing a worker leaves none of its operations open or queued. */
  lemma CloseWorkerStable(s: State, w: Wire)
    requires Stable(s)
    ensures Stable(CloseWorker(s, w))
    ensures CloseWorker(s, w).lim == s.lim
    ensures forall p | p in CloseWorker(s, w).pending :: p.worker != w
    ensures forall q | q in CloseWorker(s, w).probes :: q.worker != w
  {
    hide Stable;
    CloseProbesStable(s, w, 0);
    ClosePendingStable(CloseProbes(s, w, 0), w, 0);
  }
}
