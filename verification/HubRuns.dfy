/** The history properties over every run of the hub, and the theorems that follow. */
module HubRuns {
  import opened Options
  import opened HubModel
  import opened HubSafety
  import opened HubSteps
  import opened HubMonitor
  import opened HubHistory
  import opened HubAnswers

  // ---- Building blocks ----

  predicate Mute(e: Entry) {
    e.HubEnd? || e.Refused? || e.Queued? || e.Withdrawn?
  }

  lemma MuteChron(s: State, e: Entry, x: set<string>)
    requires Chronicle(s, x) && Mute(e)
    ensures Chronicle(Say(s, e), x)
  {
    hide Told, Sent, Marked, Honest;
    QuietTold(s, e);
    QuietSent(s, e);
    QuietMarked(s, e);
    QuietHonest(s, Say(s, e), x);
  }

  /** Fields outside the history's reach may change freely. */
  lemma FrameChron(s: State, t: State, x: set<string>)
    requires Chronicle(s, x)
    requires t == s.(host := t.host, relay := t.relay, connections := t.connections)
    ensures Chronicle(t, x)
  {
    hide Honest;
    QuietHonest(s, t, x);
  }

  lemma AwaitChron(s: State, k: Task, x: set<string>)
    requires Chronicle(s, x) && Core(s) && GoodTask(k, s.ops)
    requires k.EndSent? ==>
               Answered(s.log, s.ops[k.token].arrival, s.ops[k.token].worker, s.ops[k.token].request.id)
    ensures Chronicle(Await(s, k), x)
  {
    hide Honest, Core;
    QuietHonest(s, Await(s, k), x);
  }

  lemma TakenChron(s: State, k: nat, x: set<string>)
    requires Chronicle(s, x)
    ensures Chronicle(s.(tasks := s.tasks - {k}), x)
  {
    hide Honest;
    var t := s.(tasks := s.tasks - {k});
    assert forall l | l in t.tasks :: l in s.tasks && t.tasks[l] == s.tasks[l];
    QuietHonest(s, t, x);
  }

  lemma ReserveMarked(s: State, r: Request, w: Wire, arrival: nat)
    requires Marked(s) && s.host.Some? && Tasked(s.tasks, s.nextTask, s.ops)
    requires forall op | op in s.ops :: op.arrival != arrival
    requires forall q | q in s.probes :: q.arrival != arrival
    ensures Marked(Reserve(s, r, w, arrival))
  {
    var n := Reserve(s, r, w, arrival);
    assert OpenedOnce(n.ops, n.probes);
    forall k | k in n.tasks && n.tasks[k].EndSent? && n.tasks[k].token < |n.ops|
      ensures var op := n.ops[n.tasks[k].token]; Answered(n.log, op.arrival, op.worker, op.request.id)
    {
      assert k in s.tasks && GoodTask(s.tasks[k], s.ops);
    }
  }

  lemma ReserveHeld(s: State, r: Request, w: Wire, arrival: nat, id: string)
    requires s.host.Some?
    ensures Holds(Reserve(s, r, w, arrival), id) <==> (Holds(s, id) || id == r.id)
  {
    var n := Reserve(s, r, w, arrival);
    Held(s, id);
    Held(n, id);
    assert n.pending[|s.pending|] in n.pending;
    assert forall p | p in s.pending :: p in n.pending;
    assert forall p | p in n.pending :: p in s.pending || p.request.id == r.id;
  }

  lemma ReserveChron(s: State, r: Request, w: Wire, arrival: nat, x: set<string>)
    requires Core(s) && Chronicle(s, x + {r.id}) && s.host.Some? && r.id !in s.seen
    requires forall op | op in s.ops :: op.arrival != arrival
    requires forall q | q in s.probes :: q.arrival != arrival
    requires DistinctArrivals(s.arrivals) ==> Forgotten(s, r.id)
    ensures Chronicle(Reserve(s, r, w, arrival), x)
  {
    hide Told, Sent, Marked, Honest, Core, Reserve, Holds, DistinctArrivals;
    var n := Reserve(s, r, w, arrival);
    TasksGood(s);
    ReserveTold(s, r, w, arrival);
    ReserveMarked(s, r, w, arrival);
    forall id: string ensures Holds(n, id) <==> (Holds(s, id) || id == r.id) {
      ReserveHeld(s, r, w, arrival, id);
    }
    ReserveSent(s, r, w, arrival);
    ReserveShape(s, r, w, arrival);
    HoldHonest(s, n, r.id, x);
  }

  lemma TasksGood(s: State)
    requires Core(s)
    ensures Tasked(s.tasks, s.nextTask, s.ops)
  {
  }

  lemma ReserveShape(s: State, r: Request, w: Wire, arrival: nat)
    requires s.host.Some?
    ensures var n := Reserve(s, r, w, arrival);
            && n.arrivals == s.arrivals && n.completed == s.completed && n.probes == s.probes
            && n.log.Then? && n.log.before == s.log && n.log.entry.Opened?
  {
  }

  lemma ReserveSent(s: State, r: Request, w: Wire, arrival: nat)
    requires Sent(s) && s.host.Some?
    ensures Sent(Reserve(s, r, w, arrival))
  {
    hide Forwards, TotalForwards, LostIn, FenceHeld;
    var op := Op(r, w, s.host.value.connection, arrival);
    QuietSent(s, Opened(|s.ops|, op));
  }

  // ---- Records that leave ----

  lemma PendingAfterRemoval(ps: seq<Pending>, i: nat, id: string)
    requires i < |ps| && DistinctPending(ps)
    ensures PendingAt(Without(ps, i), id) >= 0 <==> PendingAt(ps, id) >= 0 && id != ps[i].request.id
  {
    WithoutIn(ps, i);
    var k := PendingAt(ps, id);
    if k >= 0 && id != ps[i].request.id {
      assert Without(ps, i)[if k < i then k else k - 1] == ps[k];
    }
  }

  lemma ProbeAfterRemoval(qs: seq<Probe>, i: nat, id: string)
    requires i < |qs| && DistinctProbes(qs)
    ensures ProbeAt(Without(qs, i), id) >= 0 <==> ProbeAt(qs, id) >= 0 && id != qs[i].request.id
  {
    WithoutIn(qs, i);
    var k := ProbeAt(qs, id);
    if k >= 0 && id != qs[i].request.id {
      assert Without(qs, i)[if k < i then k else k - 1] == qs[k];
    }
  }

  lemma Separate(s: State)
    requires Core(s)
    ensures DistinctPending(s.pending) && DistinctProbes(s.probes)
    ensures forall i | 0 <= i < |s.pending| :: ProbeAt(s.probes, s.pending[i].request.id) < 0
    ensures forall j | 0 <= j < |s.probes| :: PendingAt(s.pending, s.probes[j].request.id) < 0
  {
    hide Limited, Scheduled, Ordered;
    forall i, j | 0 <= i < |s.pending| && 0 <= j < |s.probes|
      ensures s.pending[i].request.id != s.probes[j].request.id
    {
      assert s.pending[i] in s.pending && s.probes[j] in s.probes;
    }
  }

  lemma RemovedHeld(s: State, i: nat, id: string)
    requires Core(s) && i < |s.pending|
    ensures Holds(s.(pending := Without(s.pending, i)), id) <==> (Holds(s, id) && id != s.pending[i].request.id)
  {
    hide Core;
    Separate(s);
    PendingAfterRemoval(s.pending, i, id);
  }

  lemma DequeuedHeld(s: State, i: nat, id: string)
    requires Core(s) && i < |s.probes|
    ensures Holds(s.(probes := Without(s.probes, i)), id) <==> (Holds(s, id) && id != s.probes[i].request.id)
  {
    hide Core;
    Separate(s);
    ProbeAfterRemoval(s.probes, i, id);
  }

  lemma ClosedChron(s: State, i: nat, x: set<string>)
    requires Core(s) && Chronicle(s, x) && i < |s.pending|
    ensures var n := Say(s.(pending := Without(s.pending, i)), Closed(s.pending[i].token));
            Chronicle(n, x + {s.pending[i].request.id})
  {
    hide Told, Sent, Marked, Honest, Core, Holds;
    var t := s.(pending := Without(s.pending, i));
    var id := s.pending[i].request.id;
    ClosedTold(s, i);
    forall k: string ensures Holds(t, k) <==> (Holds(s, k) && k != id) { RemovedHeld(s, i, k); }
    ReleaseHonest(s, t, id, x);
    QuietHonest(t, Say(t, Closed(s.pending[i].token)), x + {id});
    PendingSent(s, t.pending);
    QuietSent(t, Closed(s.pending[i].token));
    QuietMarked(t, Closed(s.pending[i].token));
  }

  lemma PendingSent(s: State, ps: seq<Pending>)
    ensures Sent(s) ==> Sent(s.(pending := ps))
    ensures Marked(s) ==> Marked(s.(pending := ps))
  {
  }

  lemma RecordArrival(s: State, i: nat)
    requires Core(s) && i < |s.pending|
    ensures var p := s.pending[i];
            p.token < |s.ops| && ArrivedAs(s.arrivals, s.ops[p.token].arrival, p.request, p.worker)
  {
    assert s.pending[i] in s.pending;
    assert s.ops[s.pending[i].token] in s.ops;
  }

  lemma RememberChron(s: State, w: Wire, id: string, x: set<string>)
    requires Chronicle(s, x)
    requires DistinctArrivals(s.arrivals) ==> Forgotten(s, id) && HasArrived(s.arrivals, id) && !Holds(s, id)
    ensures Chronicle(Remember(s, w, id), x)
  {
    hide Told, Sent, Marked, Honest, Holds, Forgotten, HasArrived, DistinctArrivals;
    RememberHonest(s, w, id, x);
    var c := s.completed[w := Insert(CompletedOf(s.completed, w), id)];
    CompletedChron(s, c);
    var t := s.(completed := c);
    QuietTold(t, Remembered(w, id));
    QuietSent(t, Remembered(w, id));
    QuietMarked(t, Remembered(w, id));
  }

  lemma CompletedChron(s: State, c: map<Wire, seq<string>>)
    ensures Told(s) ==> Told(s.(completed := c))
    ensures Sent(s) ==> Sent(s.(completed := c))
    ensures Marked(s) ==> Marked(s.(completed := c))
  {
  }

  lemma DropChron(s: State, i: nat, x: set<string>)
    requires Core(s) && Chronicle(s, x) && i < |s.pending|
    ensures Chronicle(Drop(s, i), x + {s.pending[i].request.id})
  {
    var p := s.pending[i];
    var id := p.request.id;
    var t := Say(s.(pending := Without(s.pending, i)), Closed(p.token));
    RecordArrival(s, i);
    RemovedHeld(s, i, id);
    ClosedChron(s, i, x);
    hide Told, Sent, Marked, Core, Holds;
    assert Holds(t, id) == Holds(s.(pending := Without(s.pending, i)), id) by { HoldsIgnoresLog(t, s.(pending := t.pending), id); }
    if DistinctArrivals(s.arrivals) {
      WorkerOfArrival(s, s.ops[p.token].arrival, p.request, p.worker);
      RecordHeld(s, i);
      HeldIsForgotten(s, id);
    }
    RememberChron(t, p.worker, id, x + {id});
  }

  lemma RecordHeld(s: State, i: nat)
    requires i < |s.pending|
    ensures Holds(s, s.pending[i].request.id)
  {
  }

  lemma HoldsIgnoresLog(s: State, t: State, id: string)
    requires s.pending == t.pending && s.probes == t.probes
    ensures Holds(s, id) == Holds(t, id)
  {
  }

  // ---- Probes that leave the queue ----

  lemma QueueSent(s: State, qs: seq<Probe>)
    requires forall q | q in qs :: q in s.probes
    ensures Told(s) ==> Told(s.(probes := qs))
    ensures Sent(s) ==> Sent(s.(probes := qs))
    ensures Marked(s) ==> Marked(s.(probes := qs))
  {
  }

  lemma DequeueChron(s: State, i: nat, x: set<string>)
    requires Core(s) && Chronicle(s, x) && i < |s.probes|
    ensures Chronicle(s.(probes := Without(s.probes, i)), x + {s.probes[i].request.id})
  {
    hide Told, Sent, Marked, Honest, Core, Holds;
    var t := s.(probes := Without(s.probes, i));
    var id := s.probes[i].request.id;
    forall k: string ensures Holds(t, k) <==> (Holds(s, k) && k != id) { DequeuedHeld(s, i, k); }
    ReleaseHonest(s, t, id, x);
    WithoutIn(s.probes, i);
    QueueSent(s, t.probes);
  }

  lemma ProbeFacts(s: State, i: nat)
    requires Core(s) && i < |s.probes|
    ensures var q := s.probes[i];
            ArrivedAs(s.arrivals, q.arrival, q.request, q.worker) && q.request.id !in s.seen
  {
    assert s.probes[i] in s.probes;
  }

  lemma ProbeHeld(s: State, i: nat)
    requires i < |s.probes|
    ensures Holds(s, s.probes[i].request.id)
  {
  }

  /** The id of a withdrawn probe may be remembered: it has arrived, is no longer held and was not ended before. */
  lemma WithdrawnFacts(s: State, i: nat, x: set<string>)
    requires Core(s) && Honest(s, x) && i < |s.probes|
    requires DistinctArrivals(s.arrivals)
    ensures var q := s.probes[i]; var left := Say(s.(probes := Without(s.probes, i)), Withdrawn(q.arrival));
            && Forgotten(left, q.request.id) && HasArrived(left.arrivals, q.request.id) && !Holds(left, q.request.id)
            && WorkerOf(left, q.request.id, q.worker)
  {
    hide Core, NoSilentDrop, Holds;
    var q := s.probes[i];
    var id := q.request.id;
    ProbeFacts(s, i);
    DequeuedHeld(s, i, id);
    HoldsIgnoresLog(s.(probes := Without(s.probes, i)), Say(s.(probes := Without(s.probes, i)), Withdrawn(q.arrival)), id);
    WorkerOfArrival(s, q.arrival, q.request, q.worker);
    ProbeHeld(s, i);
    HeldIsForgotten(s, id);
  }

  lemma CancelProbeChron(s: State, i: nat, x: set<string>)
    requires Core(s) && Chronicle(s, x) && i < |s.probes|
    ensures Chronicle(CancelProbe(s, i), x)
  {
    hide Told, Sent, Marked, Honest, Core, Holds, Forgotten, HasArrived, WorkerOf, DistinctArrivals, Remember;
    var q := s.probes[i];
    var id := q.request.id;
    var t := s.(probes := Without(s.probes, i));
    DequeueChron(s, i, x);
    MuteChron(t, Withdrawn(q.arrival), x + {id});
    var left := Say(t, Withdrawn(q.arrival));
    if DistinctArrivals(s.arrivals) { WithdrawnFacts(s, i, x); }
    RememberChron(left, q.worker, id, x + {id});
    var u := Remember(left, q.worker, id);
    MuteChron(u, HubEnd(q.worker, id), x + {id});
    var v := Say(u, HubEnd(q.worker, id));
    RememberKeepsArrivals(left, q.worker, id);
    WorkerIgnoresLog(left, v, id, q.worker);
    Settle(v, id, q.worker, x);
  }

  lemma RememberKeepsArrivals(s: State, w: Wire, id: string)
    ensures Remember(s, w, id).arrivals == s.arrivals
  {
  }

  lemma WorkerIgnoresLog(s: State, t: State, id: string, w: Wire)
    requires s.arrivals == t.arrivals
    ensures WorkerOf(s, id, w) == WorkerOf(t, id, w)
  {
  }

  lemma PromoteChron(s: State, x: set<string>)
    requires Core(s) && Chronicle(s, x)
    requires s.host.Some? && s.probes != [] && ProbeCapacity(s.lim, s.pending)
    ensures Chronicle(Promote(s), x)
  {
    hide Told, Sent, Core, Holds, Refuses, Reserve;
    var q := s.probes[0];
    var t := s.(probes := s.probes[1..]);
    assert s.probes[1..] == Without(s.probes, 0);
    PromoteReserves(s);
    QueueHead(s);
    ProbeFacts(s, 0);
    DequeueChron(s, 0, x);
    if DistinctArrivals(s.arrivals) {
      ProbeHeld(s, 0);
      HeldIsForgotten(s, q.request.id);
    }
    HeadArrival(s);
    ReserveChron(t, q.request, q.worker, q.arrival, x);
  }

  lemma HeadArrival(s: State)
    requires Core(s) && Marked(s) && s.probes != []
    ensures forall op | op in s.ops :: op.arrival != s.probes[0].arrival
    ensures forall q | q in s.probes[1..] :: q.arrival != s.probes[0].arrival
  {
    assert s.probes[0] in s.probes;
  }

  lemma {:induction false} DrainChron(s: State, x: set<string>)
    requires Core(s) && Chronicle(s, x)
    ensures Chronicle(Drain(s), x)
    decreases |s.probes|
  {
    hide Chronicle, Core;
    if s.host.Some? && s.probes != [] && ProbeCapacity(s.lim, s.pending) {
      PromoteReserves(s);
      PromoteChron(s, x);
      DrainChron(Promote(s), x);
    }
  }

  lemma Wider(s: State, x: set<string>, y: set<string>)
    requires Chronicle(s, x) && x <= y
    ensures Chronicle(s, y)
  {
  }

  lemma FinishChron(s: State, id: string, x: set<string>)
    requires Core(s) && Chronicle(s, x)
    ensures Chronicle(Finish(s, id), x + {id})
  {
    hide Chronicle, Core, Drop, Drain;
    var i := PendingAt(s.pending, id);
    Wider(s, x, x + {id});
    if i >= 0 {
      DropKeeps(s, i);
      DropChron(s, i, x);
    }
    DrainChron(if i >= 0 then Drop(s, i) else s, x + {id});
  }

  lemma {:induction false} DrainEnded(s: State, w: Wire, id: string)
    requires Core(s) && Ended(s.log, w, id)
    ensures Ended(Drain(s).log, w, id)
    decreases |s.probes|
  {
    hide Core, Refuses;
    if s.host.Some? && s.probes != [] && ProbeCapacity(s.lim, s.pending) {
      PromoteReserves(s);
      DrainEnded(Promote(s), w, id);
    }
  }

  lemma FinishEnded(s: State, fid: string, w: Wire, id: string)
    requires Core(s) && Ended(s.log, w, id)
    ensures Ended(Finish(s, fid).log, w, id)
  {
    hide Core, Drain;
    var i := PendingAt(s.pending, fid);
    if i >= 0 { DropKeeps(s, i); }
    DrainEnded(if i >= 0 then Drop(s, i) else s, w, id);
  }

  /** Finishing an operation whose worker already got its end frame drops nothing. */
  lemma FinishAnswered(s: State, id: string, w: Wire)
    requires Core(s) && Chronicle(s, {}) && Ended(s.log, w, id)
    requires DistinctArrivals(s.arrivals) ==> WorkerOf(s, id, w)
    ensures Chronicle(Finish(s, id), {})
  {
    hide Told, Sent, Marked, Honest, Core, Finish;
    FinishKeeps(s, id);
    FinishChron(s, id, {});
    FinishEnded(s, id, w, id);
    var t := Finish(s, id);
    WorkerIgnoresLog(s, t, id, w);
    Settle(t, id, w, {});
  }

  lemma CancelPendingChron(s: State, i: nat)
    requires Stable(s) && Chronicle(s, {}) && i < |s.pending|
    ensures Chronicle(CancelPending(s, i), {})
  {
    hide Chronicle, Core, Stable, Finish;
    var p := s.pending[i];
    StableCore(s);
    RecordFacts(s, i);
    RecordArrival(s, i);
    var told := Say(s, HubCancel(p.token, s.host.value.connection));
    var ended := Say(told, HubEnd(p.worker, p.request.id));
    HubCancelChron(s, i);
    Quiet(s, ended);
    MuteChron(told, HubEnd(p.worker, p.request.id), {});
    if DistinctArrivals(s.arrivals) {
      WorkerOfArrival(s, s.ops[p.token].arrival, p.request, p.worker);
    }
    WorkerIgnoresLog(s, ended, p.request.id, p.worker);
    FinishAnswered(ended, p.request.id, p.worker);
  }

  lemma HubCancelChron(s: State, i: nat)
    requires Stable(s) && Chronicle(s, {}) && i < |s.pending|
    ensures s.host.Some? && Chronicle(Say(s, HubCancel(s.pending[i].token, s.host.value.connection)), {})
  {
    hide Sent, Marked, Honest, Core, Told;
    RecordFacts(s, i);
    var p := s.pending[i];
    var e := HubCancel(p.token, s.host.value.connection);
    StableCore(s);
    assert s.pending[i := p] == s.pending;
    UpdateTold(s, i, p, e);
    QuietSent(s, e);
    QuietMarked(s, e);
    QuietHonest(s, Say(s, e), {});
  }

  lemma CancelChron(s: State, id: string, w: Wire)
    requires Stable(s) && Chronicle(s, {})
    ensures Chronicle(Cancel(s, id, w), {})
  {
    hide Chronicle, Stable, CancelProbe, CancelPending;
    StableCore(s);
    var q, i := ProbeAt(s.probes, id), PendingAt(s.pending, id);
    if q >= 0 && s.probes[q].worker == w {
      CancelProbeChron(s, q, {});
    } else if i >= 0 && s.pending[i].worker == w {
      CancelPendingChron(s, i);
    }
  }
}
