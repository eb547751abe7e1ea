/**
 The hub as the object of apps/api/src/host-hub.ts: its fields are updated in place and its walks are
 loops. Every method is proved to take exactly the step of HubModel, and every public method keeps the
 invariant, so the theorems of HubGuarantees hold of this object.
 */
module HostHubObject {
  import opened Options
  import opened HubModel
  import M = HubModel
  import Safety = HubSafety
  import Steps = HubSteps
  import Runs = HubRuns

  class HostHub {
    const lim: Limits
    var host: Option<Host>
    var relay: bool
    var pending: seq<Pending>
    var probes: seq<Probe>
    var seen: set<string>
    var lostRuns: set<string>
    var completed: map<Wire, seq<string>>
    // Continuations held by the runtime, and what their closures captured.
    var tasks: map<nat, Task>
    var nextTask: nat
    var connections: nat
    var ops: seq<Op>
    var arrivals: seq<Arrival>
    ghost var log: History

    ghost function Abs(): State
      reads this
    {
      State(lim, host, relay, pending, probes, seen, lostRuns, completed,
            tasks, nextTask, connections, ops, arrivals, log)
    }

    ghost predicate Valid()
      reads this
    {
      Safety.Stable(Abs())
    }

    constructor (limits: Limits)
      ensures Valid() && Abs() == Init(limits)
    {
      lim := limits;
      host, relay := None, false;
      pending, probes := [], [];
      seen, lostRuns, completed := {}, {}, map[];
      tasks, nextTask, connections := map[], 0, 0;
      ops, arrivals, log := [], [], Start;
    }

    // ---- Sending, remembering, waiting ----

    method Note(ghost e: Entry)
      modifies this
      ensures Abs() == Say(old(Abs()), e)
    {
      log := Then(log, e);
    }

    method Later(t: Task)
      modifies this
      ensures Abs() == Await(old(Abs()), t)
    {
      tasks, nextTask := tasks[nextTask := t], nextTask + 1;
    }

    method RememberCompleted(worker: Wire, id: string)
      modifies this
      ensures Abs() == Remember(old(Abs()), worker, id)
      ensures worker in completed
      ensures old(|CompletedOf(completed, worker)|) <= MAX_COMPLETED ==>
                |completed[worker]| <= MAX_COMPLETED && id in completed[worker]
      ensures forall i | i in completed[worker] :: i == id || i in CompletedOf(old(completed), worker)
      ensures var was := CompletedOf(old(completed), worker);
              forall i | i in was && i !in completed[worker] :: i == was[0] && |was| >= MAX_COMPLETED
      ensures forall w | w != worker :: CompletedOf(completed, w) == CompletedOf(old(completed), w)
    {
      var ids := CompletedOf(completed, worker);
      InsertKeeps(ids, id);
      if id !in ids { ids := ids + [id]; }
      if |ids| > MAX_COMPLETED { ids := ids[1..]; }
      completed := completed[worker := ids];
      Note(Remembered(worker, id));
    }

    // ---- Slots and the probe queue ----

    method Admit(r: Request, worker: Wire, arrival: nat)
      modifies this
      ensures Abs() == M.Admit(old(Abs()), r, worker, arrival)
    {
      var probe := FleetProbe(r);
      if || host.None?
         || (!probe && |pending| >= lim.inFlight)
         || (probe && |probes| >= MAX_PROBES)
         || PendingAt(pending, r.id) >= 0
         || ProbeAt(probes, r.id) >= 0
         || r.id in seen
         || (r.run in lostRuns && !r.operation.BoardRun?)
         || |lostRuns| >= MAX_HISTORY
         || (Hermes(r) && (!relay || r.operation.broker != Some(host.value.connection)))
      {
        Note(HubEnd(worker, r.id));
        return;
      }
      if probe && !ProbeCapacity(lim, pending) {
        probes := probes + [Probe(r, worker, arrival)];
        Note(Queued(Probe(r, worker, arrival)));
        return;
      }
      var token := |ops|;
      var op := Op(r, worker, host.value.connection, arrival);
      pending := pending + [Pending(token, r, worker, -1, -1, 0, 0, 0, 0, map[])];
      ops := ops + [op];
      Note(Opened(token, op));
      Later(OpenAuth(token));
    }

    method DrainProbes()
      modifies this
      ensures Abs() == Drain(old(Abs()))
    {
      while host.Some? && probes != [] && ProbeCapacity(lim, pending)
        invariant Drain(Abs()) == Drain(old(Abs()))
        decreases |probes|
      {
        var q := probes[0];
        probes := probes[1..];
        Admit(q.request, q.worker, q.arrival);
      }
    }

    method Finish(id: string)
      modifies this
      ensures Abs() == M.Finish(old(Abs()), id)
    {
      var i := PendingAt(pending, id);
      if i >= 0 {
        var p := pending[i];
        pending := Without(pending, i);
        Note(Closed(p.token));
        RememberCompleted(p.worker, id);
      }
      DrainProbes();
    }

    method CancelProbe(i: nat)
      requires i < |probes|
      modifies this
      ensures Abs() == M.CancelProbe(old(Abs()), i) && |probes| == |old(probes)| - 1
    {
      var q := probes[i];
      probes := Without(probes, i);
      Note(Withdrawn(q.arrival));
      RememberCompleted(q.worker, q.request.id);
      Note(HubEnd(q.worker, q.request.id));
    }

    method CancelPending(i: nat)
      requires i < |pending|
      modifies this
      ensures Abs() == M.CancelPending(old(Abs()), i)
    {
      var p := pending[i];
      if host.Some? { Note(HubCancel(p.token, host.value.connection)); }
      Note(HubEnd(p.worker, p.request.id));
      Finish(p.request.id);
    }

    method CancelOperation(id: string, worker: Wire)
      modifies this
      ensures Abs() == M.Cancel(old(Abs()), id, worker)
    {
      var q := ProbeAt(probes, id);
      if q >= 0 && probes[q].worker == worker {
        CancelProbe(q);
        return;
      }
      var i := PendingAt(pending, id);
      if i >= 0 && pending[i].worker == worker { CancelPending(i); }
    }

    method Cancel(id: string, worker: Wire)
      requires Valid()
      modifies this
      ensures Valid() && Abs() == M.Cancel(old(Abs()), id, worker)
    {
      Safety.CancelStable(Abs(), id, worker);
      CancelOperation(id, worker);
    }

    method CloseWorker(worker: Wire)
      requires Valid()
      modifies this
      ensures Valid() && Abs() == M.CloseWorker(old(Abs()), worker)
    {
      ghost var start := Abs();
      Safety.CloseWorkerStable(start, worker);
      var i := 0;
      while i < |probes|
        invariant CloseProbes(Abs(), worker, i) == CloseProbes(start, worker, 0)
        decreases |probes| - i
      {
        if probes[i].worker == worker { CancelProbe(i); } else { i := i + 1; }
      }
      ghost var middle := Abs();
      i := 0;
      while i < |pending|
        invariant ClosePending(Abs(), worker, i) == ClosePending(middle, worker, 0)
        decreases |probes|, |pending| - i
      {
        if pending[i].worker == worker {
          CancelPendingShrinks(Abs(), i);
          CancelPending(i);
        } else {
          i := i + 1;
        }
      }
    }

    // ---- Connections ----

    method EndPending()
      modifies this
      ensures Abs() == LosePending(old(Abs()))
    {
      ghost var start := Abs();
      var i := 0;
      while i < |pending|
        invariant 0 <= i <= |pending|
        invariant LosePending(Abs().(pending := pending[i..])) == LosePending(start)
      {
        var p := pending[i];
        ghost var before := Abs().(pending := pending[i..]);
        lostRuns := lostRuns + {p.request.run};
        Note(Closed(p.token));
        Note(Lost(p.request.run));
        Note(HubEnd(p.worker, p.request.id));
        i := i + 1;
        assert Abs().(pending := pending[i..]) == LoseFirstPending(before);
      }
      pending := [];
    }

    method EndProbes()
      modifies this
      ensures Abs() == LoseProbes(old(Abs()))
    {
      hide M.CancelProbe;
      while probes != []
        invariant LoseProbes(Abs()) == LoseProbes(old(Abs()))
        decreases |probes|
      {
        lostRuns := lostRuns + {probes[0].request.run};
        Note(Lost(probes[0].request.run));
        CancelProbe(0);
      }
    }

    method LoseHost()
      modifies this
      ensures Abs() == M.Detach(old(Abs()))
    {
      host, relay := None, false;
      EndPending();
      EndProbes();
    }

    method Detach()
      requires Valid()
      modifies this
      ensures Valid() && Abs() == M.Detach(old(Abs()))
    {
      Safety.DetachKeeps(Abs());
      LoseHost();
    }

    method Attach(wire: Wire, ownerId: string, registration: string)
      requires Valid()
      modifies this
      ensures Valid() && Abs() == M.Attach(old(Abs()), wire, ownerId, registration)
    {
      Safety.AttachStable(Abs(), wire, ownerId, registration);
      LoseHost();
      host := Some(Host(wire, ownerId, registration, connections));
      connections := connections + 1;
    }

    /** The function that `attach` returns. */
    method DetachWire(wire: Wire)
      requires Valid()
      modifies this
      ensures Valid() && Abs() == M.DetachWire(old(Abs()), wire)
    {
      if host.Some? && host.value.wire == wire { Detach(); }
    }

    // ---- Frames of the host ----

    method FromHost(wire: Wire, f: HostFrame)
      requires Valid()
      modifies this
      ensures Valid() && Abs() == M.FromHost(old(Abs()), wire, f)
    {
      Steps.FromHostStable(Abs(), wire, f);
      if host.None? || host.value.wire != wire { return; }
      if f.Health? {
        relay := f.providerRelay;
        return;
      }
      var i := PendingAt(pending, f.id);
      if i >= 0 { Later(FrameAuth(pending[i].token, wire, host.value.connection, f)); }
    }

    /** The record is changed before its byte budget is checked. */
    method Deliver(i: nat, wire: Wire, connection: nat, f: HostFrame)
      requires Valid() && i < |pending|
      modifies this
      ensures Valid() && Abs() == M.Deliver(old(Abs()), i, wire, connection, f)
    {
      Steps.DeliverStable(Abs(), i, wire, connection, f);
      var p := pending[i];
      if !AcceptsFrame(lim, p, f) {
        Note(Refused(wire));
        return;
      }
      CancelAfterUpdate(Abs(), i, Received(p, f));
      pending := pending[i := Received(p, f)];
      if pending[i].bytes > lim.totalBytes {
        CancelOperation(p.request.id, p.worker);
        return;
      }
      Note(Relayed(p.token, p.worker, connection, f));
      if f.End? { Later(EndSent(p.token)); }
    }

    // ---- Frames of a worker ----

    method Request(r: Request, worker: Wire)
      requires Valid()
      modifies this
      ensures Valid() && Abs() == Submit(old(Abs()), r, worker)
    {
      Steps.SubmitStable(Abs(), r, worker);
      arrivals := arrivals + [Arrival(r, worker)];
      Admit(r, worker, |arrivals| - 1);
    }

    method ToHost(i: nat, f: WorkerFrame)
      requires i < |pending|
      modifies this
      ensures pending == old(pending) && Abs() == M.ToHost(old(Abs()), i, pending[i], f)
    {
      assert pending[i := pending[i]] == pending;
      if host.Some? { Note(Upstream(pending[i].token, pending[i].worker, host.value.connection, f)); }
    }

    /** Only Hermes turns split the count. */
    method CountReply(p: Pending, callId: string, size: nat) returns (r: Pending)
      requires callId in p.calls
      ensures r == Replied(p, callId, size)
    {
      var provider := Provider(p.calls[callId]);
      r := p.(calls := p.calls - {callId});
      if Hermes(p.request) {
        if provider {
          r := r.(providerBytes := r.providerBytes + size);
        } else {
          r := r.(otherBytes := r.otherBytes + size);
        }
      }
      r := r.(workerBytes := r.workerBytes + size);
    }

    /** The callback is closed and its bytes counted before the budgets are checked. */
    method TakeReply(i: nat, worker: Wire, f: WorkerFrame)
      requires Valid() && i < |pending| && pending[i].worker == worker && f.Reply?
      modifies this
      ensures Abs() == M.TakeReply(old(Abs()), i, worker, f)
    {
      var p := pending[i];
      if f.callId !in p.calls || (!f.failed && !f.parses) {
        Note(Refused(worker));
        return;
      }
      var r := CountReply(p, f.callId, f.size);
      CancelAfterUpdate(Abs(), i, r);
      pending := pending[i := r];
      if OverReplyBudget(lim, r) {
        CancelOperation(r.request.id, worker);
      } else {
        ToHost(i, f);
        assert old(pending)[i := r][i := r] == old(pending)[i := r];
      }
    }

    method FromWorker(worker: Wire, f: WorkerFrame)
      requires Valid()
      modifies this
      ensures Valid() && Abs() == M.FromWorker(old(Abs()), worker, f)
    {
      Steps.FromWorkerStable(Abs(), worker, f);
      if f.Open? {
        Request(f.request, worker);
        return;
      }
      if f.Nameless? {
        Note(Refused(worker));
        return;
      }
      var q := ProbeAt(probes, f.id);
      if f.CancelFrame? && q >= 0 && probes[q].worker == worker {
        CancelOperation(f.id, worker);
        return;
      }
      var i := PendingAt(pending, f.id);
      if i < 0 {
        if !((f.Ack? || f.CancelFrame? || f.Reply?) && f.id in CompletedOf(completed, worker)) {
          Note(Refused(worker));
        }
        return;
      }
      var p := pending[i];
      if p.worker != worker {
        Note(Refused(worker));
        return;
      }
      if f.CancelFrame? {
        CancelOperation(p.request.id, worker);
      } else if f.Ack? {
        TakeAck(i, worker, f);
      } else if f.Reply? {
        TakeReply(i, worker, f);
      } else {
        Note(Refused(worker));
      }
    }

    method TakeAck(i: nat, worker: Wire, f: WorkerFrame)
      requires i < |pending| && f.Ack?
      modifies this
      ensures Abs() == FromOwner(old(Abs()), i, worker, f)
    {
      var p := pending[i];
      if f.number <= p.ack || f.number > p.last {
        Note(Refused(worker));
      } else {
        pending := pending[i := p.(ack := f.number)];
        ToHost(i, f);
      }
    }

    // ---- Continuations ----

    method FailRequest(op: Op)
      modifies this
      ensures Abs() == Unavailable(old(Abs()), op)
    {
      Finish(op.request.id);
      Note(HubEnd(op.worker, op.request.id));
    }

    method Authorized(token: nat, op: Op, outcome: Outcome)
      modifies this
      ensures Abs() == M.Authorized(old(Abs()), token, op, outcome)
    {
      if !outcome.Yes? || host.None? || host.value.connection != op.connection {
        FailRequest(op);
        return;
      }
      var i := PendingAt(pending, op.request.id);
      if i < 0 || pending[i].token != token { return; }
      seen := seen + {op.request.id};
      if |seen| > MAX_HISTORY {
        LoseHost();
        FailRequest(op);
        return;
      }
      Note(Forwarded(token, op.connection, op.request));
      Later(OpenSend(token));
    }

    method Resume(k: nat, outcome: Outcome)
      requires Valid()
      modifies this
      ensures Valid() && Abs() == M.Resume(old(Abs()), k, outcome)
    {
      Steps.ResumeStable(Abs(), k, outcome);
      if k !in tasks || tasks[k].token >= |ops| { return; }
      Steps.TaskTaken(Abs(), k);
      var t := tasks[k];
      var op := ops[t.token];
      tasks := tasks - {k};
      match t
      case OpenAuth(token) => Authorized(token, op, outcome);
      case OpenSend(_) => if !outcome.Yes? { FailRequest(op); }
      case FrameAuth(token, wire, connection, f) => FrameAuthorized(t, op, outcome);
      case EndSent(_) => if outcome.Yes? { Finish(op.request.id); }
    }

    method FrameAuthorized(t: Task, op: Op, outcome: Outcome)
      requires Valid() && t.FrameAuth? && !t.frame.Health?
      modifies this
      ensures Abs() == M.FrameAuthorized(old(Abs()), t, op, outcome)
    {
      match outcome
      case Threw => Note(Refused(t.wire));
      case No => CancelOperation(t.frame.id, op.worker);
      case Yes =>
        if host.None? || host.value.wire != t.wire { return; }
        var i := PendingAt(pending, t.frame.id);
        if i < 0 || pending[i].token != t.token { return; }
        Deliver(i, t.wire, t.connection, t.frame);
    }

    method Handle(e: Event)
      requires Valid()
      modifies this
      ensures Valid() && Abs() == Step(old(Abs()), e)
    {
      match e
      case Attaches(wire, ownerId, registration) => Attach(wire, ownerId, registration);
      case Detaches => Detach();
      case WireCloses(wire) => DetachWire(wire);
      case HostSends(wire, f) => FromHost(wire, f);
      case WorkerSends(w, f) => FromWorker(w, f);
      case Cancels(id, w) => Cancel(id, w);
      case WorkerCloses(w) => CloseWorker(w);
      case Settles(k, outcome) => Resume(k, outcome);
    }
  }

  /** Cancelling removes the record, so a change made to it just before leaves no trace. */
  lemma CancelAfterUpdate(s: State, i: nat, p: Pending)
    requires Safety.Stable(s) && i < |s.pending|
    requires p.token == s.pending[i].token && p.request == s.pending[i].request && p.worker == s.pending[i].worker
    ensures M.Cancel(s.(pending := s.pending[i := p]), p.request.id, p.worker) == M.Cancel(s, p.request.id, p.worker)
  {
    hide Safety.Stable, Safety.Core, Drain, Drop;
    var t := s.(pending := s.pending[i := p]);
    Safety.StableCore(s);
    Runs.Separate(s);
    Safety.SameIndex(s, i, PendingAt(s.pending, p.request.id));
    assert t.pending[i].request.id == p.request.id;
    Safety.SameIndex(s, i, PendingAt(t.pending, p.request.id));
    var told := if s.host.Some? then Then(s.log, HubCancel(p.token, s.host.value.connection)) else s.log;
    DropAfterUpdate(s, i, p, Then(told, HubEnd(p.worker, p.request.id)));
  }

  lemma DropAfterUpdate(s: State, i: nat, p: Pending, log: History)
    requires i < |s.pending|
    requires p.token == s.pending[i].token && p.request == s.pending[i].request && p.worker == s.pending[i].worker
    ensures Drop(s.(pending := s.pending[i := p], log := log), i) == Drop(s.(log := log), i)
  {
    assert Without(s.pending[i := p], i) == Without(s.pending, i);
  }

  /** A hub that handles a whole run ends in the state the model reaches. */
  method Play(limits: Limits, events: seq<Event>) returns (hub: HostHub)
    ensures fresh(hub) && hub.Valid() && hub.Abs() == Run(limits, events)
  {
    hub := new HostHub(limits);
    for i := 0 to |events|
      invariant fresh(hub) && hub.Valid() && hub.Abs() == Run(limits, events[..i])
    {
      assert events[..i + 1][..i] == events[..i];
      hub.Handle(events[i]);
    }
    assert events[..|events|] == events;
  }
}
