/**
 Exactly which steps drop a request silently. A request is known by its number among all arrivals, so
 that reused ids are told apart. It is served while the hub holds it, open or queued, or once its
 worker was sent an end frame under its id after the hub took the request in.
 */
module HubDrops {
  import opened Options
  import opened HubModel
  import opened HubSafety
  import opened HubSteps
  import opened HubHistory
  import opened HubRuns
  import opened HubTheorems
  import opened HubMemory

  predicate IsRecord(p: Pending, ops: seq<Op>, a: nat) { p.token < |ops| && ops[p.token].arrival == a }

  predicate HasRecord(ps: seq<Pending>, ops: seq<Op>, a: nat) {
    exists p | p in ps :: IsRecord(p, ops, a)
  }

  predicate HasProbe(qs: seq<Probe>, a: nat) {
    exists q | q in qs :: q.arrival == a
  }

  predicate Served(s: State, a: nat, w: Wire, id: string) {
    Begun(s.log, a) && (HasRecord(s.pending, s.ops, a) || HasProbe(s.probes, a) || Answered(s.log, a, w, id))
  }

  /** Arrival number `a` is a request of worker `w` under `id`. */
  predicate From(s: State, a: nat, w: Wire, id: string) {
    a < |s.arrivals| && s.arrivals[a].worker == w && s.arrivals[a].request.id == id
  }

  lemma RecordOf(s: State, i: nat, a: nat, w: Wire, id: string)
    requires Core(s) && From(s, a, w, id) && i < |s.pending| && IsRecord(s.pending[i], s.ops, a)
    ensures s.pending[i].worker == w && s.pending[i].request.id == id
  {
    assert s.pending[i] in s.pending;
    assert s.ops[s.pending[i].token] in s.ops;
  }

  lemma QueuedOf(s: State, i: nat, a: nat, w: Wire, id: string)
    requires Core(s) && From(s, a, w, id) && i < |s.probes| && s.probes[i].arrival == a
    ensures s.probes[i].worker == w && s.probes[i].request.id == id
  {
    assert s.probes[i] in s.probes;
  }

  // ---- Steps that keep a request served ----

  lemma Grows(log: History, e: Entry, a: nat, w: Wire, id: string)
    ensures Begun(log, a) ==> Begun(Then(log, e), a)
    ensures Answered(log, a, w, id) ==> Answered(Then(log, e), a, w, id)
    ensures EndFor(e, w, id) && Begun(log, a) ==> Answered(Then(log, e), a, w, id)
    ensures !EndFor(e, w, id) ==> Answered(Then(log, e), a, w, id) == Answered(log, a, w, id)
  {
  }

  lemma SaidServed(s: State, t: State, e: Entry, a: nat, w: Wire, id: string)
    requires Served(s, a, w, id)
    requires t.pending == s.pending && t.probes == s.probes && t.ops == s.ops && t.log == Then(s.log, e)
    ensures Served(t, a, w, id)
  {
  }

  lemma SameServed(s: State, t: State, a: nat, w: Wire, id: string)
    requires Served(s, a, w, id)
    requires t.pending == s.pending && t.probes == s.probes && t.ops == s.ops && t.log == s.log
    ensures Served(t, a, w, id)
  {
  }

  lemma RecordKept(ps: seq<Pending>, ops: seq<Op>, i: nat, a: nat)
    requires i < |ps| && HasRecord(ps, ops, a) && !IsRecord(ps[i], ops, a)
    ensures HasRecord(Without(ps, i), ops, a)
  {
    var p :| p in ps && IsRecord(p, ops, a);
    var k :| 0 <= k < |ps| && ps[k] == p;
    assert Without(ps, i)[if k < i then k else k - 1] == p;
  }

  lemma ProbeKept(qs: seq<Probe>, i: nat, a: nat)
    requires i < |qs| && HasProbe(qs, a) && qs[i].arrival != a
    ensures HasProbe(Without(qs, i), a)
  {
    var q :| q in qs && q.arrival == a;
    var k :| 0 <= k < |qs| && qs[k] == q;
    assert Without(qs, i)[if k < i then k else k - 1] == q;
  }

  lemma UpdateServed(s: State, t: State, i: nat, p: Pending, a: nat, w: Wire, id: string)
    requires Served(s, a, w, id) && i < |s.pending| && t.pending == s.pending[i := p]
    requires t.probes == s.probes && t.ops == s.ops && p.token == s.pending[i].token
    requires t.log == s.log || (t.log.Then? && t.log.before == s.log)
    ensures Served(t, a, w, id)
  {
    if t.log != s.log { Grows(s.log, t.log.entry, a, w, id); }
    if HasRecord(s.pending, s.ops, a) {
      var x :| x in s.pending && IsRecord(x, s.ops, a);
      var k :| 0 <= k < |s.pending| && s.pending[k] == x;
      assert IsRecord(t.pending[k], t.ops, a) && t.pending[k] in t.pending;
    }
  }

  lemma ReserveServed(s: State, r: Request, v: Wire, arrival: nat, a: nat, w: Wire, id: string)
    requires s.host.Some? && (Served(s, a, w, id) || arrival == a)
    ensures Served(Reserve(s, r, v, arrival), a, w, id)
  {
    var n := Reserve(s, r, v, arrival);
    Grows(s.log, n.log.entry, a, w, id);
    assert n.pending[|s.pending|] in n.pending && IsRecord(n.pending[|s.pending|], n.ops, arrival);
    assert forall p | p in s.pending :: p in n.pending && (IsRecord(p, s.ops, a) ==> IsRecord(p, n.ops, a));
  }

  lemma EnqueueServed(s: State, q: Probe, a: nat, w: Wire, id: string)
    requires Served(s, a, w, id)
    ensures Served(Enqueue(s, q), a, w, id)
  {
    var n := Enqueue(s, q);
    Grows(s.log, Queued(q), a, w, id);
    assert forall p | p in s.probes :: p in n.probes;
  }

  lemma PromoteServed(s: State, a: nat, w: Wire, id: string)
    requires Core(s) && Served(s, a, w, id)
    requires s.host.Some? && s.probes != [] && ProbeCapacity(s.lim, s.pending)
    ensures Served(Promote(s), a, w, id)
  {
    hide Core, Reserve, Begun, Answered;
    var q := s.probes[0];
    var t := s.(probes := s.probes[1..]);
    PromoteReserves(s);
    assert Without(s.probes, 0) == s.probes[1..];
    if q.arrival != a && HasProbe(s.probes, a) { ProbeKept(s.probes, 0, a); }
    ReserveServed(t, q.request, q.worker, q.arrival, a, w, id);
  }

  lemma {:induction false} DrainServed(s: State, a: nat, w: Wire, id: string)
    requires Core(s) && Served(s, a, w, id)
    ensures Served(Drain(s), a, w, id)
    decreases |s.probes|
  {
    hide Core, Served;
    if s.host.Some? && s.probes != [] && ProbeCapacity(s.lim, s.pending) {
      PromoteReserves(s);
      PromoteServed(s, a, w, id);
      DrainServed(Promote(s), a, w, id);
    }
  }

  lemma DropServed(s: State, i: nat, a: nat, w: Wire, id: string)
    requires Served(s, a, w, id) && i < |s.pending|
    requires IsRecord(s.pending[i], s.ops, a) ==> Answered(s.log, a, w, id)
    ensures Served(Drop(s, i), a, w, id)
  {
    hide Insert, Begun, Answered;
    var p := s.pending[i];
    Grows(s.log, Closed(p.token), a, w, id);
    Grows(Then(s.log, Closed(p.token)), Remembered(p.worker, p.request.id), a, w, id);
    if !Answered(s.log, a, w, id) && HasRecord(s.pending, s.ops, a) { RecordKept(s.pending, s.ops, i, a); }
  }

  lemma FinishServed(s: State, fid: string, a: nat, w: Wire, id: string)
    requires Core(s) && Served(s, a, w, id)
    requires var i := PendingAt(s.pending, fid);
             i >= 0 && IsRecord(s.pending[i], s.ops, a) ==> Answered(s.log, a, w, id)
    ensures Served(Finish(s, fid), a, w, id)
  {
    hide Core, Served, Drop, Drain;
    var i := PendingAt(s.pending, fid);
    if i >= 0 {
      DropKeeps(s, i);
      DropServed(s, i, a, w, id);
    }
    DrainServed(if i >= 0 then Drop(s, i) else s, a, w, id);
  }

  lemma CancelProbeServed(s: State, i: nat, a: nat, w: Wire, id: string)
    requires Core(s) && From(s, a, w, id) && Served(s, a, w, id) && i < |s.probes|
    ensures Served(CancelProbe(s, i), a, w, id)
  {
    hide Core, Insert, Begun, Answered;
    var q := s.probes[i];
    var left := Then(s.log, Withdrawn(q.arrival));
    var kept := Then(left, Remembered(q.worker, q.request.id));
    Grows(s.log, Withdrawn(q.arrival), a, w, id);
    Grows(left, Remembered(q.worker, q.request.id), a, w, id);
    Grows(kept, HubEnd(q.worker, q.request.id), a, w, id);
    if q.arrival == a {
      QueuedOf(s, i, a, w, id);
    } else if HasProbe(s.probes, a) {
      ProbeKept(s.probes, i, a);
    }
  }

  lemma CancelPendingServed(s: State, i: nat, a: nat, w: Wire, id: string)
    requires Core(s) && From(s, a, w, id) && Served(s, a, w, id) && i < |s.pending|
    ensures Served(CancelPending(s, i), a, w, id)
  {
    hide Core, Served, Finish, Answered;
    var p := s.pending[i];
    var told := s;
    if s.host.Some? {
      told := Say(s, HubCancel(p.token, s.host.value.connection));
      SaidServed(s, told, HubCancel(p.token, s.host.value.connection), a, w, id);
    }
    var ended := Say(told, HubEnd(p.worker, p.request.id));
    SaidServed(told, ended, HubEnd(p.worker, p.request.id), a, w, id);
    Quiet(s, ended);
    OneRecord(s, i, PendingAt(s.pending, p.request.id));
    if IsRecord(p, s.ops, a) {
      RecordOf(s, i, a, w, id);
      ServedBegun(told, a, w, id);
      Grows(told.log, HubEnd(w, id), a, w, id);
    }
    FinishServed(ended, p.request.id, a, w, id);
  }

  lemma ServedBegun(s: State, a: nat, w: Wire, id: string)
    requires Served(s, a, w, id)
    ensures Begun(s.log, a)
  {
  }

  lemma OneRecord(s: State, i: nat, k: nat)
    requires Core(s) && i < |s.pending| && k < |s.pending|
    ensures s.pending[i].request.id == s.pending[k].request.id ==> i == k
  {
  }

  lemma CancelServed(s: State, fid: string, v: Wire, a: nat, w: Wire, id: string)
    requires Core(s) && From(s, a, w, id) && Served(s, a, w, id)
    ensures Served(Cancel(s, fid, v), a, w, id)
  {
    hide Core, Served, From, CancelProbe, CancelPending;
    var q, i := ProbeAt(s.probes, fid), PendingAt(s.pending, fid);
    if q >= 0 && s.probes[q].worker == v {
      CancelProbeServed(s, q, a, w, id);
    } else if i >= 0 && s.pending[i].worker == v {
      CancelPendingServed(s, i, a, w, id);
    }
  }

  // ---- Detaching ----

  lemma LoseFirstPendingServed(s: State, a: nat, w: Wire, id: string)
    requires Core(s) && From(s, a, w, id) && Served(s, a, w, id) && s.pending != []
    ensures Served(LoseFirstPending(s), a, w, id)
  {
    hide Core, Begun, Answered;
    var p := s.pending[0];
    var closed := Then(s.log, Closed(p.token));
    var lost := Then(closed, Lost(p.request.run));
    Grows(s.log, Closed(p.token), a, w, id);
    Grows(closed, Lost(p.request.run), a, w, id);
    Grows(lost, HubEnd(p.worker, p.request.id), a, w, id);
    assert Without(s.pending, 0) == s.pending[1..];
    if IsRecord(p, s.ops, a) {
      RecordOf(s, 0, a, w, id);
    } else if HasRecord(s.pending, s.ops, a) {
      RecordKept(s.pending, s.ops, 0, a);
    }
  }

  lemma {:induction false} LosePendingServed(s: State, a: nat, w: Wire, id: string)
    requires Core(s) && s.host.None? && From(s, a, w, id) && Served(s, a, w, id)
    ensures Served(LosePending(s), a, w, id)
    decreases |s.pending|
  {
    hide Core, Served;
    if s.pending != [] {
      LoseFirstPendingServed(s, a, w, id);
      LoseFirstPendingKeeps(s);
      LosePendingServed(LoseFirstPending(s), a, w, id);
    }
  }

  lemma {:induction false} LoseProbesServed(s: State, a: nat, w: Wire, id: string)
    requires Core(s) && s.host.None? && From(s, a, w, id) && Served(s, a, w, id)
    ensures Served(LoseProbes(s), a, w, id)
    decreases |s.probes|
  {
    hide Core, Served;
    if s.probes != [] {
      var lost := Lose(s, s.probes[0].request.run);
      SaidServed(s, lost, Lost(s.probes[0].request.run), a, w, id);
      LostKeeps(s, s.probes[0].request.run);
      CancelProbeServed(lost, 0, a, w, id);
      LoseFirstProbeKeeps(s);
      LoseProbesServed(LoseFirstProbe(s), a, w, id);
    }
  }

  lemma DetachServed(s: State, a: nat, w: Wire, id: string)
    requires Core(s) && From(s, a, w, id) && Served(s, a, w, id)
    ensures Served(Detach(s), a, w, id)
  {
    hide Core, Served;
    var u := Unhost(s);
    SameServed(s, u, a, w, id);
    UnhostKeeps(s);
    LosePendingServed(u, a, w, id);
    LosePendingKeeps(u);
    LoseProbesServed(LosePending(u), a, w, id);
  }

  lemma {:induction false} CloseProbesServed(s: State, v: Wire, i: nat, a: nat, w: Wire, id: string)
    requires Core(s) && From(s, a, w, id) && Served(s, a, w, id)
    ensures Served(CloseProbes(s, v, i), a, w, id)
    decreases |s.probes| - i
  {
    hide Core, Served;
    if i >= |s.probes| {
    } else if s.probes[i].worker == v {
      CancelProbeServed(s, i, a, w, id);
      CancelProbeKeeps(s, i);
      CloseProbesServed(CancelProbe(s, i), v, i, a, w, id);
    } else {
      CloseProbesServed(s, v, i + 1, a, w, id);
    }
  }

  lemma {:induction false} ClosePendingServed(s: State, v: Wire, i: nat, a: nat, w: Wire, id: string)
    requires Stable(s) && From(s, a, w, id) && Served(s, a, w, id)
    ensures Served(ClosePending(s, v, i), a, w, id)
    decreases |s.probes|, |s.pending| - i
  {
    hide Stable, Served, CancelPending;
    if i >= |s.pending| {
    } else if s.pending[i].worker == v {
      StableCore(s);
      CancelPendingShrinks(s, i);
      CancelPendingStable(s, i);
      CancelPendingServed(s, i, a, w, id);
      ClosePendingServed(CancelPending(s, i), v, i, a, w, id);
    } else {
      ClosePendingServed(s, v, i + 1, a, w, id);
    }
  }

  // ---- Frames ----

  lemma SubmitServed(s: State, r: Request, v: Wire, a: nat, w: Wire, id: string)
    requires Served(s, a, w, id)
    ensures Served(Submit(s, r, v), a, w, id)
  {
    hide Served, Refuses, Reserve;
    var n := |s.arrivals|;
    var t := s.(arrivals := s.arrivals + [Arrival(r, v)]);
    SameServed(s, t, a, w, id);
    SaidServed(t, Say(t, HubEnd(v, r.id)), HubEnd(v, r.id), a, w, id);
    EnqueueServed(t, Probe(r, v, n), a, w, id);
    if !Refuses(t, r) {
      NotRefused(t, r);
      ReserveServed(t, r, v, n, a, w, id);
    }
  }

  lemma DeliverServed(s: State, i: nat, wire: Wire, connection: nat, f: HostFrame, a: nat, w: Wire, id: string)
    requires Core(s) && From(s, a, w, id) && Served(s, a, w, id) && i < |s.pending|
    ensures Served(Deliver(s, i, wire, connection, f), a, w, id)
  {
    hide Core, Served, From, Cancel;
    var p := s.pending[i];
    SaidServed(s, Say(s, Refused(wire)), Refused(wire), a, w, id);
    CancelServed(s, p.request.id, p.worker, a, w, id);
    if AcceptsFrame(s.lim, p, f) {
      var t := Say(s.(pending := s.pending[i := Received(p, f)]), Relayed(p.token, p.worker, connection, f));
      UpdateServed(s, t, i, Received(p, f), a, w, id);
      SameServed(t, Await(t, EndSent(p.token)), a, w, id);
    }
  }

  lemma FromOwnerServed(s: State, i: nat, v: Wire, f: WorkerFrame, a: nat, w: Wire, id: string)
    requires Core(s) && From(s, a, w, id) && Served(s, a, w, id) && i < |s.pending|
    ensures Served(FromOwner(s, i, v, f), a, w, id)
  {
    hide Core, Served, From, Cancel;
    var p := s.pending[i];
    SaidServed(s, Say(s, Refused(v)), Refused(v), a, w, id);
    CancelServed(s, p.request.id, v, a, w, id);
    match f
    case Ack(_, n) => UpdateServed(s, ToHost(s, i, p.(ack := n), f), i, p.(ack := n), a, w, id);
    case Reply(_, callId, _, _, size) =>
      if callId in p.calls {
        UpdateServed(s, ToHost(s, i, Replied(p, callId, size), f), i, Replied(p, callId, size), a, w, id);
      }
    case _ =>
  }

  lemma FromWorkerServed(s: State, v: Wire, f: WorkerFrame, a: nat, w: Wire, id: string)
    requires Core(s) && From(s, a, w, id) && Served(s, a, w, id)
    ensures Served(FromWorker(s, v, f), a, w, id)
  {
    hide Core, Served, From, Cancel, FromOwner, Submit;
    SaidServed(s, Say(s, Refused(v)), Refused(v), a, w, id);
    if f.Open? {
      SubmitServed(s, f.request, v, a, w, id);
    } else if !f.Nameless? {
      CancelServed(s, f.id, v, a, w, id);
      var i := PendingAt(s.pending, f.id);
      if i >= 0 { FromOwnerServed(s, i, v, f, a, w, id); }
    }
  }

  lemma FrameAuthorizedServed(s: State, t: Task, op: Op, outcome: Outcome, a: nat, w: Wire, id: string)
    requires Core(s) && From(s, a, w, id) && Served(s, a, w, id) && t.FrameAuth? && !t.frame.Health?
    ensures Served(FrameAuthorized(s, t, op, outcome), a, w, id)
  {
    hide Core, Served, From, Cancel, Deliver;
    CancelServed(s, t.frame.id, op.worker, a, w, id);
    SaidServed(s, Say(s, Refused(t.wire)), Refused(t.wire), a, w, id);
    var i := PendingAt(s.pending, t.frame.id);
    if i >= 0 { DeliverServed(s, i, t.wire, t.connection, t.frame, a, w, id); }
  }

  /** Every step that settles no continuation keeps a served request served. */
  lemma StepServed(s: State, e: Event, a: nat, w: Wire, id: string)
    requires Stable(s) && From(s, a, w, id) && Served(s, a, w, id) && !e.Settles?
    ensures Served(Step(s, e), a, w, id)
  {
    hide Stable, Served, Detach, FromWorker, Cancel, CloseProbes, ClosePending;
    StableCore(s);
    DetachServed(s, a, w, id);
    match e
    case Attaches(wire, ownerId, registration) =>
      SameServed(Detach(s), Attach(s, wire, ownerId, registration), a, w, id);
    case Detaches =>
    case WireCloses(_) =>
    case HostSends(wire, f) => SameServed(s, FromHost(s, wire, f), a, w, id);
    case WorkerSends(v, f) => FromWorkerServed(s, v, f, a, w, id);
    case Cancels(i, v) => CancelServed(s, i, v, a, w, id);
    case WorkerCloses(v) =>
      CloseProbesStable(s, v, 0);
      CloseProbesServed(s, v, 0, a, w, id);
      ClosePendingServed(CloseProbes(s, v, 0), v, 0, a, w, id);
  }

  // ---- Steps that drop a request ----

  lemma PromoteAdds(s: State, a: nat, w: Wire, id: string)
    requires Core(s) && s.host.Some? && s.probes != [] && ProbeCapacity(s.lim, s.pending)
    ensures HasRecord(Promote(s).pending, Promote(s).ops, a) || HasProbe(Promote(s).probes, a)
            ==> HasRecord(s.pending, s.ops, a) || HasProbe(s.probes, a)
    ensures Answered(Promote(s).log, a, w, id) == Answered(s.log, a, w, id)
  {
    hide Core, Refuses, Answered;
    PromoteReserves(s);
    KnownTokens(s);
    var q, n := s.probes[0], Promote(s);
    Grows(s.log, n.log.entry, a, w, id);
    assert q in s.probes;
    assert forall p | p in n.pending :: p in s.pending || p.token == |s.ops|;
    assert forall p | p in s.pending :: IsRecord(p, n.ops, a) == IsRecord(p, s.ops, a);
    assert forall x | x in n.probes :: x in s.probes;
  }

  lemma KnownTokens(s: State)
    requires Core(s)
    ensures forall p | p in s.pending :: p.token < |s.ops|
  {
  }

  /** Draining opens queued probes, adds no other request and answers nobody. */
  lemma {:induction false} DrainAdds(s: State, a: nat, w: Wire, id: string)
    requires Core(s)
    ensures HasRecord(Drain(s).pending, Drain(s).ops, a) || HasProbe(Drain(s).probes, a)
            ==> HasRecord(s.pending, s.ops, a) || HasProbe(s.probes, a)
    ensures Answered(Drain(s).log, a, w, id) == Answered(s.log, a, w, id)
    decreases |s.probes|
  {
    hide Core, HasRecord, HasProbe, Answered;
    if s.host.Some? && s.probes != [] && ProbeCapacity(s.lim, s.pending) {
      PromoteReserves(s);
      PromoteAdds(s, a, w, id);
      DrainAdds(Promote(s), a, w, id);
    }
  }

  lemma NoneLeft(s: State, i: nat, a: nat)
    requires Core(s) && OpenedOnce(s.ops, s.probes) && i < |s.pending| && IsRecord(s.pending[i], s.ops, a)
    ensures !HasRecord(Without(s.pending, i), s.ops, a) && !HasProbe(s.probes, a)
  {
    var p := s.pending[i];
    assert p in s.pending && s.ops[p.token] in s.ops;
    WithoutPending(s.pending, i);
    forall x | x in Without(s.pending, i) ensures !IsRecord(x, s.ops, a) {
      assert Known(x, s.ops, s.connections) && Known(p, s.ops, s.connections);
    }
  }

  /** Finishing an id drops the request under it, whichever it is. */
  lemma FinishDrops(s: State, i: nat, a: nat, w: Wire, id: string)
    requires Core(s) && OpenedOnce(s.ops, s.probes) && i < |s.pending| && IsRecord(s.pending[i], s.ops, a)
    requires !Answered(s.log, a, w, id)
    ensures !Served(Finish(s, s.pending[i].request.id), a, w, id)
  {
    hide Core, Drain, HasRecord, HasProbe, Answered, Begun, OpenedOnce, IsRecord;
    var p := s.pending[i];
    OneRecord(s, i, PendingAt(s.pending, p.request.id));
    DropKeeps(s, i);
    NoneLeft(s, i, a);
    Grows(s.log, Closed(p.token), a, w, id);
    Grows(Then(s.log, Closed(p.token)), Remembered(p.worker, p.request.id), a, w, id);
    DrainAdds(Drop(s, i), a, w, id);
  }

  /** The continuation finishes its own id without looking which record is there now. */
  predicate Finishes(s: State, t: Task, op: Op, outcome: Outcome) {
    match t
    case OpenAuth(_) => !outcome.Yes? || s.host.None? || s.host.value.connection != op.connection
    case OpenSend(_) => !outcome.Yes?
    case FrameAuth(_, _, _, _) => false
    case EndSent(_) => outcome.Yes?
  }

  /** The record under `op`'s id is that of arrival `a`, which is another request than `op`. */
  predicate TakenOver(s: State, op: Op, a: nat) {
    var i := PendingAt(s.pending, op.request.id);
    op.arrival != a && i >= 0 && IsRecord(s.pending[i], s.ops, a)
  }

  predicate Drops(s: State, e: Event, a: nat, w: Wire) {
    && e.Settles? && e.task in s.tasks && s.tasks[e.task].token < |s.ops|
    && var t := s.tasks[e.task]; var op := s.ops[t.token];
       TakenOver(s, op, a) && Finishes(s, t, op, e.outcome) && (t.EndSent? || op.worker != w)
  }

  lemma NotServed(s: State, e: Entry, a: nat, w: Wire, id: string)
    requires Begun(s.log, a) && !Served(s, a, w, id)
    ensures Served(Say(s, e), a, w, id) <==> EndFor(e, w, id)
  {
  }

  lemma {:induction false} DrainBegun(s: State, a: nat)
    requires Core(s) && Begun(s.log, a)
    ensures Begun(Drain(s).log, a)
    decreases |s.probes|
  {
    hide Core, Refuses;
    if s.host.Some? && s.probes != [] && ProbeCapacity(s.lim, s.pending) {
      PromoteReserves(s);
      DrainBegun(Promote(s), a);
    }
  }

  lemma FinishBegun(s: State, fid: string, a: nat)
    requires Core(s) && Begun(s.log, a)
    ensures Begun(Finish(s, fid).log, a)
  {
    hide Core, Drain;
    var i := PendingAt(s.pending, fid);
    if i >= 0 { DropKeeps(s, i); }
    DrainBegun(if i >= 0 then Drop(s, i) else s, a);
  }

  /** What a request loses when its id is finished, and what an end frame to its own worker makes up for. */
  lemma UnavailableServed(s: State, op: Op, a: nat, w: Wire, id: string)
    requires Core(s) && OpenedOnce(s.ops, s.probes) && From(s, a, w, id) && op in s.ops
    requires Served(s, a, w, id) && !Answered(s.log, a, w, id)
    ensures Served(Unavailable(s, op), a, w, id) <==> !(TakenOver(s, op, a) && op.worker != w)
  {
    hide Core, Served, Finish, OpenedOnce, Answered, From, Begun;
    var i := PendingAt(s.pending, op.request.id);
    var t := Finish(s, op.request.id);
    var e := HubEnd(op.worker, op.request.id);
    if i >= 0 && IsRecord(s.pending[i], s.ops, a) {
      RecordOf(s, i, a, w, id);
      FinishDrops(s, i, a, w, id);
      ServedBegun(s, a, w, id);
      FinishBegun(s, op.request.id, a);
      NotServed(t, e, a, w, id);
      if op.arrival == a { OpOfArrival(s, op, a, w, id); }
    } else {
      FinishServed(s, op.request.id, a, w, id);
      SaidServed(t, Say(t, e), e, a, w, id);
    }
  }

  lemma OpOfArrival(s: State, op: Op, a: nat, w: Wire, id: string)
    requires Core(s) && From(s, a, w, id) && op in s.ops && op.arrival == a
    ensures op.worker == w && op.request.id == id
  {
  }

  lemma AuthorizedServed(s: State, token: nat, op: Op, outcome: Outcome, a: nat, w: Wire, id: string)
    requires Stable(s) && OpenedOnce(s.ops, s.probes) && From(s, a, w, id)
    requires Served(s, a, w, id) && !Answered(s.log, a, w, id) && token < |s.ops| && op == s.ops[token]
    requires forall k | k in s.tasks && s.tasks[k].OpenAuth? :: s.tasks[k].token != token
    ensures Served(Authorized(s, token, op, outcome), a, w, id)
            <==> !(TakenOver(s, op, a) && Finishes(s, OpenAuth(token), op, outcome) && op.worker != w)
  {
    hide Stable, Served, Unavailable, Detach, OpenedOnce, Answered, From, TakenOver;
    StableCore(s);
    UnavailableServed(s, op, a, w, id);
    if outcome.Yes? && s.host.Some? && s.host.value.connection == op.connection {
      var i := PendingAt(s.pending, op.request.id);
      var t := s.(seen := s.seen + {op.request.id});
      if i >= 0 && s.pending[i].token == token {
        SameServed(s, t, a, w, id);
        if |t.seen| > MAX_HISTORY {
          OverflowServed(s, i, op, a, w, id);
        } else {
          var e := Forwarded(token, op.connection, op.request);
          SaidServed(t, Say(t, e), e, a, w, id);
          SameServed(Say(t, e), Await(Say(t, e), OpenSend(token)), a, w, id);
        }
      }
    }
  }

  lemma OverflowServed(s: State, i: nat, op: Op, a: nat, w: Wire, id: string)
    requires Stable(s) && From(s, a, w, id) && Served(s, a, w, id) && i < |s.pending|
    requires forall k | k in s.tasks && s.tasks[k].OpenAuth? :: s.tasks[k].token != s.pending[i].token
    requires op.request.id == s.pending[i].request.id
    ensures Served(Unavailable(Detach(s.(seen := s.seen + {op.request.id})), op), a, w, id)
  {
    hide Stable, Core, Served, Detach, Finish;
    var t := s.(seen := s.seen + {op.request.id});
    SeenKeeps(s, i);
    StableCore(t);
    SameServed(s, t, a, w, id);
    DetachServed(t, a, w, id);
    DetachKeeps(t);
    var d := Detach(t);
    StableCore(d);
    FinishServed(d, op.request.id, a, w, id);
    SaidServed(Finish(d, op.request.id), Unavailable(d, op), HubEnd(op.worker, op.request.id), a, w, id);
  }

  lemma EndSentServed(s: State, op: Op, a: nat, w: Wire, id: string)
    requires Core(s) && OpenedOnce(s.ops, s.probes) && From(s, a, w, id) && op in s.ops
    requires Served(s, a, w, id) && !Answered(s.log, a, w, id) && Answered(s.log, op.arrival, op.worker, op.request.id)
    ensures Served(Finish(s, op.request.id), a, w, id) <==> !TakenOver(s, op, a)
  {
    hide Core, Served, Finish, Answered, OpenedOnce, From;
    var i := PendingAt(s.pending, op.request.id);
    if op.arrival == a { OpOfArrival(s, op, a, w, id); }
    if i >= 0 && IsRecord(s.pending[i], s.ops, a) {
      FinishDrops(s, i, a, w, id);
    } else {
      FinishServed(s, op.request.id, a, w, id);
    }
  }

  /** Settling a continuation drops an unanswered request exactly when it finishes an id that this request has taken over. */
  lemma ResumeServed(s: State, k: nat, outcome: Outcome, a: nat, w: Wire, id: string)
    requires Stable(s) && Marked(s) && From(s, a, w, id) && Served(s, a, w, id) && !Answered(s.log, a, w, id)
    ensures Served(Resume(s, k, outcome), a, w, id) <==> !Drops(s, Settles(k, outcome), a, w)
  {
    hide Stable, Core, Served, Unavailable, Authorized, FrameAuthorized, Finish, TakenOver, Answered, From, OpenedOnce, EndsSent;
    if k in s.tasks {
      TaskTaken(s, k);
      var t := s.tasks[k];
      var op := s.ops[t.token];
      var s' := s.(tasks := s.tasks - {k});
      SameServed(s, s', a, w, id);
      SameArrivals(s, s', op, a, w, id);
      StableCore(s');
      match t
      case OpenAuth(token) => AuthorizedServed(s', token, op, outcome, a, w, id);
      case OpenSend(_) => UnavailableServed(s', op, a, w, id);
      case FrameAuth(_, _, _, _) => FrameAuthorizedServed(s', t, op, outcome, a, w, id);
      case EndSent(_) =>
        RelayedEnd(s, k);
        if outcome.Yes? { EndSentServed(s', op, a, w, id); }
    }
  }

  lemma SameArrivals(s: State, t: State, op: Op, a: nat, w: Wire, id: string)
    requires s.pending == t.pending && s.ops == t.ops && s.arrivals == t.arrivals
    ensures TakenOver(s, op, a) == TakenOver(t, op, a) && From(s, a, w, id) == From(t, a, w, id)
  {
  }

  lemma RelayedEnd(s: State, k: nat)
    requires Marked(s) && k in s.tasks && s.tasks[k].EndSent? && s.tasks[k].token < |s.ops|
    ensures var op := s.ops[s.tasks[k].token]; Answered(s.log, op.arrival, op.worker, op.request.id)
  {
  }

  // ---- Every step of every run ----

  lemma {:induction false} QueueBegun(log: History, q: Probe)
    requires q in QueueOf(log)
    ensures Begun(log, q.arrival)
  {
    if !(log.entry.Queued? && log.entry.probe == q) {
      if log.entry.Withdrawn? { MinusFewer(QueueOf(log.before), log.entry.arrival, q); }
      if log.entry.Opened? { MinusFewer(QueueOf(log.before), log.entry.op.arrival, q); }
      QueueBegun(log.before, q);
    }
  }

  lemma {:induction false} MinusFewer(qs: seq<Probe>, arrival: nat, q: Probe)
    requires q in Minus(qs, arrival)
    ensures q in qs
  {
    if q in Minus(qs[..|qs| - 1], arrival) { MinusFewer(qs[..|qs| - 1], arrival, q); }
  }

  /** The hub holds the request, open or queued. */
  predicate InHand(s: State, a: nat) { HasRecord(s.pending, s.ops, a) || HasProbe(s.probes, a) }

  lemma HeldBegun(s: State, a: nat)
    requires Stable(s) && Told(s) && Linked(s) && InHand(s, a)
    ensures Begun(s.log, a)
  {
    hide Stable, Told, Agreed, Named, Recalled, Begun;
    if HasRecord(s.pending, s.ops, a) {
      var p :| p in s.pending && IsRecord(p, s.ops, a);
      var i :| 0 <= i < |s.pending| && s.pending[i] == p;
      RecordBegun(s, i);
    } else {
      var q :| q in s.probes && q.arrival == a;
      QueueBegun(s.log, q);
    }
  }

  predicate Kept(s: State, a: nat)
    requires a < |s.arrivals|
  {
    InHand(s, a) || Answered(s.log, a, s.arrivals[a].worker, s.arrivals[a].request.id)
  }

  /**
   In every run, for every request that the hub holds and has not answered: the next step leaves it
   neither held nor answered if and only if it is one of `Drops`.
   */
  lemma SilentDropExactly(lim: Limits, events: seq<Event>, e: Event, a: nat)
    requires var s := Run(lim, events);
             a < |s.arrivals| && InHand(s, a) && !Answered(s.log, a, s.arrivals[a].worker, s.arrivals[a].request.id)
    ensures var s := Run(lim, events); var n := Run(lim, events + [e]);
            && a < |n.arrivals| && n.arrivals[a] == s.arrivals[a]
            && (!Kept(n, a) <==> Drops(s, e, a, s.arrivals[a].worker))
  {
    hide Stable, Step, Told, Sent, Marked, Honest, Answered, Resume, Linked, Begun, HasRecord, HasProbe, Drops;
    RunChron(lim, events);
    RunLinked(lim, events);
    assert (events + [e])[..|events|] == events;
    var s := Run(lim, events);
    var w, id := s.arrivals[a].worker, s.arrivals[a].request.id;
    HeldBegun(s, a);
    ArrivalsStay(s, e);
    RunChron(lim, events + [e]);
    RunLinked(lim, events + [e]);
    if Kept(Run(lim, events + [e]), a) { KeptBegun(Run(lim, events + [e]), a); }
    if e.Settles? {
      ResumeServed(s, e.task, e.outcome, a, w, id);
      SettlesIs(s, e.task, e.outcome);
    } else {
      StepServed(s, e, a, w, id);
      OnlySettles(s, e, a, w);
    }
  }

  lemma {:induction false} AnsweredBegun(log: History, a: nat, w: Wire, id: string)
    requires Answered(log, a, w, id)
    ensures Begun(log, a)
  {
    if Answered(log.before, a, w, id) { AnsweredBegun(log.before, a, w, id); }
  }

  lemma KeptBegun(s: State, a: nat)
    requires Stable(s) && Told(s) && Linked(s) && a < |s.arrivals| && Kept(s, a)
    ensures Begun(s.log, a)
  {
    hide Stable, Told, Linked, Answered, Begun, InHand;
    if InHand(s, a) {
      HeldBegun(s, a);
    } else {
      AnsweredBegun(s.log, a, s.arrivals[a].worker, s.arrivals[a].request.id);
    }
  }

  // ---- Arrivals are only added to ----

  lemma CancelArrivals(s: State, fid: string, v: Wire)
    requires Stable(s)
    ensures Cancel(s, fid, v).arrivals == s.arrivals
  {
    hide Stable, CancelPending;
    var i := PendingAt(s.pending, fid);
    if i >= 0 { CancelPendingStable(s, i); }
  }

  lemma {:induction false} ClosePendingArrivals(s: State, v: Wire, i: nat)
    requires Stable(s)
    ensures ClosePending(s, v, i).arrivals == s.arrivals
    decreases |s.probes|, |s.pending| - i
  {
    hide Stable, CancelPending;
    if i >= |s.pending| {
    } else if s.pending[i].worker == v {
      CancelPendingShrinks(s, i);
      CancelPendingStable(s, i);
      ClosePendingArrivals(CancelPending(s, i), v, i);
    } else {
      ClosePendingArrivals(s, v, i + 1);
    }
  }

  lemma FromWorkerArrivals(s: State, v: Wire, f: WorkerFrame)
    requires Stable(s)
    ensures s.arrivals <= FromWorker(s, v, f).arrivals
  {
    hide Stable, Cancel, Refuses;
    if !f.Open? && !f.Nameless? {
      CancelArrivals(s, f.id, v);
    }
  }

  lemma UnavailableArrivals(s: State, op: Op)
    requires Core(s)
    ensures Unavailable(s, op).arrivals == s.arrivals
  {
    hide Core, Finish;
    FinishKeeps(s, op.request.id);
  }

  lemma AuthorizedArrivals(s: State, token: nat, op: Op, outcome: Outcome)
    requires Stable(s)
    requires forall k | k in s.tasks && s.tasks[k].OpenAuth? :: s.tasks[k].token != token
    ensures Authorized(s, token, op, outcome).arrivals == s.arrivals
  {
    hide Stable, Core, Unavailable, Detach;
    StableCore(s);
    UnavailableArrivals(s, op);
    var i := PendingAt(s.pending, op.request.id);
    if i >= 0 && s.pending[i].token == token {
      var u := s.(seen := s.seen + {op.request.id});
      SeenKeeps(s, i);
      StableCore(u);
      DetachKeeps(u);
      StableCore(Detach(u));
      UnavailableArrivals(Detach(u), op);
    }
  }

  lemma ResumeArrivals(s: State, k: nat, outcome: Outcome)
    requires Stable(s)
    ensures Resume(s, k, outcome).arrivals == s.arrivals
  {
    hide Stable, Core, Unavailable, Authorized, Cancel, Finish;
    if k in s.tasks {
      TaskTaken(s, k);
      var t := s.tasks[k];
      var op := s.ops[t.token];
      var s' := s.(tasks := s.tasks - {k});
      StableCore(s');
      UnavailableArrivals(s', op);
      FinishKeeps(s', op.request.id);
      match t
      case OpenAuth(token) => AuthorizedArrivals(s', token, op, outcome);
      case FrameAuth(_, _, _, f) =>
        CancelArrivals(s', f.id, op.worker);
        var i := PendingAt(s'.pending, f.id);
        if i >= 0 { CancelArrivals(s', s'.pending[i].request.id, s'.pending[i].worker); }
      case _ =>
    }
  }

  lemma ArrivalsStay(s: State, e: Event)
    requires Stable(s)
    ensures s.arrivals <= Step(s, e).arrivals
  {
    hide Stable, Detach, FromWorker, Cancel, CloseProbes, ClosePending, Resume;
    StableCore(s);
    DetachKeeps(s);
    match e
    case WorkerSends(v, f) => FromWorkerArrivals(s, v, f);
    case Cancels(i, v) => CancelArrivals(s, i, v);
    case WorkerCloses(v) =>
      CloseProbesStable(s, v, 0);
      ClosePendingArrivals(CloseProbes(s, v, 0), v, 0);
    case Settles(k, outcome) => ResumeArrivals(s, k, outcome);
    case _ =>
  }

  lemma SettlesIs(s: State, k: nat, outcome: Outcome)
    ensures Step(s, Settles(k, outcome)) == Resume(s, k, outcome)
  {
  }

  lemma OnlySettles(s: State, e: Event, a: nat, w: Wire)
    requires !e.Settles?
    ensures !Drops(s, e, a, w)
  {
  }
}
