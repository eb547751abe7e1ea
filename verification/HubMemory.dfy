/**
 Which ids a worker's memory holds. `EndedBy` reads the history without looking at what was
 remembered: an operation that was closed and not lost with its host, or a probe that was withdrawn
 from the queue. In every run the hub has remembered exactly those, in that order.
 */
module HubMemory {
  import opened Options
  import opened HubModel
  import opened HubSafety
  import opened HubSteps
  import opened HubHistory

  // ---- Read off the history ----

  function OpOf(log: History, t: nat): Option<Op> {
    match log
    case Start => None
    case Then(before, e) => if e.Opened? && e.token == t then Some(e.op) else OpOf(before, t)
  }

  function Minus(qs: seq<Probe>, arrival: nat): seq<Probe> {
    if qs == [] then []
    else Minus(qs[..|qs| - 1], arrival) + if qs[|qs| - 1].arrival == arrival then [] else [qs[|qs| - 1]]
  }

  function ProbeOf(qs: seq<Probe>, arrival: nat): Option<Probe> {
    if qs == [] then None
    else if qs[|qs| - 1].arrival == arrival then Some(qs[|qs| - 1])
    else ProbeOf(qs[..|qs| - 1], arrival)
  }

  /** The probes that were queued and neither opened nor withdrawn since. */
  function QueueOf(log: History): seq<Probe> {
    match log
    case Start => []
    case Then(before, e) =>
      match e
      case Queued(q) => QueueOf(before) + [q]
      case Withdrawn(arrival) => Minus(QueueOf(before), arrival)
      case Opened(_, op) => Minus(QueueOf(before), op.arrival)
      case _ => QueueOf(before)
  }

  /** Ids that ended for worker `w` while its host was there, and probes withdrawn for any reason. */
  function EndedBy(log: History, w: Wire): seq<string> {
    match log
    case Start => []
    case Then(before, e) =>
      match e
      case Closed(t) =>
        var op := OpOf(before, t);
        EndedBy(before, w) + if op.Some? && op.value.worker == w then [op.value.request.id] else []
      case Lost(_) =>
        // The operation closed just before was lost with its host.
        if before.Then? && before.entry.Closed? then EndedBy(before.before, w) else EndedBy(before, w)
      case Withdrawn(arrival) =>
        var q := ProbeOf(QueueOf(before), arrival);
        EndedBy(before, w) + if q.Some? && q.value.worker == w then [q.value.request.id] else []
      case _ => EndedBy(before, w)
  }

  // ---- What every step keeps ----

  predicate Named(log: History, ops: seq<Op>) {
    forall t | 0 <= t < |ops| :: OpOf(log, t) == Some(ops[t])
  }

  ghost predicate Agreed(log: History) {
    forall w: Wire :: RememberedBy(log, w) == EndedBy(log, w)
  }

  /** A worker's memory after these ids were added to it, one after another. */
  function Recall(ids: seq<string>): seq<string> {
    if ids == [] then [] else Insert(Recall(ids[..|ids| - 1]), ids[|ids| - 1])
  }

  ghost predicate Recalled(log: History, completed: map<Wire, seq<string>>) {
    forall w: Wire :: CompletedOf(completed, w) == Recall(RememberedBy(log, w))
  }

  predicate Settled(log: History) { !(log.Then? && log.entry.Closed?) }

  ghost predicate Linked(s: State) {
    Named(s.log, s.ops) && QueueOf(s.log) == s.probes && Agreed(s.log) && Settled(s.log)
    && Recalled(s.log, s.completed)
  }

  lemma SameLinked(s: State, t: State)
    requires Linked(s) && t.log == s.log && t.ops == s.ops && t.probes == s.probes && t.completed == s.completed
    ensures Linked(t)
  {
  }

  predicate Plain(e: Entry) {
    !e.Opened? && !e.Closed? && !e.Remembered? && !e.Queued? && !e.Withdrawn?
  }

  lemma PlainLinked(s: State, t: State, e: Entry)
    requires Linked(s) && Plain(e)
    requires t.log == Then(s.log, e) && t.ops == s.ops && t.probes == s.probes && t.completed == s.completed
    ensures Linked(t)
  {
    assert forall i: nat :: OpOf(t.log, i) == OpOf(s.log, i);
    assert forall w: Wire :: RememberedBy(t.log, w) == RememberedBy(s.log, w);
    assert forall w: Wire :: EndedBy(t.log, w) == EndedBy(s.log, w);
  }

  lemma {:induction false} MinusNone(qs: seq<Probe>, arrival: nat)
    requires forall q | q in qs :: q.arrival != arrival
    ensures Minus(qs, arrival) == qs
  {
    if qs != [] {
      assert qs[|qs| - 1] in qs;
      MinusNone(qs[..|qs| - 1], arrival);
    }
  }

  lemma {:induction false} MinusOne(qs: seq<Probe>, i: nat)
    requires i < |qs| && QueuedInOrder(qs)
    ensures Minus(qs, qs[i].arrival) == Without(qs, i)
    ensures ProbeOf(qs, qs[i].arrival) == Some(qs[i])
  {
    var fore := qs[..|qs| - 1];
    if i == |qs| - 1 {
      MinusNone(fore, qs[i].arrival);
      assert Without(qs, i) == fore;
    } else {
      MinusOne(fore, i);
      assert Without(qs, i) == Without(fore, i) + [qs[|qs| - 1]];
    }
  }

  lemma QueueInOrder(s: State)
    requires Core(s)
    ensures QueuedInOrder(s.probes)
  {
  }

  lemma ReserveLinked(s: State, t: State, r: Request, w: Wire, arrival: nat)
    requires Linked(s) && s.host.Some? && t == s.(probes := Minus(s.probes, arrival))
    ensures Linked(Reserve(t, r, w, arrival))
  {
    var n := Reserve(t, r, w, arrival);
    assert forall i | 0 <= i < |s.ops| :: OpOf(n.log, i) == OpOf(s.log, i);
    assert forall v: Wire :: RememberedBy(n.log, v) == RememberedBy(s.log, v);
    assert forall v: Wire :: EndedBy(n.log, v) == EndedBy(s.log, v);
  }

  lemma EnqueueLinked(s: State, q: Probe)
    requires Linked(s)
    ensures Linked(Enqueue(s, q))
  {
    var n := Enqueue(s, q);
    assert forall i: nat :: OpOf(n.log, i) == OpOf(s.log, i);
    assert forall v: Wire :: RememberedBy(n.log, v) == RememberedBy(s.log, v);
    assert forall v: Wire :: EndedBy(n.log, v) == EndedBy(s.log, v);
  }

  lemma RecallMore(ids: seq<string>, id: string)
    ensures Recall(ids + [id]) == Insert(Recall(ids), id)
  {
    assert (ids + [id])[..|ids|] == ids;
  }

  lemma RememberRecalled(log: History, completed: map<Wire, seq<string>>, w: Wire, id: string, n: History)
    requires Recalled(log, completed)
    requires forall v: Wire :: RememberedBy(n, v) == RememberedBy(log, v) + if v == w then [id] else []
    ensures Recalled(n, completed[w := Insert(CompletedOf(completed, w), id)])
  {
    hide Insert, Recall, RememberedBy;
    var c := completed[w := Insert(CompletedOf(completed, w), id)];
    forall v: Wire ensures CompletedOf(c, v) == Recall(RememberedBy(n, v)) {
      assert CompletedOf(completed, v) == Recall(RememberedBy(log, v));
      if v == w {
        RecallMore(RememberedBy(log, v), id);
      } else {
        assert RememberedBy(log, v) + [] == RememberedBy(log, v);
      }
    }
  }

  /** What one more entry changes of the four readings. */
  lemma Appended(log: History, e: Entry)
    ensures !e.Opened? ==> forall k: nat :: OpOf(Then(log, e), k) == OpOf(log, k)
    ensures !e.Opened? && !e.Queued? && !e.Withdrawn? ==> QueueOf(Then(log, e)) == QueueOf(log)
    ensures forall v: Wire :: RememberedBy(Then(log, e), v) == RememberedBy(log, v) + if e.Remembered? && e.worker == v then [e.id] else []
    ensures !e.Closed? && !e.Withdrawn? && !e.Lost? ==> forall v: Wire :: EndedBy(Then(log, e), v) == EndedBy(log, v)
  {
  }

  lemma RecordOp(s: State, i: nat)
    requires Core(s) && Named(s.log, s.ops) && i < |s.pending|
    ensures var p := s.pending[i]; var op := OpOf(s.log, p.token);
            op.Some? && op.value.worker == p.worker && op.value.request == p.request
  {
    assert s.pending[i] in s.pending;
  }

  lemma DropLinked(s: State, i: nat)
    requires Core(s) && Linked(s) && i < |s.pending|
    ensures Linked(Drop(s, i))
  {
    hide Core, Insert, OpOf, QueueOf, RememberedBy, EndedBy, Recall;
    var p := s.pending[i];
    var n := Drop(s, i);
    RecordOp(s, i);
    var closed := Then(s.log, Closed(p.token));
    Appended(s.log, Closed(p.token));
    Appended(closed, Remembered(p.worker, p.request.id));
    ClosedEnds(s.log, p.token, p.worker, p.request.id);
    RememberRecalled(s.log, s.completed, p.worker, p.request.id, n.log);
    forall v: Wire ensures RememberedBy(n.log, v) == EndedBy(n.log, v) {
      assert RememberedBy(s.log, v) == EndedBy(s.log, v);
    }
  }

  lemma ClosedEnds(log: History, t: nat, w: Wire, id: string)
    requires OpOf(log, t).Some? && OpOf(log, t).value.worker == w && OpOf(log, t).value.request.id == id
    ensures forall v: Wire :: EndedBy(Then(log, Closed(t)), v) == EndedBy(log, v) + if v == w then [id] else []
  {
  }

  lemma WithdrawnEnds(log: History, q: Probe)
    requires ProbeOf(QueueOf(log), q.arrival) == Some(q)
    ensures forall v: Wire :: EndedBy(Then(log, Withdrawn(q.arrival)), v) == EndedBy(log, v) + if v == q.worker then [q.request.id] else []
    ensures QueueOf(Then(log, Withdrawn(q.arrival))) == Minus(QueueOf(log), q.arrival)
  {
  }

  lemma LostEnds(log: History, t: nat, run: string)
    ensures forall v: Wire :: EndedBy(Then(Then(log, Closed(t)), Lost(run)), v) == EndedBy(log, v)
  {
  }

  lemma CancelProbeLinked(s: State, i: nat)
    requires Core(s) && Linked(s) && i < |s.probes|
    ensures Linked(CancelProbe(s, i))
  {
    hide Core, Insert, OpOf, QueueOf, RememberedBy, EndedBy, Recall;
    var q := s.probes[i];
    var id := q.request.id;
    var n := CancelProbe(s, i);
    QueueInOrder(s);
    MinusOne(s.probes, i);
    var left := Then(s.log, Withdrawn(q.arrival));
    var kept := Then(left, Remembered(q.worker, id));
    WithdrawnEnds(s.log, q);
    Appended(s.log, Withdrawn(q.arrival));
    Appended(left, Remembered(q.worker, id));
    Appended(kept, HubEnd(q.worker, id));
    RememberRecalled(s.log, s.completed, q.worker, id, n.log);
    forall v: Wire ensures RememberedBy(n.log, v) == EndedBy(n.log, v) {
      assert RememberedBy(s.log, v) == EndedBy(s.log, v);
    }
  }

  lemma LoseFirstPendingLinked(s: State)
    requires Linked(s) && s.pending != []
    ensures Linked(LoseFirstPending(s))
  {
    hide OpOf, QueueOf, RememberedBy, EndedBy, Recall;
    var p := s.pending[0];
    var n := LoseFirstPending(s);
    var closed := Then(s.log, Closed(p.token));
    var lost := Then(closed, Lost(p.request.run));
    Appended(s.log, Closed(p.token));
    Appended(closed, Lost(p.request.run));
    Appended(lost, HubEnd(p.worker, p.request.id));
    LostEnds(s.log, p.token, p.request.run);
    forall v: Wire ensures RememberedBy(n.log, v) == EndedBy(n.log, v) {
      assert RememberedBy(s.log, v) == EndedBy(s.log, v);
    }
  }

  // ---- Queue, slots and connections ----

  lemma PromoteLinked(s: State)
    requires Core(s) && Linked(s) && s.host.Some? && s.probes != [] && ProbeCapacity(s.lim, s.pending)
    ensures Linked(Promote(s))
  {
    hide Core, Linked, Reserve;
    var q := s.probes[0];
    QueueInOrder(s);
    MinusOne(s.probes, 0);
    assert Without(s.probes, 0) == s.probes[1..];
    PromoteReserves(s);
    ReserveLinked(s, s.(probes := s.probes[1..]), q.request, q.worker, q.arrival);
  }

  lemma {:induction false} DrainLinked(s: State)
    requires Core(s) && Linked(s)
    ensures Linked(Drain(s))
    decreases |s.probes|
  {
    hide Core, Linked;
    if s.host.Some? && s.probes != [] && ProbeCapacity(s.lim, s.pending) {
      PromoteReserves(s);
      PromoteLinked(s);
      DrainLinked(Promote(s));
    }
  }

  lemma FinishLinked(s: State, id: string)
    requires Core(s) && Linked(s)
    ensures Linked(Finish(s, id))
  {
    hide Core, Linked, Drop, Drain;
    var i := PendingAt(s.pending, id);
    if i >= 0 {
      DropKeeps(s, i);
      DropLinked(s, i);
    }
    DrainLinked(if i >= 0 then Drop(s, i) else s);
  }

  lemma CancelPendingLinked(s: State, i: nat)
    requires Core(s) && Linked(s) && i < |s.pending|
    ensures Linked(CancelPending(s, i))
  {
    hide Core, Linked, Finish;
    var p := s.pending[i];
    var told := s;
    if s.host.Some? {
      told := Say(s, HubCancel(p.token, s.host.value.connection));
      PlainLinked(s, told, HubCancel(p.token, s.host.value.connection));
    }
    var ended := Say(told, HubEnd(p.worker, p.request.id));
    PlainLinked(told, ended, HubEnd(p.worker, p.request.id));
    Quiet(s, ended);
    FinishLinked(ended, p.request.id);
  }

  lemma CancelLinked(s: State, id: string, w: Wire)
    requires Core(s) && Linked(s)
    ensures Linked(Cancel(s, id, w))
  {
    hide Core, Linked, CancelProbe, CancelPending;
    var q, i := ProbeAt(s.probes, id), PendingAt(s.pending, id);
    if q >= 0 && s.probes[q].worker == w {
      CancelProbeLinked(s, q);
    } else if i >= 0 && s.pending[i].worker == w {
      CancelPendingLinked(s, i);
    }
  }

  lemma {:induction false} LosePendingLinked(s: State)
    requires Linked(s)
    ensures Linked(LosePending(s))
    decreases |s.pending|
  {
    hide Linked;
    if s.pending != [] {
      LoseFirstPendingLinked(s);
      LosePendingLinked(LoseFirstPending(s));
    }
  }

  lemma {:induction false} LoseProbesLinked(s: State)
    requires Core(s) && s.host.None? && Linked(s)
    ensures Linked(LoseProbes(s))
    decreases |s.probes|
  {
    hide Core, Linked;
    if s.probes != [] {
      var lost := Lose(s, s.probes[0].request.run);
      PlainLinked(s, lost, Lost(s.probes[0].request.run));
      LostKeeps(s, s.probes[0].request.run);
      CancelProbeLinked(lost, 0);
      LoseFirstProbeKeeps(s);
      LoseProbesLinked(LoseFirstProbe(s));
    }
  }

  lemma LostKeeps(s: State, run: string)
    requires Core(s) && s.host.None?
    ensures Core(Lose(s, run))
  {
  }

  lemma DetachLinked(s: State)
    requires Core(s) && Linked(s)
    ensures Linked(Detach(s))
  {
    hide Core, Linked;
    var u := Unhost(s);
    SameLinked(s, u);
    UnhostKeeps(s);
    LosePendingLinked(u);
    LosePendingKeeps(u);
    LoseProbesLinked(LosePending(u));
  }

  lemma {:induction false} CloseProbesLinked(s: State, w: Wire, i: nat)
    requires Stable(s) && Linked(s)
    ensures Linked(CloseProbes(s, w, i))
    decreases |s.probes| - i
  {
    hide Stable, Linked;
    if i >= |s.probes| {
    } else if s.probes[i].worker == w {
      StableCore(s);
      CancelProbeStable(s, i);
      CancelProbeLinked(s, i);
      CloseProbesLinked(CancelProbe(s, i), w, i);
    } else {
      CloseProbesLinked(s, w, i + 1);
    }
  }

  lemma {:induction false} ClosePendingLinked(s: State, w: Wire, i: nat)
    requires Stable(s) && Linked(s)
    ensures Linked(ClosePending(s, w, i))
    decreases |s.probes|, |s.pending| - i
  {
    hide Stable, Linked, CancelPending;
    if i >= |s.pending| {
    } else if s.pending[i].worker == w {
      StableCore(s);
      CancelPendingShrinks(s, i);
      CancelPendingStable(s, i);
      CancelPendingLinked(s, i);
      ClosePendingLinked(CancelPending(s, i), w, i);
    } else {
      ClosePendingLinked(s, w, i + 1);
    }
  }

  // ---- Frames and continuations ----

  lemma SubmitLinked(s: State, r: Request, w: Wire)
    requires Stable(s) && Linked(s)
    ensures Linked(Submit(s, r, w))
  {
    hide Stable, Core, Linked, Refuses, Reserve;
    var n := |s.arrivals|;
    var t := s.(arrivals := s.arrivals + [Arrival(r, w)]);
    SameLinked(s, t);
    PlainLinked(t, Say(t, HubEnd(w, r.id)), HubEnd(w, r.id));
    EnqueueLinked(t, Probe(r, w, n));
    if !Refuses(t, r) {
      NotRefused(t, r);
      QueueBefore(s);
      MinusNone(t.probes, n);
      ReserveLinked(t, t, r, w, n);
    }
  }

  lemma QueueBefore(s: State)
    requires Stable(s)
    ensures forall q | q in s.probes :: q.arrival != |s.arrivals|
  {
  }

  lemma DeliverLinked(s: State, i: nat, wire: Wire, connection: nat, f: HostFrame)
    requires Core(s) && Linked(s) && i < |s.pending|
    ensures Linked(Deliver(s, i, wire, connection, f))
  {
    hide Core, Linked, Cancel;
    var p := s.pending[i];
    PlainLinked(s, Say(s, Refused(wire)), Refused(wire));
    CancelLinked(s, p.request.id, p.worker);
    if AcceptsFrame(s.lim, p, f) {
      var e := Relayed(p.token, p.worker, connection, f);
      var t := Say(s.(pending := s.pending[i := Received(p, f)]), e);
      PlainLinked(s, t, e);
      SameLinked(t, Await(t, EndSent(p.token)));
    }
  }

  lemma ToHostLinked(s: State, i: nat, p: Pending, f: WorkerFrame)
    requires Linked(s) && i < |s.pending|
    ensures Linked(ToHost(s, i, p, f))
  {
    hide Linked;
    var t := ToHost(s, i, p, f);
    if s.host.Some? {
      PlainLinked(s, t, Upstream(p.token, p.worker, s.host.value.connection, f));
    } else {
      SameLinked(s, t);
    }
  }

  lemma FromOwnerLinked(s: State, i: nat, w: Wire, f: WorkerFrame)
    requires Core(s) && Linked(s) && i < |s.pending|
    ensures Linked(FromOwner(s, i, w, f))
  {
    hide Core, Linked, Cancel, ToHost;
    var p := s.pending[i];
    PlainLinked(s, Say(s, Refused(w)), Refused(w));
    CancelLinked(s, p.request.id, w);
    match f
    case Ack(_, n) => ToHostLinked(s, i, p.(ack := n), f);
    case Reply(_, callId, _, _, size) =>
      if callId in p.calls { ToHostLinked(s, i, Replied(p, callId, size), f); }
    case _ =>
  }

  lemma FromWorkerLinked(s: State, w: Wire, f: WorkerFrame)
    requires Stable(s) && Linked(s)
    ensures Linked(FromWorker(s, w, f))
  {
    hide Stable, Linked, Cancel, FromOwner, Submit;
    StableCore(s);
    PlainLinked(s, Say(s, Refused(w)), Refused(w));
    if f.Open? {
      SubmitLinked(s, f.request, w);
    } else if !f.Nameless? {
      CancelLinked(s, f.id, w);
      var i := PendingAt(s.pending, f.id);
      if i >= 0 { FromOwnerLinked(s, i, w, f); }
    }
  }

  lemma FromHostLinked(s: State, wire: Wire, f: HostFrame)
    requires Linked(s)
    ensures Linked(FromHost(s, wire, f))
  {
    hide Linked;
    SameLinked(s, FromHost(s, wire, f));
  }

  lemma UnavailableLinked(s: State, op: Op)
    requires Core(s) && Linked(s)
    ensures Linked(Unavailable(s, op))
  {
    hide Core, Linked, Finish;
    FinishLinked(s, op.request.id);
    var t := Finish(s, op.request.id);
    PlainLinked(t, Say(t, HubEnd(op.worker, op.request.id)), HubEnd(op.worker, op.request.id));
  }

  lemma AuthorizedLinked(s: State, token: nat, op: Op, outcome: Outcome)
    requires Stable(s) && Linked(s)
    requires forall i | 0 <= i < |s.pending| && s.pending[i].token == token :: Core(s.(seen := s.seen + {op.request.id}))
    ensures Linked(Authorized(s, token, op, outcome))
  {
    hide Stable, Core, Linked, Unavailable, Detach;
    StableCore(s);
    UnavailableLinked(s, op);
    var t := s.(seen := s.seen + {op.request.id});
    SameLinked(s, t);
    var i := PendingAt(s.pending, op.request.id);
    if i >= 0 && s.pending[i].token == token {
      if |t.seen| > MAX_HISTORY {
        DetachKeeps(t);
        DetachLinked(t);
        StableCore(Detach(t));
        UnavailableLinked(Detach(t), op);
      } else {
        var e := Forwarded(token, op.connection, op.request);
        PlainLinked(t, Say(t, e), e);
        SameLinked(Say(t, e), Await(Say(t, e), OpenSend(token)));
      }
    }
  }

  lemma FrameAuthorizedLinked(s: State, t: Task, op: Op, outcome: Outcome)
    requires Core(s) && Linked(s) && t.FrameAuth? && !t.frame.Health?
    ensures Linked(FrameAuthorized(s, t, op, outcome))
  {
    hide Core, Linked, Cancel, Deliver;
    CancelLinked(s, t.frame.id, op.worker);
    PlainLinked(s, Say(s, Refused(t.wire)), Refused(t.wire));
    var i := PendingAt(s.pending, t.frame.id);
    if i >= 0 { DeliverLinked(s, i, t.wire, t.connection, t.frame); }
  }

  lemma ResumeLinked(s: State, k: nat, outcome: Outcome)
    requires Stable(s) && Linked(s)
    ensures Linked(Resume(s, k, outcome))
  {
    hide Stable, Core, Linked, Unavailable, Authorized, FrameAuthorized, Finish;
    if k in s.tasks {
      TaskTaken(s, k);
      var t := s.tasks[k];
      var op := s.ops[t.token];
      var s' := s.(tasks := s.tasks - {k});
      SameLinked(s, s');
      StableCore(s');
      UnavailableLinked(s', op);
      FinishLinked(s', op.request.id);
      match t
      case OpenAuth(token) =>
        forall i | 0 <= i < |s'.pending| && s'.pending[i].token == token ensures Core(s'.(seen := s'.seen + {op.request.id})) {
          SeenKeeps(s', i);
          SameRequest(s', i);
          StableCore(s'.(seen := s'.seen + {op.request.id}));
        }
        AuthorizedLinked(s', token, op, outcome);
      case FrameAuth(_, _, _, _) => FrameAuthorizedLinked(s', t, op, outcome);
      case _ =>
    }
  }

  lemma SameRequest(s: State, i: nat)
    requires Stable(s) && i < |s.pending|
    ensures s.pending[i].token < |s.ops| && s.ops[s.pending[i].token].request == s.pending[i].request
  {
    assert s.pending[i] in s.pending;
  }

  lemma StepLinked(s: State, e: Event)
    requires Stable(s) && Linked(s)
    ensures Linked(Step(s, e))
  {
    hide Stable, Linked, Detach, FromHost, FromWorker, Cancel, CloseProbes, ClosePending, Resume;
    StableCore(s);
    DetachLinked(s);
    match e
    case Attaches(wire, ownerId, registration) => SameLinked(Detach(s), Attach(s, wire, ownerId, registration));
    case Detaches =>
    case WireCloses(_) =>
    case HostSends(wire, f) => FromHostLinked(s, wire, f);
    case WorkerSends(w, f) => FromWorkerLinked(s, w, f);
    case Cancels(id, w) => CancelLinked(s, id, w);
    case WorkerCloses(w) =>
      CloseProbesStable(s, w, 0);
      CloseProbesLinked(s, w, 0);
      ClosePendingLinked(CloseProbes(s, w, 0), w, 0);
    case Settles(k, outcome) => ResumeLinked(s, k, outcome);
  }

  lemma InitLinked(lim: Limits)
    ensures Linked(Init(lim))
  {
  }

  lemma {:induction false} RunLinked(lim: Limits, events: seq<Event>)
    ensures Linked(Run(lim, events))
  {
    hide Stable, Linked, Step;
    if events == [] {
      InitLinked(lim);
    } else {
      var before := Run(lim, events[..|events| - 1]);
      RunStable(lim, events[..|events| - 1]);
      RunLinked(lim, events[..|events| - 1]);
      StepLinked(before, events[|events| - 1]);
    }
  }
}
