/** Every step of the hub, in every run, keeps the invariant of HubSafety. */
module HubSteps {
  import opened Options
  import opened HubModel
  import opened HubSafety

  // ---- Requests ----

  lemma ArrivalKeeps(s: State, a: Arrival)
    requires Stable(s)
    ensures Stable(s.(arrivals := s.arrivals + [a]))
  {
    var t := s.(arrivals := s.arrivals + [a]);
    assert Arrived(t.ops, t.probes, t.arrivals) by {
      assert forall n, r, w | ArrivedAs(s.arrivals, n, r, w) :: ArrivedAs(t.arrivals, n, r, w);
    }
  }

  lemma EarlierArrivals(s: State)
    requires Core(s)
    ensures forall op | op in s.ops :: op.arrival < |s.arrivals|
    ensures forall q | q in s.probes :: q.arrival < |s.arrivals|
  {
  }

  lemma FullStaysFull(lim: Limits, ps: seq<Pending>, p: Pending)
    requires !ProbeCapacity(lim, ps)
    ensures !ProbeCapacity(lim, ps + [p])
  {
    CountSnoc(ps, p);
  }

  lemma SubmitStable(s: State, r: Request, w: Wire)
    requires Stable(s)
    ensures Stable(Submit(s, r, w))
    ensures Submit(s, r, w).lim == s.lim
  {
    hide Core, Refuses;
    var n := |s.arrivals|;
    var t := s.(arrivals := s.arrivals + [Arrival(r, w)]);
    EarlierArrivals(s);
    ArrivalKeeps(s, Arrival(r, w));
    if Refuses(t, r) {
      Quiet(t, Say(t, HubEnd(w, r.id)));
    } else if FleetProbe(r) && !ProbeCapacity(t.lim, t.pending) {
      NotRefused(t, r);
      EnqueueKeeps(t, r, w, n);
      Quiet(t.(probes := t.probes + [Probe(r, w, n)]), Enqueue(t, Probe(r, w, n)));
    } else {
      NotRefused(t, r);
      ReserveKeeps(t, r, w, n);
      if t.probes != [] {
        FullStaysFull(t.lim, t.pending, Reserve(t, r, w, n).pending[|t.pending|]);
      }
    }
  }

  lemma NotRefused(s: State, r: Request)
    requires !Refuses(s, r)
    ensures s.host.Some?
  {
  }

  /** A probe that arrives while others wait never overtakes them. */
  lemma NoOvertaking(s: State, r: Request, w: Wire)
    requires Stable(s) && FleetProbe(r) && s.probes != []
    ensures Submit(s, r, w).ops == s.ops && Submit(s, r, w).pending == s.pending
    ensures s.probes <= Submit(s, r, w).probes
  {
    hide Core, Refuses;
  }

  // ---- Frames ----

  lemma UpdateStable(s: State, i: nat, p: Pending)
    requires Stable(s) && i < |s.pending| && Metered(s.lim, p)
    requires p.token == s.pending[i].token && p.request == s.pending[i].request && p.worker == s.pending[i].worker
    ensures Stable(s.(pending := s.pending[i := p]))
  {
    hide Core;
    UpdateKeeps(s, i, p);
    CountUpdate(s.pending, i, p);
  }

  lemma AwaitStable(s: State, t: Task)
    requires Stable(s) && GoodTask(t, s.ops) && !t.OpenAuth?
    ensures Stable(Await(s, t))
  {
    hide Core;
    AwaitKeeps(s, t);
  }

  lemma RecordFacts(s: State, i: nat)
    requires Stable(s) && i < |s.pending|
    ensures Known(s.pending[i], s.ops, s.connections) && Metered(s.lim, s.pending[i])
    ensures s.host.Some? && s.host.value.connection == s.ops[s.pending[i].token].connection
  {
    assert s.pending[i] in s.pending;
  }

  lemma FromHostStable(s: State, wire: Wire, f: HostFrame)
    requires Stable(s)
    ensures Stable(FromHost(s, wire, f))
    ensures FromHost(s, wire, f).lim == s.lim
  {
    hide Stable;
    if s.host.None? || s.host.value.wire != wire {
    } else if f.Health? {
      Quiet(s, s.(relay := f.providerRelay));
    } else {
      var i := PendingAt(s.pending, f.id);
      if i >= 0 {
        RecordFacts(s, i);
        AwaitStable(s, FrameAuth(s.pending[i].token, wire, s.host.value.connection, f));
      }
    }
  }

  lemma ReceivedMetered(lim: Limits, p: Pending, f: HostFrame)
    requires Metered(lim, p) && AcceptsFrame(lim, p, f) && Received(p, f).bytes <= lim.totalBytes
    ensures Metered(lim, Received(p, f))
  {
    if f.Callback? {
      assert p.calls[f.callId := f.kind].Keys == p.calls.Keys + {f.callId};
    }
  }

  lemma DeliverStable(s: State, i: nat, wire: Wire, connection: nat, f: HostFrame)
    requires Stable(s) && i < |s.pending|
    ensures Stable(Deliver(s, i, wire, connection, f))
    ensures Deliver(s, i, wire, connection, f).lim == s.lim
  {
    hide Stable, Metered, Cancel;
    var p := s.pending[i];
    RecordFacts(s, i);
    Quiet(s, Say(s, Refused(wire)));
    if AcceptsFrame(s.lim, p, f) {
      var p' := Received(p, f);
      if p'.bytes > s.lim.totalBytes {
        CancelStable(s, p.request.id, p.worker);
      } else {
        ReceivedMetered(s.lim, p, f);
        UpdateStable(s, i, p');
        var t := s.(pending := s.pending[i := p']);
        var u := Say(t, Relayed(p.token, p.worker, connection, f));
        Quiet(t, u);
        if f.End? { AwaitStable(u, EndSent(p.token)); }
      }
    }
  }

  lemma RepliedMetered(lim: Limits, p: Pending, callId: string, size: nat)
    requires Metered(lim, p) && callId in p.calls && !OverReplyBudget(lim, Replied(p, callId, size))
    ensures Metered(lim, Replied(p, callId, size))
  {
    assert p.calls.Keys == (p.calls - {callId}).Keys + {callId};
  }

  lemma ToHostStable(s: State, i: nat, p: Pending, f: WorkerFrame)
    requires Stable(s) && i < |s.pending| && Metered(s.lim, p)
    requires p.token == s.pending[i].token && p.request == s.pending[i].request && p.worker == s.pending[i].worker
    ensures Stable(ToHost(s, i, p, f))
    ensures ToHost(s, i, p, f).lim == s.lim
  {
    hide Stable, Metered;
    UpdateStable(s, i, p);
    Quiet(s.(pending := s.pending[i := p]), ToHost(s, i, p, f));
  }

  lemma FromOwnerStable(s: State, i: nat, w: Wire, f: WorkerFrame)
    requires Stable(s) && i < |s.pending|
    ensures Stable(FromOwner(s, i, w, f))
    ensures FromOwner(s, i, w, f).lim == s.lim
  {
    hide Stable, Cancel, ToHost;
    var p := s.pending[i];
    RecordFacts(s, i);
    Quiet(s, Say(s, Refused(w)));
    CancelStable(s, p.request.id, w);
    match f
    case Ack(_, n) =>
      if p.ack < n <= p.last { ToHostStable(s, i, p.(ack := n), f); }
    case Reply(_, callId, _, _, size) =>
      if callId in p.calls && !OverReplyBudget(s.lim, Replied(p, callId, size)) {
        RepliedMetered(s.lim, p, callId, size);
        ToHostStable(s, i, Replied(p, callId, size), f);
      }
    case _ =>
  }

  lemma FromWorkerStable(s: State, w: Wire, f: WorkerFrame)
    requires Stable(s)
    ensures Stable(FromWorker(s, w, f))
    ensures FromWorker(s, w, f).lim == s.lim
  {
    hide Stable, Cancel, FromOwner, Submit;
    Quiet(s, Say(s, Refused(w)));
    if f.Open? {
      SubmitStable(s, f.request, w);
    } else if !f.Nameless? {
      CancelStable(s, f.id, w);
      var i := PendingAt(s.pending, f.id);
      if i >= 0 { FromOwnerStable(s, i, w, f); }
    }
  }

  // ---- Continuations ----

  lemma UnavailableStable(s: State, op: Op)
    requires Stable(s)
    ensures Stable(Unavailable(s, op))
    ensures Unavailable(s, op).lim == s.lim
  {
    hide Stable, Finish;
    FinishStable(s, op.request.id);
    var t := Finish(s, op.request.id);
    Quiet(t, Say(t, HubEnd(op.worker, op.request.id)));
  }

  /** An id joins `seen` only when its record's single authorization has been consumed. */
  lemma SeenKeeps(s: State, i: nat)
    requires Stable(s) && i < |s.pending|
    requires forall k | k in s.tasks && s.tasks[k].OpenAuth? :: s.tasks[k].token != s.pending[i].token
    ensures Stable(s.(seen := s.seen + {s.pending[i].request.id}))
  {
    var t := s.(seen := s.seen + {s.pending[i].request.id});
    var p := s.pending[i];
    assert p in s.pending;
    assert Waiting(t.probes, t.seen);
    assert Unsent(t.tasks, t.pending, t.seen) by {
      forall k, x | k in t.tasks && t.tasks[k].OpenAuth? && x in t.pending && x.token == t.tasks[k].token
        ensures x.request.id !in t.seen
      {
        assert Known(x, s.ops, s.connections) && Known(p, s.ops, s.connections);
        var j :| 0 <= j < |s.pending| && s.pending[j] == x;
        SameIndex(s, i, j);
      }
    }
  }

  lemma AuthorizedStable(s: State, token: nat, outcome: Outcome)
    requires Stable(s) && token < |s.ops|
    requires forall k | k in s.tasks && s.tasks[k].OpenAuth? :: s.tasks[k].token != token
    ensures Stable(Authorized(s, token, s.ops[token], outcome))
    ensures Authorized(s, token, s.ops[token], outcome).lim == s.lim
  {
    hide Stable, Unavailable, Detach;
    var op := s.ops[token];
    UnavailableStable(s, op);
    if outcome.Yes? && s.host.Some? && s.host.value.connection == op.connection {
      var i := PendingAt(s.pending, op.request.id);
      if i >= 0 && s.pending[i].token == token {
        SeenKeeps(s, i);
        var t := s.(seen := s.seen + {op.request.id});
        StableCore(t);
        DetachKeeps(t);
        UnavailableStable(Detach(t), op);
        var u := Say(t, Forwarded(token, op.connection, op.request));
        Quiet(t, u);
        AwaitStable(u, OpenSend(token));
      }
    }
  }

  lemma FrameAuthorizedStable(s: State, t: Task, outcome: Outcome)
    requires Stable(s) && t.FrameAuth? && GoodTask(t, s.ops)
    ensures Stable(FrameAuthorized(s, t, s.ops[t.token], outcome))
    ensures FrameAuthorized(s, t, s.ops[t.token], outcome).lim == s.lim
  {
    hide Stable, Cancel, Deliver;
    CancelStable(s, t.frame.id, s.ops[t.token].worker);
    Quiet(s, Say(s, Refused(t.wire)));
    var i := PendingAt(s.pending, t.frame.id);
    if i >= 0 { DeliverStable(s, i, t.wire, t.connection, t.frame); }
  }

  /** Taking a task leaves no other authorization for the same record. */
  lemma TaskTaken(s: State, k: nat)
    requires Stable(s) && k in s.tasks
    ensures Stable(s.(tasks := s.tasks - {k}))
    ensures GoodTask(s.tasks[k], s.ops)
    ensures s.tasks[k].OpenAuth? ==>
              forall l | l in s.tasks - {k} && s.tasks[l].OpenAuth? :: s.tasks[l].token != s.tasks[k].token
  {
    var t := s.(tasks := s.tasks - {k});
    assert forall l | l in t.tasks :: l in s.tasks && t.tasks[l] == s.tasks[l];
    assert Scheduled(t);
  }

  lemma ResumeStable(s: State, k: nat, outcome: Outcome)
    requires Stable(s)
    ensures Stable(Resume(s, k, outcome))
    ensures Resume(s, k, outcome).lim == s.lim
  {
    hide Stable, Unavailable, Authorized, FrameAuthorized, Finish;
    if k in s.tasks {
      TaskTaken(s, k);
      var t := s.tasks[k];
      var s' := s.(tasks := s.tasks - {k});
      UnavailableStable(s', s.ops[t.token]);
      match t
      case OpenAuth(token) => AuthorizedStable(s', token, outcome);
      case OpenSend(_) =>
      case FrameAuth(_, _, _, _) => FrameAuthorizedStable(s', t, outcome);
      case EndSent(token) => FinishStable(s', s.ops[token].request.id);
    }
  }

  lemma StepStable(s: State, e: Event)
    requires Stable(s)
    ensures Stable(Step(s, e))
    ensures Step(s, e).lim == s.lim
  {
    hide Stable, Attach, Detach, FromHost, FromWorker, Cancel, CloseWorker, Resume;
    StableCore(s);
    DetachKeeps(s);
    match e
    case Attaches(wire, ownerId, registration) => AttachStable(s, wire, ownerId, registration);
    case Detaches =>
    case WireCloses(_) =>
    case HostSends(wire, f) => FromHostStable(s, wire, f);
    case WorkerSends(w, f) => FromWorkerStable(s, w, f);
    case Cancels(id, w) => CancelStable(s, id, w);
    case WorkerCloses(w) => CloseWorkerStable(s, w);
    case Settles(k, outcome) => ResumeStable(s, k, outcome);
  }

  lemma InitStable(lim: Limits)
    ensures Stable(Init(lim))
  {
  }

  lemma {:induction false} RunStable(lim: Limits, events: seq<Event>)
    ensures Stable(Run(lim, events)) && Run(lim, events).lim == lim
  {
    hide Stable, Step;
    if events == [] {
      InitStable(lim);
    } else {
      RunStable(lim, events[..|events| - 1]);
      StepStable(Run(lim, events[..|events| - 1]), events[|events| - 1]);
    }
  }
}
