/** Every step keeps the history properties; the theorems about whole runs close the file. */
module HubTheorems {
  import opened Options
  import opened HubModel
  import opened HubSafety
  import opened HubSteps
  import opened HubMonitor
  import opened HubHistory
  import opened HubAnswers
  import opened HubRuns

  // ---- Losing the host ----

  lemma LoseChron(s: State, run: string, x: set<string>)
    requires Chronicle(s, x)
    ensures Chronicle(Lose(s, run), x)
  {
    hide Told, Sent, Marked, Honest;
    LostSent(s, run);
    QuietHonest(s, Lose(s, run), x);
    var t := s.(lostRuns := s.lostRuns + {run});
    LostRunsChron(s, t.lostRuns);
    QuietTold(t, Lost(run));
    QuietMarked(t, Lost(run));
  }

  lemma LostRunsChron(s: State, lost: set<string>)
    ensures Told(s) ==> Told(s.(lostRuns := lost))
    ensures Marked(s) ==> Marked(s.(lostRuns := lost))
  {
  }

  lemma LoseFirstPendingChron(s: State)
    requires Core(s) && Chronicle(s, {}) && s.pending != []
    ensures Chronicle(LoseFirstPending(s), {})
  {
    hide Chronicle, Core;
    var p := s.pending[0];
    var id := p.request.id;
    assert s.pending[1..] == Without(s.pending, 0);
    RecordArrival(s, 0);
    ClosedChron(s, 0, {});
    var closed := Say(s.(pending := s.pending[1..]), Closed(p.token));
    assert {} + {id} == {id};
    LoseChron(closed, p.request.run, {id});
    var lost := Lose(closed, p.request.run);
    MuteChron(lost, HubEnd(p.worker, id), {id});
    var v := Say(lost, HubEnd(p.worker, id));
    if DistinctArrivals(s.arrivals) {
      WorkerOfArrival(s, s.ops[p.token].arrival, p.request, p.worker);
    }
    WorkerIgnoresLog(s, v, id, p.worker);
    SettleChron(v, id, p.worker);
  }

  lemma SettleChron(s: State, id: string, w: Wire)
    requires Chronicle(s, {id}) && Ended(s.log, w, id)
    requires DistinctArrivals(s.arrivals) ==> WorkerOf(s, id, w)
    ensures Chronicle(s, {})
  {
    hide Told, Sent, Marked, Honest;
    assert {} + {id} == {id};
    Settle(s, id, w, {});
  }

  lemma {:induction false} LosePendingChron(s: State)
    requires Core(s) && s.host.None? && Chronicle(s, {})
    ensures Chronicle(LosePending(s), {})
    decreases |s.pending|
  {
    hide Chronicle, Core;
    if s.pending != [] {
      LoseFirstPendingKeeps(s);
      LoseFirstPendingChron(s);
      LosePendingChron(LoseFirstPending(s));
    }
  }

  lemma LoseFirstProbeChron(s: State)
    requires Core(s) && s.host.None? && Chronicle(s, {}) && s.probes != []
    ensures Chronicle(LoseFirstProbe(s), {})
  {
    hide Chronicle;
    var run := s.probes[0].request.run;
    LoseChron(s, run, {});
    assert Core(Lose(s, run));
    CancelProbeChron(Lose(s, run), 0, {});
  }

  lemma {:induction false} LoseProbesChron(s: State)
    requires Core(s) && s.host.None? && Chronicle(s, {})
    ensures Chronicle(LoseProbes(s), {})
    decreases |s.probes|
  {
    hide Chronicle, Core;
    if s.probes != [] {
      LoseFirstProbeKeeps(s);
      LoseFirstProbeChron(s);
      LoseProbesChron(LoseFirstProbe(s));
    }
  }

  lemma DetachChron(s: State)
    requires Core(s) && Chronicle(s, {})
    ensures Chronicle(Detach(s), {})
  {
    hide Chronicle, Core;
    var u := Unhost(s);
    UnhostKeeps(s);
    FrameChron(s, u, {});
    LosePendingKeeps(u);
    LosePendingChron(u);
    LoseProbesChron(LosePending(u));
  }

  // Detaching does not look at the ids already seen.

  lemma {:induction false} LosePendingSeen(s: State, seen: set<string>)
    ensures LosePending(s.(seen := seen)) == LosePending(s).(seen := seen)
    decreases |s.pending|
  {
    if s.pending != [] {
      LosePendingSeen(LoseFirstPending(s), seen);
      assert LoseFirstPending(s.(seen := seen)) == LoseFirstPending(s).(seen := seen);
    }
  }

  lemma {:induction false} LoseProbesSeen(s: State, seen: set<string>)
    ensures LoseProbes(s.(seen := seen)) == LoseProbes(s).(seen := seen)
    decreases |s.probes|
  {
    if s.probes != [] {
      LoseProbesSeen(LoseFirstProbe(s), seen);
      assert LoseFirstProbe(s.(seen := seen)) == LoseFirstProbe(s).(seen := seen);
    }
  }

  lemma DetachSeen(s: State, seen: set<string>)
    ensures Detach(s.(seen := seen)) == Detach(s).(seen := seen)
  {
    var u := Unhost(s);
    assert Unhost(s.(seen := seen)) == u.(seen := seen);
    LosePendingSeen(u, seen);
    LoseProbesSeen(LosePending(u), seen);
  }

  /** Once nothing is open, an id may join `seen` without having been forwarded. */
  lemma IdleSeenChron(s: State, id: string)
    requires Chronicle(s, {}) && s.pending == []
    ensures Chronicle(s.(seen := s.seen + {id}), {})
  {
    hide Sent, Honest, Marked;
    SeenSent(s, id);
    var t := s.(seen := s.seen + {id});
    QuietHonest(s, t, {});
    assert Marked(t) by { MarkedSame(s, t); }
  }

  lemma MarkedSame(s: State, t: State)
    requires Marked(s) && t.ops == s.ops && t.probes == s.probes && t.tasks == s.tasks && t.log == s.log
    ensures Marked(t)
  {
  }

  // ---- Requests ----

  lemma ArrivalChron(s: State, a: Arrival)
    requires Chronicle(s, {})
    ensures Chronicle(s.(arrivals := s.arrivals + [a]), {a.request.id})
    ensures DistinctArrivals(s.arrivals + [a]) ==> Forgotten(s, a.request.id)
  {
    var t := s.(arrivals := s.arrivals + [a]);
    if DistinctArrivals(t.arrivals) {
      assert DistinctArrivals(s.arrivals) && forall b | b in s.arrivals :: b.request.id != a.request.id by {
        assert forall i | 0 <= i < |s.arrivals| :: t.arrivals[i] == s.arrivals[i];
        assert t.arrivals[|s.arrivals|] == a;
      }
      UnarrivedIsForgotten(s, a.request.id);
      assert NoSilentDrop(t, {a.request.id}) by {
        forall b | b in t.arrivals && b.request.id !in {a.request.id} ensures Accounted(t, b) {
          assert b in s.arrivals && Accounted(s, b);
        }
      }
      assert Memory(t) by {
        forall w: Wire, id: string | id in RememberedBy(t.log, w) ensures HasArrived(t.arrivals, id) && !Holds(t, id) {
          assert HasArrived(s.arrivals, id) && !Holds(s, id);
        }
      }
    }
  }

  lemma EnqueueChron(s: State, r: Request, w: Wire, n: nat)
    requires Core(s) && Chronicle(s, {r.id})
    requires forall op | op in s.ops :: op.arrival < n
    requires DistinctArrivals(s.arrivals) ==> Forgotten(s, r.id)
    ensures Chronicle(Enqueue(s, Probe(r, w, n)), {})
  {
    hide Told, Sent, Honest;
    var t := s.(probes := s.probes + [Probe(r, w, n)]);
    forall id: string ensures Holds(t, id) <==> (Holds(s, id) || id == r.id) {
      assert t.probes[|s.probes|].request.id == r.id;
      assert forall j | 0 <= j < |s.probes| :: t.probes[j] == s.probes[j];
    }
    assert {} + {r.id} == {r.id};
    HoldHonest(s, t, r.id, {});
    ProbesChron(s, t.probes);
    MuteChron(t, Queued(Probe(r, w, n)), {});
  }

  lemma ProbesChron(s: State, qs: seq<Probe>)
    ensures Told(s) ==> Told(s.(probes := qs))
    ensures Sent(s) ==> Sent(s.(probes := qs))
  {
  }

  lemma SubmitChron(s: State, r: Request, w: Wire)
    requires Stable(s) && Chronicle(s, {})
    ensures Chronicle(Submit(s, r, w), {})
  {
    hide Chronicle, Core, Refuses, DistinctArrivals, Forgotten;
    var n, a := |s.arrivals|, Arrival(r, w);
    var t := s.(arrivals := s.arrivals + [a]);
    EarlierArrivals(s);
    ArrivalKeeps(s, a);
    ArrivalChron(s, a);
    assert ArrivedAs(t.arrivals, n, r, w);
    ForgottenSame(s, t, r.id);
    if Refuses(t, r) {
      MuteChron(t, HubEnd(w, r.id), {r.id});
      var v := Say(t, HubEnd(w, r.id));
      if DistinctArrivals(t.arrivals) { WorkerOfArrival(t, n, r, w); }
      WorkerIgnoresLog(t, v, r.id, w);
      SettleChron(v, r.id, w);
    } else if FleetProbe(r) && !ProbeCapacity(t.lim, t.pending) {
      EnqueueChron(t, r, w, n);
    } else {
      Admitted(t, r);
      assert {} + {r.id} == {r.id};
      ReserveChron(t, r, w, n, {});
    }
  }

  lemma Admitted(s: State, r: Request)
    requires !Refuses(s, r)
    ensures s.host.Some? && r.id !in s.seen
  {
  }

  lemma ForgottenSame(s: State, t: State, id: string)
    requires s.log == t.log
    ensures Forgotten(s, id) == Forgotten(t, id)
  {
  }

  // ---- Frames ----

  lemma UpdateHeld(s: State, i: nat, p: Pending, id: string)
    requires i < |s.pending| && p.request == s.pending[i].request
    ensures Holds(s.(pending := s.pending[i := p]), id) <==> Holds(s, id)
  {
    var qs := s.pending[i := p];
    assert forall k | 0 <= k < |qs| :: qs[k].request == s.pending[k].request;
  }

  lemma UpdateChron(s: State, i: nat, p: Pending, e: Entry)
    requires Stable(s) && Chronicle(s, {}) && i < |s.pending|
    requires p.token == s.pending[i].token && p.request == s.pending[i].request && p.last >= -1
    requires e.Relayed? || e.Upstream?
    requires e.token == p.token && p.token < |s.ops| && s.pending[i].last >= -1
    requires Watch(s.lim, p.token, LiveOf(s.ops[p.token], s.seen, s.pending[i]), e) == LiveOf(s.ops[p.token], s.seen, p)
    ensures Chronicle(Say(s.(pending := s.pending[i := p]), e), {})
  {
    hide Stable, Core, Told, Sent, Marked, Honest, Holds, Watch;
    StableCore(s);
    UpdateTold(s, i, p, e);
    var t := s.(pending := s.pending[i := p]);
    PendingSent(s, t.pending);
    QuietSent(t, e);
    QuietMarked(t, e);
    forall id: string ensures Holds(Say(t, e), id) <==> Holds(s, id) {
      UpdateHeld(s, i, p, id);
      HoldsIgnoresLog(t, Say(t, e), id);
    }
    SameHonest(s, Say(t, e), {});
  }

  /** An accepted frame of the host moves the observer exactly as it moves the record. */
  lemma ReceivedWatched(s: State, i: nat, connection: nat, f: HostFrame)
    requires Stable(s) && i < |s.pending|
    requires !f.Health? && f.id == s.pending[i].request.id
    requires AcceptsFrame(s.lim, s.pending[i], f) && Received(s.pending[i], f).bytes <= s.lim.totalBytes
    requires s.pending[i].token < |s.ops| && connection == s.ops[s.pending[i].token].connection
    ensures var p := s.pending[i]; var p' := Received(p, f);
            && p.last >= -1 && p'.last >= -1
            && Watch(s.lim, p.token, LiveOf(s.ops[p.token], s.seen, p), Relayed(p.token, p.worker, connection, f))
                 == LiveOf(s.ops[p.token], s.seen, p')
  {
    hide Stable;
    RecordFacts(s, i);
  }

  lemma RecordBegun(s: State, i: nat)
    requires Stable(s) && Told(s) && i < |s.pending|
    ensures s.pending[i].token < |s.ops| && Begun(s.log, s.ops[s.pending[i].token].arrival)
  {
    hide Stable, Core, Begun;
    var t := s.pending[i].token;
    StableCore(s);
    TokensDistinct(s);
    TokenFound(s.pending, i);
    assert Observe(s.lim, t, s.log) == Expected(s.pending, s.ops, s.seen, t);
    LiveBegun(s.lim, t, s.log);
  }

  /** Relaying an end frame answers the request it was opened for. */
  lemma EndAnswers(s: State, i: nat, connection: nat, f: HostFrame)
    requires Stable(s) && Chronicle(s, {}) && i < |s.pending| && f.End? && f.id == s.pending[i].request.id
    ensures s.pending[i].token < |s.ops|
    ensures var p := s.pending[i]; var op := s.ops[p.token];
            Answered(Then(s.log, Relayed(p.token, p.worker, connection, f)), op.arrival, op.worker, op.request.id)
  {
    hide Stable, Sent, Marked, Honest, Begun, Metered;
    RecordFacts(s, i);
    RecordBegun(s, i);
  }

  lemma DeliverChron(s: State, i: nat, wire: Wire, connection: nat, f: HostFrame)
    requires Stable(s) && Chronicle(s, {}) && i < |s.pending|
    requires !f.Health? && f.id == s.pending[i].request.id
    requires s.pending[i].token < |s.ops| && connection == s.ops[s.pending[i].token].connection
    ensures Chronicle(Deliver(s, i, wire, connection, f), {})
  {
    hide Stable, Chronicle, Cancel, Metered;
    var p := s.pending[i];
    RecordFacts(s, i);
    MuteChron(s, Refused(wire), {});
    if AcceptsFrame(s.lim, p, f) {
      var p' := Received(p, f);
      if p'.bytes > s.lim.totalBytes {
        CancelChron(s, p.request.id, p.worker);
      } else {
        ReceivedWatched(s, i, connection, f);
        var e := Relayed(p.token, p.worker, connection, f);
        UpdateChron(s, i, p', e);
        if f.End? {
          ReceivedMetered(s.lim, p, f);
          UpdateStable(s, i, p');
          var t := s.(pending := s.pending[i := p']);
          Quiet(t, Say(t, e));
          StableCore(Say(t, e));
          EndAnswers(s, i, connection, f);
          AwaitChron(Say(t, e), EndSent(p.token), {});
        }
      }
    }
  }

  lemma AckWatched(s: State, i: nat, n: nat)
    requires Stable(s) && i < |s.pending| && s.pending[i].ack < n <= s.pending[i].last
    ensures var p := s.pending[i]; var p' := p.(ack := n);
            && p.token < |s.ops| && p.last >= -1 && s.host.Some?
            && Watch(s.lim, p.token, LiveOf(s.ops[p.token], s.seen, p),
                     Upstream(p.token, p.worker, s.host.value.connection, Ack(p.request.id, n)))
                 == LiveOf(s.ops[p.token], s.seen, p')
  {
    hide Stable;
    RecordFacts(s, i);
  }

  lemma ReplyWatched(s: State, i: nat, f: WorkerFrame)
    requires Stable(s) && i < |s.pending| && f.Reply? && f.id == s.pending[i].request.id
    requires f.callId in s.pending[i].calls && !OverReplyBudget(s.lim, Replied(s.pending[i], f.callId, f.size))
    ensures var p := s.pending[i]; var p' := Replied(p, f.callId, f.size);
            && p.token < |s.ops| && p.last >= -1 && s.host.Some?
            && Watch(s.lim, p.token, LiveOf(s.ops[p.token], s.seen, p),
                     Upstream(p.token, p.worker, s.host.value.connection, f))
                 == LiveOf(s.ops[p.token], s.seen, p')
  {
    hide Stable;
    RecordFacts(s, i);
  }

  lemma FromOwnerChron(s: State, i: nat, w: Wire, f: WorkerFrame)
    requires Stable(s) && Chronicle(s, {}) && i < |s.pending|
    requires !f.Open? && !f.Nameless? && f.id == s.pending[i].request.id
    ensures Chronicle(FromOwner(s, i, w, f), {})
  {
    hide Stable, Chronicle, Cancel, Metered, Watch;
    var p := s.pending[i];
    RecordFacts(s, i);
    MuteChron(s, Refused(w), {});
    CancelChron(s, p.request.id, w);
    match f
    case Ack(_, n) =>
      if p.ack < n <= p.last {
        AckWatched(s, i, n);
        UpdateChron(s, i, p.(ack := n), Upstream(p.token, p.worker, s.host.value.connection, f));
      }
    case Reply(_, callId, _, _, size) =>
      if callId in p.calls && !OverReplyBudget(s.lim, Replied(p, callId, size)) {
        ReplyWatched(s, i, f);
        UpdateChron(s, i, Replied(p, callId, size), Upstream(p.token, p.worker, s.host.value.connection, f));
      }
    case _ =>
  }

  lemma FromWorkerChron(s: State, w: Wire, f: WorkerFrame)
    requires Stable(s) && Chronicle(s, {})
    ensures Chronicle(FromWorker(s, w, f), {})
  {
    hide Stable, Chronicle, Cancel, FromOwner, Submit;
    MuteChron(s, Refused(w), {});
    if f.Open? {
      SubmitChron(s, f.request, w);
    } else if !f.Nameless? {
      CancelChron(s, f.id, w);
      var i := PendingAt(s.pending, f.id);
      if i >= 0 { FromOwnerChron(s, i, w, f); }
    }
  }

  lemma FromHostChron(s: State, wire: Wire, f: HostFrame)
    requires Stable(s) && Chronicle(s, {})
    ensures Chronicle(FromHost(s, wire, f), {})
  {
    hide Stable, Chronicle;
    if s.host.None? || s.host.value.wire != wire {
    } else if f.Health? {
      FrameChron(s, s.(relay := f.providerRelay), {});
    } else {
      var i := PendingAt(s.pending, f.id);
      if i >= 0 {
        RecordFacts(s, i);
        StableCore(s);
        AwaitChron(s, FrameAuth(s.pending[i].token, wire, s.host.value.connection, f), {});
      }
    }
  }

  // ---- Continuations ----

  lemma OpArrival(s: State, token: nat)
    requires Core(s) && token < |s.ops|
    ensures ArrivedAs(s.arrivals, s.ops[token].arrival, s.ops[token].request, s.ops[token].worker)
  {
    assert s.ops[token] in s.ops;
  }

  lemma UnavailableChron(s: State, token: nat)
    requires Stable(s) && Chronicle(s, {}) && token < |s.ops|
    ensures Chronicle(Unavailable(s, s.ops[token]), {})
  {
    hide Stable, Core, Chronicle, Finish, DistinctArrivals, ArrivedAs, ProbeCapacity;
    var op := s.ops[token];
    var id := op.request.id;
    StableCore(s);
    OpArrival(s, token);
    FinishKeeps(s, id);
    FinishChron(s, id, {});
    assert {} + {id} == {id};
    var t := Finish(s, id);
    MuteChron(t, HubEnd(op.worker, id), {id});
    var v := Say(t, HubEnd(op.worker, id));
    if DistinctArrivals(s.arrivals) { WorkerOfArrival(s, op.arrival, op.request, op.worker); }
    WorkerIgnoresLog(s, v, id, op.worker);
    SettleChron(v, id, op.worker);
  }

  lemma FencedRecord(s: State, i: nat)
    requires Stable(s) && i < |s.pending|
    ensures s.pending[i].request.run in s.lostRuns ==> s.pending[i].request.operation.BoardRun?
  {
    assert s.pending[i] in s.pending;
  }

  lemma ForwardChron(s: State, i: nat)
    requires Stable(s) && Chronicle(s, {}) && i < |s.pending|
    requires s.pending[i].request.id !in s.seen && |s.seen| < MAX_HISTORY
    ensures s.pending[i].token < |s.ops|
    ensures var op := s.ops[s.pending[i].token];
            Chronicle(Say(s.(seen := s.seen + {op.request.id}),
                          Forwarded(s.pending[i].token, op.connection, op.request)), {})
  {
    hide Core, Stable, Told, Sent, Marked, Honest;
    RecordFacts(s, i);
    StableCore(s);
    var p := s.pending[i];
    var e := Forwarded(p.token, s.ops[p.token].connection, p.request);
    FencedRecord(s, i);
    forall j | 0 <= j < |s.pending| && j != i ensures s.pending[j].request.id != p.request.id { SameIndex(s, i, j); }
    ForwardTold(s, i, e);
    ForwardSent(s, e);
    var n := Say(s.(seen := s.seen + {p.request.id}), e);
    QuietHonest(s, n, {});
    QuietMarked(s, e);
    MarkedSame(Say(s, e), n);
  }

  lemma AuthorizedChron(s: State, token: nat, outcome: Outcome)
    requires Stable(s) && Chronicle(s, {}) && token < |s.ops|
    requires forall k | k in s.tasks && s.tasks[k].OpenAuth? :: s.tasks[k].token != token
    requires forall p | p in s.pending && p.token == token :: p.request.id !in s.seen
    ensures Chronicle(Authorized(s, token, s.ops[token], outcome), {})
  {
    hide Stable, Chronicle, Unavailable, Detach;
    var op := s.ops[token];
    UnavailableChron(s, token);
    if outcome.Yes? && s.host.Some? && s.host.value.connection == op.connection {
      var i := PendingAt(s.pending, op.request.id);
      if i >= 0 && s.pending[i].token == token {
        SeenKeeps(s, i);
        RecordFacts(s, i);
        var t := s.(seen := s.seen + {op.request.id});
        if |t.seen| > MAX_HISTORY {
          OverflowChron(s, t, token);
        } else {
          assert |t.seen| == |s.seen| + 1;
          ForwardChron(s, i);
          var u := Say(t, Forwarded(token, op.connection, op.request));
          Quiet(t, u);
          StableCore(u);
          AwaitChron(u, OpenSend(token), {});
        }
      }
    }
  }

  lemma OverflowChron(s: State, t: State, token: nat)
    requires Stable(s) && Stable(t) && Chronicle(s, {}) && token < |s.ops|
    requires t == s.(seen := s.seen + {s.ops[token].request.id})
    ensures Chronicle(Unavailable(Detach(t), s.ops[token]), {})
  {
    hide Stable, Chronicle, Unavailable, Detach;
    var id := s.ops[token].request.id;
    StableCore(s);
    StableCore(t);
    DetachKeeps(s);
    DetachKeeps(t);
    DetachChron(s);
    DetachSeen(s, t.seen);
    IdleSeenChron(Detach(s), id);
    UnavailableChron(Detach(t), token);
  }

  lemma FrameAuthorizedChron(s: State, t: Task, outcome: Outcome)
    requires Stable(s) && Chronicle(s, {}) && t.FrameAuth? && GoodTask(t, s.ops)
    ensures Chronicle(FrameAuthorized(s, t, s.ops[t.token], outcome), {})
  {
    hide Stable, Chronicle, Cancel, Deliver;
    CancelChron(s, t.frame.id, s.ops[t.token].worker);
    MuteChron(s, Refused(t.wire), {});
    var i := PendingAt(s.pending, t.frame.id);
    if i >= 0 && s.pending[i].token == t.token {
      DeliverChron(s, i, t.wire, t.connection, t.frame);
    }
  }

  lemma UnsentFact(s: State, k: nat)
    requires Stable(s) && k in s.tasks && s.tasks[k].OpenAuth?
    ensures forall p | p in s.pending && p.token == s.tasks[k].token :: p.request.id !in s.seen
  {
  }

  lemma EndSentFact(s: State, k: nat)
    requires Chronicle(s, {}) && k in s.tasks && s.tasks[k].EndSent? && s.tasks[k].token < |s.ops|
    ensures Ended(s.log, s.ops[s.tasks[k].token].worker, s.ops[s.tasks[k].token].request.id)
  {
    var op := s.ops[s.tasks[k].token];
    AnsweredEnded(s.log, op.arrival, op.worker, op.request.id);
  }

  lemma ResumeChron(s: State, k: nat, outcome: Outcome)
    requires Stable(s) && Chronicle(s, {})
    ensures Chronicle(Resume(s, k, outcome), {})
  {
    hide Stable, Chronicle, Unavailable, Authorized, FrameAuthorized, Finish;
    if k in s.tasks {
      TaskTaken(s, k);
      TakenChron(s, k, {});
      var t := s.tasks[k];
      var s' := s.(tasks := s.tasks - {k});
      UnavailableChron(s', t.token);
      match t
      case OpenAuth(token) =>
        UnsentFact(s, k);
        AuthorizedChron(s', token, outcome);
      case OpenSend(_) =>
      case FrameAuth(_, _, _, _) => FrameAuthorizedChron(s', t, outcome);
      case EndSent(token) =>
        EndSentFact(s, k);
        StableCore(s');
        OpArrival(s', token);
        var op := s.ops[token];
        if DistinctArrivals(s'.arrivals) { WorkerOfArrival(s', op.arrival, op.request, op.worker); }
        FinishAnswered(s', op.request.id, op.worker);
    }
  }

  // ---- Walks over one worker's operations ----

  lemma {:induction false} CloseProbesChron(s: State, w: Wire, i: nat)
    requires Stable(s) && Chronicle(s, {})
    ensures Chronicle(CloseProbes(s, w, i), {})
    decreases |s.probes| - i
  {
    hide Stable, Chronicle;
    if i >= |s.probes| {
    } else if s.probes[i].worker == w {
      StableCore(s);
      CancelProbeStable(s, i);
      CancelProbeChron(s, i, {});
      CloseProbesChron(CancelProbe(s, i), w, i);
    } else {
      CloseProbesChron(s, w, i + 1);
    }
  }

  lemma {:induction false} ClosePendingChron(s: State, w: Wire, i: nat)
    requires Stable(s) && Chronicle(s, {})
    ensures Chronicle(ClosePending(s, w, i), {})
    decreases |s.probes|, |s.pending| - i
  {
    hide Stable, Chronicle, CancelPending;
    if i >= |s.pending| {
    } else if s.pending[i].worker == w {
      CancelPendingShrinks(s, i);
      CancelPendingStable(s, i);
      CancelPendingChron(s, i);
      ClosePendingChron(CancelPending(s, i), w, i);
    } else {
      ClosePendingChron(s, w, i + 1);
    }
  }

  // ---- Whole runs ----

  lemma StepChron(s: State, e: Event)
    requires Stable(s) && Chronicle(s, {})
    ensures Chronicle(Step(s, e), {})
  {
    hide Stable, Chronicle, Detach, FromHost, FromWorker, Cancel, CloseProbes, ClosePending, Resume;
    StableCore(s);
    DetachChron(s);
    match e
    case Attaches(wire, ownerId, registration) =>
      FrameChron(Detach(s), Attach(s, wire, ownerId, registration), {});
    case Detaches =>
    case WireCloses(_) =>
    case HostSends(wire, f) => FromHostChron(s, wire, f);
    case WorkerSends(w, f) => FromWorkerChron(s, w, f);
    case Cancels(id, w) => CancelChron(s, id, w);
    case WorkerCloses(w) =>
      CloseProbesStable(s, w, 0);
      CloseProbesChron(s, w, 0);
      ClosePendingChron(CloseProbes(s, w, 0), w, 0);
    case Settles(k, outcome) => ResumeChron(s, k, outcome);
  }

  lemma InitChron(lim: Limits)
    ensures Chronicle(Init(lim), {})
  {
  }

  lemma {:induction false} RunChron(lim: Limits, events: seq<Event>)
    ensures Stable(Run(lim, events)) && Chronicle(Run(lim, events), {})
  {
    hide Stable, Chronicle, Step;
    RunStable(lim, events);
    if events == [] {
      InitChron(lim);
    } else {
      var before := Run(lim, events[..|events| - 1]);
      RunChron(lim, events[..|events| - 1]);
      StepChron(before, events[|events| - 1]);
    }
  }
}
