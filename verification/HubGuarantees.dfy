/** What the hub promises, stated for every run: any sequence of events, any interleaving of authorizations. */
module HubGuarantees {
  import opened Options
  import opened HubModel
  import opened HubSafety
  import opened HubSteps
  import opened HubMonitor
  import opened HubHistory
  import opened HubAnswers
  import opened HubRuns
  import opened HubTheorems
  import opened HubMemory
  import opened HubDrops

  /** Slots, the probe share and the queue are bounded; nothing is held without a host. */
  lemma SlotLimits(lim: Limits, events: seq<Event>)
    ensures var s := Run(lim, events);
            && s.lim == lim
            && |s.pending| <= lim.inFlight
            && CountProbes(s.pending) <= lim.inFlight / 2
            && |s.probes| <= MAX_PROBES
            && (s.host.None? ==> s.pending == [] && s.probes == [])
            && (s.probes != [] ==> !ProbeCapacity(lim, s.pending))
  {
    RunStable(lim, events);
  }

  /** The observer never sees an operation misbehave, at any prefix of any run. */
  lemma NeverBad(lim: Limits, events: seq<Event>, t: nat)
    ensures !Observe(lim, t, Run(lim, events).log).Bad?
  {
    hide Stable, Sent, Marked, Honest;
    RunChron(lim, events);
    RunStable(lim, events);
    var s := Run(lim, events);
    assert Observe(s.lim, t, s.log) == Expected(s.pending, s.ops, s.seen, t);
  }

  /** Relayed stream frames are 0, 1, 2, ...; byte budgets and the callback window hold. */
  lemma RelayedInOrder(lim: Limits, events: seq<Event>, t: nat)
    ensures var log := Run(lim, events).log;
            && Counted(Streams(log, t))
            && DownBytes(log, t) <= lim.totalBytes
            && UpBytes(log, t) <= lim.totalBytes
            && RepliesForwarded(log, t) <= CallbacksRelayed(log, t) <= RepliesForwarded(log, t) + lim.window
  {
    NeverBad(lim, events, t);
    AcceptedStreams(lim, t, Run(lim, events).log);
    AcceptedBytes(lim, t, Run(lim, events).log);
    AcceptedCallbacks(lim, t, Run(lim, events).log);
  }

  /** The counters of an open operation are the sums over what was relayed for it. */
  lemma OpenCounters(lim: Limits, events: seq<Event>, i: nat)
    requires i < |Run(lim, events).pending|
    ensures var s := Run(lim, events); var p := s.pending[i];
            && -1 <= p.ack <= p.last <= p.ack + lim.window
            && |Streams(s.log, p.token)| == p.last + 1
            && DownBytes(s.log, p.token) == p.bytes
            && UpBytes(s.log, p.token) == p.workerBytes
            && CallbacksRelayed(s.log, p.token) - RepliesForwarded(s.log, p.token) == |p.calls|
            && (Hermes(p.request) ==>
                  && p.providerBytes + p.otherBytes == p.workerBytes
                  && p.providerBytes <= MAX_PROVIDER_BYTES && p.otherBytes <= MAX_OTHER_BYTES)
  {
    hide Stable, Core, Sent, Marked, Honest;
    RunChron(lim, events);
    RunStable(lim, events);
    NeverBad(lim, events, Run(lim, events).pending[i].token);
    var s := Run(lim, events);
    var p := s.pending[i];
    StableCore(s);
    RecordFacts(s, i);
    TokensDistinct(s);
    TokenFound(s.pending, i);
    assert Observe(s.lim, p.token, s.log) == Expected(s.pending, s.ops, s.seen, p.token);
    AcceptedStreams(lim, p.token, s.log);
    AcceptedBytes(lim, p.token, s.log);
    AcceptedCallbacks(lim, p.token, s.log);
  }

  /** Probes are opened in the order in which they arrived. */
  lemma ProbesInArrivalOrder(lim: Limits, events: seq<Event>)
    ensures var ops := Run(lim, events).ops;
            forall t, u | 0 <= t < u < |ops| && FleetProbe(ops[t].request) && FleetProbe(ops[u].request) ::
              ops[t].arrival < ops[u].arrival
  {
    RunStable(lim, events);
  }

  /** An id is forwarded at most once per process, and at most 100,000 requests are forwarded. */
  lemma ForwardedOnce(lim: Limits, events: seq<Event>, id: string)
    ensures Forwards(Run(lim, events).log, id) <= 1
    ensures TotalForwards(Run(lim, events).log) <= MAX_HISTORY
  {
    hide Stable, Told, Marked, Honest;
    RunChron(lim, events);
  }

  /** No request of a lost run is forwarded after the loss, except a board run. */
  lemma LostRunFence(lim: Limits, events: seq<Event>)
    ensures FenceHeld(Run(lim, events).log)
    ensures forall run: string :: LostIn(Run(lim, events).log, run) <==> run in Run(lim, events).lostRuns
  {
    hide Stable, Told, Marked, Honest;
    RunChron(lim, events);
  }

  lemma {:induction false} LosePendingMarks(s: State)
    ensures s.lostRuns <= LosePending(s).lostRuns && LosePending(s).probes == s.probes
    ensures forall p | p in s.pending :: p.request.run in LosePending(s).lostRuns
    decreases |s.pending|
  {
    if s.pending != [] { LosePendingMarks(LoseFirstPending(s)); }
  }

  lemma {:induction false} LoseProbesMarks(s: State)
    ensures s.lostRuns <= LoseProbes(s).lostRuns
    ensures forall q | q in s.probes :: q.request.run in LoseProbes(s).lostRuns
    decreases |s.probes|
  {
    if s.probes != [] {
      LoseProbesMarks(LoseFirstProbe(s));
      assert forall q | q in s.probes :: q == s.probes[0] || q in LoseFirstProbe(s).probes;
    }
  }

  /** A detach marks the run of everything in flight or queued as lost. */
  lemma DetachMarksRuns(s: State)
    ensures forall p | p in s.pending :: p.request.run in Detach(s).lostRuns
    ensures forall q | q in s.probes :: q.request.run in Detach(s).lostRuns
  {
    LosePendingMarks(Unhost(s));
    LoseProbesMarks(LosePending(Unhost(s)));
  }

  /** With distinct request ids, every request is open, queued, or answered by an end frame. */
  lemma EveryRequestAnswered(lim: Limits, events: seq<Event>, n: nat)
    requires DistinctArrivals(Run(lim, events).arrivals) && n < |Run(lim, events).arrivals|
    ensures var s := Run(lim, events); var a := s.arrivals[n];
            || (exists p | p in s.pending :: p.request == a.request && p.worker == a.worker)
            || (exists q | q in s.probes :: q.request == a.request && q.worker == a.worker)
            || Ended(s.log, a.worker, a.request.id)
  {
    hide Stable, Told, Sent, Marked, Memory;
    RunChron(lim, events);
    var s := Run(lim, events);
    var a := s.arrivals[n];
    assert a in s.arrivals && Accounted(s, a);
    StableCore(s);
    if !Ended(s.log, a.worker, a.request.id) {
      var i, j := PendingAt(s.pending, a.request.id), ProbeAt(s.probes, a.request.id);
      if i >= 0 {
        RecordArrival(s, i);
        OneWorker(s, s.ops[s.pending[i].token].arrival, s.pending[i].request, s.pending[i].worker, a);
        assert s.pending[i] in s.pending;
      } else {
        ProbeFacts(s, j);
        OneWorker(s, s.probes[j].arrival, s.probes[j].request, s.probes[j].worker, a);
        assert s.probes[j] in s.probes;
      }
    }
  }

  // ---- Late frames ----

  lemma {:induction false} RecallSmall(ids: seq<string>)
    ensures |Recall(ids)| <= MAX_COMPLETED
  {
    if ids != [] {
      RecallSmall(ids[..|ids| - 1]);
      InsertKeeps(Recall(ids[..|ids| - 1]), ids[|ids| - 1]);
    }
  }

  /**
   A worker's memory is what the ids leave that ended for it: operations that ended while their host
   was there and probes that were withdrawn, never an operation lost with its host. At most 64 stay,
   and with distinct ids they are the 64 most recent.
   */
  lemma RemembersEnded(lim: Limits, events: seq<Event>, w: Wire)
    ensures var s := Run(lim, events);
            && CompletedOf(s.completed, w) == Recall(EndedBy(s.log, w))
            && |CompletedOf(s.completed, w)| <= MAX_COMPLETED
            && QueueOf(s.log) == s.probes
            && (DistinctArrivals(s.arrivals) ==> CompletedOf(s.completed, w) == Latest(EndedBy(s.log, w)))
  {
    hide Stable, Told, Sent, Marked, NoSilentDrop, DistinctArrivals, Recall, EndedBy, QueueOf, RememberedBy, OpOf;
    RunLinked(lim, events);
    RunChron(lim, events);
    var s := Run(lim, events);
    assert RememberedBy(s.log, w) == EndedBy(s.log, w);
    RecallSmall(EndedBy(s.log, w));
  }

  /** A late ack, cancel or reply is absorbed exactly for the ids that ended for the worker and that it still remembers. */
  lemma LateFramesAbsorbed(lim: Limits, events: seq<Event>, w: Wire, f: WorkerFrame)
    requires f.Ack? || f.CancelFrame? || f.Reply?
    requires !Holds(Run(lim, events), f.id)
    ensures var s := Run(lim, events);
            FromWorker(s, w, f) == if f.id in Recall(EndedBy(s.log, w)) then s else Say(s, Refused(w))
    ensures var s := Run(lim, events);
            DistinctArrivals(s.arrivals) ==>
              FromWorker(s, w, f) == if f.id in Latest(EndedBy(s.log, w)) then s else Say(s, Refused(w))
  {
    hide Run, Recall, EndedBy, Latest, DistinctArrivals;
    RemembersEnded(lim, events, w);
  }

  // ---- Where ids are reused ----

  lemma DropEnds(s: State, i: nat, w: Wire, id: string)
    requires i < |s.pending|
    ensures Ended(Drop(s, i).log, w, id) <==> Ended(s.log, w, id)
  {
  }

  const REUSED := Request("a", "r", BoardRun)

  lemma RunSnoc(lim: Limits, events: seq<Event>, e: Event)
    ensures Run(lim, events + [e]) == Step(Run(lim, events), e)
  {
    assert (events + [e])[..|events|] == events;
  }

  /** The hub after worker 1 opened and cancelled the id; its authorization is still outstanding. */
  function Reopened(lim: Limits): State {
    State(lim, Some(Host(0, "o", "g", 0)), false, [], [], {}, {}, map[1 := ["a"]], map[0 := OpenAuth(0)], 1, 1,
          [Op(REUSED, 1, 0, 0)], [Arrival(REUSED, 1)],
          Then(Then(Then(Then(Then(Start, Opened(0, Op(REUSED, 1, 0, 0))), HubCancel(0, 0)), HubEnd(1, "a")),
                    Closed(0)), Remembered(1, "a")))
  }

  lemma FirstWorker(lim: Limits)
    requires lim.inFlight > 0
    ensures Cancel(Submit(Attach(Init(lim), 0, "o", "g"), REUSED, 1), "a", 1) == Reopened(lim)
  {
    var s1 := Attach(Init(lim), 0, "o", "g");
    assert s1 == Init(lim).(host := Some(Host(0, "o", "g", 0)), connections := 1);
    var s2 := Submit(s1, REUSED, 1);
    assert s2.pending == [Pending(0, REUSED, 1, -1, -1, 0, 0, 0, 0, map[])];
    assert s2.tasks == map[0 := OpenAuth(0)] && s2.ops == [Op(REUSED, 1, 0, 0)] && s2.arrivals == [Arrival(REUSED, 1)];
    assert Without(s2.pending, 0) == [];
    assert Insert([], "a") == ["a"];
  }

  lemma SecondOpens(lim: Limits)
    requires lim.inFlight > 0
    ensures var s := Submit(Reopened(lim), REUSED, 2); var first := Reopened(lim);
            && s.pending == [Pending(1, REUSED, 2, -1, -1, 0, 0, 0, 0, map[])] && s.probes == []
            && 0 in s.tasks && s.tasks[0] == OpenAuth(0)
            && |s.ops| == 2 && s.ops[0] == Op(REUSED, 1, 0, 0)
            && s.arrivals == [Arrival(REUSED, 1), Arrival(REUSED, 2)]
            && s.log.Then? && s.log.before == first.log && s.log.entry.Opened?
  {
  }

  lemma SecondWorker(lim: Limits)
    requires lim.inFlight > 0
    ensures var s := Resume(Submit(Reopened(lim), REUSED, 2), 0, No);
            && s.arrivals == [Arrival(REUSED, 1), Arrival(REUSED, 2)]
            && s.pending == [] && s.probes == [] && !Ended(s.log, 2, "a")
  {
    hide Submit, PendingAt, ProbeAt;
    SecondOpens(lim);
    var s4 := Submit(Reopened(lim), REUSED, 2);
    assert Without(s4.pending, 0) == [];
    var first := Reopened(lim).log;
    assert !Ended(first, 2, "a") by {
      assert !Ended(first.before.before.before, 2, "a");
    }
    assert !Ended(s4.log, 2, "a");
    var s5 := s4.(tasks := s4.tasks - {0});
    assert Resume(s4, 0, No) == Unavailable(s5, s4.ops[0]);
    assert s5.pending[0].request.id == "a";
    assert Finish(s5, "a") == Drop(s5, 0);
    DropEnds(s5, 0, 2, "a");
  }

  /** A worker that takes over an id whose first authorization is still outstanding is dropped silently. */
  lemma ReusedIdDropsSilently(lim: Limits)
    requires lim.inFlight > 0
    ensures var s := Run(lim, [Attaches(0, "o", "g"), WorkerSends(1, Open(REUSED)), Cancels("a", 1),
                               WorkerSends(2, Open(REUSED)), Settles(0, No)]);
            && s.arrivals == [Arrival(REUSED, 1), Arrival(REUSED, 2)]
            && s.pending == [] && s.probes == [] && !Ended(s.log, 2, "a")
  {
    hide Attach, Submit, Cancel, Resume, Run, Ended;
    var e1, e2, e3 := Attaches(0, "o", "g"), WorkerSends(1, Open(REUSED)), Cancels("a", 1);
    var e4, e5 := WorkerSends(2, Open(REUSED)), Settles(0, No);
    RunEmpty(lim);
    RunSnoc(lim, [], e1);
    RunSnoc(lim, [e1], e2);
    RunSnoc(lim, [e1, e2], e3);
    RunSnoc(lim, [e1, e2, e3], e4);
    RunSnoc(lim, [e1, e2, e3, e4], e5);
    assert [] + [e1] == [e1] && [e1] + [e2] == [e1, e2] && [e1, e2] + [e3] == [e1, e2, e3];
    assert [e1, e2, e3] + [e4] == [e1, e2, e3, e4] && [e1, e2, e3, e4] + [e5] == [e1, e2, e3, e4, e5];
    FirstWorker(lim);
    SecondWorker(lim);
  }

  lemma RunEmpty(lim: Limits)
    ensures Run(lim, []) == Init(lim)
  {
  }

  /** Worker 1 has the id and only one request was taken in; `next` tasks were started so far. */
  predicate FirstHas(s: State, next: nat) {
    && s.host.Some? && s.host.value.wire == 0 && s.host.value.connection == 0
    && s.pending == [Pending(0, REUSED, 1, -1, -1, 0, 0, 0, 0, map[])]
    && s.probes == [] && s.seen == {} && s.lostRuns == {} && s.nextTask == next
    && s.ops == [Op(REUSED, 1, 0, 0)] && s.arrivals == [Arrival(REUSED, 1)] && !Begun(s.log, 1)
  }

  /** Worker 1's operation was relayed an end frame and cancelled; the end frame's continuation is outstanding. */
  predicate EndOutstanding(s: State) {
    && s.host.Some? && s.pending == [] && s.probes == [] && s.seen == {} && s.lostRuns == {}
    && 2 in s.tasks && s.tasks[2] == EndSent(0) && s.nextTask == 3
    && s.ops == [Op(REUSED, 1, 0, 0)] && s.arrivals == [Arrival(REUSED, 1)] && !Begun(s.log, 1)
  }

  lemma NotBegun(log: History, e: Entry)
    requires !Begun(log, 1) && !e.Queued? && !e.Opened?
    ensures !Begun(Then(log, e), 1)
  {
  }

  lemma FirstOpens(lim: Limits)
    requires lim.inFlight > 0
    ensures FirstHas(Submit(Attach(Init(lim), 0, "o", "g"), REUSED, 1), 1)
  {
    var s1 := Attach(Init(lim), 0, "o", "g");
    assert s1 == Init(lim).(host := Some(Host(0, "o", "g", 0)), connections := 1);
  }

  lemma EndArrives(s: State)
    requires FirstHas(s, 1)
    ensures var n := FromHost(s, 0, End("a", 0));
            FirstHas(n, 2) && 1 in n.tasks && n.tasks[1] == FrameAuth(0, 0, 0, End("a", 0))
  {
  }

  lemma EndRelayed(s: State)
    requires FirstHas(s, 2) && 1 in s.tasks && s.tasks[1] == FrameAuth(0, 0, 0, End("a", 0))
    ensures var n := Resume(s, 1, Yes); FirstHas(n, 3) && 2 in n.tasks && n.tasks[2] == EndSent(0)
  {
    hide Begun;
    var n := Resume(s, 1, Yes);
    assert s.pending[0].request.id == "a";
    assert n.pending == s.pending;
    NotBegun(s.log, Relayed(0, 1, 0, End("a", 0)));
  }

  lemma FirstCancels(s: State)
    requires FirstHas(s, 3) && 2 in s.tasks && s.tasks[2] == EndSent(0)
    ensures EndOutstanding(Cancel(s, "a", 1))
  {
    hide Begun, Insert;
    assert s.pending[0].request.id == "a" && Without(s.pending, 0) == [];
    var l1 := Then(s.log, HubCancel(0, 0));
    var l2 := Then(l1, HubEnd(1, "a"));
    var l3 := Then(l2, Closed(0));
    NotBegun(s.log, HubCancel(0, 0));
    NotBegun(l1, HubEnd(1, "a"));
    NotBegun(l2, Closed(0));
    NotBegun(l3, Remembered(1, "a"));
  }

  lemma OpensAgain(s: State, v: Wire)
    requires EndOutstanding(s) && s.lim.inFlight > 0
    ensures var n := Submit(s, REUSED, v);
            && n.arrivals == [Arrival(REUSED, 1), Arrival(REUSED, v)]
            && n.pending == [Pending(1, REUSED, v, -1, -1, 0, 0, 0, 0, map[])]
            && |n.ops| == 2 && n.ops[0] == Op(REUSED, 1, 0, 0) && n.ops[1].arrival == 1
            && 2 in n.tasks && n.tasks[2] == EndSent(0)
            && n.log.Then? && n.log.before == s.log && n.log.entry.Opened?
  {
    hide Begun;
  }

  /** Any worker may open the id again, the first one included. */
  lemma TakesOver(s: State, v: Wire)
    requires EndOutstanding(s) && s.lim.inFlight > 0
    ensures var n := Submit(s, REUSED, v);
            && n.arrivals == [Arrival(REUSED, 1), Arrival(REUSED, v)]
            && InHand(n, 1) && !Answered(n.log, 1, v, "a") && Drops(n, Settles(2, Yes), 1, v)
  {
    hide Answered, Submit, Begun, PendingAt;
    OpensAgain(s, v);
    var n := Submit(s, REUSED, v);
    assert n.pending[0] in n.pending && IsRecord(n.pending[0], n.ops, 1);
    assert n.pending[0].request.id == "a" && PendingAt(n.pending, "a") == 0;
    if Answered(s.log, 1, v, "a") { AnsweredBegun(s.log, 1, v, "a"); }
    Grows(s.log, n.log.entry, 1, v, "a");
  }

  const TAKEOVER := [Attaches(0, "o", "g"), WorkerSends(1, Open(REUSED)), HostSends(0, End("a", 0)), Settles(1, Yes),
                     Cancels("a", 1)]

  lemma TakeoverStarts(lim: Limits)
    requires lim.inFlight > 0
    ensures FirstHas(Run(lim, TAKEOVER[..2]), 1)
  {
    hide Attach, Submit, Run, FirstHas;
    RunEmpty(lim);
    RunSnoc(lim, [], TAKEOVER[0]);
    RunSnoc(lim, [TAKEOVER[0]], TAKEOVER[1]);
    assert [] + [TAKEOVER[0]] == [TAKEOVER[0]] && [TAKEOVER[0]] + [TAKEOVER[1]] == TAKEOVER[..2];
    FirstOpens(lim);
  }

  lemma TakeoverReady(lim: Limits)
    requires lim.inFlight > 0
    ensures EndOutstanding(Run(lim, TAKEOVER))
  {
    hide Cancel, Resume, FromHost, Run, FirstHas, EndOutstanding;
    TakeoverStarts(lim);
    RunSnoc(lim, TAKEOVER[..2], TAKEOVER[2]);
    RunSnoc(lim, TAKEOVER[..3], TAKEOVER[3]);
    RunSnoc(lim, TAKEOVER[..4], TAKEOVER[4]);
    assert TAKEOVER[..2] + [TAKEOVER[2]] == TAKEOVER[..3] && TAKEOVER[..3] + [TAKEOVER[3]] == TAKEOVER[..4];
    assert TAKEOVER[..4] + [TAKEOVER[4]] == TAKEOVER;
    EndArrives(Run(lim, TAKEOVER[..2]));
    EndRelayed(Run(lim, TAKEOVER[..3]));
    FirstCancels(Run(lim, TAKEOVER[..4]));
  }

  /**
   The same happens with no failure at all, when the first request's end frame has just been relayed,
   and to any worker `v`: another one, or worker 1 itself using its own id again.
   */
  lemma RelayedEndDropsSilently(lim: Limits, v: Wire)
    requires lim.inFlight > 0
    ensures var s := Run(lim, TAKEOVER + [WorkerSends(v, Open(REUSED))] + [Settles(2, Yes)]);
            |s.arrivals| > 1 && s.arrivals[1] == Arrival(REUSED, v) && !Kept(s, 1)
  {
    hide Submit, Run, Answered, EndOutstanding, InHand, Drops;
    var opens := WorkerSends(v, Open(REUSED));
    TakeoverReady(lim);
    RunStable(lim, TAKEOVER);
    RunSnoc(lim, TAKEOVER, opens);
    TakesOver(Run(lim, TAKEOVER), v);
    SilentDropExactly(lim, TAKEOVER + [opens], Settles(2, Yes), 1);
  }
}
