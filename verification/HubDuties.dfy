/**
 What the hub must do, for every event of every run: which requests it takes, what it forwards, relays
 and acknowledges, what it ends, and which continuations wait. Together with HubGuarantees this pins a
 step from both sides.
 */
module HubDuties {
  import opened Options
  import opened HubModel
  import opened HubSafety
  import opened HubSteps
  import opened HubMonitor
  import opened HubHistory
  import opened HubRuns
  import opened HubTheorems
  import opened HubMemory
  import opened HubDrops
  import opened HubEffects
  import opened HubGuarantees

  // ---- Three more facts that every run keeps ----

  /** A Hermes turn is open only on the connection its provider broker was issued for. */
  predicate Brokered(ops: seq<Op>) {
    forall op | op in ops && Hermes(op.request) :: op.request.operation.broker == Some(op.connection)
  }

  /** A frame that waits for its authorization came over the wire of its connection. */
  predicate Wired(tasks: map<nat, Task>, host: Option<Host>) {
    forall k | k in tasks && tasks[k].FrameAuth? ::
      host.Some? && host.value.connection == tasks[k].connection ==> host.value.wire == tasks[k].wire
  }

  /** Until the history is full, only forwarded ids are refused as seen. */
  predicate SeenForwarded(s: State) {
    |s.seen| <= MAX_HISTORY ==> forall id | id in s.seen :: Passed(Messages(s.log), id)
  }

  predicate Passed(said: seq<Entry>, id: string) {
    exists e | e in said :: e.Forwarded? && e.request.id == id
  }

  predicate Sound(s: State) {
    Brokered(s.ops) && Wired(s.tasks, s.host) && (s.host.None? ==> !s.relay) && SeenForwarded(s)
  }

  ghost predicate Good(s: State) {
    Stable(s) && Chronicle(s, {}) && Sound(s)
  }

  lemma GoodParts(s: State)
    requires Good(s)
    ensures Stable(s) && Core(s) && Chronicle(s, {}) && Told(s) && Sound(s) && OpenedOnce(s.ops, s.probes)
  {
    hide Stable, Chronicle, Sound;
    StableCore(s);
    ChronicleOnce(s);
  }

  lemma {:induction false} ForwardsPassed(log: History, id: string)
    ensures Forwards(log, id) > 0 <==> Passed(Messages(log), id)
  {
    if log.Then? {
      ForwardsPassed(log.before, id);
      var ms, e := Messages(log.before), log.entry;
      assert Leaves(e) ==> Messages(log) == ms + [e];
      assert forall x | x in ms :: x in Messages(log);
      assert Leaves(e) ==> e in Messages(log);
    }
  }

  lemma EffectSound(s: State, n: State, said: seq<Entry>, gone: set<nat>)
    requires Sound(s) && Effect(s, n, said, gone)
    ensures Sound(n)
  {
    hide Holding;
    assert forall m | m in Messages(s.log) :: m in Messages(n.log);
    assert Brokered(n.ops) by {
      forall op | op in n.ops && Hermes(op.request) ensures op in s.ops {
        var t :| 0 <= t < |n.ops| && n.ops[t] == op;
        if t < |s.ops| { assert s.ops[t] == op; }
      }
    }
    assert forall k | k in n.tasks && n.tasks[k].FrameAuth? :: k in s.tasks && n.tasks[k] == s.tasks[k];
  }

  // ---- Requests ----

  /**
   The hub may take the request: a host is there, a slot or a place in the queue is left, the id is
   neither in hand nor seen, its run was not lost, and a Hermes turn finds its provider relay.
   */
  predicate Admissible(s: State, r: Request, announced: bool) {
    && s.host.Some?
    && (if FleetProbe(r) then |s.probes| < MAX_PROBES else |s.pending| < s.lim.inFlight)
    && (forall a | 0 <= a < |s.arrivals| && InHand(s, a) :: s.arrivals[a].request.id != r.id)
    && r.id !in s.seen
    && (LostIn(s.log, r.run) ==> r.operation.BoardRun?)
    && |s.lostRuns| < MAX_HISTORY
    && (Hermes(r) ==> announced && r.operation.broker == Some(s.host.value.connection))
  }

  /** The request is in hand and nothing is said; it waits in the queue exactly if it is a probe without a slot. */
  ghost predicate Taken(s: State, n: State, r: Request, w: Wire) {
    var a := |s.arrivals|;
    && n == s.(arrivals := s.arrivals + [Arrival(r, w)], pending := n.pending, probes := n.probes, ops := n.ops,
               tasks := n.tasks, nextTask := n.nextTask, log := n.log)
    && Messages(n.log) == Messages(s.log)
    && s.pending <= n.pending && s.probes <= n.probes
    && (forall x: nat :: InHand(n, x) <==> InHand(s, x) || x == a)
    && s.host.Some?
    && if FleetProbe(r) && !ProbeCapacity(s.lim, s.pending)
       then HasProbe(n.probes, a) && n.ops == s.ops && n.tasks == s.tasks && n.nextTask == s.nextTask
       else && n.ops == s.ops + [Op(r, w, s.host.value.connection, a)]
            && n.tasks == s.tasks[s.nextTask := OpenAuth(|s.ops|)] && n.nextTask == s.nextTask + 1
  }

  ghost predicate Answers(s: State, n: State, r: Request, w: Wire, announced: bool) {
    if Admissible(s, r, announced) then Taken(s, n, r, w)
    else n == s.(arrivals := s.arrivals + [Arrival(r, w)], log := Then(s.log, HubEnd(w, r.id)))
  }

  lemma IdInHand(s: State, id: string)
    requires Core(s)
    ensures (PendingAt(s.pending, id) < 0 && ProbeAt(s.probes, id) < 0)
            <==> forall a | 0 <= a < |s.arrivals| && InHand(s, a) :: s.arrivals[a].request.id != id
  {
    hide Core, InHand;
    var i, j := PendingAt(s.pending, id), ProbeAt(s.probes, id);
    if i >= 0 {
      RecordIn(s, i);
      OpenInHand(s, i);
    } else if j >= 0 {
      ProbeFacts(s, j);
      ProbeInHand(s, j);
    } else {
      forall a | 0 <= a < |s.arrivals| && InHand(s, a) ensures s.arrivals[a].request.id != id { WhoHolds(s, a); }
    }
  }

  lemma OpenInHand(s: State, i: nat)
    requires i < |s.pending| && s.pending[i].token < |s.ops|
    ensures InHand(s, s.ops[s.pending[i].token].arrival)
  {
    assert s.pending[i] in s.pending && IsRecord(s.pending[i], s.ops, s.ops[s.pending[i].token].arrival);
  }

  lemma ProbeInHand(s: State, j: nat)
    requires j < |s.probes|
    ensures InHand(s, s.probes[j].arrival)
  {
    assert s.probes[j] in s.probes;
  }

  lemma RefusesIff(s: State, r: Request)
    requires Good(s)
    ensures Refuses(s, r) <==> !Admissible(s, r, s.relay)
  {
    hide Stable, Core, Told, Marked, Honest, Sound, FenceHeld, Forwards, InHand;
    GoodParts(s);
    IdInHand(s, r.id);
    assert LostIn(s.log, r.run) <==> r.run in s.lostRuns;
  }

  lemma ReserveTaken(s: State, r: Request, w: Wire)
    requires Core(s) && s.host.Some? && !(FleetProbe(r) && !ProbeCapacity(s.lim, s.pending))
    ensures Taken(s, Reserve(s.(arrivals := s.arrivals + [Arrival(r, w)]), r, w, |s.arrivals|), r, w)
  {
    hide Core;
    KnownTokens(s);
    var a := |s.arrivals|;
    var n := Reserve(s.(arrivals := s.arrivals + [Arrival(r, w)]), r, w, a);
    assert n.pending[|s.pending|] in n.pending && IsRecord(n.pending[|s.pending|], n.ops, a);
    assert forall p | p in n.pending :: p in s.pending || p.token == |s.ops|;
    assert forall p | p in s.pending :: p in n.pending;
    assert forall p, x: nat | p in s.pending :: IsRecord(p, n.ops, x) == IsRecord(p, s.ops, x);
  }

  lemma EnqueueTaken(s: State, r: Request, w: Wire)
    requires s.host.Some? && FleetProbe(r) && !ProbeCapacity(s.lim, s.pending)
    ensures Taken(s, Enqueue(s.(arrivals := s.arrivals + [Arrival(r, w)]), Probe(r, w, |s.arrivals|)), r, w)
  {
    var a := |s.arrivals|;
    var n := Enqueue(s.(arrivals := s.arrivals + [Arrival(r, w)]), Probe(r, w, a));
    assert n.probes[|s.probes|] in n.probes && n.probes[|s.probes|].arrival == a;
    assert forall q | q in s.probes :: q in n.probes;
  }

  lemma AdmitExactly(s: State, r: Request, w: Wire)
    requires Good(s)
    ensures Answers(s, Submit(s, r, w), r, w, s.relay)
  {
    hide Good, Core, Refuses, Admissible, Taken, Reserve;
    GoodParts(s);
    RefusesIff(s, r);
    var t := s.(arrivals := s.arrivals + [Arrival(r, w)]);
    RefusesSame(s, t, r);
    if !Refuses(t, r) {
      NotRefused(t, r);
      if FleetProbe(r) && !ProbeCapacity(s.lim, s.pending) { EnqueueTaken(s, r, w); } else { ReserveTaken(s, r, w); }
    }
  }

  lemma RefusesSame(s: State, t: State, r: Request)
    requires t == s.(arrivals := t.arrivals)
    ensures Refuses(t, r) == Refuses(s, r)
  {
  }

  lemma TakenSound(s: State, n: State, r: Request, w: Wire)
    requires Sound(s) && Admissible(s, r, s.relay) && Taken(s, n, r, w)
    ensures Sound(n)
  {
    hide InHand;
  }

  // ---- Frames of the host ----

  /** A frame under an open id waits for its authorization; health is taken as it is; everything else is ignored. */
  ghost predicate Heard(s: State, n: State, wire: Wire, f: HostFrame) {
    if s.host.None? || s.host.value.wire != wire then n == s
    else if f.Health? then n == s.(relay := f.providerRelay)
    else
      && ((forall t: nat :: !OpenAs(s, t, f.id)) ==> n == s)
      && (forall t: nat | OpenAs(s, t, f.id) ::
            n == s.(tasks := s.tasks[s.nextTask := FrameAuth(t, wire, s.host.value.connection, f)],
                    nextTask := s.nextTask + 1))
  }

  lemma HeardExactly(s: State, wire: Wire, f: HostFrame)
    requires Good(s)
    ensures Heard(s, FromHost(s, wire, f), wire, f)
  {
    hide Good, Stable, Core, Told, Sound;
    GoodParts(s);
    if s.host.Some? && s.host.value.wire == wire && !f.Health? {
      FoundOpen(s, f.id, 0);
      forall t: nat | OpenAs(s, t, f.id)
        ensures PendingAt(s.pending, f.id) >= 0 && s.pending[PendingAt(s.pending, f.id)].token == t
      {
        var i := LiveRecord(s, t);
      }
    }
  }

  /** Entry `e` is sent, only the record of operation `t` changes, and at most one continuation is added. */
  predicate Passes(s: State, n: State, t: nat, e: Entry, next: Option<Task>) {
    && n == s.(pending := n.pending, log := Then(s.log, e), tasks := n.tasks, nextTask := n.nextTask)
    && |n.pending| == |s.pending|
    && (forall i | 0 <= i < |s.pending| ::
          n.pending[i].token == s.pending[i].token && (s.pending[i].token != t ==> n.pending[i] == s.pending[i]))
    && (next.None? ==> n.tasks == s.tasks && n.nextTask == s.nextTask)
    && (next.Some? ==> n.tasks == s.tasks[s.nextTask := next.value] && n.nextTask == s.nextTask + 1)
  }

  function Weightless(f: HostFrame): HostFrame {
    match f
    case Stream(id, n, _) => Stream(id, n, 0)
    case Callback(id, callId, kind, _) => Callback(id, callId, kind, 0)
    case End(id, _) => End(id, 0)
    case _ => f
  }

  function Taking(s: State, k: nat): State {
    s.(tasks := s.tasks - {k})
  }

  /**
   An authorized frame of an open operation is relayed exactly if the observer accepts it; a proper
   one that is too large stops the operation, and any other is refused.
   */
  ghost predicate Relays(s: State, n: State, k: nat, outcome: Outcome)
    requires k in s.tasks && s.tasks[k].FrameAuth? && s.tasks[k].token < |s.ops|
  {
    var t, u := s.tasks[k], Taking(s, k);
    var op := s.ops[t.token];
    var ph := Observe(s.lim, t.token, s.log);
    var e := Relayed(t.token, op.worker, op.connection, t.frame);
    match outcome
    case Threw => n == u.(log := Then(s.log, Refused(t.wire)))
    case No => Cancelled(u, n, op.worker, op.request.id)
    case Yes =>
      if !ph.Live? then n == u
      else if Watch(s.lim, t.token, ph, e).Live? then
        Passes(u, n, t.token, e, if t.frame.End? then Some(EndSent(t.token)) else None)
      else if Watch(s.lim, t.token, ph, e.(frame := Weightless(t.frame))).Live? then
        Cancelled(u, n, op.worker, op.request.id)
      else n == u.(log := Then(s.log, Refused(t.wire)))
  }

  lemma FrameJudged(s: State, i: nat, f: HostFrame)
    requires Stable(s) && Brokered(s.ops) && i < |s.pending| && !f.Health? && f.id == s.pending[i].request.id
    ensures var p := s.pending[i];
            && p.token < |s.ops| && p.last >= -1
            && var e := Relayed(p.token, p.worker, s.ops[p.token].connection, f);
               var ph := LiveOf(s.ops[p.token], s.seen, p);
               && (Watch(s.lim, p.token, ph, e).Live? <==>
                     AcceptsFrame(s.lim, p, f) && Received(p, f).bytes <= s.lim.totalBytes)
               && (Watch(s.lim, p.token, ph, e.(frame := Weightless(f))).Live? <==> AcceptsFrame(s.lim, p, f))
  {
    hide Stable;
    RecordFacts(s, i);
    assert s.ops[s.pending[i].token] in s.ops;
  }

  lemma TakingGood(s: State, k: nat)
    requires Good(s) && k in s.tasks
    ensures Good(Taking(s, k)) && GoodTask(s.tasks[k], s.ops)
    ensures s.tasks[k].OpenAuth? ==>
              var left := Taking(s, k).tasks; forall l | l in left && left[l].OpenAuth? :: left[l].token != s.tasks[k].token
  {
    hide Stable, Chronicle, SeenForwarded, Brokered;
    TaskTaken(s, k);
    TakenChron(s, k, {});
    assert SeenForwarded(Taking(s, k)) by { SeenSame(s, Taking(s, k)); }
  }

  lemma SeenSame(s: State, t: State)
    requires SeenForwarded(s) && t.seen == s.seen && t.log == s.log
    ensures SeenForwarded(t)
  {
  }

  lemma DeliverExactly(s: State, i: nat, t: Task)
    requires Good(s) && i < |s.pending| && t.FrameAuth? && !t.frame.Health? && t.frame.id == s.pending[i].request.id
    requires t.token == s.pending[i].token
    ensures t.token < |s.ops|
    ensures var op := s.ops[t.token];
            t.connection == op.connection ==>
            var n := Deliver(s, i, t.wire, t.connection, t.frame);
            var ph := Observe(s.lim, t.token, s.log);
            var e := Relayed(t.token, op.worker, op.connection, t.frame);
            if Watch(s.lim, t.token, ph, e).Live? then
              Passes(s, n, t.token, e, if t.frame.End? then Some(EndSent(t.token)) else None)
            else if Watch(s.lim, t.token, ph, e.(frame := Weightless(t.frame))).Live? then
              Cancelled(s, n, op.worker, op.request.id)
            else n == s.(log := Then(s.log, Refused(t.wire)))
  {
    hide Good, Stable, Core, Told, Chronicle, Cancel, Cancelled, Watch, Observe, Metered, AcceptsFrame;
    GoodParts(s);
    SoundBrokered(s);
    RecordFacts(s, i);
    RecordLive(s, i);
    FrameJudged(s, i, t.frame);
    CancelExactly(s, s.pending[i].request.id, s.pending[i].worker);
    SameTokens(s, i);
    if AcceptsFrame(s.lim, s.pending[i], t.frame) { OnlyFrames(s.lim, s.pending[i], t.frame); }
  }

  lemma OnlyFrames(lim: Limits, p: Pending, f: HostFrame)
    requires AcceptsFrame(lim, p, f)
    ensures f.Stream? || f.Callback? || f.End?
  {
  }

  lemma SoundBrokered(s: State)
    requires Sound(s)
    ensures Brokered(s.ops)
  {
  }

  lemma SameTokens(s: State, i: nat)
    requires Stable(s) && i < |s.pending|
    ensures forall j | 0 <= j < |s.pending| && j != i :: s.pending[j].token != s.pending[i].token
  {
    hide Stable, Core;
    StableCore(s);
    TokensDistinct(s);
  }

  lemma RelayExactly(s: State, k: nat, outcome: Outcome)
    requires Good(s) && k in s.tasks && s.tasks[k].FrameAuth?
    ensures s.tasks[k].token < |s.ops| && Relays(s, Resume(s, k, outcome), k, outcome)
  {
    hide Good, Stable, Core, Told, Chronicle, Cancel, Cancelled, Deliver, Watch, Observe, Passes, Metered;
    TakingGood(s, k);
    var t, u := s.tasks[k], Taking(s, k);
    GoodParts(s);
    GoodParts(u);
    CancelExactly(u, t.frame.id, s.ops[t.token].worker);
    if Observe(s.lim, t.token, s.log).Live? {
      var i := LiveRecord(u, t.token);
      WireOf(s, k);
      DeliverExactly(u, i, t);
    } else {
      FoundOpen(u, t.frame.id, 0);
    }
  }

  lemma WireOf(s: State, k: nat)
    requires Sound(s) && k in s.tasks && s.tasks[k].FrameAuth?
    ensures s.host.Some? && s.host.value.connection == s.tasks[k].connection ==> s.host.value.wire == s.tasks[k].wire
  {
  }

  // ---- Frames of a worker ----

  /** A reply that does not report a failure must have the shape its callback demands. */
  predicate Proper(f: WorkerFrame) {
    f.Ack? || (f.Reply? && (f.failed || f.parses))
  }

  /**
   An ack or reply for the worker's open operation `t` goes to the host exactly if the observer accepts
   it; a reply to an open callback that is too large stops the operation, and anything else is refused.
   */
  ghost predicate PassesUp(s: State, n: State, w: Wire, f: WorkerFrame, t: nat)
    requires Observe(s.lim, t, s.log).Live? && (f.Ack? || f.Reply?)
  {
    var ph := Observe(s.lim, t, s.log);
    var e := Upstream(t, w, ph.op.connection, f);
    if Proper(f) && Watch(s.lim, t, ph, e).Live? then Passes(s, n, t, e, None)
    else if Proper(f) && f.Reply? && f.callId in ph.calls then Cancelled(s, n, w, f.id)
    else n == s.(log := Then(s.log, Refused(w)))
  }

  lemma AckJudged(s: State, i: nat, f: WorkerFrame)
    requires Stable(s) && i < |s.pending| && f.Ack? && f.id == s.pending[i].request.id
    ensures var p := s.pending[i];
            && p.token < |s.ops| && p.last >= -1
            && var e := Upstream(p.token, p.worker, s.ops[p.token].connection, f);
               (Watch(s.lim, p.token, LiveOf(s.ops[p.token], s.seen, p), e).Live? <==> p.ack < f.number <= p.last)
  {
    hide Stable;
    RecordFacts(s, i);
  }

  lemma ReplyJudged(s: State, i: nat, f: WorkerFrame)
    requires Stable(s) && i < |s.pending| && f.Reply? && f.id == s.pending[i].request.id
    ensures var p := s.pending[i];
            && p.token < |s.ops| && p.last >= -1
            && var e := Upstream(p.token, p.worker, s.ops[p.token].connection, f);
               (Watch(s.lim, p.token, LiveOf(s.ops[p.token], s.seen, p), e).Live?
                <==> f.callId in p.calls && !OverReplyBudget(s.lim, Replied(p, f.callId, f.size)))
  {
    hide Stable;
    RecordFacts(s, i);
  }

  lemma UpstreamExactly(s: State, w: Wire, f: WorkerFrame, t: nat)
    requires Good(s) && (f.Ack? || f.Reply?) && OpenFor(s, t, w, f.id)
    ensures PassesUp(s, FromWorker(s, w, f), w, f, t)
  {
    hide Good, Stable, Core, Told, Chronicle, Cancel, Cancelled, Watch, Observe, Metered, OverReplyBudget, Replied;
    GoodParts(s);
    var i := LiveRecord(s, t);
    RecordFacts(s, i);
    SameTokens(s, i);
    CancelExactly(s, f.id, w);
    RepliedIdentity(s.pending[i], f);
    if f.Ack? { AckJudged(s, i, f); } else { ReplyJudged(s, i, f); }
  }

  lemma RepliedIdentity(p: Pending, f: WorkerFrame)
    ensures f.Reply? && f.callId in p.calls ==>
              var n := Replied(p, f.callId, f.size); n.token == p.token && n.worker == p.worker
  {
  }

  /** What becomes of a frame that is no ack or reply of the worker's own open operation, and no request. */
  ghost predicate Handled(s: State, n: State, w: Wire, f: WorkerFrame)
    requires !f.Open?
  {
    if f.Nameless? || f.Foreign? then n == s.(log := Then(s.log, Refused(w)))
    else if f.CancelFrame? && (QueuedFor(s, w, f.id) || exists t: nat :: OpenFor(s, t, w, f.id)) then
      Cancelled(s, n, w, f.id)
    else if (forall t: nat :: !OpenAs(s, t, f.id)) && f.id in Recall(EndedBy(s.log, w)) then n == s
    else n == s.(log := Then(s.log, Refused(w)))
  }

  lemma HandledExactly(s: State, w: Wire, f: WorkerFrame)
    requires Good(s) && Linked(s) && !f.Open?
    requires f.Ack? || f.Reply? ==> forall t: nat :: !OpenFor(s, t, w, f.id)
    ensures Handled(s, FromWorker(s, w, f), w, f)
  {
    hide Good, Stable, Core, Told, Chronicle, Cancel, Cancelled, QueuedFor, TakeReply, Recall, EndedBy, Named, Agreed,
      QueueOf;
    GoodParts(s);
    if !f.Nameless? {
      Memorized(s, w);
      CancelExactly(s, f.id, w);
      QueuePlace(s, w, f.id);
      FoundOpen(s, f.id, w);
      forall t: nat | OpenAs(s, t, f.id)
        ensures PendingAt(s.pending, f.id) >= 0 && s.pending[PendingAt(s.pending, f.id)].token == t
        ensures OpenFor(s, t, w, f.id) <==> s.pending[PendingAt(s.pending, f.id)].worker == w
      {
        var i := LiveRecord(s, t);
      }
    }
  }

  lemma Memorized(s: State, w: Wire)
    requires Linked(s)
    ensures CompletedOf(s.completed, w) == Recall(RememberedBy(s.log, w)) && RememberedBy(s.log, w) == EndedBy(s.log, w)
  {
  }

  // ---- Continuations ----

  /**
   The authorization of an operation: while its record is held it is forwarded, unless the history is
   full, which costs the hub its host; a record that is gone stays gone; without leave, or without the
   host it was opened on, the worker is told that it is unavailable.
   */
  ghost predicate Authorizes(s: State, n: State, k: nat, outcome: Outcome)
    requires k in s.tasks && s.tasks[k].OpenAuth? && s.tasks[k].token < |s.ops|
  {
    var token, u := s.tasks[k].token, Taking(s, k);
    var op := s.ops[token];
    var id := op.request.id;
    if outcome.Yes? && Observe(s.lim, token, s.log).Live? then
      if |s.seen| < MAX_HISTORY then
        n == u.(seen := s.seen + {id}, log := Then(s.log, Forwarded(token, op.connection, op.request)),
                tasks := u.tasks[s.nextTask := OpenSend(token)], nextTask := s.nextTask + 1)
      else
        && n.log.Then? && n.log.entry == HubEnd(op.worker, id)
        && Hostless(u.(seen := s.seen + {id}), n.(log := n.log.before))
    else if outcome.Yes? && s.host.Some? && s.host.value.connection == op.connection then n == u
    else Effect(u, n, [HubEnd(op.worker, id)], OpenUnder(u, id))
  }

  lemma OverflowExactly(s: State, i: nat, op: Op)
    requires Stable(s) && i < |s.pending| && op.request.id == s.pending[i].request.id
    requires forall k | k in s.tasks && s.tasks[k].OpenAuth? :: s.tasks[k].token != s.pending[i].token
    ensures var t := s.(seen := s.seen + {op.request.id});
            var n := Unavailable(Detach(t), op);
            n.log.Then? && n.log.entry == HubEnd(op.worker, op.request.id) && Hostless(t, n.(log := n.log.before))
  {
    hide Stable, Core, Detach, Hostless;
    SeenKeeps(s, i);
    var t := s.(seen := s.seen + {op.request.id});
    StableCore(t);
    DetachKeeps(t);
    DetachExactly(t);
    var m := Detach(t);
    assert Finish(m, op.request.id) == m;
    assert Unavailable(m, op).(log := Unavailable(m, op).log.before) == m;
  }

  lemma ForwardExactly(s: State, k: nat, outcome: Outcome)
    requires Good(s) && k in s.tasks && s.tasks[k].OpenAuth?
    ensures s.tasks[k].token < |s.ops| && Authorizes(s, Resume(s, k, outcome), k, outcome)
  {
    hide Good, Stable, Core, Told, Chronicle, Unavailable, Detach, Effect, Hostless, OpenUnder, Observe, OpenedOnce;
    TakingGood(s, k);
    UnsentRecord(s, k);
    var u := Taking(s, k);
    var token := s.tasks[k].token;
    var op := s.ops[token];
    GoodParts(s);
    GoodParts(u);
    UnavailableEffect(u, op);
    if Observe(s.lim, token, s.log).Live? {
      var i := LiveRecord(u, token);
      assert u.pending[i] in s.pending;
      assert |s.seen + {op.request.id}| == |s.seen| + 1;
      OverflowExactly(u, i, op);
    } else {
      FoundOpen(u, op.request.id, 0);
    }
  }

  lemma UnsentRecord(s: State, k: nat)
    requires Good(s) && k in s.tasks && s.tasks[k].OpenAuth?
    ensures forall p | p in s.pending && p.token == s.tasks[k].token :: p.request.id !in s.seen
  {
    hide Stable, Chronicle, Sound;
    UnsentFact(s, k);
  }

  /** A request that could not be handed to the host is ended as unavailable. */
  lemma SendExactly(s: State, k: nat, outcome: Outcome)
    requires Good(s) && k in s.tasks && s.tasks[k].OpenSend?
    ensures s.tasks[k].token < |s.ops|
    ensures var n, u, op := Resume(s, k, outcome), Taking(s, k), s.ops[s.tasks[k].token];
            if outcome.Yes? then n == u else Effect(u, n, [HubEnd(op.worker, op.request.id)], OpenUnder(u, op.request.id))
  {
    hide Good, Core, Stable, Unavailable, Effect, OpenUnder, OpenedOnce;
    TakingGood(s, k);
    var u := Taking(s, k);
    GoodParts(u);
    UnavailableEffect(u, s.ops[s.tasks[k].token]);
  }

  /** Once an end frame was handed to the worker, the request open under its id leaves the hub. */
  lemma EndExactly(s: State, k: nat, outcome: Outcome)
    requires Good(s) && k in s.tasks && s.tasks[k].EndSent?
    ensures s.tasks[k].token < |s.ops|
    ensures var n, u, op := Resume(s, k, outcome), Taking(s, k), s.ops[s.tasks[k].token];
            if outcome.Yes? then Effect(u, n, [], OpenUnder(u, op.request.id)) else n == u
  {
    hide Good, Core, Stable, Finish, Effect, OpenUnder, OpenedOnce;
    TakingGood(s, k);
    var u := Taking(s, k);
    GoodParts(u);
    FinishEffect(u, s.ops[s.tasks[k].token].request.id);
  }

  // ---- Connections ----

  ghost predicate Attached(s: State, n: State, wire: Wire, ownerId: string, registration: string) {
    && n.host == Some(Host(wire, ownerId, registration, s.connections)) && n.connections == s.connections + 1
    && Hostless(s, n.(host := None, connections := s.connections))
  }

  lemma AttachExactly(s: State, wire: Wire, ownerId: string, registration: string)
    requires Core(s)
    ensures Attached(s, Attach(s, wire, ownerId, registration), wire, ownerId, registration)
  {
    hide Core, Detach, Hostless;
    DetachExactly(s);
    DetachKeeps(s);
    DetachRelay(s);
    var n := Attach(s, wire, ownerId, registration);
    assert n.(host := None, connections := s.connections) == Detach(s);
  }

  lemma DetachRelay(s: State)
    requires Core(s)
    ensures !Detach(s).relay
  {
    hide Core, Messages, Farewells, QueueFarewells;
    DetachExactly(s);
  }

  // ---- Every step keeps the three facts ----

  lemma SameSound(s: State, n: State)
    requires Sound(s) && n.ops == s.ops && n.host == s.host && n.relay == s.relay && n.seen == s.seen
    requires forall k | k in n.tasks && n.tasks[k].FrameAuth? :: k in s.tasks && n.tasks[k] == s.tasks[k]
    requires n.log == s.log || (n.log.Then? && n.log.before == s.log)
    ensures Sound(n)
  {
    assert forall m | m in Messages(s.log) :: m in Messages(n.log);
  }

  lemma CancelledSound(s: State, n: State, w: Wire, id: string)
    requires Sound(s) && Cancelled(s, n, w, id)
    ensures Sound(n)
  {
    hide Sound, Effect, QueuedFor;
    if t: nat :| OpenFor(s, t, w, id) {
      EffectSound(s, n, [HubCancel(t, Observe(s.lim, t, s.log).op.connection), HubEnd(w, id)], OwnedUnder(s, w, id));
    } else if QueuedFor(s, w, id) {
      EffectSound(s, n, [HubEnd(w, id)], OwnedUnder(s, w, id));
    }
  }

  lemma HostlessSound(s: State, n: State)
    requires Sound(s) && Hostless(s, n)
    ensures Sound(n)
  {
    assert forall m | m in Messages(s.log) :: m in Messages(n.log);
  }

  lemma AttachedSound(s: State, n: State, wire: Wire, ownerId: string, registration: string)
    requires Core(s) && Sound(s) && Attached(s, n, wire, ownerId, registration)
    ensures Sound(n)
  {
    hide Identity, Limited, Ordered, SeenForwarded;
    var m := n.(host := None, connections := s.connections);
    HostlessSound(s, m);
    SeenSame(m, n);
    OldConnections(s);
  }

  lemma OldConnections(s: State)
    requires Core(s)
    ensures forall k | k in s.tasks && s.tasks[k].FrameAuth? :: s.tasks[k].connection < s.connections
    ensures s.host.Some? ==> s.host.value.connection < s.connections
  {
    hide Limited, Ordered;
    forall k | k in s.tasks && s.tasks[k].FrameAuth? ensures s.tasks[k].connection < s.connections {
      assert GoodTask(s.tasks[k], s.ops) && s.ops[s.tasks[k].token] in s.ops;
    }
  }

  lemma HeardSound(s: State, n: State, wire: Wire, f: HostFrame)
    requires Sound(s) && Heard(s, n, wire, f)
    ensures Sound(n)
  {
    hide SeenForwarded, OpenAs;
    if s.host.Some? && s.host.value.wire == wire && !f.Health? {
      if t: nat :| OpenAs(s, t, f.id) {}
    }
    SeenSame(s, n);
  }

  lemma AuthorizesSound(s: State, n: State, k: nat, outcome: Outcome)
    requires Sound(s) && Core(s) && k in s.tasks && s.tasks[k].OpenAuth? && s.tasks[k].token < |s.ops|
    requires Sound(Taking(s, k)) && Authorizes(s, n, k, outcome)
    requires Observe(s.lim, s.tasks[k].token, s.log).Live? ==> s.ops[s.tasks[k].token].request.id !in s.seen
    ensures Sound(n)
  {
    hide Core, Effect, Observe, Brokered, Wired, OpenUnder;
    var u := Taking(s, k);
    var op := s.ops[s.tasks[k].token];
    if outcome.Yes? && Observe(s.lim, s.tasks[k].token, s.log).Live? {
      assert |s.seen + {op.request.id}| == |s.seen| + 1;
      if |s.seen| < MAX_HISTORY {
        ForwardedSound(u, n, s.nextTask, s.tasks[k].token, op);
      } else {
        HostlessSound(u.(seen := s.seen + {op.request.id}), n.(log := n.log.before));
        SameSound(n.(log := n.log.before), n);
      }
    } else if !(outcome.Yes? && s.host.Some? && s.host.value.connection == op.connection) {
      EffectSound(u, n, [HubEnd(op.worker, op.request.id)], OpenUnder(u, op.request.id));
    }
  }

  lemma ForwardedSound(s: State, n: State, k: nat, token: nat, op: Op)
    requires Sound(s) && |s.seen| < MAX_HISTORY && op.request.id !in s.seen
    requires n.seen == s.seen + {op.request.id} && n.ops == s.ops && n.host == s.host && n.relay == s.relay
    requires n.log == Then(s.log, Forwarded(token, op.connection, op.request))
    requires n.tasks == s.tasks[k := OpenSend(token)]
    ensures Sound(n)
  {
    var ms := Messages(s.log);
    assert Messages(n.log) == ms + [n.log.entry] && n.log.entry in Messages(n.log);
    assert forall m | m in ms :: m in Messages(n.log);
  }

  lemma OpenSound(s: State, w: Wire, r: Request)
    requires Good(s)
    ensures Sound(Submit(s, r, w))
  {
    hide Good, Sound, Submit, Taken, Admissible;
    GoodParts(s);
    AdmitExactly(s, r, w);
    if Admissible(s, r, s.relay) { TakenSound(s, Submit(s, r, w), r, w); } else { SameSound(s, Submit(s, r, w)); }
  }

  lemma UpstreamSound(s: State, w: Wire, f: WorkerFrame, t: nat)
    requires Good(s) && (f.Ack? || f.Reply?) && OpenFor(s, t, w, f.id)
    ensures Sound(FromWorker(s, w, f))
  {
    hide Good, Sound, FromWorker, Cancelled, Observe, Watch;
    GoodParts(s);
    var n := FromWorker(s, w, f);
    UpstreamExactly(s, w, f, t);
    LiveOpen(s, t, w, f.id);
    if Cancelled(s, n, w, f.id) { CancelledSound(s, n, w, f.id); } else { SameSound(s, n); }
  }

  lemma WorkerSound(s: State, w: Wire, f: WorkerFrame)
    requires Good(s) && Linked(s)
    ensures Sound(FromWorker(s, w, f))
  {
    hide Good, Linked, Sound, FromWorker, Submit, Cancelled, Effect, OpenFor, Recall, EndedBy;
    GoodParts(s);
    var n := FromWorker(s, w, f);
    if f.Open? {
      SubmitIs(s, w, f);
      OpenSound(s, w, f.request);
    } else if t: nat :| (f.Ack? || f.Reply?) && OpenFor(s, t, w, f.id) {
      UpstreamSound(s, w, f, t);
    } else {
      HandledExactly(s, w, f);
      if !f.Nameless? && Cancelled(s, n, w, f.id) { CancelledSound(s, n, w, f.id); } else { SameSound(s, n); }
    }
  }

  lemma SubmitIs(s: State, w: Wire, f: WorkerFrame)
    requires f.Open?
    ensures FromWorker(s, w, f) == Submit(s, f.request, w)
  {
  }

  lemma LiveOpen(s: State, t: nat, w: Wire, id: string)
    requires OpenFor(s, t, w, id)
    ensures Observe(s.lim, t, s.log).Live?
  {
  }

  lemma SettleSound(s: State, k: nat, outcome: Outcome)
    requires Good(s)
    ensures Sound(Resume(s, k, outcome))
  {
    hide Good, Sound, Stable, Core, Chronicle, Cancelled, Effect, Unavailable, Authorized, Deliver, Cancel, Finish,
      OpenUnder, Watch;
    GoodParts(s);
    if k in s.tasks && s.tasks[k].token < |s.ops| {
      TakingGood(s, k);
      var u, n := Taking(s, k), Resume(s, k, outcome);
      GoodParts(u);
      var t := s.tasks[k];
      var op := s.ops[t.token];
      match t
      case OpenAuth(_) =>
        ForwardExactly(s, k, outcome);
        if Observe(s.lim, t.token, s.log).Live? {
          var i := LiveRecord(u, t.token);
          UnsentRecord(s, k);
          assert u.pending[i] in s.pending;
        }
        AuthorizesSound(s, n, k, outcome);
      case OpenSend(_) =>
        SendExactly(s, k, outcome);
        if !outcome.Yes? { EffectSound(u, n, [HubEnd(op.worker, op.request.id)], OpenUnder(u, op.request.id)); }
      case FrameAuth(_, _, _, _) =>
        RelayExactly(s, k, outcome);
        if Cancelled(u, n, op.worker, op.request.id) {
          CancelledSound(u, n, op.worker, op.request.id);
        } else {
          SameSound(u, n);
        }
      case EndSent(_) =>
        EndExactly(s, k, outcome);
        if outcome.Yes? { EffectSound(u, n, [], OpenUnder(u, op.request.id)); }
    }
  }

  lemma StepSound(s: State, e: Event)
    requires Good(s) && Linked(s)
    ensures Sound(Step(s, e))
  {
    hide Good, Linked, Sound, Stable, Core, Chronicle, Attach, Detach, FromHost, FromWorker, Cancel, CloseWorker, Resume, Effect,
      Hostless, Attached, Heard;
    GoodParts(s);
    match e
    case Attaches(wire, ownerId, registration) =>
      AttachExactly(s, wire, ownerId, registration);
      AttachedSound(s, Attach(s, wire, ownerId, registration), wire, ownerId, registration);
    case Detaches =>
      DetachExactly(s);
      HostlessSound(s, Detach(s));
    case WireCloses(_) =>
      DetachExactly(s);
      HostlessSound(s, Detach(s));
    case HostSends(wire, f) =>
      HeardExactly(s, wire, f);
      HeardSound(s, FromHost(s, wire, f), wire, f);
    case WorkerSends(w, f) => WorkerSound(s, w, f);
    case Cancels(id, w) =>
      CancelExactly(s, id, w);
      CancelledSound(s, Cancel(s, id, w), w, id);
    case WorkerCloses(w) =>
      CloseWorkerEffect(s, w);
      EffectSound(s, CloseWorker(s, w),
                  Withdrawals(s.probes, w) + if s.host.Some? then Stops(s.pending, w, s.host.value.connection) else [],
                  OwnedBy(s, w));
    case Settles(k, outcome) => SettleSound(s, k, outcome);
  }

  lemma InitSound(lim: Limits)
    ensures Sound(Init(lim))
  {
  }

  lemma {:induction false} RunGood(lim: Limits, events: seq<Event>)
    ensures Good(Run(lim, events)) && Linked(Run(lim, events)) && Run(lim, events).lim == lim
  {
    hide Stable, Chronicle, Sound, Linked, Step;
    RunChron(lim, events);
    RunLinked(lim, events);
    RunStable(lim, events);
    if events == [] {
      InitSound(lim);
    } else {
      RunGood(lim, events[..|events| - 1]);
      StepSound(Run(lim, events[..|events| - 1]), events[|events| - 1]);
    }
  }

  // ---- Every event of every run ----

  /** What the host announced last on its present connection: whether it relays providers. */
  function Announced(lim: Limits, events: seq<Event>): bool {
    if events == [] then false
    else
      var before, e := events[..|events| - 1], events[|events| - 1];
      var s, n := Run(lim, before), Run(lim, events);
      if n.host.None? || s.host != n.host then false
      else if e.HostSends? && e.wire == n.host.value.wire && e.hostFrame.Health? then e.hostFrame.providerRelay
      else Announced(lim, before)
  }

  ghost predicate Settled(s: State, n: State, k: nat, outcome: Outcome)
    requires k in s.tasks && s.tasks[k].token < |s.ops|
  {
    var u, op := Taking(s, k), s.ops[s.tasks[k].token];
    match s.tasks[k]
    case OpenAuth(_) => Authorizes(s, n, k, outcome)
    case OpenSend(_) =>
      if outcome.Yes? then n == u else Effect(u, n, [HubEnd(op.worker, op.request.id)], OpenUnder(u, op.request.id))
    case FrameAuth(_, _, _, _) => Relays(s, n, k, outcome)
    case EndSent(_) => if outcome.Yes? then Effect(u, n, [], OpenUnder(u, op.request.id)) else n == u
  }

  /** The reaction to each event: what is sent, which requests leave, which continuations wait. */
  ghost predicate Responds(s: State, n: State, e: Event, announced: bool) {
    match e
    case Attaches(wire, ownerId, registration) => Attached(s, n, wire, ownerId, registration)
    case Detaches => Hostless(s, n)
    case WireCloses(wire) => if s.host.Some? && s.host.value.wire == wire then Hostless(s, n) else n == s
    case HostSends(wire, f) => Heard(s, n, wire, f)
    case WorkerSends(w, f) =>
      if f.Open? then Answers(s, n, f.request, w, announced)
      else
        && (f.Ack? || f.Reply? ==> forall t: nat | OpenFor(s, t, w, f.id) :: PassesUp(s, n, w, f, t))
        && ((f.Ack? || f.Reply? ==> forall t: nat :: !OpenFor(s, t, w, f.id)) ==> Handled(s, n, w, f))
    case Cancels(id, w) => Cancelled(s, n, w, id)
    case WorkerCloses(w) =>
      Effect(s, n, Withdrawals(s.probes, w) + if s.host.Some? then Stops(s.pending, w, s.host.value.connection) else [],
             OwnedBy(s, w))
    case Settles(k, outcome) =>
      if k !in s.tasks then n == s else s.tasks[k].token < |s.ops| && Settled(s, n, k, outcome)
  }

  lemma SettlesExactly(s: State, k: nat, outcome: Outcome)
    requires Good(s) && k in s.tasks
    ensures s.tasks[k].token < |s.ops| && Settled(s, Resume(s, k, outcome), k, outcome)
  {
    hide Good, Resume, Authorizes, Relays, Effect;
    match s.tasks[k]
    case OpenAuth(_) => ForwardExactly(s, k, outcome);
    case OpenSend(_) => SendExactly(s, k, outcome);
    case FrameAuth(_, _, _, _) => RelayExactly(s, k, outcome);
    case EndSent(_) => EndExactly(s, k, outcome);
  }

  lemma StepExactly(s: State, e: Event)
    requires Good(s) && Linked(s)
    ensures Responds(s, Step(s, e), e, s.relay)
  {
    hide Good, Linked, Attach, Detach, FromHost, FromWorker, Cancel, CloseWorker, Resume, Effect, Hostless, Attached, Heard,
      Cancelled, PassesUp, Handled, Answers, Settled, OpenFor;
    GoodParts(s);
    match e
    case Attaches(wire, ownerId, registration) => AttachExactly(s, wire, ownerId, registration);
    case Detaches => DetachExactly(s);
    case WireCloses(_) => DetachExactly(s);
    case HostSends(wire, f) => HeardExactly(s, wire, f);
    case WorkerSends(w, f) =>
      if f.Open? {
        SubmitIs(s, w, f);
        AdmitExactly(s, f.request, w);
      } else {
        forall t: nat | (f.Ack? || f.Reply?) && OpenFor(s, t, w, f.id)
          ensures Observe(s.lim, t, s.log).Live? && PassesUp(s, FromWorker(s, w, f), w, f, t)
        {
          LiveOpen(s, t, w, f.id);
          UpstreamExactly(s, w, f, t);
        }
        if f.Ack? || f.Reply? ==> forall t: nat :: !OpenFor(s, t, w, f.id) { HandledExactly(s, w, f); }
      }
    case Cancels(id, w) => CancelExactly(s, id, w);
    case WorkerCloses(w) => CloseWorkerEffect(s, w);
    case Settles(k, outcome) => if k in s.tasks { SettlesExactly(s, k, outcome); } else { NothingWaits(s, k, outcome); }
  }

  lemma NothingWaits(s: State, k: nat, outcome: Outcome)
    requires k !in s.tasks
    ensures Resume(s, k, outcome) == s
  {
  }

  lemma RelayFollows(s: State, n: State, e: Event)
    requires Core(s) && Sound(s) && Sound(n) && Responds(s, n, e, s.relay)
    ensures n.host.Some? && s.host != n.host ==> !n.relay
    ensures n.host.Some? && s.host == n.host ==>
              n.relay == if e.HostSends? && e.wire == n.host.value.wire && e.hostFrame.Health?
                         then e.hostFrame.providerRelay else s.relay
  {
    hide Core, Brokered, Wired, SeenForwarded, OpenAs, OpenFor, QueuedFor, Messages, OpensMore, Holding, Observe, Watch,
      Admissible, Withdrawals, Stops, Recall, EndedBy, Farewells, QueueFarewells;
    OldConnections(s);
  }

  lemma {:induction false} RelayAnnounced(lim: Limits, events: seq<Event>)
    ensures Run(lim, events).relay == Announced(lim, events)
  {
    hide Stable, Chronicle, Core, Linked, Responds, Step, Brokered, Wired, SeenForwarded;
    if events != [] {
      var before, e := events[..|events| - 1], events[|events| - 1];
      RelayAnnounced(lim, before);
      RunGood(lim, before);
      RunGood(lim, events);
      GoodParts(Run(lim, before));
      StepExactly(Run(lim, before), e);
      RelayFollows(Run(lim, before), Run(lim, events), e);
    }
  }

  /** Every event of every run is answered exactly. */
  lemma RespondsExactly(lim: Limits, events: seq<Event>, e: Event)
    ensures Responds(Run(lim, events), Run(lim, events + [e]), e, Announced(lim, events))
  {
    hide Good, Linked, Responds, Step, Run, Announced;
    RunGood(lim, events);
    RunSnoc(lim, events, e);
    RelayAnnounced(lim, events);
    StepExactly(Run(lim, events), e);
  }

  // ---- What this means for forwarding, relaying and admission ----

  /**
   An authorization that was granted forwards its request, unless the record is gone or 100,000 ids were
   seen before it; nothing in hand changes, and there is no other way to forward anything here.
   */
  lemma ForwardsExactly(lim: Limits, events: seq<Event>, k: nat, outcome: Outcome)
    requires k in Run(lim, events).tasks && Run(lim, events).tasks[k].OpenAuth?
    ensures var s, n := Run(lim, events), Run(lim, events + [Settles(k, outcome)]);
            var t := s.tasks[k].token;
            && t < |s.ops|
            && var sent := Forwarded(t, s.ops[t].connection, s.ops[t].request);
               var held := exists i :: 0 <= i < |s.pending| && s.pending[i].token == t;
               var goes := outcome.Yes? && held && |s.seen| < MAX_HISTORY;
               && (n.log == Then(s.log, sent) <==> goes)
               && (goes ==> n.pending == s.pending && n.probes == s.probes && n.host == s.host && n.ops == s.ops)
  {
    hide Stable, Core, Told, Chronicle, Linked, Sound, Run, Effect, Messages, Farewells, QueueFarewells, OpenUnder, Announced,
      Observe, PendingRuns, ProbeRuns;
    RunGood(lim, events);
    RespondsExactly(lim, events, Settles(k, outcome));
    var s, n := Run(lim, events), Run(lim, events + [Settles(k, outcome)]);
    GoodParts(s);
    TakingGood(s, k);
    var t := s.tasks[k].token;
    var op := s.ops[t];
    if Observe(s.lim, t, s.log).Live? {
      var i := LiveRecord(s, t);
    } else {
      forall i | 0 <= i < |s.pending| ensures s.pending[i].token != t { RecordLive(s, i); }
    }
    var u, end := Taking(s, k), HubEnd(op.worker, op.request.id);
    Sends(s.log, Forwarded(t, op.connection, op.request));
    if Effect(u, n, [end], OpenUnder(u, op.request.id)) { EffectLast(u, n, end, OpenUnder(u, op.request.id)); }
  }

  lemma EffectLast(s: State, n: State, e: Entry, gone: set<nat>)
    requires Effect(s, n, [e], gone)
    ensures Messages(n.log) != [] && Messages(n.log)[|Messages(n.log)| - 1] == e
  {
    hide OpensMore, Holding, Messages;
  }

  /** An authorized frame of an open operation is relayed if and only if the observer of HubMonitor accepts it. */
  lemma RelaysExactly(lim: Limits, events: seq<Event>, k: nat, outcome: Outcome)
    requires k in Run(lim, events).tasks && Run(lim, events).tasks[k].FrameAuth?
    ensures var s, n := Run(lim, events), Run(lim, events + [Settles(k, outcome)]);
            var t := s.tasks[k];
            && t.token < |s.ops|
            && var ph := Observe(lim, t.token, s.log);
               var e := Relayed(t.token, s.ops[t.token].worker, t.connection, t.frame);
               n.log == Then(s.log, e) <==> outcome.Yes? && ph.Live? && Watch(lim, t.token, ph, e).Live?
  {
    hide Stable, Core, Told, Chronicle, Linked, Sound, Run, Effect, Messages, Observe, Watch, Announced, OpenFor, QueuedFor;
    RunGood(lim, events);
    RespondsExactly(lim, events, Settles(k, outcome));
    var s, n := Run(lim, events), Run(lim, events + [Settles(k, outcome)]);
    TakingGood(s, k);
    var t := s.tasks[k];
    var u, op := Taking(s, k), s.ops[t.token];
    Sends(s.log, Relayed(t.token, op.worker, t.connection, t.frame));
    if Cancelled(u, n, op.worker, op.request.id) { CancelledLast(u, n, op.worker, op.request.id); }
  }

  /** What stopping an operation says last is the end frame to its worker. */
  lemma CancelledLast(s: State, n: State, w: Wire, id: string)
    requires Cancelled(s, n, w, id)
    ensures n == s || (Messages(n.log) != [] && Messages(n.log)[|Messages(n.log)| - 1] == HubEnd(w, id))
  {
    hide OpensMore, Holding, QueuedFor, OwnedUnder, Observe, Messages;
    if t: nat :| OpenFor(s, t, w, id) {
      assert Effect(s, n, [HubCancel(t, Observe(s.lim, t, s.log).op.connection), HubEnd(w, id)], OwnedUnder(s, w, id));
    } else if QueuedFor(s, w, id) {
      assert Effect(s, n, [HubEnd(w, id)], OwnedUnder(s, w, id));
    }
  }

  /** An ack or a well-shaped reply of an operation's own worker goes to the host if and only if the observer accepts it. */
  lemma AcksExactly(lim: Limits, events: seq<Event>, w: Wire, f: WorkerFrame, t: nat)
    requires (f.Ack? || f.Reply?) && OpenFor(Run(lim, events), t, w, f.id)
    ensures var s, n := Run(lim, events), Run(lim, events + [WorkerSends(w, f)]);
            var ph := Observe(lim, t, s.log);
            && s.lim == lim && ph.Live?
            && var e := Upstream(t, w, ph.op.connection, f);
               n.log == Then(s.log, e) <==> Proper(f) && Watch(lim, t, ph, e).Live?
  {
    hide Good, Linked, Run, Effect, Messages, Observe, Watch, Announced, QueuedFor, Proper, Handled, Cancelled;
    RunGood(lim, events);
    RespondsExactly(lim, events, WorkerSends(w, f));
    var s, n := Run(lim, events), Run(lim, events + [WorkerSends(w, f)]);
    Sends(s.log, Upstream(t, w, Observe(lim, t, s.log).op.connection, f));
    if Cancelled(s, n, w, f.id) { CancelledLast(s, n, w, f.id); }
  }

  /** An id is refused as seen exactly if it was forwarded, until the history is full. */
  lemma SeenExactly(lim: Limits, events: seq<Event>, id: string)
    requires |Run(lim, events).seen| <= MAX_HISTORY
    ensures id in Run(lim, events).seen <==> Forwards(Run(lim, events).log, id) == 1
  {
    hide Stable, Told, Marked, Honest, Linked, Brokered, Wired, Passed, Messages, Forwards, TotalForwards, FenceHeld,
      LostIn, Run;
    RunGood(lim, events);
    ForwardsPassed(Run(lim, events).log, id);
  }

  /** An event that is no request opens nothing but probes from the queue. */
  lemma OpsFromQueue(s: State, n: State, e: Event, announced: bool)
    requires Responds(s, n, e, announced) && !(e.WorkerSends? && e.workerFrame.Open?)
    ensures s.ops <= n.ops && forall t | |s.ops| <= t < |n.ops| :: FleetProbe(n.ops[t].request)
  {
    hide Holding, OpenAs, OpenFor, QueuedFor, Messages, Observe, Watch, Withdrawals, Stops, Recall, EndedBy, Farewells,
      QueueFarewells, InHand, PendingRuns, ProbeRuns, FleetProbe;
    match e
    case WorkerSends(w, f) =>
      if f.Ack? || f.Reply? {
        if x: nat :| OpenFor(s, x, w, f.id) {
          LiveOpen(s, x, w, f.id);
          assert PassesUp(s, n, w, f, x);
          if Cancelled(s, n, w, f.id) { CancelledOps(s, n, w, f.id); }
        }
      } else if !f.Nameless? && Cancelled(s, n, w, f.id) {
        CancelledOps(s, n, w, f.id);
      }
    case HostSends(_, f) =>
      if !f.Health? {
        if x: nat :| OpenAs(s, x, f.id) {}
      }
    case Cancels(id, w) => CancelledOps(s, n, w, id);
    case Settles(k, _) =>
      if k in s.tasks && s.tasks[k].FrameAuth? {
        var op := s.ops[s.tasks[k].token];
        if Cancelled(Taking(s, k), n, op.worker, op.request.id) { CancelledOps(Taking(s, k), n, op.worker, op.request.id); }
      }
    case _ =>
  }

  lemma CancelledOps(s: State, n: State, w: Wire, id: string)
    requires Cancelled(s, n, w, id)
    ensures s.ops <= n.ops && forall t | |s.ops| <= t < |n.ops| :: FleetProbe(n.ops[t].request)
  {
    hide Holding, QueuedFor, Messages, Observe, FleetProbe;
    if t: nat :| OpenFor(s, t, w, id) {
      assert Effect(s, n, [HubCancel(t, Observe(s.lim, t, s.log).op.connection), HubEnd(w, id)], OwnedUnder(s, w, id));
    }
  }

  /** Operation `t` was opened by its own worker's request `i`, on its connection, after the host announced the relay. */
  predicate OpenedRelayed(lim: Limits, events: seq<Event>, i: nat, op: Op)
    requires i < |events|
  {
    && events[i] == WorkerSends(op.worker, Open(op.request)) && Announced(lim, events[..i])
    && Run(lim, events[..i]).host.Some? && Run(lim, events[..i]).host.value.connection == op.connection
  }

  /**
   Every Hermes turn was opened by its worker's request, on the connection its provider broker was issued
   for, while the host of that connection announced that it relays providers.
   */
  lemma {:induction false} HermesOpens(lim: Limits, events: seq<Event>, t: nat)
    requires t < |Run(lim, events).ops| && Hermes(Run(lim, events).ops[t].request)
    ensures var op := Run(lim, events).ops[t];
            && op.request.operation.broker == Some(op.connection)
            && exists i | 0 <= i < |events| :: OpenedRelayed(lim, events, i, op)
  {
    hide Stable, Chronicle, Linked, Step, Effect, Messages, Announced, Wired, SeenForwarded, InHand, Responds;
    RunGood(lim, events);
    var op := Run(lim, events).ops[t];
    assert op in Run(lim, events).ops;
    if events != [] {
      var before, e := events[..|events| - 1], events[|events| - 1];
      var s := Run(lim, before);
      assert before + [e] == events;
      RespondsExactly(lim, before, e);
      if t < |s.ops| {
        OpsStay(s, Run(lim, events), e, Announced(lim, before));
        HermesOpens(lim, before, t);
        var i :| 0 <= i < |before| && OpenedRelayed(lim, before, i, op);
        assert before[..i] == events[..i];
        assert OpenedRelayed(lim, events, i, op);
      } else {
        NewHermes(s, Run(lim, events), e, Announced(lim, before), t);
        assert events[..|before|] == before;
        assert OpenedRelayed(lim, events, |before|, op);
      }
    }
  }

  lemma OpsStay(s: State, n: State, e: Event, announced: bool)
    requires Responds(s, n, e, announced)
    ensures s.ops <= n.ops
  {
    hide Responds, Admissible;
    if e.WorkerSends? && e.workerFrame.Open? { RequestOps(s, n, e, announced); } else { OpsFromQueue(s, n, e, announced); }
  }

  lemma RequestOps(s: State, n: State, e: Event, announced: bool)
    requires Responds(s, n, e, announced) && e.WorkerSends? && e.workerFrame.Open?
    ensures s.ops <= n.ops
  {
    hide InHand;
  }

  lemma NewHermes(s: State, n: State, e: Event, announced: bool, t: nat)
    requires Responds(s, n, e, announced) && |s.ops| <= t < |n.ops| && Hermes(n.ops[t].request)
    ensures e == WorkerSends(n.ops[t].worker, Open(n.ops[t].request)) && announced
    ensures s.host.Some? && s.host.value.connection == n.ops[t].connection
  {
    hide InHand, Messages;
    if !(e.WorkerSends? && e.workerFrame.Open?) { OpsFromQueue(s, n, e, announced); }
  }
}
