/**
 How the hub's state relates to the history of everything it sent. Each group below is proved for
 the building blocks; HubRuns carries it over whole runs.
 */
module HubHistory {
  import opened Options
  import opened HubModel
  import opened HubSafety
  import opened HubMonitor

  // ---- The observer agrees with the hub's records ----

  function TokenAt(ps: seq<Pending>, t: nat): (i: int)
    ensures -1 <= i < |ps|
    ensures i >= 0 ==> ps[i].token == t
    ensures i == -1 ==> forall k | 0 <= k < |ps| :: ps[k].token != t
  {
    if |ps| == 0 then -1 else if ps[|ps| - 1].token == t then |ps| - 1 else TokenAt(ps[..|ps| - 1], t)
  }

  function LiveOf(op: Op, seen: set<string>, p: Pending): Phase
    requires p.last >= -1
  {
    Live(op, p.request.id in seen, p.last + 1, p.ack, p.bytes,
         p.workerBytes, p.providerBytes, p.otherBytes, p.calls)
  }

  function Expected(ps: seq<Pending>, ops: seq<Op>, seen: set<string>, t: nat): Phase {
    var i := TokenAt(ps, t);
    if i >= 0 && t < |ops| && ps[i].last >= -1 then LiveOf(ops[t], seen, ps[i])
    else if t < |ops| then Gone
    else Unborn
  }

  ghost predicate Told(s: State) {
    forall t: nat :: Observe(s.lim, t, s.log) == Expected(s.pending, s.ops, s.seen, t)
  }

  predicate DistinctTokens(ps: seq<Pending>) {
    forall i, j | 0 <= i < j < |ps| :: ps[i].token != ps[j].token
  }

  lemma TokensDistinct(s: State)
    requires Core(s)
    ensures DistinctTokens(s.pending)
    ensures forall i | 0 <= i < |s.pending| :: s.pending[i].token < |s.ops| && s.pending[i].last >= -1
  {
    forall i | 0 <= i < |s.pending|
      ensures Known(s.pending[i], s.ops, s.connections) && Metered(s.lim, s.pending[i])
    {
      assert s.pending[i] in s.pending;
    }
  }

  lemma TokenFound(ps: seq<Pending>, i: nat)
    requires i < |ps| && DistinctTokens(ps)
    ensures TokenAt(ps, ps[i].token) == i
  {
  }

  lemma TokenAfterRemoval(ps: seq<Pending>, i: nat, t: nat)
    requires i < |ps| && DistinctTokens(ps)
    ensures var k := TokenAt(Without(ps, i), t);
            if t == ps[i].token then k == -1
            else (k == -1 <==> TokenAt(ps, t) == -1) && (k >= 0 ==> Without(ps, i)[k] == ps[TokenAt(ps, t)])
  {
    WithoutIn(ps, i);
    var qs := Without(ps, i);
    var k, m := TokenAt(qs, t), TokenAt(ps, t);
    if t != ps[i].token && m >= 0 {
      assert ps[m] == qs[if m < i then m else m - 1];
    }
  }

  lemma TokenAfterUpdate(ps: seq<Pending>, i: nat, p: Pending, t: nat)
    requires i < |ps| && p.token == ps[i].token && DistinctTokens(ps)
    ensures TokenAt(ps[i := p], t) == TokenAt(ps, t)
  {
    var qs := ps[i := p];
    assert forall k | 0 <= k < |ps| :: qs[k].token == ps[k].token;
    var k, m := TokenAt(qs, t), TokenAt(ps, t);
    if k >= 0 && m >= 0 { TokenFound(ps, k); }
  }

  lemma QuietTold(s: State, e: Entry)
    requires Told(s) && forall t: nat :: !Concerns(e, t)
    ensures Told(Say(s, e))
  {
  }

  lemma ReserveTold(s: State, r: Request, w: Wire, arrival: nat)
    requires Core(s) && Told(s) && s.host.Some? && r.id !in s.seen
    ensures Told(Reserve(s, r, w, arrival))
  {
    hide Core, Metered, OnRelay, OnUpstream;
    TokensDistinct(s);
    var n := Reserve(s, r, w, arrival);
    forall t: nat ensures Observe(n.lim, t, n.log) == Expected(n.pending, n.ops, n.seen, t) {
      assert Observe(s.lim, t, s.log) == Expected(s.pending, s.ops, s.seen, t);
      assert n.pending[..|s.pending|] == s.pending;
    }
  }

  lemma ClosedTold(s: State, i: nat)
    requires Core(s) && Told(s) && i < |s.pending|
    ensures Told(Say(s.(pending := Without(s.pending, i)), Closed(s.pending[i].token)))
  {
    hide Core, Known, Metered, OnRelay, OnUpstream;
    TokensDistinct(s);
    var n := Say(s.(pending := Without(s.pending, i)), Closed(s.pending[i].token));
    forall t: nat ensures Observe(n.lim, t, n.log) == Expected(n.pending, n.ops, n.seen, t) {
      assert Observe(s.lim, t, s.log) == Expected(s.pending, s.ops, s.seen, t);
      TokenFound(s.pending, i);
      TokenAfterRemoval(s.pending, i, t);
    }
  }

  /** A record is changed together with one entry about it. */
  lemma UpdateTold(s: State, i: nat, p: Pending, e: Entry)
    requires Core(s) && Told(s) && i < |s.pending|
    requires p.token == s.pending[i].token && p.request == s.pending[i].request && p.last >= -1
    requires forall t: nat :: Concerns(e, t) ==> t == p.token
    requires p.token < |s.ops| && s.pending[i].last >= -1
    requires Watch(s.lim, p.token, LiveOf(s.ops[p.token], s.seen, s.pending[i]), e) == LiveOf(s.ops[p.token], s.seen, p)
    ensures Told(Say(s.(pending := s.pending[i := p]), e))
  {
    hide Core, Known, Metered, OnRelay, OnUpstream;
    TokensDistinct(s);
    var n := Say(s.(pending := s.pending[i := p]), e);
    forall t: nat ensures Observe(n.lim, t, n.log) == Expected(n.pending, n.ops, n.seen, t) {
      assert Observe(s.lim, t, s.log) == Expected(s.pending, s.ops, s.seen, t);
      TokenFound(s.pending, i);
      TokenAfterUpdate(s.pending, i, p, t);
    }
  }

  /** Forwarding marks the id as seen together with its entry. */
  lemma ForwardTold(s: State, i: nat, e: Entry)
    requires Core(s) && Told(s) && i < |s.pending|
    requires s.pending[i].token < |s.ops| && s.pending[i].request.id !in s.seen
    requires e == Forwarded(s.pending[i].token, s.ops[s.pending[i].token].connection, s.pending[i].request)
    requires s.ops[s.pending[i].token].request == s.pending[i].request
    requires forall j | 0 <= j < |s.pending| && j != i :: s.pending[j].request.id != s.pending[i].request.id
    ensures Told(Say(s.(seen := s.seen + {s.pending[i].request.id}), e))
  {
    hide Core, Known, Metered, OnRelay, OnUpstream;
    TokensDistinct(s);
    var n := Say(s.(seen := s.seen + {s.pending[i].request.id}), e);
    forall t: nat ensures Observe(n.lim, t, n.log) == Expected(n.pending, n.ops, n.seen, t) {
      assert Observe(s.lim, t, s.log) == Expected(s.pending, s.ops, s.seen, t);
      TokenFound(s.pending, i);
      var k := TokenAt(s.pending, t);
    }
  }

  // ---- Forwarded requests and the lost-run fence ----

  function Forwards(log: History, id: string): nat {
    match log
    case Start => 0
    case Then(before, e) => Forwards(before, id) + if e.Forwarded? && e.request.id == id then 1 else 0
  }

  function TotalForwards(log: History): nat {
    match log
    case Start => 0
    case Then(before, e) => TotalForwards(before) + if e.Forwarded? then 1 else 0
  }

  predicate LostIn(log: History, run: string) {
    log.Then? && (log.entry == Lost(run) || LostIn(log.before, run))
  }

  /** No request of a run already lost was forwarded, unless it is a board run. */
  predicate FenceHeld(log: History) {
    log.Then? ==>
      && FenceHeld(log.before)
      && (log.entry.Forwarded? && LostIn(log.before, log.entry.request.run) ==>
            log.entry.request.operation.BoardRun?)
  }

  ghost predicate Sent(s: State) {
    && (forall id: string :: Forwards(s.log, id) <= 1 && (Forwards(s.log, id) > 0 ==> id in s.seen))
    && TotalForwards(s.log) <= |s.seen| && TotalForwards(s.log) <= MAX_HISTORY
    && (forall run: string :: LostIn(s.log, run) <==> run in s.lostRuns)
    && FenceHeld(s.log)
  }

  lemma QuietSent(s: State, e: Entry)
    requires Sent(s) && !e.Forwarded? && !e.Lost?
    ensures Sent(Say(s, e))
  {
    var n := Say(s, e);
    assert forall id: string :: Forwards(n.log, id) == Forwards(s.log, id);
    assert forall run: string :: LostIn(n.log, run) == LostIn(s.log, run);
  }

  lemma LostSent(s: State, run: string)
    requires Sent(s)
    ensures Sent(Say(s.(lostRuns := s.lostRuns + {run}), Lost(run)))
  {
    var n := Say(s.(lostRuns := s.lostRuns + {run}), Lost(run));
    assert forall id: string :: Forwards(n.log, id) == Forwards(s.log, id);
    assert forall r: string :: LostIn(n.log, r) == (r == run || LostIn(s.log, r));
  }

  lemma ForwardSent(s: State, e: Entry)
    requires Sent(s) && e.Forwarded? && e.request.id !in s.seen && |s.seen| < MAX_HISTORY
    requires e.request.run in s.lostRuns ==> e.request.operation.BoardRun?
    ensures Sent(Say(s.(seen := s.seen + {e.request.id}), e))
  {
    var n := Say(s.(seen := s.seen + {e.request.id}), e);
    assert forall id: string :: Forwards(s.log, id) <= 1 && (Forwards(s.log, id) > 0 ==> id in s.seen);
    assert |n.seen| == |s.seen| + 1;
    assert forall id: string :: Forwards(n.log, id) == Forwards(s.log, id) + if id == e.request.id then 1 else 0;
  }

  lemma SeenSent(s: State, id: string)
    requires Sent(s)
    ensures Sent(s.(seen := s.seen + {id}))
  {
    assert |s.seen + {id}| >= |s.seen| by {
      assert s.seen + {id} == s.seen + ({id} - s.seen);
    }
  }

  // ---- End frames ----

  predicate EndFor(e: Entry, w: Wire, id: string) {
    e == HubEnd(w, id) || (e.Relayed? && e.worker == w && e.frame.End? && e.frame.id == id)
  }

  predicate Ended(log: History, w: Wire, id: string) {
    log.Then? && (EndFor(log.entry, w, id) || Ended(log.before, w, id))
  }

  /** The request that arrived as number `a` was queued or opened. */
  predicate Begun(log: History, a: nat) {
    log.Then? && ((log.entry.Queued? && log.entry.probe.arrival == a) || (log.entry.Opened? && log.entry.op.arrival == a)
                  || Begun(log.before, a))
  }

  /** An end frame under `id` was sent to worker `w` after the request that arrived as number `a` was taken in. */
  predicate Answered(log: History, a: nat, w: Wire, id: string) {
    log.Then? && ((EndFor(log.entry, w, id) && Begun(log.before, a)) || Answered(log.before, a, w, id))
  }

  lemma {:induction false} AnsweredEnded(log: History, a: nat, w: Wire, id: string)
    requires Answered(log, a, w, id)
    ensures Ended(log, w, id)
  {
    if Answered(log.before, a, w, id) { AnsweredEnded(log.before, a, w, id); }
  }

  /** An operation that the observer has seen is one that was opened. */
  lemma {:induction false} LiveBegun(lim: Limits, t: nat, log: History)
    requires Observe(lim, t, log).Live?
    ensures Begun(log, Observe(lim, t, log).op.arrival)
  {
    hide OnReply, OnUpstream, OnRelay;
    if !(Concerns(log.entry, t) && log.entry.Opened?) {
      KeepsOp(lim, t, Observe(lim, t, log.before), log.entry);
      LiveBegun(lim, t, log.before);
    }
  }

  lemma KeepsOp(lim: Limits, t: nat, ph: Phase, e: Entry)
    requires Watch(lim, t, ph, e).Live? && !(Concerns(e, t) && e.Opened?)
    ensures ph.Live? && Watch(lim, t, ph, e).op == ph.op
  {
  }

  /** Each arrival is opened at most once, and not while it still waits in the queue. */
  predicate OpenedOnce(ops: seq<Op>, qs: seq<Probe>) {
    && (forall t, u | 0 <= t < u < |ops| :: ops[t].arrival != ops[u].arrival)
    && (forall op, q | op in ops && q in qs :: op.arrival != q.arrival)
  }

  predicate EndsSent(tasks: map<nat, Task>, ops: seq<Op>, log: History) {
    forall k | k in tasks && tasks[k].EndSent? && tasks[k].token < |ops| ::
      var op := ops[tasks[k].token]; Answered(log, op.arrival, op.worker, op.request.id)
  }

  predicate Marked(s: State) {
    OpenedOnce(s.ops, s.probes) && EndsSent(s.tasks, s.ops, s.log)
  }

  lemma QuietMarked(s: State, e: Entry)
    requires Marked(s)
    ensures Marked(Say(s, e))
  {
  }

  // ---- Nothing is dropped silently, if ids are not reused ----

  predicate DistinctArrivals(arrivals: seq<Arrival>) {
    forall a, b | 0 <= a < b < |arrivals| :: arrivals[a].request.id != arrivals[b].request.id
  }

  predicate Holds(s: State, id: string) {
    PendingAt(s.pending, id) >= 0 || ProbeAt(s.probes, id) >= 0
  }

  predicate Accounted(s: State, a: Arrival) {
    Holds(s, a.request.id) || Ended(s.log, a.worker, a.request.id)
  }

  /** Every request received is open, queued, or was answered by an end frame to its worker. */
  predicate NoSilentDrop(s: State, x: set<string>) {
    forall a | a in s.arrivals && a.request.id !in x :: Accounted(s, a)
  }

  function RememberedBy(log: History, w: Wire): seq<string> {
    match log
    case Start => []
    case Then(before, e) =>
      RememberedBy(before, w) + if e.Remembered? && e.worker == w then [e.id] else []
  }

  function Latest(ids: seq<string>): seq<string> {
    if |ids| > MAX_COMPLETED then ids[|ids| - MAX_COMPLETED..] else ids
  }

  predicate HasArrived(arrivals: seq<Arrival>, id: string) {
    exists a :: a in arrivals && a.request.id == id
  }

  /** Each worker's memory is exactly its 64 most recently ended ids. */
  ghost predicate Memory(s: State) {
    && (forall w: Wire :: CompletedOf(s.completed, w) == Latest(RememberedBy(s.log, w)))
    && (forall w: Wire, id: string | id in RememberedBy(s.log, w) :: HasArrived(s.arrivals, id) && !Holds(s, id))
  }

  ghost predicate Honest(s: State, x: set<string>) {
    DistinctArrivals(s.arrivals) ==> NoSilentDrop(s, x) && Memory(s)
  }

  ghost predicate Chronicle(s: State, x: set<string>) {
    Told(s) && Sent(s) && Marked(s) && Honest(s, x)
  }
}
