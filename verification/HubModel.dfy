/**
 The relay hub of apps/api/src/host-hub.ts as a state machine.

 JavaScript runs the code between two `await`s without interruption, so each such stretch is one
 step here. A promise continuation that is still waiting is a `Task`; resuming it is a later step.
 `State` carries the hub's own fields together with a history of everything the hub sent.
 */
module HubModel {
  import opened Options

  /** Wires are compared by identity in the source; a number stands for the object. */
  type Wire = nat

  const MAX_PROBES := 128
  const MAX_HISTORY := 100_000
  const MAX_COMPLETED := 64
  const MAX_PROVIDER_BYTES := 6 * 1024 * 1024
  const MAX_OTHER_BYTES := 2 * 1024 * 1024

  /** HOST_IN_FLIGHT, HOST_WINDOW and HOST_TOTAL_BYTES. */
  datatype Limits = Limits(inFlight: nat, window: nat, totalBytes: nat)

  datatype Operation =
    | Discover
    | RemoteCall(action: string)
    | BoardRun
    | RuntimeTurn(hermes: bool, broker: Option<nat>)
    | OtherOperation(name: string)

  datatype Request = Request(id: string, run: string, operation: Operation)

  predicate FleetProbe(r: Request) {
    r.operation.Discover? ||
    (r.operation.RemoteCall? &&
     r.operation.action in {"capacity", "test", "kube.capacity", "kube.namespaces", "kube.version"})
  }

  predicate Hermes(r: Request) {
    r.operation.RuntimeTurn? && r.operation.hermes
  }

  datatype Method =
    | AuthorizeTool | ExecuteTool | OnToolCompleted | OnRuntimeInfo
    | AcknowledgeInput | ClaimSteering | SaveCheckpoint
    | ProviderOpen | ProviderRead | ProviderCancel

  predicate Provider(m: Method) {
    m.ProviderOpen? || m.ProviderRead? || m.ProviderCancel?
  }

  /** Frames a host sends. `Unexpected` is any frame kind only a worker may send. */
  datatype HostFrame =
    | Health(providerRelay: bool)
    | Stream(id: string, number: nat, size: nat)
    | Callback(id: string, callId: string, kind: Method, size: nat)
    | End(id: string, size: nat)
    | Unexpected(id: string)

  /** Frames a worker sends; `parses` tells whether a reply's value has the shape its method demands. */
  datatype WorkerFrame =
    | Open(request: Request)
    | CancelFrame(id: string)
    | Ack(id: string, number: nat)
    | Reply(id: string, callId: string, failed: bool, parses: bool, size: nat)
    | Foreign(id: string)
    | Nameless

  datatype Host = Host(wire: Wire, ownerId: string, registration: string, connection: nat)

  /** A reserved operation. `token` is the record's identity. */
  datatype Pending = Pending(
    token: nat, request: Request, worker: Wire,
    last: int, ack: int, bytes: nat,
    workerBytes: nat, providerBytes: nat, otherBytes: nat,
    calls: map<string, Method>)

  /** A probe waiting for a slot; `arrival` numbers the request among all requests received. */
  datatype Probe = Probe(request: Request, worker: Wire, arrival: nat)

  datatype Task =
    | OpenAuth(token: nat)
    | OpenSend(token: nat)
    | FrameAuth(token: nat, wire: Wire, connection: nat, frame: HostFrame)
    | EndSent(token: nat)

  /** How an awaited promise settles. */
  datatype Outcome = Yes | No | Threw

  datatype Arrival = Arrival(request: Request, worker: Wire)

  /** Every operation ever reserved, in order of reservation; the index is its token. */
  datatype Op = Op(request: Request, worker: Wire, connection: nat, arrival: nat)

  datatype Entry =
    | Opened(token: nat, op: Op)
    | Closed(token: nat)
    | Remembered(worker: Wire, id: string)
    | Queued(probe: Probe)
    | Withdrawn(arrival: nat)
    | Lost(run: string)
    | Relayed(token: nat, worker: Wire, connection: nat, frame: HostFrame)
    | HubEnd(worker: Wire, id: string)
    | Forwarded(token: nat, connection: nat, request: Request)
    | Upstream(token: nat, worker: Wire, connection: nat, sent: WorkerFrame)
    | HubCancel(token: nat, connection: nat)
    | Refused(wire: Wire)

  datatype History = Start | Then(before: History, entry: Entry)

  datatype State = State(
    lim: Limits,
    host: Option<Host>,
    relay: bool,
    pending: seq<Pending>,
    probes: seq<Probe>,
    seen: set<string>,
    lostRuns: set<string>,
    completed: map<Wire, seq<string>>,
    tasks: map<nat, Task>,
    nextTask: nat,
    connections: nat,
    ops: seq<Op>,
    arrivals: seq<Arrival>,
    log: History)

  function Init(lim: Limits): State {
    State(lim, None, false, [], [], {}, {}, map[], map[], 0, 0, [], [], Start)
  }

  // ---- Lookups in the two insertion-ordered maps ----

  function PendingAt(ps: seq<Pending>, id: string): (i: int)
    ensures -1 <= i < |ps|
    ensures i >= 0 ==> ps[i].request.id == id
    ensures i == -1 ==> forall k | 0 <= k < |ps| :: ps[k].request.id != id
  {
    if |ps| == 0 then -1
    else if ps[|ps| - 1].request.id == id then |ps| - 1
    else PendingAt(ps[..|ps| - 1], id)
  }

  function ProbeAt(qs: seq<Probe>, id: string): (i: int)
    ensures -1 <= i < |qs|
    ensures i >= 0 ==> qs[i].request.id == id
    ensures i == -1 ==> forall k | 0 <= k < |qs| :: qs[k].request.id != id
  {
    if |qs| == 0 then -1
    else if qs[|qs| - 1].request.id == id then |qs| - 1
    else ProbeAt(qs[..|qs| - 1], id)
  }

  function CountProbes(ps: seq<Pending>): (n: nat)
    ensures n <= |ps|
  {
    if |ps| == 0 then 0
    else CountProbes(ps[..|ps| - 1]) + if FleetProbe(ps[|ps| - 1].request) then 1 else 0
  }

  predicate ProbeCapacity(lim: Limits, ps: seq<Pending>) {
    |ps| < lim.inFlight && CountProbes(ps) < lim.inFlight / 2
  }

  function Without<T>(s: seq<T>, i: nat): seq<T>
    requires i < |s|
  {
    s[..i] + s[i + 1..]
  }

  // ---- Building blocks ----

  function Say(s: State, e: Entry): State {
    s.(log := Then(s.log, e))
  }

  function Await(s: State, t: Task): State {
    s.(tasks := s.tasks[s.nextTask := t], nextTask := s.nextTask + 1)
  }

  /** Adding to a JavaScript Set keeps insertion order and ignores a value already present. */
  function Insert(ids: seq<string>, id: string): seq<string> {
    var all := if id in ids then ids else ids + [id];
    if |all| > MAX_COMPLETED then all[1..] else all
  }

  function CompletedOf(completed: map<Wire, seq<string>>, w: Wire): seq<string> {
    if w in completed then completed[w] else []
  }

  function Remember(s: State, w: Wire, id: string): State {
    Say(s.(completed := s.completed[w := Insert(CompletedOf(s.completed, w), id)]), Remembered(w, id))
  }

  predicate Refuses(s: State, r: Request) {
    || s.host.None?
    || (!FleetProbe(r) && |s.pending| >= s.lim.inFlight)
    || (FleetProbe(r) && |s.probes| >= MAX_PROBES)
    || PendingAt(s.pending, r.id) >= 0
    || ProbeAt(s.probes, r.id) >= 0
    || r.id in s.seen
    || (r.run in s.lostRuns && !r.operation.BoardRun?)
    || |s.lostRuns| >= MAX_HISTORY
    || (Hermes(r) && (!s.relay || r.operation.broker != Some(s.host.value.connection)))
  }

  function Reserve(s: State, r: Request, w: Wire, arrival: nat): State
    requires s.host.Some?
  {
    var token := |s.ops|;
    var op := Op(r, w, s.host.value.connection, arrival);
    Await(Say(s.(pending := s.pending + [Pending(token, r, w, -1, -1, 0, 0, 0, 0, map[])],
                 ops := s.ops + [op]),
              Opened(token, op)),
          OpenAuth(token))
  }

  function Enqueue(s: State, q: Probe): State {
    Say(s.(probes := s.probes + [q]), Queued(q))
  }

  /** The part of `request` before its first `await`. */
  function Admit(s: State, r: Request, w: Wire, arrival: nat): State {
    if Refuses(s, r) then Say(s, HubEnd(w, r.id))
    else if FleetProbe(r) && !ProbeCapacity(s.lim, s.pending) then
      Enqueue(s, Probe(r, w, arrival))
    else Reserve(s, r, w, arrival)
  }

  function Submit(s: State, r: Request, w: Wire): State {
    Admit(s.(arrivals := s.arrivals + [Arrival(r, w)]), r, w, |s.arrivals|)
  }

  function Drain(s: State): State
    decreases |s.probes|
  {
    if s.host.Some? && s.probes != [] && ProbeCapacity(s.lim, s.pending) then
      Drain(Promote(s))
    else s
  }

  function Promote(s: State): State
    requires s.probes != []
  {
    var q := s.probes[0];
    Admit(s.(probes := s.probes[1..]), q.request, q.worker, q.arrival)
  }

  function Drop(s: State, i: nat): State
    requires i < |s.pending|
  {
    var p := s.pending[i];
    Remember(Say(s.(pending := Without(s.pending, i)), Closed(p.token)), p.worker, p.request.id)
  }

  function Finish(s: State, id: string): State {
    var i := PendingAt(s.pending, id);
    Drain(if i >= 0 then Drop(s, i) else s)
  }

  function CancelProbe(s: State, i: nat): State
    requires i < |s.probes|
  {
    var q := s.probes[i];
    var left := Say(s.(probes := Without(s.probes, i)), Withdrawn(q.arrival));
    Say(Remember(left, q.worker, q.request.id), HubEnd(q.worker, q.request.id))
  }

  function CancelPending(s: State, i: nat): State
    requires i < |s.pending|
  {
    var p := s.pending[i];
    var told := if s.host.Some? then Say(s, HubCancel(p.token, s.host.value.connection)) else s;
    Finish(Say(told, HubEnd(p.worker, p.request.id)), p.request.id)
  }

  function Cancel(s: State, id: string, w: Wire): State {
    var q := ProbeAt(s.probes, id);
    if q >= 0 && s.probes[q].worker == w then CancelProbe(s, q)
    else
      var i := PendingAt(s.pending, id);
      if i >= 0 && s.pending[i].worker == w then CancelPending(s, i) else s
  }

  // ---- Connections ----

  function Lose(s: State, run: string): State {
    Say(s.(lostRuns := s.lostRuns + {run}), Lost(run))
  }

  function LosePending(s: State): State
    decreases |s.pending|
  {
    if s.pending == [] then s else LosePending(LoseFirstPending(s))
  }

  function LoseFirstPending(s: State): State
    requires s.pending != []
  {
    var p := s.pending[0];
    var closed := Say(s.(pending := s.pending[1..]), Closed(p.token));
    Say(Lose(closed, p.request.run), HubEnd(p.worker, p.request.id))
  }

  function LoseProbes(s: State): State
    decreases |s.probes|
  {
    if s.probes == [] then s else LoseProbes(LoseFirstProbe(s))
  }

  function LoseFirstProbe(s: State): State
    requires s.probes != []
  {
    CancelProbe(Lose(s, s.probes[0].request.run), 0)
  }

  function Unhost(s: State): State {
    s.(host := None, relay := false)
  }

  function Detach(s: State): State {
    LoseProbes(LosePending(Unhost(s)))
  }

  function Attach(s: State, wire: Wire, ownerId: string, registration: string): State {
    var d := Detach(s);
    d.(host := Some(Host(wire, ownerId, registration, d.connections)), connections := d.connections + 1)
  }

  function DetachWire(s: State, wire: Wire): State {
    if s.host.Some? && s.host.value.wire == wire then Detach(s) else s
  }

  /** `closeWorker` walks each map while `cancel` removes from it. */
  function CloseProbes(s: State, w: Wire, i: nat): State
    decreases |s.probes| - i
  {
    if i >= |s.probes| then s
    else if s.probes[i].worker == w then CloseProbes(CancelProbe(s, i), w, i)
    else CloseProbes(s, w, i + 1)
  }

  function ClosePending(s: State, w: Wire, i: nat): State
    decreases |s.probes|, |s.pending| - i
  {
    if i >= |s.pending| then s
    else if s.pending[i].worker == w then
      var next := CancelPending(s, i);
      CancelPendingShrinks(s, i);
      ClosePending(next, w, i)
    else ClosePending(s, w, i + 1)
  }

  function CloseWorker(s: State, w: Wire): State {
    ClosePending(CloseProbes(s, w, 0), w, 0)
  }

  // ---- Frames ----

  function FromHost(s: State, wire: Wire, f: HostFrame): State {
    if s.host.None? || s.host.value.wire != wire then s
    else if f.Health? then s.(relay := f.providerRelay)
    else
      var i := PendingAt(s.pending, f.id);
      if i < 0 then s
      else Await(s, FrameAuth(s.pending[i].token, wire, s.host.value.connection, f))
  }

  predicate AcceptsCallback(lim: Limits, p: Pending, callId: string, m: Method) {
    && p.request.operation.RuntimeTurn?
    && (Provider(m) ==> Hermes(p.request) && p.request.operation.broker.Some?)
    && |p.calls| < lim.window
    && callId !in p.calls
  }

  predicate AcceptsFrame(lim: Limits, p: Pending, f: HostFrame) {
    match f
    case Stream(_, n, _) => n == p.last + 1 && n - p.ack <= lim.window
    case Callback(_, callId, m, _) => AcceptsCallback(lim, p, callId, m)
    case End(_, _) => true
    case _ => false
  }

  /** The record after a frame of the host was accepted. */
  function Received(p: Pending, f: HostFrame): Pending
    requires f.Stream? || f.Callback? || f.End?
  {
    match f
    case Stream(_, n, size) => p.(last := n, bytes := p.bytes + size)
    case Callback(_, callId, m, size) => p.(calls := p.calls[callId := m], bytes := p.bytes + size)
    case End(_, size) => p.(bytes := p.bytes + size)
  }

  function Deliver(s: State, i: nat, wire: Wire, connection: nat, f: HostFrame): State
    requires i < |s.pending|
  {
    var p := s.pending[i];
    if !AcceptsFrame(s.lim, p, f) then Say(s, Refused(wire))
    else
      var p' := Received(p, f);
      if p'.bytes > s.lim.totalBytes then Cancel(s, p.request.id, p.worker)
      else
        var s' := Say(s.(pending := s.pending[i := p']), Relayed(p.token, p.worker, connection, f));
        if f.End? then Await(s', EndSent(p.token)) else s'
  }

  /** The record after a reply was accepted; only Hermes turns split the count. */
  function Replied(p: Pending, callId: string, size: nat): Pending
    requires callId in p.calls
  {
    var provider := Provider(p.calls[callId]);
    p.(calls := p.calls - {callId},
       workerBytes := p.workerBytes + size,
       providerBytes := p.providerBytes + if Hermes(p.request) && provider then size else 0,
       otherBytes := p.otherBytes + if Hermes(p.request) && !provider then size else 0)
  }

  predicate OverReplyBudget(lim: Limits, p: Pending) {
    p.workerBytes > lim.totalBytes ||
    (Hermes(p.request) && (p.providerBytes > MAX_PROVIDER_BYTES || p.otherBytes > MAX_OTHER_BYTES))
  }

  function ToHost(s: State, i: nat, p: Pending, f: WorkerFrame): State
    requires i < |s.pending|
  {
    var s' := s.(pending := s.pending[i := p]);
    if s.host.Some? then Say(s', Upstream(p.token, p.worker, s.host.value.connection, f)) else s'
  }

  function TakeReply(s: State, i: nat, w: Wire, f: WorkerFrame): State
    requires i < |s.pending| && f.Reply?
  {
    var p := s.pending[i];
    if f.callId !in p.calls || (!f.failed && !f.parses) then Say(s, Refused(w))
    else
      var p' := Replied(p, f.callId, f.size);
      if OverReplyBudget(s.lim, p') then Cancel(s, p.request.id, w) else ToHost(s, i, p', f)
  }

  function FromOwner(s: State, i: nat, w: Wire, f: WorkerFrame): State
    requires i < |s.pending|
  {
    var p := s.pending[i];
    match f
    case CancelFrame(id) => Cancel(s, p.request.id, w)
    case Ack(_, n) =>
      if n <= p.ack || n > p.last then Say(s, Refused(w)) else ToHost(s, i, p.(ack := n), f)
    case Reply(_, _, _, _, _) => TakeReply(s, i, w, f)
    case _ => Say(s, Refused(w))
  }

  function FromWorker(s: State, w: Wire, f: WorkerFrame): State {
    if f.Open? then Submit(s, f.request, w)
    else if f.Nameless? then Say(s, Refused(w))
    else
      var q := ProbeAt(s.probes, f.id);
      if f.CancelFrame? && q >= 0 && s.probes[q].worker == w then Cancel(s, f.id, w)
      else
        var i := PendingAt(s.pending, f.id);
        if i < 0 then
          if (f.Ack? || f.CancelFrame? || f.Reply?) && f.id in CompletedOf(s.completed, w) then s
          else Say(s, Refused(w))
        else if s.pending[i].worker != w then Say(s, Refused(w))
        else FromOwner(s, i, w, f)
  }

  // ---- Continuations ----

  function Unavailable(s: State, op: Op): State {
    Say(Finish(s, op.request.id), HubEnd(op.worker, op.request.id))
  }

  function Authorized(s: State, token: nat, op: Op, outcome: Outcome): State {
    if !outcome.Yes? || s.host.None? || s.host.value.connection != op.connection then Unavailable(s, op)
    else
      var i := PendingAt(s.pending, op.request.id);
      if i < 0 || s.pending[i].token != token then s
      else
        var s' := s.(seen := s.seen + {op.request.id});
        if |s'.seen| > MAX_HISTORY then Unavailable(Detach(s'), op)
        else Await(Say(s', Forwarded(token, op.connection, op.request)), OpenSend(token))
  }

  function FrameAuthorized(s: State, t: Task, op: Op, outcome: Outcome): State
    requires t.FrameAuth? && !t.frame.Health?
  {
    match outcome
    case Threw => Say(s, Refused(t.wire))
    case No => Cancel(s, t.frame.id, op.worker)
    case Yes =>
      if s.host.None? || s.host.value.wire != t.wire then s
      else
        var i := PendingAt(s.pending, t.frame.id);
        if i < 0 || s.pending[i].token != t.token then s
        else Deliver(s, i, t.wire, t.connection, t.frame)
  }

  function Resume(s: State, k: nat, outcome: Outcome): State {
    if k !in s.tasks || s.tasks[k].token >= |s.ops| then s
    else
      var t := s.tasks[k];
      var op := s.ops[t.token];
      var s' := s.(tasks := s.tasks - {k});
      match t
      case OpenAuth(token) => Authorized(s', token, op, outcome)
      case OpenSend(_) => if outcome.Yes? then s' else Unavailable(s', op)
      case FrameAuth(_, _, _, f) => if f.Health? then s' else FrameAuthorized(s', t, op, outcome)
      case EndSent(_) => if outcome.Yes? then Finish(s', op.request.id) else s'
  }

  // ---- Runs ----

  datatype Event =
    | Attaches(wire: Wire, ownerId: string, registration: string)
    | Detaches
    | WireCloses(wire: Wire)
    | HostSends(wire: Wire, hostFrame: HostFrame)
    | WorkerSends(worker: Wire, workerFrame: WorkerFrame)
    | Cancels(id: string, worker: Wire)
    | WorkerCloses(worker: Wire)
    | Settles(task: nat, outcome: Outcome)

  function Step(s: State, e: Event): State {
    match e
    case Attaches(wire, ownerId, registration) => Attach(s, wire, ownerId, registration)
    case Detaches => Detach(s)
    case WireCloses(wire) => DetachWire(s, wire)
    case HostSends(wire, f) => FromHost(s, wire, f)
    case WorkerSends(w, f) => FromWorker(s, w, f)
    case Cancels(id, w) => Cancel(s, id, w)
    case WorkerCloses(w) => CloseWorker(s, w)
    case Settles(k, outcome) => Resume(s, k, outcome)
  }

  function Run(lim: Limits, events: seq<Event>): State {
    if events == [] then Init(lim)
    else Step(Run(lim, events[..|events| - 1]), events[|events| - 1])
  }

  // ---- What a worker's memory keeps ----

  /** The id is there afterwards, nothing else is added, and only the oldest of 64 gives way. */
  lemma InsertKeeps(ids: seq<string>, id: string)
    ensures |ids| <= MAX_COMPLETED ==> |Insert(ids, id)| <= MAX_COMPLETED && id in Insert(ids, id)
    ensures forall i | i in Insert(ids, id) :: i == id || i in ids
    ensures forall i | i in ids && i !in Insert(ids, id) :: i == ids[0] && |ids| >= MAX_COMPLETED
  {
    var all := if id in ids then ids else ids + [id];
    if |all| > MAX_COMPLETED {
      assert all == [all[0]] + all[1..];
      assert id !in ids ==> all[1..][|all| - 2] == id;
    } else {
      assert id !in ids ==> all[|all| - 1] == id;
    }
  }

  // ---- Termination of the walks ----

  lemma {:induction false} DrainShrinks(s: State)
    ensures |Drain(s).probes| <= |s.probes|
    ensures |Drain(s).pending| + |Drain(s).probes| <= |s.pending| + |s.probes|
    decreases |s.probes|
  {
    if s.host.Some? && s.probes != [] && ProbeCapacity(s.lim, s.pending) {
      DrainShrinks(Promote(s));
    }
  }

  lemma CancelPendingShrinks(s: State, i: nat)
    requires i < |s.pending|
    ensures |CancelPending(s, i).probes| <= |s.probes|
    ensures |CancelPending(s, i).pending| + |CancelPending(s, i).probes| < |s.pending| + |s.probes|
  {
    var p := s.pending[i];
    var told := if s.host.Some? then Say(s, HubCancel(p.token, s.host.value.connection)) else s;
    var ended := Say(told, HubEnd(p.worker, p.request.id));
    DrainShrinks(Drop(ended, PendingAt(ended.pending, p.request.id)));
  }
}
