/**
 An observer of one operation. It reads only the history of what the hub sent and received, and
 turns `Bad` at the first entry that breaks the protocol: a stream frame out of sequence or beyond
 the acknowledgement window, a frame from another connection or to another worker, anything after
 the operation left the hub, a second forward, an unknown or repeated callback, or a byte budget
 exceeded. The hub's own counters play no part in its definition.
 */
module HubMonitor {
  import opened HubModel

  datatype Phase =
    | Unborn
    | Live(op: Op, forwarded: bool, next: nat, acked: int, down: nat,
           up: nat, provider: nat, other: nat, calls: map<string, Method>)
    | Gone
    | Bad

  function OnRelay(lim: Limits, ph: Phase, w: Wire, connection: nat, f: HostFrame): Phase
    requires ph.Live?
  {
    if f.Health? || f.id != ph.op.request.id || w != ph.op.worker || connection != ph.op.connection then Bad
    else match f
      case Stream(_, n, size) =>
        if n == ph.next && n - ph.acked <= lim.window && ph.down + size <= lim.totalBytes
        then ph.(next := n + 1, down := ph.down + size) else Bad
      case Callback(_, callId, kind, size) =>
        if callId !in ph.calls && |ph.calls| < lim.window && ph.down + size <= lim.totalBytes
           && ph.op.request.operation.RuntimeTurn? && (Provider(kind) ==> Hermes(ph.op.request))
        then ph.(calls := ph.calls[callId := kind], down := ph.down + size) else Bad
      case End(_, size) => if ph.down + size <= lim.totalBytes then ph.(down := ph.down + size) else Bad
      case _ => Bad
  }

  function OnReply(lim: Limits, ph: Phase, callId: string, size: nat): Phase
    requires ph.Live?
  {
    if callId !in ph.calls then Bad
    else
      var hermes := Hermes(ph.op.request);
      var provider := ph.provider + if hermes && Provider(ph.calls[callId]) then size else 0;
      var other := ph.other + if hermes && !Provider(ph.calls[callId]) then size else 0;
      if ph.up + size <= lim.totalBytes && provider <= MAX_PROVIDER_BYTES && other <= MAX_OTHER_BYTES
      then ph.(calls := ph.calls - {callId}, up := ph.up + size, provider := provider, other := other)
      else Bad
  }

  function OnUpstream(lim: Limits, ph: Phase, w: Wire, connection: nat, f: WorkerFrame): Phase
    requires ph.Live?
  {
    if w != ph.op.worker || connection != ph.op.connection then Bad
    else match f
      case Ack(id, n) =>
        if id == ph.op.request.id && ph.acked < n < ph.next then ph.(acked := n) else Bad
      case Reply(id, callId, _, _, size) =>
        if id == ph.op.request.id then OnReply(lim, ph, callId, size) else Bad
      case _ => Bad
  }

  predicate Concerns(e: Entry, t: nat) {
    (e.Opened? || e.Closed? || e.Relayed? || e.Forwarded? || e.Upstream? || e.HubCancel?) && e.token == t
  }

  function Watch(lim: Limits, t: nat, ph: Phase, e: Entry): Phase {
    if !Concerns(e, t) then ph
    else if e.Opened? then
      if ph.Unborn? then Live(e.op, false, 0, -1, 0, 0, 0, 0, map[]) else Bad
    else if !ph.Live? then Bad
    else match e
      case Closed(_) => Gone
      case Relayed(_, w, connection, f) => OnRelay(lim, ph, w, connection, f)
      case Forwarded(_, connection, r) =>
        if !ph.forwarded && connection == ph.op.connection && r == ph.op.request
        then ph.(forwarded := true) else Bad
      case Upstream(_, w, connection, f) => OnUpstream(lim, ph, w, connection, f)
      case HubCancel(_, connection) => if connection == ph.op.connection then ph else Bad
  }

  function Observe(lim: Limits, t: nat, log: History): Phase {
    match log
    case Start => Unborn
    case Then(before, e) => Watch(lim, t, Observe(lim, t, before), e)
  }

  // ---- What acceptance means, read off the history itself ----

  /** Numbers of the stream frames relayed for an operation, in order. */
  function Streams(log: History, t: nat): seq<nat> {
    match log
    case Start => []
    case Then(before, e) =>
      Streams(before, t) + if e.Relayed? && e.token == t && e.frame.Stream? then [e.frame.number] else []
  }

  function FrameSize(f: HostFrame): nat {
    if f.Stream? || f.Callback? || f.End? then f.size else 0
  }

  function DownBytes(log: History, t: nat): nat {
    match log
    case Start => 0
    case Then(before, e) =>
      DownBytes(before, t) + if e.Relayed? && e.token == t then FrameSize(e.frame) else 0
  }

  function UpBytes(log: History, t: nat): nat {
    match log
    case Start => 0
    case Then(before, e) =>
      UpBytes(before, t) + if e.Upstream? && e.token == t && e.sent.Reply? then e.sent.size else 0
  }

  function CallbacksRelayed(log: History, t: nat): nat {
    match log
    case Start => 0
    case Then(before, e) =>
      CallbacksRelayed(before, t) + if e.Relayed? && e.token == t && e.frame.Callback? then 1 else 0
  }

  function RepliesForwarded(log: History, t: nat): nat {
    match log
    case Start => 0
    case Then(before, e) =>
      RepliesForwarded(before, t) + if e.Upstream? && e.token == t && e.sent.Reply? then 1 else 0
  }

  predicate Counted(seqs: seq<nat>) {
    forall k | 0 <= k < |seqs| :: seqs[k] == k
  }

  /** Accepted stream frames are numbered 0, 1, 2, ... */
  lemma {:induction false} AcceptedStreams(lim: Limits, t: nat, log: History)
    requires !Observe(lim, t, log).Bad?
    ensures Counted(Streams(log, t))
    ensures var ph := Observe(lim, t, log);
            && (ph.Unborn? ==> Streams(log, t) == [])
            && (ph.Live? ==> |Streams(log, t)| == ph.next && ph.acked >= -1)
  {
    if log.Then? {
      AcceptedStreams(lim, t, log.before);
    }
  }

  /** The byte budgets hold, and Hermes turns split the worker's bytes. */
  lemma {:induction false} AcceptedBytes(lim: Limits, t: nat, log: History)
    requires !Observe(lim, t, log).Bad?
    ensures DownBytes(log, t) <= lim.totalBytes && UpBytes(log, t) <= lim.totalBytes
    ensures var ph := Observe(lim, t, log);
            && (ph.Unborn? ==> DownBytes(log, t) == 0 && UpBytes(log, t) == 0)
            && (ph.Live? ==>
                  && DownBytes(log, t) == ph.down && UpBytes(log, t) == ph.up
                  && (Hermes(ph.op.request) ==>
                        && ph.provider + ph.other == ph.up
                        && ph.provider <= MAX_PROVIDER_BYTES && ph.other <= MAX_OTHER_BYTES))
  {
    if log.Then? {
      AcceptedBytes(lim, t, log.before);
    }
  }

  /** Callbacks relayed and not yet answered are the observer's open calls, never more than the window. */
  lemma {:induction false} AcceptedCallbacks(lim: Limits, t: nat, log: History)
    requires !Observe(lim, t, log).Bad?
    ensures RepliesForwarded(log, t) <= CallbacksRelayed(log, t) <= RepliesForwarded(log, t) + lim.window
    ensures var ph := Observe(lim, t, log);
            && (ph.Unborn? ==> CallbacksRelayed(log, t) == 0 && RepliesForwarded(log, t) == 0)
            && (ph.Live? ==> CallbacksRelayed(log, t) == RepliesForwarded(log, t) + |ph.calls|)
  {
    if log.Then? {
      var ph := Observe(lim, t, log.before);
      AcceptedCallbacks(lim, t, log.before);
      if ph.Live? && Concerns(log.entry, t) {
        if log.entry.Relayed? {
          RelaySums(lim, ph, log.entry);
        } else if log.entry.Upstream? {
          ReplySums(lim, ph, log.entry);
        }
      }
    }
  }

  lemma RelaySums(lim: Limits, ph: Phase, e: Entry)
    requires ph.Live? && e.Relayed?
    ensures var n := OnRelay(lim, ph, e.worker, e.connection, e.frame);
            n.Live? && e.frame.Callback? ==> |n.calls| == |ph.calls| + 1 && |n.calls| <= lim.window
  {
    if e.frame.Callback? {
      assert ph.calls[e.frame.callId := e.frame.kind].Keys == ph.calls.Keys + {e.frame.callId};
    }
  }

  lemma ReplySums(lim: Limits, ph: Phase, e: Entry)
    requires ph.Live? && e.Upstream?
    ensures var n := OnUpstream(lim, ph, e.worker, e.connection, e.sent);
            n.Live? && e.sent.Reply? ==> |n.calls| + 1 == |ph.calls|
  {
    if e.sent.Reply? && e.sent.callId in ph.calls {
      assert ph.calls.Keys == (ph.calls - {e.sent.callId}).Keys + {e.sent.callId};
    }
  }
}
