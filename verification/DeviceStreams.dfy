/**
 Windows and slots together, as `deviceRunEvents` of apps/api/src/device-events.ts joins them: a window
 is opened only with a slot, and its single release gives back that slot and no other.
 */
module DeviceStreams {
  import opened Options
  import W = EventWindow
  import D = DeviceSlots

  /** The window numbered `i` holds the lease numbered `i`. */
  datatype Streams = Streams(slots: D.Slots, windows: seq<W.Window>)

  datatype Event =
    | Opens(grant: string, cursor: int)
    | Turns(window: nat, turn: W.Turn)

  function Step(lim: W.Limits, s: Streams, e: Event): Streams {
    match e
    case Opens(grant, cursor) =>
      var slots := D.Acquire(s.slots, grant);
      if slots == s.slots then s else Streams(slots, s.windows + [W.Open(cursor)])
    case Turns(i, t) =>
      if i >= |s.windows| then s
      else
        var w := W.Step(lim, s.windows[i], t);
        Streams(if w.releases > s.windows[i].releases then D.Release(s.slots, i) else s.slots, s.windows[i := w])
  }

  function Run(lim: W.Limits, events: seq<Event>): Streams {
    if events == [] then Streams(D.Slots(map[], []), [])
    else Step(lim, Run(lim, events[..|events| - 1]), events[|events| - 1])
  }

  /** The open windows of a grant. */
  function OpenWindows(leases: seq<D.Lease>, windows: seq<W.Window>, grant: string): nat
    requires |leases| == |windows|
  {
    if leases == [] then 0
    else
      var last := |leases| - 1;
      OpenWindows(leases[..last], windows[..last], grant)
      + if leases[last].grant == grant && !windows[last].closed then 1 else 0
  }

  predicate Matched(leases: seq<D.Lease>, windows: seq<W.Window>) {
    |leases| == |windows| && forall i | 0 <= i < |leases| :: Tied(leases[i], windows[i])
  }

  /** A lease is released exactly when its window is closed, and a window releases once. */
  predicate Tied(lease: D.Lease, w: W.Window) {
    lease.released == w.closed && w.released == w.closed && w.releases == if w.closed then 1 else 0
  }

  lemma TurnTied(lim: W.Limits, lease: D.Lease, w: W.Window, t: W.Turn)
    requires Tied(lease, w)
    ensures var n := W.Step(lim, w, t);
            Tied(if n.releases > w.releases then lease.(released := true) else lease, n)
  {
  }

  lemma StepMatched(lim: W.Limits, s: Streams, e: Event)
    requires D.Agrees(s.slots) && Matched(s.slots.leases, s.windows)
    ensures D.Agrees(Step(lim, s, e).slots) && Matched(Step(lim, s, e).slots.leases, Step(lim, s, e).windows)
  {
    match e
    case Opens(grant, cursor) => D.AcquireAgrees(s.slots, grant);
    case Turns(i, t) =>
      if i < |s.windows| {
        assert Tied(s.slots.leases[i], s.windows[i]);
        TurnTied(lim, s.slots.leases[i], s.windows[i], t);
        D.ReleaseAgrees(s.slots, i);
      }
  }

  lemma {:induction false} OpenAreHeld(leases: seq<D.Lease>, windows: seq<W.Window>, grant: string)
    requires Matched(leases, windows)
    ensures OpenWindows(leases, windows, grant) == D.Held(leases, grant)
  {
    if leases != [] {
      var last := |leases| - 1;
      assert Tied(leases[last], windows[last]);
      assert forall i | 0 <= i < last :: Tied(leases[..last][i], windows[..last][i]) by {
        assert forall i | 0 <= i < last :: Tied(leases[i], windows[i]);
      }
      OpenAreHeld(leases[..last], windows[..last], grant);
    }
  }

  /** In every run the counter of a grant is the number of its open windows, and that is at most four. */
  lemma {:induction false} CounterTracksWindows(lim: W.Limits, events: seq<Event>)
    ensures var s := Run(lim, events);
            && D.Agrees(s.slots) && Matched(s.slots.leases, s.windows)
            && forall grant: string ::
                 D.OpenOf(s.slots.open, grant) == OpenWindows(s.slots.leases, s.windows, grant) <= D.MAX_WINDOWS
  {
    if events != [] {
      CounterTracksWindows(lim, events[..|events| - 1]);
      StepMatched(lim, Run(lim, events[..|events| - 1]), events[|events| - 1]);
    }
    var s := Run(lim, events);
    forall grant: string
      ensures D.OpenOf(s.slots.open, grant) == OpenWindows(s.slots.leases, s.windows, grant) <= D.MAX_WINDOWS
    {
      OpenAreHeld(s.slots.leases, s.windows, grant);
    }
  }

  /** A stream is opened exactly while fewer than four of the grant are open; it starts at the cursor asked for. */
  lemma OpensExactly(lim: W.Limits, events: seq<Event>, grant: string, cursor: int)
    ensures var s := Run(lim, events); var n := Run(lim, events + [Opens(grant, cursor)]);
            && |s.slots.leases| == |s.windows|
            && if OpenWindows(s.slots.leases, s.windows, grant) < D.MAX_WINDOWS then
                 && n.slots.leases == s.slots.leases + [D.Lease(grant, false)]
                 && n.windows == s.windows + [W.Open(cursor)]
               else n == s
  {
    assert (events + [Opens(grant, cursor)])[..|events|] == events;
    CounterTracksWindows(lim, events);
  }

  /** A turn of one window leaves every other window, and every lease but its own, as they were. */
  lemma TurnsExactly(lim: W.Limits, events: seq<Event>, i: nat, t: W.Turn)
    requires i < |Run(lim, events).windows|
    ensures var s := Run(lim, events); var n := Run(lim, events + [Turns(i, t)]);
            && |s.slots.leases| == |s.windows|
            && n.windows == s.windows[i := W.Step(lim, s.windows[i], t)]
            && n.slots.leases == s.slots.leases[i := D.Lease(s.slots.leases[i].grant, n.windows[i].closed)]
  {
    assert (events + [Turns(i, t)])[..|events|] == events;
    CounterTracksWindows(lim, events);
    CounterTracksWindows(lim, events + [Turns(i, t)]);
    var s, n := Run(lim, events), Run(lim, events + [Turns(i, t)]);
    assert Tied(s.slots.leases[i], s.windows[i]) && Tied(n.slots.leases[i], n.windows[i]);
    assert s.slots.leases[i := s.slots.leases[i]] == s.slots.leases;
  }
}
