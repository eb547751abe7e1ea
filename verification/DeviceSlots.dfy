/** The per-grant window counter of apps/api/src/device-events.ts and the release closures that feed it. */
module DeviceSlots {
  import opened Options

  const MAX_WINDOWS := 4

  /** A window that was given a slot; `released` is the flag its release closure captured. */
  datatype Lease = Lease(grant: string, released: bool)

  datatype Slots = Slots(open: map<string, nat>, leases: seq<Lease>)

  function Held(leases: seq<Lease>, grant: string): nat {
    if leases == [] then 0
    else Held(leases[..|leases| - 1], grant)
         + (var l := leases[|leases| - 1]; if l.grant == grant && !l.released then 1 else 0)
  }

  function OpenOf(open: map<string, nat>, grant: string): nat {
    if grant in open then open[grant] else 0
  }

  function Acquire(s: Slots, grant: string): Slots {
    var current := OpenOf(s.open, grant);
    if current >= MAX_WINDOWS then s
    else Slots(s.open[grant := current + 1], s.leases + [Lease(grant, false)])
  }

  function Release(s: Slots, i: nat): Slots {
    if i >= |s.leases| || s.leases[i].released then s
    else
      var grant := s.leases[i].grant;
      var count := if grant in s.open then s.open[grant] else 1;
      Slots(if count <= 1 then s.open - {grant} else s.open[grant := count - 1],
            s.leases[i := Lease(grant, true)])
  }

  datatype Event = Acquires(grant: string) | Releases(lease: nat)

  function Run(events: seq<Event>): Slots {
    if events == [] then Slots(map[], [])
    else
      var before := Run(events[..|events| - 1]);
      match events[|events| - 1]
      case Acquires(grant) => Acquire(before, grant)
      case Releases(i) => Release(before, i)
  }

  /** The counter of every grant is the number of its unreleased windows, at most four, and never a stored zero. */
  ghost predicate Agrees(s: Slots) {
    && (forall g: string :: OpenOf(s.open, g) == Held(s.leases, g))
    && (forall g | g in s.open :: 0 < s.open[g] <= MAX_WINDOWS)
  }

  lemma {:induction false} HeldAfterRelease(leases: seq<Lease>, i: nat, g: string)
    requires i < |leases| && !leases[i].released
    ensures Held(leases[i := Lease(leases[i].grant, true)], g)
         == Held(leases, g) - (if leases[i].grant == g then 1 else 0)
  {
    var after := leases[i := Lease(leases[i].grant, true)];
    var init := leases[..|leases| - 1];
    if i == |leases| - 1 {
      assert after[..|after| - 1] == init;
    } else {
      assert after[..|after| - 1] == init[i := Lease(init[i].grant, true)];
      HeldAfterRelease(init, i, g);
    }
  }

  lemma AcquireAgrees(s: Slots, grant: string)
    requires Agrees(s)
    ensures Agrees(Acquire(s, grant))
  {
    var n := Acquire(s, grant);
    if OpenOf(s.open, grant) < MAX_WINDOWS {
      forall g: string ensures OpenOf(n.open, g) == Held(n.leases, g) {
        assert n.leases[..|s.leases|] == s.leases;
        assert OpenOf(s.open, g) == Held(s.leases, g);
      }
    }
  }

  lemma ReleaseAgrees(s: Slots, i: nat)
    requires Agrees(s)
    ensures Agrees(Release(s, i))
  {
    var n := Release(s, i);
    if i < |s.leases| && !s.leases[i].released {
      forall g: string ensures OpenOf(n.open, g) == Held(n.leases, g) {
        HeldAfterRelease(s.leases, i, g);
        assert OpenOf(s.open, g) == Held(s.leases, g);
      }
    }
  }

  lemma {:induction false} SlotsAgree(events: seq<Event>)
    ensures Agrees(Run(events))
  {
    if events != [] {
      SlotsAgree(events[..|events| - 1]);
      match events[|events| - 1]
      case Acquires(grant) => AcquireAgrees(Run(events[..|events| - 1]), grant);
      case Releases(i) => ReleaseAgrees(Run(events[..|events| - 1]), i);
    }
  }

  /** A window is refused exactly when four windows of the grant are unreleased. */
  lemma RefusedWhenFull(events: seq<Event>, grant: string)
    ensures Acquire(Run(events), grant) == Run(events) <==> Held(Run(events).leases, grant) == MAX_WINDOWS
    ensures Held(Run(events).leases, grant) <= MAX_WINDOWS
  {
    SlotsAgree(events);
    var s := Run(events);
    assert OpenOf(s.open, grant) == Held(s.leases, grant);
    assert |(s.leases + [Lease(grant, false)])| != |s.leases|;
  }

  /** Releasing twice is releasing once. */
  lemma ReleaseTwice(s: Slots, i: nat)
    ensures Release(Release(s, i), i) == Release(s, i)
  {
  }

  class SlotRegistry {
    var open: map<string, nat>
    var leases: seq<Lease>

    ghost function Abs(): Slots
      reads this
    {
      Slots(open, leases)
    }

    ghost predicate Valid()
      reads this
    {
      Agrees(Abs())
    }

    constructor ()
      ensures Valid() && Abs() == Slots(map[], [])
    {
      open, leases := map[], [];
    }

    method AcquireWindow(grant: string) returns (lease: Option<nat>)
      requires Valid()
      modifies this
      ensures Valid() && Abs() == Acquire(old(Abs()), grant)
      ensures lease.None? <==> Held(old(leases), grant) == MAX_WINDOWS
      ensures lease.None? ==> leases == old(leases) && open == old(open)
      ensures lease.Some? ==> lease.value == |old(leases)| && leases == old(leases) + [Lease(grant, false)]
    {
      AcquireAgrees(Abs(), grant);
      assert OpenOf(open, grant) == Held(leases, grant);
      var current := OpenOf(open, grant);
      if current >= MAX_WINDOWS { return None; }
      open := open[grant := current + 1];
      lease := Some(|leases|);
      leases := leases + [Lease(grant, false)];
    }

    method ReleaseWindow(i: nat)
      requires Valid() && i < |leases|
      modifies this
      ensures Valid() && Abs() == Release(old(Abs()), i)
      ensures leases == old(leases)[i := Lease(old(leases)[i].grant, true)]
    {
      ReleaseAgrees(Abs(), i);
      if leases[i].released { return; }
      var grant := leases[i].grant;
      leases := leases[i := Lease(grant, true)];
      var count := if grant in open then open[grant] else 1;
      if count <= 1 {
        open := open - {grant};
      } else {
        open := open[grant := count - 1];
      }
    }
  }
}
