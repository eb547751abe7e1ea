/**
 The clock of an event window and the feed it follows. Heartbeats come at least `heartbeat` apart, the
 deadline closes the window after `duration`, and the feed never goes back; so an ended window has
 always moved on, if its limits leave room for one event after the heartbeats that fit in its time.
 */
module EventClock {
  import opened Options
  import opened EventWindow

  // ---- The feed ----

  /** The events a query for everything after `cursor` returns, in order. */
  function EventsAfter(log: seq<Event>, cursor: int): seq<Event> {
    if log == [] then []
    else EventsAfter(log[..|log| - 1], cursor)
         + if log[|log| - 1].number > cursor then [log[|log| - 1]] else []
  }

  lemma {:induction false} AfterHolds(log: seq<Event>, cursor: int, x: Event)
    ensures x in EventsAfter(log, cursor) <==> x in log && cursor < x.number
  {
    if log != [] {
      AfterHolds(log[..|log| - 1], cursor, x);
      assert x in log <==> x in log[..|log| - 1] || x == log[|log| - 1];
    }
  }

  lemma SortedFore(log: seq<Event>)
    requires Sorted(log) && log != []
    ensures Sorted(log[..|log| - 1])
    ensures forall x | x in log[..|log| - 1] :: x.number < log[|log| - 1].number
  {
  }

  lemma SortedSnoc(log: seq<Event>, e: Event)
    requires Sorted(log) && forall x | x in log :: x.number < e.number
    ensures Sorted(log + [e])
  {
    forall i, j | 0 <= i < j < |log + [e]| ensures (log + [e])[i].number < (log + [e])[j].number {
      assert (log + [e])[i] == log[i] && log[i] in log;
    }
  }

  lemma {:induction false} AfterSorted(log: seq<Event>, cursor: int)
    requires Sorted(log)
    ensures Sorted(EventsAfter(log, cursor))
  {
    hide Sorted;
    if log == [] {
      assert EventsAfter(log, cursor) == log;
    } else {
      var fore, last := log[..|log| - 1], log[|log| - 1];
      SortedFore(log);
      AfterSorted(fore, cursor);
      var rest := EventsAfter(fore, cursor);
      forall x | x in rest ensures x.number < last.number { AfterHolds(fore, cursor, x); }
      SortedSnoc(rest, last);
      assert rest + [] == rest;
    }
  }

  lemma LaterAbove(log: seq<Event>, later: seq<Event>, x: Event, y: Event)
    requires Sorted(log + later) && x in log && y in later
    ensures x.number < y.number
  {
    var i :| 0 <= i < |log| && log[i] == x;
    var j :| 0 <= j < |later| && later[j] == y;
    assert (log + later)[i] == x && (log + later)[|log| + j] == y;
  }

  lemma SortedBoth(log: seq<Event>, later: seq<Event>)
    requires Sorted(log + later)
    ensures Sorted(log)
  {
    assert forall i | 0 <= i < |log| :: (log + later)[i] == log[i];
  }

  /** Each event of a batch is the next one after its predecessor, however the log grew since the query. */
  lemma BatchInOrder(log: seq<Event>, later: seq<Event>, cursor: int, i: nat)
    requires Sorted(log + later) && i < |EventsAfter(log, cursor)|
    ensures var batch := EventsAfter(log, cursor);
            NextAfter(log + later, if i == 0 then cursor else batch[i - 1].number, batch[i])
  {
    hide Sorted, EventsAfter;
    var batch := EventsAfter(log, cursor);
    SortedBoth(log, later);
    AfterSorted(log, cursor);
    var e := batch[i];
    AfterHolds(log, cursor, e);
    var prior := if i == 0 then cursor else batch[i - 1].number;
    if i > 0 {
      AfterHolds(log, cursor, batch[i - 1]);
      Increasing(batch, i - 1, i);
    }
    forall x | x in log + later && prior < x.number ensures e.number <= x.number {
      if x in later {
        LaterAbove(log, later, e, x);
      } else {
        AfterHolds(log, cursor, x);
        var j :| 0 <= j < |batch| && batch[j] == x;
        if j < i && i > 0 { NotBefore(batch, j, i - 1); }
        if i < j { Increasing(batch, i, j); }
      }
    }
  }

  lemma Increasing(log: seq<Event>, i: nat, j: nat)
    requires Sorted(log) && i < j < |log|
    ensures log[i].number < log[j].number
  {
  }

  lemma NotBefore(log: seq<Event>, j: nat, i: nat)
    requires Sorted(log) && j <= i < |log|
    ensures log[j].number <= log[i].number
  {
  }

  /** The turns of a window whose feed yields each event after the cursor once, in order. */
  predicate Feeds(lim: Limits, log: seq<Event>, cursor: int, turns: seq<Turn>) {
    turns != [] ==>
      var before := turns[..|turns| - 1];
      var t := turns[|turns| - 1];
      Feeds(lim, log, cursor, before) && (t.Takes? ==> NextAfter(log, Run(lim, cursor, before).cursor, t.event))
  }

  lemma {:induction false} FeedsFollow(lim: Limits, log: seq<Event>, cursor: int, turns: seq<Turn>)
    requires Feeds(lim, log, cursor, turns)
    ensures Follows(lim, log, cursor, turns) && Run(lim, cursor, turns).stale == 0
  {
    if turns != [] {
      FeedsFollow(lim, log, cursor, turns[..|turns| - 1]);
    }
  }

  lemma FeedsSnoc(lim: Limits, log: seq<Event>, cursor: int, turns: seq<Turn>, t: Turn)
    requires Feeds(lim, log, cursor, turns) && (t.Takes? ==> NextAfter(log, Run(lim, cursor, turns).cursor, t.event))
    ensures Feeds(lim, log, cursor, turns + [t])
  {
    assert (turns + [t])[..|turns|] == turns;
  }

  // ---- Successive queries of the feed ----

  const BATCH := 200

  /** One query: at most `limit` events of the log as it then was. */
  function Batch(log: seq<Event>, cursor: int, limit: nat): seq<Event> {
    var after := EventsAfter(log, cursor);
    if |after| > limit then after[..limit] else after
  }

  function LastOf(events: seq<Event>, cursor: int): int {
    if events == [] then cursor else events[|events| - 1].number
  }

  /** What the feed yields over successive states of the log, each queried from the last event yielded. */
  function Yields(logs: seq<seq<Event>>, cursor: int, limit: nat): seq<Event> {
    if logs == [] then []
    else
      var batch := Batch(logs[0], cursor, limit);
      batch + Yields(logs[1..], LastOf(batch, cursor), limit)
  }

  function Before(feed: seq<Event>, cursor: int, j: nat): int
    requires j <= |feed|
  {
    if j == 0 then cursor else feed[j - 1].number
  }

  predicate InOrder(log: seq<Event>, cursor: int, feed: seq<Event>) {
    forall j | 0 <= j < |feed| :: NextAfter(log, Before(feed, cursor, j), feed[j])
  }

  lemma BatchOrdered(part: seq<Event>, log: seq<Event>, cursor: int, limit: nat)
    requires Sorted(log) && part <= log
    ensures InOrder(log, cursor, Batch(part, cursor, limit))
  {
    hide EventsAfter, Sorted, NextAfter;
    assert log == part + log[|part|..];
    var batch := Batch(part, cursor, limit);
    forall j | 0 <= j < |batch| ensures NextAfter(log, Before(batch, cursor, j), batch[j]) {
      BatchInOrder(part, log[|part|..], cursor, j);
    }
  }

  lemma OrderedBoth(log: seq<Event>, cursor: int, a: seq<Event>, b: seq<Event>)
    requires InOrder(log, cursor, a) && InOrder(log, LastOf(a, cursor), b)
    ensures InOrder(log, cursor, a + b)
  {
    hide NextAfter;
    var feed := a + b;
    forall j | 0 <= j < |feed| ensures NextAfter(log, Before(feed, cursor, j), feed[j]) {
      if j < |a| {
        assert feed[j] == a[j] && Before(feed, cursor, j) == Before(a, cursor, j);
      } else {
        assert feed[j] == b[j - |a|] && Before(feed, cursor, j) == Before(b, LastOf(a, cursor), j - |a|);
      }
    }
  }

  /** Over a growing log the feed yields every event after the cursor in order, none twice and none skipped. */
  lemma {:induction false} YieldsInOrder(logs: seq<seq<Event>>, log: seq<Event>, cursor: int, limit: nat)
    requires Sorted(log) && forall part | part in logs :: part <= log
    ensures InOrder(log, cursor, Yields(logs, cursor, limit))
  {
    hide Sorted, InOrder, Batch;
    if logs == [] {
      NothingYielded(log, cursor);
    } else {
      var batch := Batch(logs[0], cursor, limit);
      assert logs[0] in logs;
      forall part | part in logs[1..] ensures part <= log { assert part in logs; }
      BatchOrdered(logs[0], log, cursor, limit);
      YieldsInOrder(logs[1..], log, LastOf(batch, cursor), limit);
      OrderedBoth(log, cursor, batch, Yields(logs[1..], LastOf(batch, cursor), limit));
    }
  }

  function Copies(log: seq<Event>, n: nat): seq<seq<Event>> {
    if n == 0 then [] else [log] + Copies(log, n - 1)
  }

  /** What one query leaves for the next. */
  lemma {:induction false} AfterCut(log: seq<Event>, cursor: int, k: nat)
    requires Sorted(log) && 0 < k <= |EventsAfter(log, cursor)|
    ensures EventsAfter(log, EventsAfter(log, cursor)[k - 1].number) == EventsAfter(log, cursor)[k..]
  {
    hide Sorted;
    var fore, last := log[..|log| - 1], log[|log| - 1];
    var after := EventsAfter(log, cursor);
    SortedFore(log);
    forall x | x in EventsAfter(fore, cursor) ensures x.number < last.number { AfterHolds(fore, cursor, x); }
    if k <= |EventsAfter(fore, cursor)| {
      AfterCut(fore, cursor, k);
      assert EventsAfter(fore, cursor)[k - 1] in EventsAfter(fore, cursor);
      assert after[k - 1] == EventsAfter(fore, cursor)[k - 1] && after[k - 1].number < last.number;
      AfterHolds(fore, cursor, after[k - 1]);
      if last.number > cursor {
        assert after[k..] == EventsAfter(fore, cursor)[k..] + [last];
      }
    } else {
      NoneAfter(fore, last.number);
      assert after[k..] == [];
    }
  }

  lemma {:induction false} NoneAfter(log: seq<Event>, cursor: int)
    requires forall x | x in log :: x.number <= cursor
    ensures EventsAfter(log, cursor) == []
  {
    if log != [] {
      assert log[|log| - 1] in log;
      NoneAfter(log[..|log| - 1], cursor);
    }
  }

  /** Enough queries yield every event after the cursor, each once and in order: the feed never stops early. */
  lemma {:induction false} YieldsAll(log: seq<Event>, cursor: int, limit: nat, n: nat)
    requires Sorted(log) && limit > 0 && |EventsAfter(log, cursor)| <= n
    ensures Yields(Copies(log, n), cursor, limit) == EventsAfter(log, cursor)
    decreases n
  {
    hide Sorted;
    var after := EventsAfter(log, cursor);
    if n > 0 {
      var batch := Batch(log, cursor, limit);
      assert Copies(log, n)[0] == log && Copies(log, n)[1..] == Copies(log, n - 1);
      if batch != [] {
        AfterCut(log, cursor, |batch|);
        assert after == batch + after[|batch|..];
      }
      YieldsAll(log, LastOf(batch, cursor), limit, n - 1);
    }
  }

  lemma NothingYielded(log: seq<Event>, cursor: int)
    ensures InOrder(log, cursor, [])
  {
  }

  /** The events a window pulled, in order. */
  function Taken(turns: seq<Turn>): seq<Event> {
    if turns == [] then []
    else Taken(turns[..|turns| - 1]) + if turns[|turns| - 1].Takes? then [turns[|turns| - 1].event] else []
  }

  /** An event is pulled only by an open window that is done with the one before. */
  predicate Draws(lim: Limits, cursor: int, turns: seq<Turn>) {
    turns != [] ==>
      var before := turns[..|turns| - 1];
      var w := Run(lim, cursor, before);
      Draws(lim, cursor, before) && (turns[|turns| - 1].Takes? ==> !w.closed && w.hand.None?)
  }

  /** An open window stands at the last event it pulled, or holds it and stands at the one before. */
  predicate Stands(w: Window, cursor: int, taken: seq<Event>) {
    !w.closed ==>
      if w.hand.None? then w.cursor == LastOf(taken, cursor)
      else taken != [] && w.hand.value == taken[|taken| - 1] && w.cursor == LastOf(taken[..|taken| - 1], cursor)
  }

  lemma StepStands(lim: Limits, w: Window, t: Turn, cursor: int, taken: seq<Event>)
    requires Stands(w, cursor, taken)
    requires t.Takes? ==> !w.closed && w.hand.None? && w.cursor < t.event.number
    ensures Stands(Step(lim, w, t), cursor, taken + if t.Takes? then [t.event] else [])
  {
    if t.Takes? {
      assert (taken + [t.event])[..|taken|] == taken;
    } else {
      assert taken + [] == taken;
    }
  }

  /** So the turns of a window that pulls from the feed are turns of a feed that never goes back. */
  lemma {:induction false} PullsAreFed(lim: Limits, log: seq<Event>, cursor: int, turns: seq<Turn>, feed: seq<Event>)
    requires InOrder(log, cursor, feed) && Draws(lim, cursor, turns) && Taken(turns) <= feed
    ensures Feeds(lim, log, cursor, turns) && Stands(Run(lim, cursor, turns), cursor, Taken(turns))
  {
    hide Step, Stands;
    if turns == [] {
      StandsFirst(cursor);
    } else {
      var before, t := turns[..|turns| - 1], turns[|turns| - 1];
      var w, taken := Run(lim, cursor, before), Taken(before);
      assert taken <= Taken(turns);
      PullsAreFed(lim, log, cursor, before, feed);
      if t.Takes? {
        assert feed[|taken|] == t.event && Before(feed, cursor, |taken|) == LastOf(taken, cursor);
        StandsOpen(w, cursor, taken);
      }
      StepStands(lim, w, t, cursor, taken);
    }
  }

  lemma StandsFirst(cursor: int)
    ensures Stands(Open(cursor), cursor, [])
  {
  }

  lemma StandsOpen(w: Window, cursor: int, taken: seq<Event>)
    requires Stands(w, cursor, taken) && !w.closed && w.hand.None?
    ensures w.cursor == LastOf(taken, cursor)
  {
  }

  // ---- The clock ----

  datatype Clock = Clock(duration: nat, heartbeat: nat)

  const DEVICE_CLOCK := Clock(10_000, 2_000)

  /** A turn and the milliseconds since the window was opened. */
  datatype Moment = Moment(at: nat, turn: Turn)

  function TurnsOf(ms: seq<Moment>): seq<Turn> {
    if ms == [] then [] else TurnsOf(ms[..|ms| - 1]) + [ms[|ms| - 1].turn]
  }

  /** When the last heartbeat was due to be sent; at first, when the window was opened. */
  function LastBeat(ms: seq<Moment>): nat {
    if ms == [] then 0
    else if ms[|ms| - 1].turn.Beats? then ms[|ms| - 1].at
    else LastBeat(ms[..|ms| - 1])
  }

  /** Time does not run back, an open window does nothing past its deadline, and heartbeats keep their distance. */
  predicate OnTime(lim: Limits, clock: Clock, cursor: int, ms: seq<Moment>) {
    ms != [] ==>
      var before := ms[..|ms| - 1];
      var m := ms[|ms| - 1];
      && OnTime(lim, clock, cursor, before)
      && (before != [] ==> before[|before| - 1].at <= m.at)
      && (!Run(lim, cursor, TurnsOf(before)).closed && !m.turn.Expires? ==> m.at < clock.duration)
      && (m.turn.Beats? ==> LastBeat(before) + clock.heartbeat <= m.at)
  }

  /** The earliest moment of the heartbeat numbered `n`. */
  function BeatAt(n: nat, heartbeat: nat): nat {
    if n == 0 then 0 else BeatAt(n - 1, heartbeat) + heartbeat
  }

  /** The heartbeats that fit into a window's time. */
  function MostBeats(clock: Clock): nat
    requires clock.heartbeat > 0
    decreases clock.duration
  {
    if clock.duration <= clock.heartbeat then 0
    else 1 + MostBeats(clock.(duration := clock.duration - clock.heartbeat))
  }

  /** The heartbeat numbered `n` can come before the deadline exactly when `n` heartbeats fit. */
  lemma {:induction false} BeatsFit(clock: Clock, n: nat)
    requires clock.heartbeat > 0 && n > 0
    ensures BeatAt(n, clock.heartbeat) < clock.duration <==> n <= MostBeats(clock)
    decreases n
  {
    if clock.duration > clock.heartbeat && n > 1 {
      BeatsFit(clock.(duration := clock.duration - clock.heartbeat), n - 1);
    }
  }

  lemma SnocTurns(ms: seq<Moment>, m: Moment)
    ensures TurnsOf(ms + [m]) == TurnsOf(ms) + [m.turn]
  {
    assert (ms + [m])[..|ms|] == ms;
  }

  lemma StepBeats(lim: Limits, w: Window, t: Turn)
    ensures Step(lim, w, t).beats == w.beats + if t.Beats? && !w.closed && w.hand.None? then 1 else 0
  {
  }

  lemma {:induction false} BeatsInTime(lim: Limits, clock: Clock, cursor: int, ms: seq<Moment>)
    requires OnTime(lim, clock, cursor, ms)
    ensures var w := Run(lim, cursor, TurnsOf(ms));
            && BeatAt(w.beats, clock.heartbeat) <= LastBeat(ms)
            && (w.beats > 0 ==> BeatAt(w.beats, clock.heartbeat) < clock.duration)
  {
    hide Step;
    if ms != [] {
      var before, m := ms[..|ms| - 1], ms[|ms| - 1];
      assert ms == before + [m];
      BeatsInTime(lim, clock, cursor, before);
      SnocTurns(before, m);
      RunSnoc(lim, [], cursor, TurnsOf(before), m.turn);
      StepBeats(lim, Run(lim, cursor, TurnsOf(before)), m.turn);
    }
  }

  // ---- Ended windows have moved on ----

  lemma RoomyMore(lim: Limits, b: nat, beats: nat)
    requires Roomy(lim, beats, 0) && b <= beats
    ensures Roomy(lim, b, 0)
  {
  }

  predicate LimitEnded(lim: Limits, clock: Clock, log: seq<Event>, cursor: int, ms: seq<Moment>) {
    && Feeds(lim, log, cursor, TurnsOf(ms)) && OnTime(lim, clock, cursor, ms)
    && Run(lim, cursor, TurnsOf(ms)).ending == Some(Limit)
  }

  /** Every window that a limit ends has moved its cursor. */
  ghost predicate Advances(lim: Limits, clock: Clock) {
    forall log: seq<Event>, cursor: int, ms: seq<Moment> ::
      LimitEnded(lim, clock, log, cursor, ms) ==> cursor < Run(lim, cursor, TurnsOf(ms)).cursor
  }

  lemma RoomyAdvances(lim: Limits, clock: Clock, log: seq<Event>, cursor: int, ms: seq<Moment>)
    requires clock.heartbeat > 0 && Roomy(lim, MostBeats(clock), 0) && LimitEnded(lim, clock, log, cursor, ms)
    ensures var w := Run(lim, cursor, TurnsOf(ms));
            cursor < w.cursor && Remaining(log, w.cursor) < Remaining(log, cursor)
  {
    hide Run, Feeds, OnTime, Roomy;
    FeedsFollow(lim, log, cursor, TurnsOf(ms));
    BeatsInTime(lim, clock, cursor, ms);
    var w := Run(lim, cursor, TurnsOf(ms));
    if w.beats > 0 { BeatsFit(clock, w.beats); }
    RoomyMore(lim, w.beats, MostBeats(clock));
    LimitEndsAdvance(lim, log, cursor, TurnsOf(ms));
  }

  /** Heartbeats as close together as they can come. */
  function Beating(clock: Clock, n: nat): seq<Moment> {
    if n == 0 then [] else Beating(clock, n - 1) + [Moment(BeatAt(n, clock.heartbeat), Beats)]
  }

  lemma OnTimeSnoc(lim: Limits, clock: Clock, cursor: int, ms: seq<Moment>, m: Moment)
    requires OnTime(lim, clock, cursor, ms) && m.at < clock.duration
    requires ms != [] ==> ms[|ms| - 1].at <= m.at
    requires m.turn.Beats? ==> LastBeat(ms) + clock.heartbeat <= m.at
    ensures OnTime(lim, clock, cursor, ms + [m])
    ensures LastBeat(ms + [m]) == if m.turn.Beats? then m.at else LastBeat(ms)
  {
    hide Run;
    assert (ms + [m])[..|ms|] == ms;
  }

  lemma TimeStarts(lim: Limits, clock: Clock)
    ensures OnTime(lim, clock, 0, []) && LastBeat([]) == 0
  {
  }

  lemma {:induction false} BeatingOnTime(lim: Limits, clock: Clock, n: nat)
    requires clock.heartbeat > 0 && n <= MostBeats(clock)
    ensures OnTime(lim, clock, 0, Beating(clock, n)) && LastBeat(Beating(clock, n)) == BeatAt(n, clock.heartbeat)
    ensures n > 0 ==> Beating(clock, n) != [] && Beating(clock, n)[|Beating(clock, n)| - 1].at == BeatAt(n, clock.heartbeat)
  {
    hide Run, OnTime, LastBeat, MostBeats, TurnsOf;
    if n == 0 {
      TimeStarts(lim, clock);
    } else {
      BeatingOnTime(lim, clock, n - 1);
      BeatsFit(clock, n);
      OnTimeSnoc(lim, clock, 0, Beating(clock, n - 1), Moment(BeatAt(n, clock.heartbeat), Beats));
    }
  }

  lemma {:induction false} BeatingRun(lim: Limits, clock: Clock, log: seq<Event>, n: nat)
    ensures Feeds(lim, log, 0, TurnsOf(Beating(clock, n)))
    ensures var w := Run(lim, 0, TurnsOf(Beating(clock, n)));
            && w.cursor == 0 && w.scanned == 0 && w.hand.None? && (w.closed <==> w.ending == Some(Limit))
            && (!w.closed ==> w.frames == n && w.bytes == HEARTBEAT_BYTES * n)
  {
    hide Run, Feeds, TurnsOf;
    if n == 0 {
      RunNone(lim, log, 0);
      FeedsNone(lim, log);
      NoTurns();
    } else {
      var before := Beating(clock, n - 1);
      BeatingRun(lim, clock, log, n - 1);
      SnocTurns(before, Moment(BeatAt(n, clock.heartbeat), Beats));
      RunSnoc(lim, log, 0, TurnsOf(before), Beats);
      FeedsSnoc(lim, log, 0, TurnsOf(before), Beats);
    }
  }

  lemma NoTurns()
    ensures TurnsOf([]) == []
  {
  }

  lemma FeedsNone(lim: Limits, log: seq<Event>)
    ensures Feeds(lim, log, 0, [])
  {
  }

  /** One more turn at the time of the last heartbeat. */
  lemma AndThen(lim: Limits, clock: Clock, log: seq<Event>, ms: seq<Moment>, at: nat, t: Turn)
    requires Feeds(lim, log, 0, TurnsOf(ms)) && OnTime(lim, clock, 0, ms) && at < clock.duration && !t.Beats?
    requires ms != [] ==> ms[|ms| - 1].at <= at
    requires t.Takes? ==> NextAfter(log, Run(lim, 0, TurnsOf(ms)).cursor, t.event)
    ensures var n := ms + [Moment(at, t)];
            && Feeds(lim, log, 0, TurnsOf(n)) && OnTime(lim, clock, 0, n)
            && Run(lim, 0, TurnsOf(n)) == Step(lim, Run(lim, 0, TurnsOf(ms)), t)
  {
    hide Run, Feeds, Step, OnTime, TurnsOf;
    var m := Moment(at, t);
    SnocTurns(ms, m);
    RunSnoc(lim, log, 0, TurnsOf(ms), t);
    FeedsSnoc(lim, log, 0, TurnsOf(ms), t);
    OnTimeSnoc(lim, clock, 0, ms, m);
  }

  /** Without that room, the heartbeats and one event end a window where it started. */
  lemma CrowdedStays(lim: Limits, clock: Clock)
    requires clock.heartbeat > 0 && clock.duration > 0 && !Roomy(lim, MostBeats(clock), 0)
    ensures !Advances(lim, clock)
  {
    hide Run, Feeds, OnTime, TurnsOf, Beating;
    var n := MostBeats(clock);
    var e := Event(1, lim.maxFrameBytes, true);
    var log := [e];
    var beats := Beating(clock, n);
    BeatingRun(lim, clock, log, n);
    BeatingOnTime(lim, clock, n);
    if n > 0 { BeatsFit(clock, n); }
    NoBeats(clock);
    AndThen(lim, clock, log, beats, BeatAt(n, clock.heartbeat), Takes(e));
    var taken := beats + [Moment(BeatAt(n, clock.heartbeat), Takes(e))];
    AndThen(lim, clock, log, taken, BeatAt(n, clock.heartbeat), Judges);
    var judged := taken + [Moment(BeatAt(n, clock.heartbeat), Judges)];
    assert LimitEnded(lim, clock, log, 0, judged) && Run(lim, 0, TurnsOf(judged)).cursor == 0;
  }

  lemma NoBeats(clock: Clock)
    ensures Beating(clock, 0) == []
  {
  }

  /** Limit-ended windows always advance exactly when the limits leave room for one largest event after the heartbeats. */
  lemma AdvancesExactly(lim: Limits, clock: Clock)
    requires clock.heartbeat > 0 && clock.duration > 0
    ensures Advances(lim, clock) <==> Roomy(lim, MostBeats(clock), 0)
  {
    hide Roomy, LimitEnded, Run;
    if Roomy(lim, MostBeats(clock), 0) {
      forall log: seq<Event>, cursor: int, ms: seq<Moment> | LimitEnded(lim, clock, log, cursor, ms)
        ensures cursor < Run(lim, cursor, TurnsOf(ms)).cursor
      {
        RoomyAdvances(lim, clock, log, cursor, ms);
      }
    } else {
      CrowdedStays(lim, clock);
    }
  }

  lemma DeviceBeats()
    ensures MostBeats(DEVICE_CLOCK) == 4
  {
    assert MostBeats(Clock(4_000, 2_000)) == 1;
    assert MostBeats(Clock(6_000, 2_000)) == 2;
    assert MostBeats(Clock(8_000, 2_000)) == 3;
  }

  /** As deployed, every window that a limit ends has moved on, and fewer events remain. */
  lemma DeviceWindowsAdvance(logs: seq<seq<Event>>, log: seq<Event>, cursor: int, ms: seq<Moment>)
    requires Sorted(log) && forall part | part in logs :: part <= log
    requires Draws(DEVICE_LIMITS, cursor, TurnsOf(ms)) && Taken(TurnsOf(ms)) <= Yields(logs, cursor, BATCH)
    requires OnTime(DEVICE_LIMITS, DEVICE_CLOCK, cursor, ms)
    requires Run(DEVICE_LIMITS, cursor, TurnsOf(ms)).ending == Some(Limit)
    ensures var w := Run(DEVICE_LIMITS, cursor, TurnsOf(ms));
            cursor < w.cursor && Remaining(log, w.cursor) < Remaining(log, cursor)
  {
    hide Run, Sorted, InOrder, Yields, Draws, Taken, OnTime, Feeds;
    DeviceBeats();
    YieldsInOrder(logs, log, cursor, BATCH);
    PullsAreFed(DEVICE_LIMITS, log, cursor, TurnsOf(ms), Yields(logs, cursor, BATCH));
    RoomyAdvances(DEVICE_LIMITS, DEVICE_CLOCK, log, cursor, ms);
  }
}
