/**
 The bounded event window of apps/api/src/device-event-window.ts. Each step is the code between two
 awaits of the pull loop, or one of the callbacks that may end the window at any time.
 */
module EventWindow {
  import opened Options

  /** A thread event: its sequence number, the bytes of its encoded frame, and whether this reader may see it. */
  datatype Event = Event(number: int, size: nat, visible: bool)

  datatype Limits = Limits(maxFrames: nat, maxBytes: nat, maxFrameBytes: nat, maxScanned: nat)

  const DEVICE_LIMITS := Limits(128, 1024 * 1024, 64 * 1024, 1024)
  const RESERVE := 256
  const HEARTBEAT_BYTES := 13

  datatype Reason = Timeout | Limit | AccessLost | PayloadTooLarge | Error | Shutdown

  datatype Frame = Sends(event: Event) | Heartbeat | Final(nextCursor: int, reason: Reason)

  /** `hand` is the event whose visibility is being looked up; `beats` and `stale` count for the proofs only. */
  datatype Window = Window(
    start: int, cursor: int, frames: nat, bytes: nat, scanned: nat,
    closed: bool, released: bool, releases: nat,
    hand: Option<Event>, sent: seq<Frame>, ending: Option<Reason>,
    beats: nat, stale: nat)

  function Open(cursor: int): Window {
    Window(cursor, cursor, 0, 0, 0, false, false, 0, None, [], None, 0, 0)
  }

  // ---- Frame sizes ----

  function Digits(n: nat): nat {
    if n < 10 then 1 else 1 + Digits(n / 10)
  }

  function DecimalLength(n: int): nat {
    if n < 0 then 1 + Digits(-n) else Digits(n)
  }

  function ReasonLength(r: Reason): nat {
    match r
    case Timeout => 7
    case Limit => 5
    case AccessLost => 11
    case PayloadTooLarge => 17
    case Error => 5
    case Shutdown => 8
  }

  /** Bytes of `event: window`, `data: {"nextCursor":n,"reason":"r"}` and the blank line after them. */
  function FinalBytes(cursor: int, r: Reason): nat {
    14 + 6 + 14 + DecimalLength(cursor) + 10 + 2 + ReasonLength(r) + 1 + 2
  }

  function FrameBytes(f: Frame): nat {
    match f
    case Sends(e) => e.size
    case Heartbeat => HEARTBEAT_BYTES
    case Final(c, r) => FinalBytes(c, r)
  }

  function TotalBytes(fs: seq<Frame>): nat {
    if fs == [] then 0 else TotalBytes(fs[..|fs| - 1]) + FrameBytes(fs[|fs| - 1])
  }

  function Delivered(fs: seq<Frame>): seq<Event> {
    if fs == [] then []
    else Delivered(fs[..|fs| - 1]) + (var f := fs[|fs| - 1]; if f.Sends? then [f.event] else [])
  }

  // ---- Steps ----

  function Release(w: Window): Window {
    if w.released then w else w.(released := true, releases := w.releases + 1)
  }

  function Finish(w: Window, r: Reason, send: bool): Window {
    if w.closed then w
    else
      Release(w.(closed := true, hand := None, ending := Some(r),
                 sent := if send then w.sent + [Final(w.cursor, r)] else w.sent))
  }

  predicate Fits(lim: Limits, w: Window, size: nat) {
    w.frames + 1 < lim.maxFrames && w.bytes + size + RESERVE <= lim.maxBytes
  }

  function Emit(lim: Limits, w: Window, f: Frame): Window {
    if !Fits(lim, w, FrameBytes(f)) then Finish(w, Limit, true)
    else w.(frames := w.frames + 1, bytes := w.bytes + FrameBytes(f), sent := w.sent + [f])
  }

  /** The next event of the log was pulled. */
  function Take(lim: Limits, w: Window, e: Event): Window {
    var scanned := w.(scanned := w.scanned + 1, stale := w.stale + if e.number <= w.cursor then 1 else 0);
    if scanned.scanned > lim.maxScanned then Finish(scanned, Limit, true)
    else if e.number <= w.cursor then scanned
    else scanned.(hand := Some(e))
  }

  /** Its visibility is known and the reader is still authorized. */
  function Judge(lim: Limits, w: Window): Window
    requires w.hand.Some?
  {
    var e := w.hand.value;
    var free := w.(hand := None);
    if !e.visible then free.(cursor := e.number)
    else if e.size > lim.maxFrameBytes then Finish(free, PayloadTooLarge, true)
    else
      var n := Emit(lim, free, Sends(e));
      if n.closed then n else n.(cursor := e.number)
  }

  datatype Turn =
    | Takes(event: Event)
    | Judges
    | Beats
    | FeedEnds
    | Fails(denied: bool)
    | Expires
    | Disconnects
    | ShutsDown
    | Cancelled

  function Step(lim: Limits, w: Window, t: Turn): Window {
    if w.closed then w
    else match t
      case Takes(e) => if w.hand.None? then Take(lim, w, e) else w
      case Judges => if w.hand.Some? then Judge(lim, w) else w
      case Beats => if w.hand.None? then Emit(lim, w.(beats := w.beats + 1), Heartbeat) else w
      case FeedEnds => if w.hand.None? then Finish(w, Shutdown, true) else w
      case Fails(denied) => Finish(w, if denied then AccessLost else Error, true)
      case Expires => Finish(w, Timeout, true)
      case Disconnects => Finish(w, Shutdown, false)
      case ShutsDown => Finish(w, Shutdown, true)
      case Cancelled => Release(w.(closed := true, hand := None))
  }

  function Run(lim: Limits, cursor: int, turns: seq<Turn>): Window {
    if turns == [] then Open(cursor)
    else Step(lim, Run(lim, cursor, turns[..|turns| - 1]), turns[|turns| - 1])
  }

  // ---- What the reader is promised ----

  predicate Sorted(log: seq<Event>) {
    forall i, j | 0 <= i < j < |log| :: log[i].number < log[j].number
  }

  /** The visible events numbered above `lo` and up to `hi`. */
  function Visible(log: seq<Event>, lo: int, hi: int): seq<Event> {
    if log == [] then []
    else Visible(log[..|log| - 1], lo, hi) +
         (var e := log[|log| - 1]; if lo < e.number <= hi && e.visible then [e] else [])
  }

  /** `e` is the first event of the log after `cursor`. */
  predicate NextAfter(log: seq<Event>, cursor: int, e: Event) {
    e in log && cursor < e.number && forall x | x in log && cursor < x.number :: e.number <= x.number
  }

  /** The follower yields the log in order; it may repeat events at or below the cursor. */
  predicate Follows(lim: Limits, log: seq<Event>, cursor: int, turns: seq<Turn>) {
    turns != [] ==>
      var before := turns[..|turns| - 1];
      var t := turns[|turns| - 1];
      && Follows(lim, log, cursor, before)
      && (t.Takes? ==>
            var c := Run(lim, cursor, before).cursor;
            t.event.number <= c || NextAfter(log, c, t.event))
  }

  predicate Tracks(log: seq<Event>, w: Window) {
    && w.start <= w.cursor
    && Delivered(w.sent) == Visible(log, w.start, w.cursor)
    && (w.hand.Some? ==> NextAfter(log, w.cursor, w.hand.value))
  }

  lemma {:induction false} VisibleEmpty(log: seq<Event>, lo: int, hi: int)
    requires hi <= lo
    ensures Visible(log, lo, hi) == []
  {
    if log != [] { VisibleEmpty(log[..|log| - 1], lo, hi); }
  }

  lemma {:induction false} VisibleBelow(log: seq<Event>, lo: int, c: int, hi: int)
    requires c <= hi && forall x | x in log :: !(c < x.number <= hi)
    ensures Visible(log, lo, hi) == Visible(log, lo, c)
  {
    if log != [] {
      assert log[|log| - 1] in log;
      VisibleBelow(log[..|log| - 1], lo, c, hi);
    }
  }

  /** Advancing over the next event adds it if it is visible and nothing else. */
  lemma {:induction false} VisibleNext(log: seq<Event>, lo: int, c: int, e: Event)
    requires Sorted(log) && lo <= c && NextAfter(log, c, e)
    ensures Visible(log, lo, e.number) == Visible(log, lo, c) + if e.visible then [e] else []
  {
    var init, last := log[..|log| - 1], log[|log| - 1];
    assert last in log;
    if last == e {
      assert forall x | x in init :: x in log && x.number < last.number;
      VisibleBelow(init, lo, c, e.number);
    } else {
      assert e in init && e.number < last.number;
      VisibleNext(init, lo, c, e);
    }
  }

  lemma {:induction false} VisibleJoin(log: seq<Event>, lo: int, mid: int, hi: int)
    requires Sorted(log) && lo <= mid <= hi
    ensures Visible(log, lo, hi) == Visible(log, lo, mid) + Visible(log, mid, hi)
  {
    if log != [] {
      var init, last := log[..|log| - 1], log[|log| - 1];
      VisibleJoin(init, lo, mid, hi);
      var a, b := Visible(init, lo, mid), Visible(init, mid, hi);
      if last.number <= mid {
        assert forall x | x in init :: x.number < last.number;
        VisibleAbove(init, mid, hi);
        assert a + b == a;
      } else {
        assert (a + b) + [last] == a + (b + [last]);
      }
    }
  }

  lemma {:induction false} VisibleAbove(log: seq<Event>, lo: int, hi: int)
    requires forall x | x in log :: x.number <= lo
    ensures Visible(log, lo, hi) == []
  {
    if log != [] {
      assert log[|log| - 1] in log;
      VisibleAbove(log[..|log| - 1], lo, hi);
    }
  }

  lemma DeliveredSnoc(fs: seq<Frame>, f: Frame)
    ensures Delivered(fs + [f]) == Delivered(fs) + if f.Sends? then [f.event] else []
    ensures TotalBytes(fs + [f]) == TotalBytes(fs) + FrameBytes(f)
  {
    assert (fs + [f])[..|fs|] == fs;
  }

  lemma FinishTracks(log: seq<Event>, w: Window, r: Reason, send: bool)
    requires Tracks(log, w)
    ensures Tracks(log, Finish(w, r, send))
  {
    DeliveredSnoc(w.sent, Final(w.cursor, r));
  }

  lemma JudgeTracks(lim: Limits, log: seq<Event>, w: Window)
    requires Sorted(log) && Tracks(log, w) && !w.closed && w.hand.Some?
    ensures Tracks(log, Judge(lim, w))
  {
    var e := w.hand.value;
    var free := w.(hand := None);
    VisibleNext(log, w.start, w.cursor, e);
    FinishTracks(log, free, PayloadTooLarge, true);
    FinishTracks(log, free, Limit, true);
    DeliveredSnoc(w.sent, Sends(e));
  }

  lemma StepTracks(lim: Limits, log: seq<Event>, w: Window, t: Turn)
    requires Sorted(log) && Tracks(log, w)
    requires t.Takes? ==> t.event.number <= w.cursor || NextAfter(log, w.cursor, t.event)
    ensures Tracks(log, Step(lim, w, t))
  {
    hide Visible, Delivered, NextAfter, Judge;
    if !w.closed {
      match t
      case Takes(e) =>
        FinishTracks(log, w.(scanned := w.scanned + 1, stale := w.stale + if e.number <= w.cursor then 1 else 0), Limit, true);
      case Judges => if w.hand.Some? { JudgeTracks(lim, log, w); }
      case Beats =>
        var b := w.(beats := w.beats + 1);
        FinishTracks(log, b, Limit, true);
        DeliveredSnoc(w.sent, Heartbeat);
      case FeedEnds => FinishTracks(log, w, Shutdown, true);
      case Fails(denied) => FinishTracks(log, w, if denied then AccessLost else Error, true);
      case Expires => FinishTracks(log, w, Timeout, true);
      case Disconnects => FinishTracks(log, w, Shutdown, false);
      case ShutsDown => FinishTracks(log, w, Shutdown, true);
      case Cancelled =>
    }
  }

  /** At any moment a window has delivered exactly the visible events between its start and its cursor. */
  lemma {:induction false} WindowDelivers(lim: Limits, log: seq<Event>, cursor: int, turns: seq<Turn>)
    requires Sorted(log) && Follows(lim, log, cursor, turns)
    ensures var w := Run(lim, cursor, turns);
            w.start == cursor && Tracks(log, w)
  {
    if turns == [] {
      VisibleEmpty(log, cursor, cursor);
    } else {
      var before := turns[..|turns| - 1];
      WindowDelivers(lim, log, cursor, before);
      StepTracks(lim, log, Run(lim, cursor, before), turns[|turns| - 1]);
    }
  }

  // ---- Chains of windows ----

  /** Each window restarts at the cursor where the one before it stood when it was cut. */
  function EndCursor(lim: Limits, cursor: int, windows: seq<seq<Turn>>): int {
    if windows == [] then cursor
    else Run(lim, EndCursor(lim, cursor, windows[..|windows| - 1]), windows[|windows| - 1]).cursor
  }

  function Received(lim: Limits, cursor: int, windows: seq<seq<Turn>>): seq<Event> {
    if windows == [] then []
    else
      var init := windows[..|windows| - 1];
      Received(lim, cursor, init)
      + Delivered(Run(lim, EndCursor(lim, cursor, init), windows[|windows| - 1]).sent)
  }

  predicate ChainFollows(lim: Limits, log: seq<Event>, cursor: int, windows: seq<seq<Turn>>) {
    windows != [] ==>
      var init := windows[..|windows| - 1];
      && ChainFollows(lim, log, cursor, init)
      && Follows(lim, log, EndCursor(lim, cursor, init), windows[|windows| - 1])
  }

  /** A chain of windows, cut anywhere, delivers the visible log with no gap and no duplicate. */
  lemma {:induction false} ChainDelivers(lim: Limits, log: seq<Event>, cursor: int, windows: seq<seq<Turn>>)
    requires Sorted(log) && ChainFollows(lim, log, cursor, windows)
    ensures cursor <= EndCursor(lim, cursor, windows)
    ensures Received(lim, cursor, windows) == Visible(log, cursor, EndCursor(lim, cursor, windows))
  {
    if windows == [] {
      VisibleEmpty(log, cursor, cursor);
    } else {
      var init, last := windows[..|windows| - 1], windows[|windows| - 1];
      var mid := EndCursor(lim, cursor, init);
      ChainDelivers(lim, log, cursor, init);
      WindowDelivers(lim, log, mid, last);
      VisibleJoin(log, cursor, mid, Run(lim, mid, last).cursor);
    }
  }

  /**
   A reader that lost the final frame may restart at the last event it received: between that event
   and the window's cursor nothing is visible.
   */
  lemma ResumeAtLastEvent(lim: Limits, log: seq<Event>, cursor: int, turns: seq<Turn>, hi: int)
    requires Sorted(log) && Follows(lim, log, cursor, turns)
    requires var w := Run(lim, cursor, turns); Delivered(w.sent) != [] && w.cursor <= hi
    ensures var w := Run(lim, cursor, turns); var got := Delivered(w.sent);
            Visible(log, got[|got| - 1].number, hi) == Visible(log, w.cursor, hi)
  {
    WindowDelivers(lim, log, cursor, turns);
    var w := Run(lim, cursor, turns);
    var got := Delivered(w.sent);
    var last := got[|got| - 1];
    VisibleLast(log, cursor, w.cursor);
    VisibleJoin(log, last.number, w.cursor, hi);
  }

  lemma {:induction false} VisibleLast(log: seq<Event>, lo: int, hi: int)
    requires Sorted(log) && Visible(log, lo, hi) != []
    ensures var v := Visible(log, lo, hi); var last := v[|v| - 1];
            last in log && lo < last.number <= hi && Visible(log, last.number, hi) == []
  {
    var init, e := log[..|log| - 1], log[|log| - 1];
    if lo < e.number <= hi && e.visible {
      assert forall x | x in init :: x.number < e.number;
      VisibleAbove(init, e.number, hi);
    } else {
      VisibleLast(init, lo, hi);
    }
  }

  // ---- Budgets and the slot ----

  predicate Budgeted(lim: Limits, w: Window) {
    && (w.closed <==> w.released) && w.releases == (if w.released then 1 else 0)
    && w.frames + 1 <= lim.maxFrames && w.bytes + RESERVE <= lim.maxBytes
    && |w.sent| <= w.frames + (if w.closed then 1 else 0)
    && (if w.closed && |w.sent| > w.frames
        then |w.sent| == w.frames + 1 && w.sent[w.frames].Final? && TotalBytes(w.sent[..w.frames]) == w.bytes
        else |w.sent| == w.frames && TotalBytes(w.sent) == w.bytes)
  }

  lemma FinishBudget(lim: Limits, w: Window, r: Reason, send: bool)
    requires Budgeted(lim, w)
    ensures Budgeted(lim, Finish(w, r, send))
  {
    hide TotalBytes;
    if !w.closed { assert (w.sent + [Final(w.cursor, r)])[..w.frames] == w.sent; }
  }

  lemma EmitBudget(lim: Limits, w: Window, f: Frame)
    requires Budgeted(lim, w) && !w.closed
    ensures Budgeted(lim, Emit(lim, w, f))
  {
    hide TotalBytes;
    FinishBudget(lim, w, Limit, true);
    DeliveredSnoc(w.sent, f);
  }

  lemma StepBudget(lim: Limits, w: Window, t: Turn)
    requires Budgeted(lim, w)
    ensures Budgeted(lim, Step(lim, w, t))
  {
    hide TotalBytes, Emit;
    if !w.closed {
      match t
      case Takes(e) =>
        FinishBudget(lim, w.(scanned := w.scanned + 1, stale := w.stale + if e.number <= w.cursor then 1 else 0), Limit, true);
      case Judges =>
        var free := w.(hand := None);
        FinishBudget(lim, free, PayloadTooLarge, true);
        if w.hand.Some? { EmitBudget(lim, free, Sends(w.hand.value)); }
      case Beats => EmitBudget(lim, w.(beats := w.beats + 1), Heartbeat);
      case FeedEnds => FinishBudget(lim, w, Shutdown, true);
      case Fails(denied) => FinishBudget(lim, w, if denied then AccessLost else Error, true);
      case Expires => FinishBudget(lim, w, Timeout, true);
      case Disconnects => FinishBudget(lim, w, Shutdown, false);
      case ShutsDown => FinishBudget(lim, w, Shutdown, true);
      case Cancelled =>
    }
  }

  lemma {:induction false} RunBudget(lim: Limits, cursor: int, turns: seq<Turn>)
    requires lim.maxFrames >= 1 && lim.maxBytes >= RESERVE
    ensures Budgeted(lim, Run(lim, cursor, turns))
  {
    if turns != [] {
      RunBudget(lim, cursor, turns[..|turns| - 1]);
      StepBudget(lim, Run(lim, cursor, turns[..|turns| - 1]), turns[|turns| - 1]);
    }
  }

  /** The final frame fits its reserve for every cursor a thread can have. */
  lemma FinalFits(cursor: int, r: Reason)
    requires -1 <= cursor <= 2_147_483_647
    ensures FinalBytes(cursor, r) <= 76 <= RESERVE
  {
    if cursor >= 0 { DigitsBelow(cursor, 2_147_483_647); }
    assert Digits(214_748) == 6;
  }

  lemma {:induction false} DigitsBelow(a: nat, b: nat)
    requires a <= b
    ensures Digits(a) <= Digits(b)
  {
    if a >= 10 { DigitsBelow(a / 10, b / 10); }
  }

  /** Frames and bytes, the final frame included, never exceed the limits. */
  lemma WithinLimits(lim: Limits, cursor: int, turns: seq<Turn>)
    requires lim.maxFrames >= 1 && lim.maxBytes >= RESERVE
    requires forall f | f in Run(lim, cursor, turns).sent && f.Final? :: -1 <= f.nextCursor <= 2_147_483_647
    ensures var w := Run(lim, cursor, turns);
            |w.sent| <= lim.maxFrames && TotalBytes(w.sent) <= lim.maxBytes
  {
    hide Run, TotalBytes, Delivered, FinalBytes;
    RunBudget(lim, cursor, turns);
    var w := Run(lim, cursor, turns);
    if |w.sent| > w.frames {
      var f := w.sent[w.frames];
      FinalFits(f.nextCursor, f.reason);
      assert w.sent == w.sent[..w.frames] + [f];
      DeliveredSnoc(w.sent[..w.frames], f);
    }
  }

  /** However a window ends, its slot is released exactly once. */
  lemma ReleasedOnce(lim: Limits, cursor: int, turns: seq<Turn>)
    requires lim.maxFrames >= 1 && lim.maxBytes >= RESERVE
    ensures var w := Run(lim, cursor, turns); w.releases == if w.closed then 1 else 0
  {
    RunBudget(lim, cursor, turns);
  }

  // ---- Progress ----

  function Remaining(log: seq<Event>, cursor: int): nat {
    if log == [] then 0
    else Remaining(log[..|log| - 1], cursor) + if log[|log| - 1].number > cursor then 1 else 0
  }

  /** After these many heartbeats and repeated events there is room for one event of the largest size. */
  predicate Roomy(lim: Limits, beats: nat, stale: nat) {
    && beats + 1 < lim.maxFrames
    && HEARTBEAT_BYTES * beats + lim.maxFrameBytes + RESERVE <= lim.maxBytes
    && stale < lim.maxScanned
  }

  /** While the cursor has not moved, only heartbeats were sent and only repeated events were scanned. */
  predicate Stuck(lim: Limits, w: Window) {
    && w.start <= w.cursor
    && (w.hand.Some? ==> w.cursor < w.hand.value.number)
    && (w.cursor == w.start && !w.closed ==>
          && w.frames == w.beats && w.bytes == HEARTBEAT_BYTES * w.beats
          && w.scanned == w.stale + (if w.hand.Some? then 1 else 0))
    && (w.cursor == w.start && w.ending == Some(Limit) ==> !Roomy(lim, w.beats, w.stale))
    && (w.ending.Some? ==> w.closed)
  }

  lemma StepStuck(lim: Limits, w: Window, t: Turn)
    requires Stuck(lim, w)
    ensures Stuck(lim, Step(lim, w, t))
  {
    hide Judge;
    if t.Judges? && w.hand.Some? && !w.closed { JudgeStuck(lim, w); }
  }

  lemma JudgeStuck(lim: Limits, w: Window)
    requires Stuck(lim, w) && w.hand.Some? && !w.closed
    ensures Stuck(lim, Judge(lim, w))
  {
  }

  lemma {:induction false} RunStuck(lim: Limits, cursor: int, turns: seq<Turn>)
    ensures Stuck(lim, Run(lim, cursor, turns)) && Run(lim, cursor, turns).start == cursor
  {
    if turns != [] {
      RunStuck(lim, cursor, turns[..|turns| - 1]);
      StepStuck(lim, Run(lim, cursor, turns[..|turns| - 1]), turns[|turns| - 1]);
    }
  }

  lemma {:induction false} RemainingLess(log: seq<Event>, lo: int, hi: int)
    requires lo <= hi
    ensures Remaining(log, hi) <= Remaining(log, lo)
    ensures (exists e | e in log :: lo < e.number <= hi) ==> Remaining(log, hi) < Remaining(log, lo)
  {
    if log != [] { RemainingLess(log[..|log| - 1], lo, hi); }
  }

  /** The cursor only stops at events of the log. */
  lemma {:induction false} CursorInLog(lim: Limits, log: seq<Event>, cursor: int, turns: seq<Turn>)
    requires Follows(lim, log, cursor, turns)
    ensures var w := Run(lim, cursor, turns);
            && (w.cursor != cursor ==> exists e | e in log :: e.number == w.cursor)
            && (w.hand.Some? ==> w.hand.value in log)
  {
    if turns != [] { CursorInLog(lim, log, cursor, turns[..|turns| - 1]); }
  }

  /** A window ended by a limit moves on, unless heartbeats or repeated events crowded it out. */
  lemma LimitEndsAdvance(lim: Limits, log: seq<Event>, cursor: int, turns: seq<Turn>)
    requires Follows(lim, log, cursor, turns)
    requires var w := Run(lim, cursor, turns); w.ending == Some(Limit) && Roomy(lim, w.beats, w.stale)
    ensures var w := Run(lim, cursor, turns);
            cursor < w.cursor && Remaining(log, w.cursor) < Remaining(log, cursor)
  {
    RunStuck(lim, cursor, turns);
    CursorInLog(lim, log, cursor, turns);
    RemainingLess(log, cursor, Run(lim, cursor, turns).cursor);
  }

  lemma RunSnoc(lim: Limits, log: seq<Event>, cursor: int, turns: seq<Turn>, t: Turn)
    ensures Run(lim, cursor, turns + [t]) == Step(lim, Run(lim, cursor, turns), t)
    ensures Follows(lim, log, cursor, turns) && (t.Takes? ==>
              t.event.number <= Run(lim, cursor, turns).cursor || NextAfter(log, Run(lim, cursor, turns).cursor, t.event))
            ==> Follows(lim, log, cursor, turns + [t])
  {
    assert (turns + [t])[..|turns|] == turns;
  }

  lemma RunNone(lim: Limits, log: seq<Event>, cursor: int)
    ensures Run(lim, cursor, []) == Open(cursor) && Follows(lim, log, cursor, [])
  {
  }

  /** A visible event above the frame limit is never passed: every window restarted before it stops there. */
  lemma {:induction false} OversizeBlocks(lim: Limits, log: seq<Event>, cursor: int, turns: seq<Turn>, e: Event)
    requires Sorted(log) && Follows(lim, log, cursor, turns)
    requires NextAfter(log, cursor, e) && e.visible && e.size > lim.maxFrameBytes
    ensures var w := Run(lim, cursor, turns); w.cursor == cursor && (w.hand.Some? ==> w.hand.value == e)
  {
    if turns != [] {
      OversizeBlocks(lim, log, cursor, turns[..|turns| - 1], e);
      var t := turns[|turns| - 1];
      if t.Takes? && t.event.number > cursor { OnlyNext(log, cursor, e, t.event); }
    }
  }

  /** With room for one event, some window passes the next event exactly when it is hidden or small enough. */
  lemma PassedExactly(lim: Limits, log: seq<Event>, cursor: int, e: Event)
    requires Sorted(log) && NextAfter(log, cursor, e) && Roomy(lim, 0, 0)
    ensures (exists turns :: Follows(lim, log, cursor, turns) && e.number <= Run(lim, cursor, turns).cursor)
            <==> !e.visible || e.size <= lim.maxFrameBytes
  {
    hide Run, Follows;
    if !e.visible || e.size <= lim.maxFrameBytes {
      RunNone(lim, log, cursor);
      RunSnoc(lim, log, cursor, [], Takes(e));
      RunSnoc(lim, log, cursor, [] + [Takes(e)], Judges);
      assert Run(lim, cursor, [] + [Takes(e)] + [Judges]).cursor == e.number;
    } else {
      forall turns | Follows(lim, log, cursor, turns) ensures Run(lim, cursor, turns).cursor < e.number {
        OversizeBlocks(lim, log, cursor, turns, e);
      }
    }
  }

  lemma OnlyNext(log: seq<Event>, cursor: int, a: Event, b: Event)
    requires Sorted(log) && NextAfter(log, cursor, a) && NextAfter(log, cursor, b)
    ensures a == b
  {
    var i :| 0 <= i < |log| && log[i] == a;
    var j :| 0 <= j < |log| && log[j] == b;
  }

  // ---- The window as the closure it is ----

  function Play(lim: Limits, w: Window, turns: seq<Turn>): Window {
    if turns == [] then w else Step(lim, Play(lim, w, turns[..|turns| - 1]), turns[|turns| - 1])
  }

  lemma {:induction false} PlayIsRun(lim: Limits, cursor: int, turns: seq<Turn>)
    ensures Play(lim, Open(cursor), turns) == Run(lim, cursor, turns)
  {
    if turns != [] { PlayIsRun(lim, cursor, turns[..|turns| - 1]); }
  }

  class DeviceEventWindow {
    const lim: Limits
    const start: int
    var cursor: int
    var frames: nat
    var bytes: nat
    var scanned: nat
    var closed: bool
    var released: bool
    var releases: nat
    var hand: Option<Event>
    var sent: seq<Frame>
    ghost var ending: Option<Reason>
    ghost var beats: nat
    ghost var stale: nat

    ghost function Abs(): Window
      reads this
    {
      Window(start, cursor, frames, bytes, scanned, closed, released, releases, hand, sent, ending, beats, stale)
    }

    constructor (limits: Limits, from: int)
      ensures lim == limits && Abs() == Open(from)
    {
      lim, start, cursor := limits, from, from;
      frames, bytes, scanned, releases := 0, 0, 0, 0;
      closed, released, hand, sent := false, false, None, [];
      ending, beats, stale := None, 0, 0;
    }

    method ReleaseSlot()
      modifies this
      ensures Abs() == Release(old(Abs()))
    {
      if released { return; }
      released := true;
      releases := releases + 1;
    }

    method End(reason: Reason, send: bool)
      modifies this
      ensures Abs() == Finish(old(Abs()), reason, send)
      ensures closed && cursor == old(cursor) && frames == old(frames) && bytes == old(bytes)
      ensures old(closed) ==> Abs() == old(Abs())
      ensures !old(closed) ==> released && hand.None? && releases == old(releases) + (if old(released) then 0 else 1)
      ensures !old(closed) ==> sent == old(sent) + if send then [Final(cursor, reason)] else []
    {
      if closed { return; }
      closed := true;
      if send { sent := sent + [Final(cursor, reason)]; }
      hand, ending := None, Some(reason);
      ReleaseSlot();
    }

    method EmitFrame(f: Frame) returns (ok: bool)
      requires !closed
      modifies this
      ensures Abs() == Emit(lim, old(Abs()), f) && ok == !closed
      ensures ok <==> old(frames) + 1 < lim.maxFrames && old(bytes) + FrameBytes(f) + RESERVE <= lim.maxBytes
      ensures ok ==> sent == old(sent) + [f] && frames == old(frames) + 1 && bytes == old(bytes) + FrameBytes(f)
      ensures ok ==> frames + 1 <= lim.maxFrames && bytes + RESERVE <= lim.maxBytes
      ensures !ok ==> released && ending == Some(Limit) && sent == old(sent) + [Final(cursor, Limit)]
      ensures cursor == old(cursor)
    {
      if frames + 1 >= lim.maxFrames || bytes + FrameBytes(f) + RESERVE > lim.maxBytes {
        End(Limit, true);
        return false;
      }
      sent := sent + [f];
      frames := frames + 1;
      bytes := bytes + FrameBytes(f);
      return true;
    }

    method TakeEvent(e: Event)
      requires !closed && hand.None?
      modifies this
      ensures Abs() == Take(lim, old(Abs()), e)
    {
      scanned := scanned + 1;
      if e.number <= cursor { stale := stale + 1; }
      if scanned > lim.maxScanned {
        End(Limit, true);
      } else if e.number > cursor {
        hand := Some(e);
      }
    }

    method JudgeEvent()
      requires !closed && hand.Some?
      modifies this
      ensures Abs() == Judge(lim, old(Abs()))
    {
      var e := hand.value;
      hand := None;
      if !e.visible {
        cursor := e.number;
        return;
      }
      if e.size > lim.maxFrameBytes {
        End(PayloadTooLarge, true);
        return;
      }
      var ok := EmitFrame(Sends(e));
      if ok { cursor := e.number; }
    }

    method Advance(t: Turn)
      modifies this
      ensures Abs() == Step(lim, old(Abs()), t)
    {
      if closed { return; }
      match t
      case Takes(e) => if hand.None? { TakeEvent(e); }
      case Judges => if hand.Some? { JudgeEvent(); }
      case Beats =>
        if hand.None? {
          beats := beats + 1;
          var _ := EmitFrame(Heartbeat);
        }
      case FeedEnds => if hand.None? { End(Shutdown, true); }
      case Fails(denied) => End(if denied then AccessLost else Error, true);
      case Expires => End(Timeout, true);
      case Disconnects => End(Shutdown, false);
      case ShutsDown => End(Shutdown, true);
      case Cancelled =>
        closed, hand := true, None;
        ReleaseSlot();
    }

    /** One pull: it loops until it has emitted a frame or the window has closed. */
    method Pull(turns: seq<Turn>) returns (used: nat)
      modifies this
      ensures used <= |turns| && Abs() == Play(lim, old(Abs()), turns[..used])
      ensures used < |turns| ==> closed || frames > old(frames)
      ensures !old(closed) && turns != [] ==> used > 0
    {
      var before := frames;
      used := 0;
      while !closed && used < |turns| && frames <= before
        invariant used <= |turns| && Abs() == Play(lim, old(Abs()), turns[..used])
      {
        Advance(turns[used]);
        assert turns[..used + 1][..used] == turns[..used];
        used := used + 1;
      }
    }
  }

  lemma PlayBoth(lim: Limits, w: Window, turns: seq<Turn>, n: nat, used: nat)
    requires n + used <= |turns|
    ensures Play(lim, Play(lim, w, turns[..n]), turns[n..][..used]) == Play(lim, w, turns[..n + used])
    decreases used
  {
    hide Step;
    if used > 0 {
      PlayBoth(lim, w, turns, n, used - 1);
      assert turns[n..][..used][..used - 1] == turns[n..][..used - 1];
      assert turns[..n + used][..n + used - 1] == turns[..n + used - 1];
      assert turns[n..][..used][used - 1] == turns[..n + used][n + used - 1];
    } else {
      assert turns[n..][..0] == [];
    }
  }

  /** A window that is pulled again and again goes through exactly a run of the model. */
  method Serve(limits: Limits, from: int, turns: seq<Turn>) returns (window: DeviceEventWindow, used: nat)
    ensures fresh(window) && window.lim == limits && used <= |turns|
    ensures window.Abs() == Run(limits, from, turns[..used])
    ensures window.closed || used == |turns|
  {
    window := new DeviceEventWindow(limits, from);
    used := 0;
    while !window.closed && used < |turns|
      invariant fresh(window) && window.lim == limits && used <= |turns|
      invariant window.Abs() == Play(limits, Open(from), turns[..used])
      decreases |turns| - used
    {
      var more := window.Pull(turns[used..]);
      PlayBoth(limits, Open(from), turns, used, more);
      used := used + more;
    }
    PlayIsRun(limits, from, turns[..used]);
  }
}
