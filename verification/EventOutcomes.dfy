/**
 What each turn does to an open window, told from what the window has sent and pulled so far rather
 than from its counters: which turn ends it, for which reason, and what it sends and where it stands.
 */
module EventOutcomes {
  import opened Options
  import opened EventWindow

  /** How many events a window has pulled while it was open and idle. */
  function Pulled(lim: Limits, cursor: int, turns: seq<Turn>): nat {
    if turns == [] then 0
    else
      var before := turns[..|turns| - 1];
      var w := Run(lim, cursor, before);
      Pulled(lim, cursor, before)
      + if turns[|turns| - 1].Takes? && !w.closed && w.hand.None? then 1 else 0
  }

  /** After the frames sent there is room for one more and for the final one. */
  predicate Room(lim: Limits, sent: seq<Frame>, size: nat) {
    |sent| + 2 <= lim.maxFrames && TotalBytes(sent) + size + RESERVE <= lim.maxBytes
  }

  predicate LimitDue(lim: Limits, w: Window, pulled: nat, t: Turn) {
    || (t.Takes? && w.hand.None? && pulled >= lim.maxScanned)
    || (t.Beats? && w.hand.None? && !Room(lim, w.sent, HEARTBEAT_BYTES))
    || (t.Judges? && w.hand.Some? && w.hand.value.visible && w.hand.value.size <= lim.maxFrameBytes
        && !Room(lim, w.sent, w.hand.value.size))
  }

  /** The turn ends an open window for this reason. */
  predicate Due(lim: Limits, w: Window, pulled: nat, t: Turn, r: Reason) {
    match r
    case Limit => LimitDue(lim, w, pulled, t)
    case PayloadTooLarge =>
      t.Judges? && w.hand.Some? && w.hand.value.visible && w.hand.value.size > lim.maxFrameBytes
    case AccessLost => t == Fails(true)
    case Error => t == Fails(false)
    case Timeout => t.Expires?
    case Shutdown => t.Disconnects? || t.ShutsDown? || (t.FeedEnds? && w.hand.None?)
  }

  lemma {:induction false} ScannedIsPulled(lim: Limits, cursor: int, turns: seq<Turn>)
    ensures Run(lim, cursor, turns).scanned == Pulled(lim, cursor, turns)
    ensures var w := Run(lim, cursor, turns); w.ending.Some? ==> w.closed
  {
    if turns != [] { ScannedIsPulled(lim, cursor, turns[..|turns| - 1]); }
  }

  predicate Outcome(lim: Limits, w: Window, n: Window, pulled: nat, t: Turn) {
    && (forall r: Reason :: n.ending == Some(r) <==> Due(lim, w, pulled, t, r))
    && (n.closed <==> t.Cancelled? || n.ending.Some?)
    && (n.closed ==> n.cursor == w.cursor && n.releases == w.releases + 1)
    && (n.closed ==> n.sent == w.sent + if t.Cancelled? || t.Disconnects? then [] else [Final(w.cursor, n.ending.value)])
  }

  lemma JudgeOutcome(lim: Limits, w: Window)
    requires Budgeted(lim, w) && !w.closed && w.ending.None? && w.hand.Some?
    ensures Outcome(lim, w, Judge(lim, w), w.scanned, Judges)
  {
    hide TotalBytes;
  }

  lemma StepOutcome(lim: Limits, w: Window, t: Turn)
    requires Budgeted(lim, w) && !w.closed && w.ending.None?
    ensures Outcome(lim, w, Step(lim, w, t), w.scanned, t)
  {
    hide TotalBytes, Judge;
    assert w.sent + [] == w.sent;
    if t.Judges? && w.hand.Some? { JudgeOutcome(lim, w); }
  }

  /** A window ends by its limit exactly when the next frame does not fit what was sent, or too much was pulled. */
  lemma EndsExactly(lim: Limits, cursor: int, turns: seq<Turn>, t: Turn)
    requires lim.maxFrames >= 1 && lim.maxBytes >= RESERVE && !Run(lim, cursor, turns).closed
    ensures var w := Run(lim, cursor, turns); var n := Run(lim, cursor, turns + [t]); var p := Pulled(lim, cursor, turns);
            && (forall r: Reason :: n.ending == Some(r) <==> Due(lim, w, p, t, r))
            && (n.closed <==> t.Cancelled? || n.ending.Some?)
            && (n.closed ==> n.cursor == w.cursor && n.releases == w.releases + 1)
            && (n.closed ==> n.sent == w.sent + if t.Cancelled? || t.Disconnects? then []
                                                else [Final(w.cursor, n.ending.value)])
  {
    hide TotalBytes, Run, Pulled, Step, Budgeted, Due;
    RunSnoc(lim, [], cursor, turns, t);
    RunBudget(lim, cursor, turns);
    ScannedIsPulled(lim, cursor, turns);
    StepOutcome(lim, Run(lim, cursor, turns), t);
  }

  /** The frame a turn sends when it does not end the window. */
  function Sent(w: Window, t: Turn): seq<Frame> {
    if t.Judges? && w.hand.Some? && w.hand.value.visible then [Sends(w.hand.value)]
    else if t.Beats? && w.hand.None? then [Heartbeat]
    else []
  }

  /** A turn that ends nothing sends exactly its frame, and the cursor moves exactly past a judged event. */
  lemma StaysExactly(lim: Limits, cursor: int, turns: seq<Turn>, t: Turn)
    requires !Run(lim, cursor, turns + [t]).closed
    ensures var w := Run(lim, cursor, turns); var n := Run(lim, cursor, turns + [t]);
            && !w.closed
            && n.sent == w.sent + Sent(w, t)
            && n.cursor == (if t.Judges? && w.hand.Some? then w.hand.value.number else w.cursor)
            && (w.hand.None? && t.Takes? ==> n.hand == if t.event.number > w.cursor then Some(t.event) else None)
            && (!t.Takes? ==> n.hand == if t.Judges? then None else w.hand)
  {
    RunSnoc(lim, [], cursor, turns, t);
    var w := Run(lim, cursor, turns);
    assert w.sent + [] == w.sent;
  }
}
