/**
 The cleanup calls as they run on the stores: `cleanupFleetSecret` and the periodic sweep
 `reconcileFleetSecretCleanup` of apps/api/src/fleet.ts.
 */
module SecretCleanup {
  import opened HostSecrets

  // ---- Cleaning up ----

  /** What became of the deletion request: acknowledged, done but not acknowledged, or not delivered. */
  datatype Answer = Acknowledged | Ambiguous | Unreachable

  function CleanupEvents(id: int, answer: Answer): seq<Event> {
    match answer
    case Acknowledged => [HostDeletes(id), Cleaned(id)]
    case Ambiguous => [HostDeletes(id), Postpones(id)]
    case Unreachable => [Postpones(id)]
  }

  ghost function After(s: State, events: seq<Event>): State
    decreases |events|
  {
    if events == [] then s else After(Step(s, events[0]), events[1..])
  }

  lemma {:induction false} AfterBoth(s: State, a: seq<Event>, b: seq<Event>)
    ensures After(s, a + b) == After(After(s, a), b)
    decreases |a|
  {
    if a == [] {
      assert a + b == b;
    } else {
      assert (a + b)[0] == a[0] && (a + b)[1..] == a[1..] + b;
      AfterBoth(Step(s, a[0]), a[1..], b);
    }
  }

  lemma AfterOne(s: State, e: Event)
    ensures After(s, [e]) == Step(s, e)
  {
    hide Step;
    assert [e][1..] == [] && After(Step(s, e), []) == Step(s, e);
  }

  lemma CleanupIs(s: State, id: int, answer: Answer)
    requires id in s.cleaning
    ensures var intents := if answer.Acknowledged? then s.intents - {id}
                           else if id in s.intents then s.intents[id := s.now + RETRY] else s.intents;
            After(s, CleanupEvents(id, answer))
            == if answer.Unreachable? then s.(intents := intents)
               else s.(host := s.host - {id}, gone := s.gone + {id}, intents := intents)
  {
    hide After, Step;
    var second := if answer.Acknowledged? then Cleaned(id) else Postpones(id);
    var deleted := s.(host := s.host - {id}, gone := s.gone + {id});
    DeleteIs(s, id);
    CleanedIs(deleted, id);
    PostponeIs(s, id);
    PostponeIs(deleted, id);
    AfterOne(s, HostDeletes(id));
    AfterOne(s, second);
    AfterOne(deleted, second);
    AfterBoth(s, [HostDeletes(id)], [second]);
    assert [HostDeletes(id)] + [second] == [HostDeletes(id), second];
  }

  lemma DeleteIs(s: State, id: int)
    requires id in s.cleaning
    ensures Step(s, HostDeletes(id)) == s.(host := s.host - {id}, gone := s.gone + {id})
  {
  }

  lemma CleanedIs(s: State, id: int)
    requires id in s.gone
    ensures Step(s, Cleaned(id)) == s.(intents := s.intents - {id})
  {
  }

  lemma PostponeIs(s: State, id: int)
    requires id in s.cleaning
    ensures Step(s, Postpones(id)) == if id in s.intents then s.(intents := s.intents[id := s.now + RETRY]) else s
  {
  }

  predicate IsCleanup(e: Event) { e.Sweeps? || e.Checks? || e.HostDeletes? || e.Cleaned? || e.Postpones? }

  lemma {:induction false} CleanupRunKeeps(s: State, events: seq<Event>)
    requires Inv(s) && forall e | e in events :: IsCleanup(e)
    ensures Inv(After(s, events)) && After(s, events).conns == s.conns
    decreases |events|
  {
    hide Inv, Step;
    if events != [] {
      assert events[0] in events;
      CleanupStep(s, events[0]);
      assert forall e | e in events[1..] :: e in events;
      CleanupRunKeeps(Step(s, events[0]), events[1..]);
    }
  }

  lemma CleanupStep(s: State, e: Event)
    requires Inv(s) && IsCleanup(e)
    ensures Inv(Step(s, e)) && Step(s, e).conns == s.conns
  {
    hide Inv, Step;
    StepKeeps(s, e);
    CleanupFrame(s, e);
  }

  /** The events of one pass over the due intents. */
  function PassEvents(conns: map<int, Connection>, due: seq<int>, answers: seq<Answer>): seq<Event>
    requires |due| == |answers|
  {
    if due == [] then []
    else
      var last := |due| - 1;
      PassEvents(conns, due[..last], answers[..last]) + [Checks(due[last])]
      + if Referenced(conns, due[last]) then [] else CleanupEvents(due[last], answers[last])
  }

  lemma {:induction false} PassIsCleanup(conns: map<int, Connection>, due: seq<int>, answers: seq<Answer>)
    requires |due| == |answers|
    ensures forall e | e in PassEvents(conns, due, answers) :: IsCleanup(e)
  {
    hide Referenced;
    if due != [] {
      PassIsCleanup(conns, due[..|due| - 1], answers[..|due| - 1]);
    }
  }

  lemma PassStep(s: State, due: seq<int>, answers: seq<Answer>, n: nat)
    requires |due| == |answers| && n < |due|
    ensures var before := After(s, PassEvents(s.conns, due[..n], answers[..n]));
            var checked := Step(before, Checks(due[n]));
            After(s, PassEvents(s.conns, due[..n + 1], answers[..n + 1]))
            == if Referenced(s.conns, due[n]) then checked else After(checked, CleanupEvents(due[n], answers[n]))
  {
    hide Step, Referenced, After, CleanupEvents;
    assert due[..n + 1][..n] == due[..n] && answers[..n + 1][..n] == answers[..n];
    var before := PassEvents(s.conns, due[..n], answers[..n]);
    AfterBoth(s, before, [Checks(due[n])]);
    AfterOne(After(s, before), Checks(due[n]));
    AfterBoth(s, before + [Checks(due[n])], CleanupEvents(due[n], answers[n]));
    assert before + [Checks(due[n])] + [] == before + [Checks(due[n])];
  }

  /** The deletion request reached the host. */
  predicate Reached(due: seq<int>, answers: seq<Answer>, conns: map<int, Connection>, id: int)
    requires |due| == |answers|
  {
    !Referenced(conns, id) && exists i | 0 <= i < |due| :: due[i] == id && !answers[i].Unreachable?
  }

  /** What became of one due intent: dropped, or kept for another attempt. */
  predicate Handled(was: map<int, int>, intents: map<int, int>, conns: map<int, Connection>, now: int, id: int, answer: Answer) {
    if Referenced(conns, id) || answer.Acknowledged? then id !in intents
    else if id in was then id in intents && intents[id] == now + RETRY
    else id !in intents
  }

  /** Exactly the unreferenced due credentials whose deletion was delivered left the host; intents not due stay. */
  ghost predicate Swept(was: State, host: set<int>, intents: map<int, int>, due: seq<int>, answers: seq<Answer>)
    requires |due| == |answers|
  {
    && (forall id :: id in host <==> id in was.host && !Reached(due, answers, was.conns, id))
    && (forall id | id !in due ::
          (id in intents <==> id in was.intents) && (id in intents ==> intents[id] == was.intents[id]))
    && (forall i | 0 <= i < |due| :: Handled(was.intents, intents, was.conns, was.now, due[i], answers[i]))
  }

  lemma NothingSwept(was: State, due: seq<int>, answers: seq<Answer>)
    requires due == [] && answers == []
    ensures Swept(was, was.host, was.intents, due, answers)
  {
  }

  /** One more intent was settled. */
  lemma SweptMore(was: State, h: set<int>, k: map<int, int>, due: seq<int>, answers: seq<Answer>, n: nat,
                  host: set<int>, intents: map<int, int>)
    requires |due| == |answers| && n < |due| && Different(due)
    requires Swept(was, h, k, due[..n], answers[..n])
    requires forall id | id != due[n] ::
               (id in host <==> id in h) && (id in intents <==> id in k) && (id in intents ==> intents[id] == k[id])
    requires due[n] in host <==> due[n] in h && (Referenced(was.conns, due[n]) || answers[n].Unreachable?)
    requires Handled(k, intents, was.conns, was.now, due[n], answers[n])
    ensures Swept(was, host, intents, due[..n + 1], answers[..n + 1])
  {
    hide Referenced;
    var id := due[n];
    assert id !in due[..n];
    forall x ensures x in host <==> x in was.host && !Reached(due[..n + 1], answers[..n + 1], was.conns, x) {
      ReachedMore(due, answers, n, was.conns, x);
    }
    var d, a := due[..n + 1], answers[..n + 1];
    forall i | 0 <= i < |d| ensures Handled(was.intents, intents, was.conns, was.now, d[i], a[i]) {
      if i < n {
        assert due[..n][i] == due[i] && answers[..n][i] == answers[i];
        assert Handled(was.intents, k, was.conns, was.now, due[..n][i], answers[..n][i]);
      }
    }
  }

  lemma ReachedMore(due: seq<int>, answers: seq<Answer>, n: nat, conns: map<int, Connection>, x: int)
    requires |due| == |answers| && n < |due|
    ensures Reached(due[..n + 1], answers[..n + 1], conns, x)
            <==> Reached(due[..n], answers[..n], conns, x)
                 || (x == due[n] && !Referenced(conns, x) && !answers[n].Unreachable?)
  {
    hide Referenced;
    forall i | 0 <= i < n ensures due[..n + 1][i] == due[..n][i] && answers[..n + 1][i] == answers[..n][i] {}
    assert due[..n + 1][n] == due[n] && answers[..n + 1][n] == answers[n];
  }

  /** The database and the host, changed in place; `rest` is what only other processes hold. */
  class Fleet {
    var now: int
    var host: set<int>
    var intents: map<int, int>
    var conns: map<int, Connection>
    ghost var rest: State

    ghost function Abs(): State reads this {
      rest.(now := now, host := host, intents := intents, conns := conns)
    }

    /** `cleanupFleetSecret`, for a credential found unreferenced. */
    method CleanupSecret(id: int, answer: Answer) returns (done: bool)
      requires id in rest.cleaning
      modifies this
      ensures Abs() == After(old(Abs()), CleanupEvents(id, answer))
      ensures conns == old(conns) && now == old(now) && done == answer.Acknowledged?
      ensures host == if answer.Unreachable? then old(host) else old(host) - {id}
      ensures intents == if done then old(intents) - {id}
                         else if id in old(intents) then old(intents)[id := now + RETRY] else old(intents)
      ensures rest == old(rest).(gone := old(rest).gone + if answer.Unreachable? then {} else {id})
    {
      hide After, CleanupEvents, Step;
      CleanupIs(Abs(), id, answer);
      done := answer.Acknowledged?;
      if !answer.Unreachable? {
        host := host - {id};
        rest := rest.(gone := rest.gone + {id});
      }
      if done {
        intents := intents - {id};
      } else if id in intents {
        intents := intents[id := now + RETRY];
      }
    }

    /** One intent of the sweep: drop it if its credential is in use, otherwise clean up. */
    method Settle(id: int, answer: Answer)
      requires id in rest.listed
      modifies this
      ensures var checked := Step(old(Abs()), Checks(id));
              Abs() == if Referenced(old(conns), id) then checked else After(checked, CleanupEvents(id, answer))
      ensures conns == old(conns) && now == old(now)
      ensures host == if Referenced(conns, id) || answer.Unreachable? then old(host) else old(host) - {id}
      ensures intents == if Referenced(conns, id) || answer.Acknowledged? then old(intents) - {id}
                         else if id in old(intents) then old(intents)[id := now + RETRY] else old(intents)
      ensures rest.listed == old(rest).listed - {id}
    {
      hide After, CleanupEvents, Referenced;
      rest := rest.(listed := rest.listed - {id});
      if Referenced(conns, id) {
        intents := intents - {id};
      } else {
        rest := rest.(cleaning := rest.cleaning + {id});
        var _ := CleanupSecret(id, answer);
      }
    }

    /** The periodic sweep over the due intents, in the order they were read. */
    method Reconcile(due: seq<int>, answers: seq<Answer>)
      requires |due| == |answers| && |set id | id in due| <= BATCH
      requires Different(due)
      requires forall id | id in due :: id in intents && intents[id] <= now
      modifies this
      ensures Abs() == After(Step(old(Abs()), Sweeps(set id | id in due)), PassEvents(old(conns), due, answers))
      ensures conns == old(conns)
      ensures old(Inv(Abs())) ==> Inv(Abs())
      ensures Swept(old(Abs()), host, intents, due, answers)
    {
      hide After, CleanupEvents, Referenced, PassEvents, Inv, Step, Swept, Handled, ToCheck, Different;
      ghost var batch := set id | id in due;
      ghost var was := Abs();
      rest := rest.(listed := rest.listed + batch);
      ghost var s := Abs();
      SweepIs(was, batch);
      NothingSwept(was, due[..0], answers[..0]);
      AllToCheck(due, rest.listed);
      PassNone(s);
      assert due[..0] == [] && answers[..0] == [];
      var n := 0;
      while n < |due|
        invariant 0 <= n <= |due|
        invariant conns == old(conns) && now == old(now)
        invariant Abs() == After(s, PassEvents(conns, due[..n], answers[..n]))
        invariant ToCheck(due, n, rest.listed)
        invariant Swept(was, host, intents, due[..n], answers[..n])
      {
        PassStep(s, due, answers, n);
        ghost var h, k, l := host, intents, rest.listed;
        NextToCheck(due, n, l);
        Settle(due[n], answers[n]);
        SettledOne(k, intents, conns, now, due[n], answers[n]);
        SweptMore(was, h, k, due, answers, n, host, intents);
        n := n + 1;
      }
      assert due[..n] == due && answers[..n] == answers;
      SweepKeeps(was, batch, due, answers);
    }
  }

  predicate Different(due: seq<int>) { forall i, j | 0 <= i < j < |due| :: due[i] != due[j] }

  predicate ToCheck(due: seq<int>, n: nat, listed: set<int>) { forall i | n <= i < |due| :: due[i] in listed }

  lemma AllToCheck(due: seq<int>, listed: set<int>)
    requires forall id | id in due :: id in listed
    ensures ToCheck(due, 0, listed)
  {
    forall i | 0 <= i < |due| ensures due[i] in listed {
      var id := due[i];
      assert id in due && id in listed;
    }
  }

  lemma NextToCheck(due: seq<int>, n: nat, listed: set<int>)
    requires n < |due| && Different(due) && ToCheck(due, n, listed)
    ensures due[n] in listed && ToCheck(due, n + 1, listed - {due[n]})
  {
  }

  lemma SettledOne(was: map<int, int>, intents: map<int, int>, conns: map<int, Connection>, now: int, id: int, answer: Answer)
    requires intents == if Referenced(conns, id) || answer.Acknowledged? then was - {id}
                        else if id in was then was[id := now + RETRY] else was
    ensures Handled(was, intents, conns, now, id, answer)
  {
  }

  lemma SweepIs(s: State, batch: set<int>)
    requires |batch| <= BATCH && forall id | id in batch :: id in s.intents && s.intents[id] <= s.now
    ensures Step(s, Sweeps(batch)) == s.(listed := s.listed + batch)
  {
  }

  lemma SweepKeeps(s: State, batch: set<int>, due: seq<int>, answers: seq<Answer>)
    requires |due| == |answers|
    ensures Inv(s) ==> Inv(After(Step(s, Sweeps(batch)), PassEvents(s.conns, due, answers)))
  {
    hide Inv, Step, After, PassEvents;
    if Inv(s) {
      CleanupStep(s, Sweeps(batch));
      PassIsCleanup(s.conns, due, answers);
      CleanupRunKeeps(Step(s, Sweeps(batch)), PassEvents(s.conns, due, answers));
    }
  }

  lemma PassNone(s: State)
    ensures After(s, PassEvents(s.conns, [], [])) == s
  {
  }
}
