/** Building blocks for two run properties: no request is dropped silently, and ended ids are remembered. */
module HubAnswers {
  import opened HubModel
  import opened HubSafety
  import opened HubMonitor
  import opened HubHistory

  lemma Held(s: State, id: string)
    ensures Holds(s, id) <==>
            (exists p | p in s.pending :: p.request.id == id) || (exists q | q in s.probes :: q.request.id == id)
  {
    var i, j := PendingAt(s.pending, id), ProbeAt(s.probes, id);
    if i >= 0 { assert s.pending[i] in s.pending; }
    if j >= 0 { assert s.probes[j] in s.probes; }
  }

  /** With distinct ids, an id names one arrival and hence one worker. */
  lemma OneWorker(s: State, n: nat, r: Request, w: Wire, a: Arrival)
    requires DistinctArrivals(s.arrivals) && ArrivedAs(s.arrivals, n, r, w)
    requires a in s.arrivals && a.request.id == r.id
    ensures a == Arrival(r, w)
  {
    var m :| 0 <= m < |s.arrivals| && s.arrivals[m] == a;
  }

  predicate WorkerOf(s: State, id: string, w: Wire) {
    forall a | a in s.arrivals && a.request.id == id :: a.worker == w
  }

  lemma WorkerOfArrival(s: State, n: nat, r: Request, w: Wire)
    requires DistinctArrivals(s.arrivals) && ArrivedAs(s.arrivals, n, r, w)
    ensures WorkerOf(s, r.id, w) && HasArrived(s.arrivals, r.id)
  {
    forall a | a in s.arrivals && a.request.id == r.id ensures a.worker == w { OneWorker(s, n, r, w, a); }
    assert s.arrivals[n] in s.arrivals;
  }

  lemma SameHonest(s: State, t: State, x: set<string>)
    requires Honest(s, x)
    requires forall id: string :: Holds(t, id) <==> Holds(s, id)
    requires t.arrivals == s.arrivals && t.completed == s.completed
    requires t.log == s.log || (t.log.Then? && t.log.before == s.log && !t.log.entry.Remembered?)
    ensures Honest(t, x)
  {
    hide Holds, DistinctArrivals, Latest, CompletedOf;
    assert forall w: Wire :: RememberedBy(t.log, w) == RememberedBy(s.log, w);
    forall a | a in t.arrivals && a.request.id !in x && DistinctArrivals(s.arrivals) ensures Accounted(t, a) {
      assert Accounted(s, a);
    }
  }

  lemma QuietHonest(s: State, t: State, x: set<string>)
    requires Honest(s, x)
    requires t.pending == s.pending && t.probes == s.probes
    requires t.arrivals == s.arrivals && t.completed == s.completed
    requires t.log == s.log || (t.log.Then? && t.log.before == s.log && !t.log.entry.Remembered?)
    ensures Honest(t, x)
  {
    hide Honest;
    SameHonest(s, t, x);
  }

  /** An id is settled once its worker was sent an end frame. */
  lemma Settle(s: State, id: string, w: Wire, x: set<string>)
    requires Honest(s, x + {id}) && Ended(s.log, w, id)
    requires DistinctArrivals(s.arrivals) ==> WorkerOf(s, id, w)
    ensures Honest(s, x)
  {
    forall a | a in s.arrivals && a.request.id !in x && DistinctArrivals(s.arrivals) ensures Accounted(s, a) {
      if a.request.id != id { assert a.request.id !in x + {id}; }
    }
  }

  predicate Forgotten(s: State, id: string) {
    id !in EveryRemembered(s.log)
  }

  function EveryRemembered(log: History): set<string> {
    match log
    case Start => {}
    case Then(before, e) => EveryRemembered(before) + if e.Remembered? then {e.id} else {}
  }

  lemma {:induction false} RememberedSomewhere(log: History, w: Wire, id: string)
    requires id in RememberedBy(log, w)
    ensures id in EveryRemembered(log)
  {
    if log.Then? {
      if id in RememberedBy(log.before, w) { RememberedSomewhere(log.before, w, id); }
    }
  }

  lemma {:induction false} RememberedByWhom(log: History, id: string) returns (w: Wire)
    requires id in EveryRemembered(log)
    ensures id in RememberedBy(log, w)
  {
    if id in EveryRemembered(log.before) {
      w := RememberedByWhom(log.before, id);
    } else {
      w := log.entry.worker;
    }
  }

  lemma HeldIsForgotten(s: State, id: string)
    requires Memory(s) && Holds(s, id)
    ensures Forgotten(s, id)
  {
    if id in EveryRemembered(s.log) {
      var w := RememberedByWhom(s.log, id);
    }
  }

  lemma UnarrivedIsForgotten(s: State, id: string)
    requires Memory(s) && !HasArrived(s.arrivals, id)
    ensures Forgotten(s, id)
  {
    if id in EveryRemembered(s.log) {
      var w := RememberedByWhom(s.log, id);
    }
  }

  /** A held id is added: by opening a record or by queueing a probe. */
  lemma HoldHonest(s: State, t: State, id: string, x: set<string>)
    requires Honest(s, x + {id})
    requires DistinctArrivals(s.arrivals) ==> Forgotten(s, id)
    requires t.arrivals == s.arrivals && t.completed == s.completed
    requires t.log == s.log || (t.log.Then? && t.log.before == s.log && !t.log.entry.Remembered?)
    requires forall i: string :: Holds(t, i) <==> (Holds(s, i) || i == id)
    ensures Honest(t, x)
  {
    assert forall w: Wire :: RememberedBy(t.log, w) == RememberedBy(s.log, w);
    if DistinctArrivals(s.arrivals) {
      forall a | a in t.arrivals && a.request.id !in x ensures Accounted(t, a) {
        if a.request.id != id { assert Accounted(s, a); }
      }
      forall w: Wire, i: string | i in RememberedBy(t.log, w) ensures !Holds(t, i) {
        RememberedSomewhere(s.log, w, i);
      }
    }
  }

  /** A held id is removed and, unless the host was lost, remembered. */
  lemma ReleaseHonest(s: State, t: State, id: string, x: set<string>)
    requires Honest(s, x) && t.arrivals == s.arrivals && t.completed == s.completed && t.log == s.log
    requires forall i: string :: Holds(t, i) <==> (Holds(s, i) && i != id)
    ensures Honest(t, x + {id})
  {
    if DistinctArrivals(s.arrivals) {
      forall a | a in t.arrivals && a.request.id !in x + {id} ensures Accounted(t, a) {
        assert Accounted(s, a);
      }
    }
  }

  lemma InsertLatest(ids: seq<string>, id: string)
    requires id !in ids
    ensures Insert(Latest(ids), id) == Latest(ids + [id])
  {
    assert id !in Latest(ids);
  }

  lemma RememberDropsNothing(s: State, w: Wire, id: string, x: set<string>)
    requires NoSilentDrop(s, x)
    ensures NoSilentDrop(Remember(s, w, id), x)
  {
    var t := Remember(s, w, id);
    forall a | a in t.arrivals && a.request.id !in x ensures Accounted(t, a) { assert Accounted(s, a); }
  }

  lemma RememberMemory(s: State, w: Wire, id: string)
    requires Memory(s) && Forgotten(s, id) && HasArrived(s.arrivals, id) && !Holds(s, id)
    ensures Memory(Remember(s, w, id))
  {
    hide HasArrived, Holds, Latest, Insert;
    var t := Remember(s, w, id);
    if id in RememberedBy(s.log, w) { RememberedSomewhere(s.log, w, id); }
    InsertLatest(RememberedBy(s.log, w), id);
    forall v: Wire ensures CompletedOf(t.completed, v) == Latest(RememberedBy(t.log, v)) {
      assert CompletedOf(s.completed, v) == Latest(RememberedBy(s.log, v));
      assert RememberedBy(s.log, v) + [] == RememberedBy(s.log, v);
    }
    forall v: Wire, i: string | i in RememberedBy(t.log, v) ensures HasArrived(t.arrivals, i) && !Holds(t, i) {
      assert i in RememberedBy(s.log, v) || i == id;
      HoldsSame(s, t, i);
    }
  }

  lemma HoldsSame(s: State, t: State, id: string)
    requires s.pending == t.pending && s.probes == t.probes
    ensures Holds(s, id) == Holds(t, id)
  {
  }

  lemma RememberHonest(s: State, w: Wire, id: string, x: set<string>)
    requires Honest(s, x)
    requires DistinctArrivals(s.arrivals) ==> Forgotten(s, id) && HasArrived(s.arrivals, id) && !Holds(s, id)
    ensures Honest(Remember(s, w, id), x)
  {
    hide NoSilentDrop, Memory, DistinctArrivals;
    if DistinctArrivals(s.arrivals) {
      RememberDropsNothing(s, w, id, x);
      RememberMemory(s, w, id);
    }
  }
}
