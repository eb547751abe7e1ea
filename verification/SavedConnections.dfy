/**
 Saving, updating and removing a computer connection as the calls run: the intent and connection
 writes of apps/api/src/computer-settings.ts and apps/api/src/fleet.ts, updated in place.
 */
module SavedConnections {
  import opened Options
  import opened HostSecrets
  import opened SecretCleanup

  predicate Recoverable(s: State, k: int) {
    k in s.tasks && s.tasks[k].failed && s.tasks[k].seen.Some?
  }

  /** The import still has its intent, and the connection is there and does not name it. */
  predicate Unclaimed(s: State, k: int, id: int)
    requires Recoverable(s, k)
  {
    var c := s.tasks[k].seen.value.conn;
    c in s.conns && s.conns[c].secret != Some(id) && id in s.intents
  }

  /** The error path of an update: each import is looked up and, if nothing names it, made due. */
  function RecoverEvents(s: State, k: int, ids: seq<int>): seq<Event>
    requires Recoverable(s, k)
  {
    if ids == [] then []
    else
      var id := ids[|ids| - 1];
      RecoverEvents(s, k, ids[..|ids| - 1]) + [Rechecks(k, id)] + if Unclaimed(s, k, id) then [Expedites(id)] else []
  }

  function Recovered(s: State, k: int, id: int): State
    requires Recoverable(s, k)
  {
    if Unclaimed(s, k, id) then s.(expedite := s.expedite + {id}, intents := s.intents[id := s.now]) else s
  }

  lemma RecoverOne(s: State, k: int, id: int)
    requires Recoverable(s, k) && id in s.tasks[k].imported
    ensures After(s, [Rechecks(k, id)] + if Unclaimed(s, k, id) then [Expedites(id)] else []) == Recovered(s, k, id)
  {
    hide After, Referenced;
    AfterOne(s, Rechecks(k, id));
    if Unclaimed(s, k, id) {
      AfterOne(Step(s, Rechecks(k, id)), Expedites(id));
      AfterBoth(s, [Rechecks(k, id)], [Expedites(id)]);
    } else {
      assert [Rechecks(k, id)] + [] == [Rechecks(k, id)];
    }
  }

  lemma RecoverStep(s: State, k: int, ids: seq<int>, n: nat)
    requires n < |ids| && Recoverable(s, k)
    ensures After(s, RecoverEvents(s, k, ids[..n + 1]))
         == After(After(s, RecoverEvents(s, k, ids[..n])),
                  [Rechecks(k, ids[n])] + if Unclaimed(s, k, ids[n]) then [Expedites(ids[n])] else [])
  {
    hide Step, After, Unclaimed;
    assert ids[..n + 1][..n] == ids[..n];
    var more := [Rechecks(k, ids[n])] + if Unclaimed(s, k, ids[n]) then [Expedites(ids[n])] else [];
    AfterBoth(s, RecoverEvents(s, k, ids[..n]), more);
    assert RecoverEvents(s, k, ids[..n + 1]) == RecoverEvents(s, k, ids[..n]) + more;
  }

  lemma RecoverNone(s: State, k: int)
    requires Recoverable(s, k)
    ensures After(s, RecoverEvents(s, k, [])) == s
  {
  }

  /** The error path keeps the invariant: it never makes a credential due that a save may still name. */
  lemma {:induction false} RecoveryKeeps(s: State, events: seq<Event>)
    requires Inv(s) && forall e | e in events :: e.Rechecks? || e.Expedites?
    ensures Inv(After(s, events))
    decreases |events|
  {
    hide Inv, Step;
    if events != [] {
      assert events[0] in events;
      OtherStepKeeps(s, events[0]);
      assert forall e | e in events[1..] :: e in events;
      RecoveryKeeps(Step(s, events[0]), events[1..]);
    }
  }

  lemma {:induction false} RecoverEventsAre(s: State, k: int, ids: seq<int>)
    requires Recoverable(s, k)
    ensures forall e | e in RecoverEvents(s, k, ids) :: e.Rechecks? || e.Expedites?
  {
    if ids != [] {
      RecoverEventsAre(s, k, ids[..|ids| - 1]);
    }
  }

  lemma NamedNotDue(s: State, c: int)
    requires Inv(s) && c in s.conns && s.conns[c].secret.Some?
    ensures s.conns[c].secret.value !in s.intents
  {
    hide NoOrphan, Chores;
    assert RefSafe(s.host, s.intents, s.cleaning, s.conns[c]);
  }

  lemma StepCommit(s: State, k: int, keep: bool, lost: bool)
    requires k in s.tasks
    ensures Step(s, Commits(k, keep, lost)) == Commit(s, k, s.tasks[k], keep, lost)
  {
  }

  /** A replaced credential has no intent yet, so writing one cannot clash. */
  lemma NoClash(s: State, k: int, keep: bool)
    requires Inv(s) && k in s.tasks && s.tasks[k].seen.Some? && Unchanged(s, s.tasks[k].seen.value)
    ensures Replaces(s.tasks[k], keep) ==> s.tasks[k].seen.value.row.secret.value !in s.intents
  {
    hide NoOrphan;
    SeenSecret(s, k);
    assert RefSafe(s.host, s.intents, s.cleaning, s.conns[s.tasks[k].seen.value.conn]);
  }

  // ---- What an accepted update leaves ----

  /** The row names the newest import, or else the stored credential if it is kept; all other rows stay. */
  ghost predicate UpdatedRow(was: map<int, Connection>, conns: map<int, Connection>, t: Task, keep: bool)
    requires t.seen.Some?
  {
    var c := t.seen.value.conn;
    && c in was && c in conns && conns.Keys == was.Keys
    && (forall d | d in was && d != c :: conns[d] == was[d])
    && conns[c].revision == was[c].revision + 1
    && (t.imported != [] ==> conns[c].secret == Some(t.imported[|t.imported| - 1]))
    && (t.imported == [] && keep ==> conns[c].secret == t.seen.value.row.secret)
    && (t.imported == [] && !keep ==> conns[c].secret == None)
  }

  /** The row named `id` before and names it no longer. */
  predicate LetGo(was: map<int, Connection>, conns: map<int, Connection>, c: int, id: int)
    requires c in was && c in conns
  {
    was[c].secret == Some(id) && conns[c].secret != Some(id)
  }

  /** Exactly a credential that the row let go gets an intent, due at once, and is handed to cleanup. */
  ghost predicate UpdatedIntents(s: State, n: State, imported: seq<int>, c: int) {
    && c in s.conns && c in n.conns
    && (forall id :: id in n.cleaning <==> id in s.cleaning || LetGo(s.conns, n.conns, c, id))
    && (forall id :: id in n.intents <==> (id in s.intents && id !in imported) || LetGo(s.conns, n.conns, c, id))
    && (forall id | id in n.intents ::
          if LetGo(s.conns, n.conns, c, id) then n.intents[id] == s.now else n.intents[id] == s.intents[id])
  }

  /** An update that nothing has overtaken saw the credential that is stored. */
  lemma SeenIsStored(s: State, k: int)
    requires Inv(s) && k in s.tasks && s.tasks[k].seen.Some? && Unchanged(s, s.tasks[k].seen.value)
    ensures s.conns[s.tasks[k].seen.value.conn].secret == s.tasks[k].seen.value.row.secret
  {
    hide NoOrphan;
    SeenSecret(s, k);
  }

  lemma UpdateRowExactly(was: map<int, Connection>, conns: map<int, Connection>, t: Task, keep: bool)
    requires t.seen.Some? && t.seen.value.conn in was && was[t.seen.value.conn].revision == t.seen.value.row.revision
    requires conns == was[t.seen.value.conn := Connection(Choice(t, keep), t.seen.value.row.revision + 1)]
    ensures UpdatedRow(was, conns, t, keep)
  {
  }

  lemma UpdateIntentsExactly(s: State, n: State, t: Task, keep: bool)
    requires t.seen.Some? && t.seen.value.conn in s.conns
    requires s.conns[t.seen.value.conn].secret == t.seen.value.row.secret
    requires n.conns == s.conns[t.seen.value.conn := Connection(Choice(t, keep), t.seen.value.row.revision + 1)]
    requires var left := Drop(s.intents, t.imported); var was := t.seen.value.row.secret;
             n.intents == if Replaces(t, keep) then left[was.value := s.now] else left
    requires n.cleaning == s.cleaning + if Replaces(t, keep) then {t.seen.value.row.secret.value} else {}
    ensures UpdatedIntents(s, n, t.imported, t.seen.value.conn)
  {
  }

  /** The database, and the local variables of the calls in progress. */
  class Connections {
    var now: int
    var intents: map<int, int>
    var conns: map<int, Connection>
    var tasks: map<int, Task>
    var nextSecret: int
    var nextConn: int
    ghost var rest: State

    ghost function Abs(): State reads this {
      rest.(now := now, intents := intents, conns := conns, tasks := tasks,
            nextSecret := nextSecret, nextConn := nextConn)
    }

    /** A save starts with nothing, an update with the row as it is. */
    method Open(k: int, target: Option<int>) returns (ok: bool)
      requires k !in tasks
      modifies this
      ensures Abs() == Step(old(Abs()), Opens(k, target))
      ensures ok <==> target.None? || target.value in conns
      ensures conns == old(conns) && intents == old(intents)
      ensures tasks == if !ok then old(tasks)
                       else old(tasks)[k := Task(if target.None? then None
                                                 else Some(Seen(target.value, conns[target.value])), [], false, false)]
    {
      ok := target.None? || target.value in conns;
      if !ok { return; }
      var seen := if target.None? then None else Some(Seen(target.value, conns[target.value]));
      tasks := tasks[k := Task(seen, [], false, false)];
    }

    /** `importFleetSecret` up to the request to the host: the intent is written first. */
    method Import(k: int) returns (id: Option<int>)
      requires k in tasks
      modifies this
      ensures Abs() == Step(old(Abs()), Imports(k))
      ensures id.Some? <==>
                var t := old(tasks)[k];
                !t.failed && !t.waiting && (if t.seen.Some? then t.imported == [] else |t.imported| <= 1)
      ensures id.None? ==> Abs() == old(Abs())
      ensures id.Some? ==> id.value == old(nextSecret) && nextSecret == old(nextSecret) + 1
      ensures id.Some? ==> intents == old(intents)[id.value := now + LEAD] && conns == old(conns)
      ensures id.Some? ==>
                tasks == old(tasks)[k := old(tasks)[k].(imported := old(tasks)[k].imported + [id.value], waiting := true)]
    {
      var t := tasks[k];
      if t.failed || t.waiting || |t.imported| >= (if t.seen.Some? then 1 else 2) { return None; }
      var secret := nextSecret;
      intents := intents[secret := now + LEAD];
      tasks := tasks[k := t.(imported := t.imported + [secret], waiting := true)];
      nextSecret := nextSecret + 1;
      rest := rest.(deadline := rest.deadline[secret := now + LEAD], flying := rest.flying + {secret});
      id := Some(secret);
    }

    /** The transaction of a new connection. */
    method Create(k: int) returns (conn: int)
      requires k in tasks && tasks[k].seen.None? && !tasks[k].failed && !tasks[k].waiting
      modifies this
      ensures Abs() == Step(old(Abs()), Commits(k, false, false))
      ensures conn == old(nextConn) && nextConn == old(nextConn) + 1
      ensures var made := old(tasks)[k].imported;
              && conns == old(conns)[conn := Connection(if made == [] then None else Some(made[|made| - 1]), 0)]
              && (forall id :: id in intents <==> id in old(intents) && id !in made)
              && (forall id | id in intents :: intents[id] == old(intents)[id])
      ensures tasks == old(tasks) - {k} && Abs().cleaning == old(Abs()).cleaning
    {
      var t := tasks[k];
      conn := nextConn;
      conns := conns[conn := Connection(Choice(t, false), 0)];
      nextConn := nextConn + 1;
      intents := Drop(intents, t.imported);
      tasks := tasks - {k};
    }

    /** The transaction of an update; `lost` when it commits but its answer never arrives. */
    method Update(k: int, keep: bool, lost: bool) returns (ok: bool)
      requires k in tasks && tasks[k].seen.Some? && !tasks[k].failed && !tasks[k].waiting
      modifies this
      ensures Abs() == Step(old(Abs()), Commits(k, keep, lost))
      ensures !ok ==> conns == old(conns) && intents == old(intents) && Abs().cleaning == old(Abs()).cleaning
      ensures old(Inv(Abs())) ==> (ok <==> old(Unchanged(Abs(), tasks[k].seen.value)))
      ensures ok ==> UpdatedRow(old(conns), conns, old(tasks)[k], keep)
      ensures ok && old(Inv(Abs())) ==>
                UpdatedIntents(old(Abs()), Abs(), old(tasks)[k].imported, old(tasks)[k].seen.value.conn)
      ensures tasks == if ok && !lost then old(tasks) - {k}
                       else old(tasks)[k := old(tasks)[k].(failed := true)]
    {
      hide Inv, Step, UpdatedRow, UpdatedIntents;
      ghost var s := Abs();
      StepCommit(s, k, keep, lost);
      var t := tasks[k];
      var seen := t.seen.value;
      if Inv(s) && Unchanged(s, seen) {
        NoClash(s, k, keep);
        SeenIsStored(s, k);
      }
      if seen.conn !in conns || conns[seen.conn].revision != seen.row.revision {
        tasks := tasks[k := t.(failed := true)];
        return false;
      }
      var left := Drop(intents, t.imported);
      if Replaces(t, keep) && seen.row.secret.value in left {
        tasks := tasks[k := t.(failed := true)];
        return false;
      }
      conns := conns[seen.conn := Connection(Choice(t, keep), seen.row.revision + 1)];
      intents := left;
      if Replaces(t, keep) {
        intents := intents[seen.row.secret.value := now];
        rest := rest.(cleaning := rest.cleaning + {seen.row.secret.value});
      }
      tasks := if lost then tasks[k := t.(failed := true)] else tasks - {k};
      UpdateRowExactly(s.conns, conns, t, keep);
      if Inv(s) { UpdateIntentsExactly(s, Abs(), t, keep); }
      ok := true;
    }

    /** The transaction of `removeFleetTarget`: the row goes and its credential gets an intent. */
    method Remove(c: int) returns (secret: Option<int>)
      modifies this
      ensures Abs() == Step(old(Abs()), Removes(c))
      ensures old(Inv(Abs())) ==>
                && conns == old(conns) - {c}
                && secret == (if c in old(conns) then old(conns)[c].secret else None)
                && intents == (if secret.Some? then old(intents)[secret.value := now] else old(intents))
                && Abs().cleaning == old(Abs()).cleaning + (if secret.Some? then {secret.value} else {})
    {
      hide Inv;
      ghost var s := Abs();
      secret := None;
      if c !in conns { return; }
      var row := conns[c];
      if Inv(s) && row.secret.Some? { NamedNotDue(s, c); }
      if row.secret.Some? && row.secret.value in intents { return; }
      conns := conns - {c};
      if row.secret.Some? {
        intents := intents[row.secret.value := now];
        rest := rest.(cleaning := rest.cleaning + {row.secret.value});
        secret := row.secret;
      }
    }

    /** The catch block of an update, over all its imports. */
    method Recover(k: int)
      requires Recoverable(Abs(), k)
      modifies this
      ensures conns == old(conns) && tasks == old(tasks) && intents.Keys == old(intents).Keys
      ensures Abs() == After(old(Abs()), RecoverEvents(old(Abs()), k, tasks[k].imported))
      ensures forall id | id in intents ::
                intents[id] == if id in tasks[k].imported && old(Unclaimed(Abs(), k, id)) then now else old(intents)[id]
      ensures old(Inv(Abs())) ==> Inv(Abs())
    {
      hide After, Step, Inv, RecoverEvents;
      ghost var s := Abs();
      var ids := tasks[k].imported;
      var c := tasks[k].seen.value.conn;
      RecoverNone(s, k);
      assert ids[..0] == [];
      for i := 0 to |ids|
        invariant conns == old(conns) && tasks == old(tasks) && now == old(now) && intents.Keys == old(intents).Keys
        invariant Abs() == After(s, RecoverEvents(s, k, ids[..i]))
        invariant forall id | id in intents ::
                    intents[id] == if id in ids[..i] && Unclaimed(s, k, id) then now else old(intents)[id]
      {
        RecoverStep(s, k, ids, i);
        RecoverOne(Abs(), k, ids[i]);
        ghost var was := Abs();
        assert ids[..i + 1] == ids[..i] + [ids[i]];
        if c in conns && conns[c].secret != Some(ids[i]) && ids[i] in intents {
          intents := intents[ids[i] := now];
          rest := rest.(expedite := rest.expedite + {ids[i]});
        }
        assert Abs() == Recovered(was, k, ids[i]);
      }
      assert ids[..|ids|] == ids;
      if Inv(s) {
        RecoverEventsAre(s, k, ids);
        RecoveryKeeps(s, RecoverEvents(s, k, ids));
      }
    }
  }
}
