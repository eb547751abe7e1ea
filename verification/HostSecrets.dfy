/**
 Computer credentials live on the host, connections in the database. Before a credential is sent to
 the host a cleanup intent is written; saving the connection removes it (apps/api/src/fleet.ts and
 apps/api/src/computer-settings.ts). Every event below is one database transaction or one action of
 the host. A crash is a run in which the remaining events of a call never come.
 */
module HostSecrets {
  import opened Options

  const LEAD := 3600
  const RETRY := 30
  const BATCH := 50

  datatype Connection = Connection(secret: Option<int>, revision: int)

  /** The row an update read before it started. */
  datatype Seen = Seen(conn: int, row: Connection)

  /** A save (`seen` is None) or an update in progress; `failed` once its error path has begun. */
  datatype Task = Task(seen: Option<Seen>, imported: seq<int>, waiting: bool, failed: bool)

  /**
   `flying`: sent to the host and not stored yet. `cleaning`: found unreferenced, so that the host may
   be told to delete it. `gone`: deleted by the host. `expedite`: about to be made due at once.
   */
  datatype State = State(
    now: int, host: set<int>, intents: map<int, int>, conns: map<int, Connection>,
    tasks: map<int, Task>, deadline: map<int, int>, flying: set<int>, listed: set<int>,
    cleaning: set<int>, gone: set<int>, expedite: set<int>, nextSecret: int, nextConn: int)

  datatype Event =
    | Tick(seconds: nat)
    | Opens(k: int, target: Option<int>)
    | Imports(k: int)
    | HostStores(secret: int)
    | Acks(k: int)
    | Commits(k: int, keep: bool, lost: bool)
    | Fails(k: int)
    | Rechecks(k: int, secret: int)
    | Expedites(secret: int)
    | Removes(conn: int)
    | Sweeps(batch: set<int>)
    | Checks(secret: int)
    | HostDeletes(secret: int)
    | Cleaned(secret: int)
    | Postpones(secret: int)

  predicate Referenced(conns: map<int, Connection>, secret: int) {
    exists c | c in conns :: conns[c].secret == Some(secret)
  }

  function Drop(intents: map<int, int>, ids: seq<int>): map<int, int> {
    map s | s in intents && s !in ids :: intents[s]
  }

  /** The secret a save writes: the newest import, or the one it keeps. */
  function Choice(t: Task, keep: bool): Option<int> {
    if t.imported != [] then Some(t.imported[|t.imported| - 1])
    else if t.seen.Some? && keep then t.seen.value.row.secret
    else None
  }

  predicate Replaces(t: Task, keep: bool) {
    t.seen.Some? && t.seen.value.row.secret.Some? && t.seen.value.row.secret != Choice(t, keep)
  }

  predicate Unchanged(s: State, seen: Seen) {
    seen.conn in s.conns && s.conns[seen.conn].revision == seen.row.revision
  }

  function Fail(s: State, k: int, t: Task): State { s.(tasks := s.tasks[k := t.(failed := true)]) }

  function Open(s: State, k: int, conn: Option<int>): State {
    if k in s.tasks then s
    else if conn.None? then s.(tasks := s.tasks[k := Task(None, [], false, false)])
    else if conn.value in s.conns then
      s.(tasks := s.tasks[k := Task(Some(Seen(conn.value, s.conns[conn.value])), [], false, false)])
    else s
  }

  /** The intent is written before the host is asked; a save imports at most twice, an update once. */
  function Import(s: State, k: int, t: Task): State {
    if t.failed || t.waiting || |t.imported| >= (if t.seen.Some? then 1 else 2) then s
    else
      var id := s.nextSecret;
      s.(intents := s.intents[id := s.now + LEAD], deadline := s.deadline[id := s.now + LEAD],
         tasks := s.tasks[k := t.(imported := t.imported + [id], waiting := true)],
         flying := s.flying + {id}, nextSecret := id + 1)
  }

  /** The row is written and the intents of the imported credentials are dropped. */
  function Written(s: State, c: int, row: Connection, imported: seq<int>): State {
    s.(conns := s.conns[c := row], intents := Drop(s.intents, imported))
  }

  function Retired(s: State, was: int): State {
    s.(intents := s.intents[was := s.now], cleaning := s.cleaning + {was})
  }

  function Commit(s: State, k: int, t: Task, keep: bool, lost: bool): State {
    if t.failed || t.waiting then s
    else if t.seen.None? then
      Written(s, s.nextConn, Connection(Choice(t, keep), 0), t.imported)
        .(nextConn := s.nextConn + 1, tasks := s.tasks - {k})
    else
      var seen := t.seen.value;
      if !Unchanged(s, seen) then Fail(s, k, t)
      else
        var w := Written(s, seen.conn, Connection(Choice(t, keep), seen.row.revision + 1), t.imported);
        var tasks := if lost then s.tasks[k := t.(failed := true)] else s.tasks - {k};
        if !Replaces(t, keep) then w.(tasks := tasks)
        else if seen.row.secret.value in w.intents then Fail(s, k, t)
        else Retired(w, seen.row.secret.value).(tasks := tasks)
  }

  function Remove(s: State, c: int): State {
    if c !in s.conns then s
    else
      var row := s.conns[c];
      if row.secret.None? then s.(conns := s.conns - {c})
      else if row.secret.value in s.intents then s
      else Retired(s.(conns := s.conns - {c}), row.secret.value)
  }

  ghost function Step(s: State, e: Event): State {
    match e
    case Tick(seconds) => s.(now := s.now + seconds)
    case Opens(k, conn) => Open(s, k, conn)
    case Imports(k) => if k in s.tasks then Import(s, k, s.tasks[k]) else s
    case HostStores(id) =>
      if id in s.flying then s.(host := s.host + {id}, flying := s.flying - {id}) else s
    case Acks(k) =>
      if k in s.tasks && s.tasks[k].waiting && s.tasks[k].imported != []
         && s.tasks[k].imported[|s.tasks[k].imported| - 1] !in s.flying
      then s.(tasks := s.tasks[k := s.tasks[k].(waiting := false)]) else s
    case Commits(k, keep, lost) => if k in s.tasks then Commit(s, k, s.tasks[k], keep, lost) else s
    case Fails(k) => if k in s.tasks then Fail(s, k, s.tasks[k]) else s
    case Rechecks(k, id) =>
      if k in s.tasks && s.tasks[k].failed && id in s.tasks[k].imported && s.tasks[k].seen.Some?
         && s.tasks[k].seen.value.conn in s.conns
         && s.conns[s.tasks[k].seen.value.conn].secret != Some(id) && id in s.intents
      then s.(expedite := s.expedite + {id}) else s
    case Expedites(id) =>
      if id in s.expedite && id in s.intents then s.(intents := s.intents[id := s.now]) else s
    case Removes(c) => Remove(s, c)
    case Sweeps(batch) =>
      if |batch| <= BATCH && forall id | id in batch :: id in s.intents && s.intents[id] <= s.now
      then s.(listed := s.listed + batch) else s
    case Checks(id) =>
      if id !in s.listed then s
      else if Referenced(s.conns, id) then s.(listed := s.listed - {id}, intents := s.intents - {id})
      else s.(listed := s.listed - {id}, cleaning := s.cleaning + {id})
    case HostDeletes(id) =>
      if id in s.cleaning then s.(host := s.host - {id}, gone := s.gone + {id}) else s
    case Cleaned(id) => if id in s.gone then s.(intents := s.intents - {id}) else s
    case Postpones(id) =>
      if id in s.cleaning && id in s.intents then s.(intents := s.intents[id := s.now + RETRY]) else s
  }

  function Init(): State { State(0, {}, map[], map[], map[], map[], {}, {}, {}, {}, {}, 0, 0) }

  ghost function Run(events: seq<Event>): State {
    if events == [] then Init() else Step(Run(events[..|events| - 1]), events[|events| - 1])
  }

  // ---- What every run keeps ----

  /**
   No credential is left on the host that nothing refers to and nothing will clean up, except one that
   arrived after the host had performed its deletion.
   */
  ghost predicate NoOrphan(s: State) {
    forall id | id in s.host && id !in s.gone :: Referenced(s.conns, id) || id in s.intents
  }

  /** The same without exception. */
  ghost predicate AllOwned(s: State) {
    forall id | id in s.host :: Referenced(s.conns, id) || id in s.intents
  }

  /** The credential of a saved connection is on the host, and nothing will delete it. */
  predicate RefSafe(host: set<int>, intents: map<int, int>, cleaning: set<int>, row: Connection) {
    row.secret.Some? ==> row.secret.value in host && row.secret.value !in intents && row.secret.value !in cleaning
  }

  predicate Live(s: State) {
    forall c | c in s.conns :: RefSafe(s.host, s.intents, s.cleaning, s.conns[c])
  }

  predicate Unshared(conns: map<int, Connection>) {
    forall c, d | c in conns && d in conns && conns[c].secret.Some? && conns[c].secret == conns[d].secret :: c == d
  }

  predicate Bounded(s: State) {
    && (forall id | id in s.host :: id < s.nextSecret)
    && (forall id | id in s.flying :: id < s.nextSecret)
    && (forall id | id in s.cleaning :: id < s.nextSecret)
    && (forall id | id in s.listed :: id < s.nextSecret)
    && (forall id | id in s.expedite :: id < s.nextSecret)
    && (forall id | id in s.intents :: id < s.nextSecret)
    && (forall c | c in s.conns && s.conns[c].secret.Some? :: s.conns[c].secret.value < s.nextSecret)
    && (forall c | c in s.conns :: c < s.nextConn)
  }

  /** A credential on its way to the host is referred to by nothing and keeps its intent. */
  predicate Awaited(s: State, id: int) {
    && id !in s.host
    && (id !in s.gone ==> id in s.intents)
    && (forall c | c in s.conns :: s.conns[c].secret != Some(id))
  }

  predicate Deleted(s: State) { s.gone <= s.cleaning }

  /** What holds of a credential that an unfinished save has imported. */
  predicate Guarded(s: State, id: int) {
    && id < s.nextSecret && id in s.deadline && id !in s.expedite
    && (forall c | c in s.conns :: s.conns[c].secret != Some(id))
    && (id !in s.cleaning ==> id in s.intents && (id in s.flying || id in s.host))
    && (id in s.intents && id !in s.listed && id !in s.cleaning ==> s.intents[id] == s.deadline[id])
    && (id in s.listed || id in s.cleaning ==> s.deadline[id] <= s.now)
  }

  predicate SeenKept(seen: Connection, row: Connection) {
    seen.revision <= row.revision && (seen.revision == row.revision ==> seen.secret == row.secret)
  }

  predicate TaskKept(s: State, t: Task) {
    && |t.imported| <= (if t.seen.Some? then 1 else 2)
    && (forall id | id in t.imported :: id < s.nextSecret)
    && (t.waiting ==> t.imported != [])
    && (!t.failed ==> forall id | id in t.imported :: Guarded(s, id))
    && (!t.failed ==> forall i | 0 <= i < |t.imported| :: (t.waiting && i == |t.imported| - 1) || t.imported[i] !in s.flying)
    && (t.seen.Some? ==> t.seen.value.conn < s.nextConn)
    && (t.seen.Some? && t.seen.value.conn in s.conns ==>
          SeenKept(t.seen.value.row, s.conns[t.seen.value.conn]))
  }

  predicate Apart(tasks: map<int, Task>) {
    forall j, k, id | j in tasks && k in tasks && id in tasks[j].imported && id in tasks[k].imported :: j == k
  }

  /** The host and the database. */
  predicate Stores(s: State) {
    && Live(s) && Unshared(s.conns) && Bounded(s) && Deleted(s)
    && (forall id | id in s.flying :: Awaited(s, id))
  }

  /** The saves in progress. */
  predicate Chores(s: State) {
    Apart(s.tasks) && forall k | k in s.tasks :: TaskKept(s, s.tasks[k])
  }

  ghost predicate Inv(s: State) { NoOrphan(s) && Stores(s) && Chores(s) }

  /**
   A save commits before the cleanup of the credential it names begins, and leaves no other import
   of its own on the host.
   */
  predicate Settles(s: State, t: Task) {
    forall id | id in t.imported ::
      if id == t.imported[|t.imported| - 1] then id !in s.cleaning else id !in s.host || id in s.gone
  }

  /** What the design relies on. */
  predicate Timely(s: State, e: Event) {
    match e
    case Commits(k, _, _) => k in s.tasks ==> Settles(s, s.tasks[k])
    case _ => true
  }

  // ---- Saves in progress are not disturbed ----

  /** Rows only move to higher revisions, and new rows get new ids. */
  predicate Evolves(a: map<int, Connection>, b: map<int, Connection>, next: int) {
    forall c | c in b :: if c in a then b[c] == a[c] || a[c].revision < b[c].revision else next <= c
  }

  predicate Active(tasks: map<int, Task>, id: int) {
    exists k | k in tasks :: !tasks[k].failed && id in tasks[k].imported
  }

  lemma TaskStays(s: State, n: State, t: Task)
    requires TaskKept(s, t)
    requires s.nextSecret <= n.nextSecret && s.nextConn <= n.nextConn && n.flying <= s.flying
    requires Evolves(s.conns, n.conns, s.nextConn)
    requires !t.failed ==> forall id | id in t.imported :: Guarded(n, id)
    ensures TaskKept(n, t)
  {
    hide Guarded;
  }

  lemma TasksStay(s: State, n: State)
    requires Chores(s) && Apart(n.tasks)
    requires forall k | k in n.tasks ::
               k in s.tasks && (n.tasks[k] == s.tasks[k] || n.tasks[k] == s.tasks[k].(failed := true))
    requires s.nextSecret <= n.nextSecret && s.nextConn <= n.nextConn && n.flying <= s.flying
    requires Evolves(s.conns, n.conns, s.nextConn)
    requires forall id | Active(n.tasks, id) && Guarded(s, id) :: Guarded(n, id)
    ensures Chores(n)
  {
    hide Guarded, Evolves;
    forall k | k in n.tasks ensures TaskKept(n, n.tasks[k]) {
      assert TaskKept(s, s.tasks[k]);
      assert TaskKept(s, n.tasks[k]);
      if !n.tasks[k].failed {
        assert forall id | id in n.tasks[k].imported :: Active(n.tasks, id);
      }
      TaskStays(s, n, n.tasks[k]);
    }
  }

  // ---- Each event ----

  ghost predicate Owned(s: State, id: int) { Referenced(s.conns, id) || id in s.intents }

  lemma RowRefers(conns: map<int, Connection>, c: int)
    requires c in conns && conns[c].secret.Some?
    ensures Referenced(conns, conns[c].secret.value)
  {
  }

  /** Changing one row loses at most the reference it held. */
  lemma OtherReferences(a: map<int, Connection>, b: map<int, Connection>, c: int, id: int)
    requires forall d | d in a && d != c :: d in b && b[d] == a[d]
    requires Referenced(a, id) && (c in a ==> a[c].secret != Some(id))
    ensures Referenced(b, id)
  {
    var d :| d in a && a[d].secret == Some(id);
    assert d in b && b[d].secret == Some(id);
  }

  lemma RemoveStores(s: State, c: int)
    requires Stores(s)
    ensures Stores(Remove(s, c))
  {
  }

  lemma RemoveOwned(s: State, c: int)
    requires NoOrphan(s)
    ensures NoOrphan(Remove(s, c))
  {
    hide Referenced;
    var n := Remove(s, c);
    if n != s {
      forall id | id in n.host && id !in n.gone ensures Owned(n, id) {
        if s.conns[c].secret != Some(id) && id !in s.intents {
          OtherReferences(s.conns, n.conns, c, id);
        }
      }
    }
  }

  lemma RemoveChores(s: State, c: int)
    requires Inv(s)
    ensures Chores(Remove(s, c))
  {
    hide Chores, NoOrphan, Stores, Guarded;
    var n := Remove(s, c);
    forall id | Active(n.tasks, id) && Guarded(s, id) ensures Guarded(n, id) { RemoveGuarded(s, c, id); }
    ApartOf(s);
    TasksStay(s, n);
  }

  lemma RemoveGuarded(s: State, c: int, id: int)
    requires Guarded(s, id)
    ensures Guarded(Remove(s, c), id)
  {
  }

  lemma ApartOf(s: State)
    requires Chores(s)
    ensures Apart(s.tasks)
  {
  }

  lemma SweepStores(s: State, e: Event)
    requires Stores(s) && (e.Sweeps? || e.Cleaned? || e.Postpones?)
    ensures Stores(Step(s, e))
  {
    hide Referenced, Unshared;
  }

  lemma CheckStores(s: State, id: int)
    requires Stores(s)
    ensures Stores(Step(s, Checks(id)))
  {
    hide Referenced, Unshared;
    NotReferenced(s.conns, id);
  }

  lemma NotReferenced(conns: map<int, Connection>, id: int)
    ensures Referenced(conns, id) <==> !forall c | c in conns :: conns[c].secret != Some(id)
  {
  }

  lemma DeleteStores(s: State, id: int)
    requires Stores(s)
    ensures Stores(Step(s, HostDeletes(id)))
  {
  }

  lemma CleanupOwned(s: State, e: Event)
    requires NoOrphan(s) && Deleted(s)
    requires e.Sweeps? || e.Checks? || e.HostDeletes? || e.Cleaned? || e.Postpones?
    ensures NoOrphan(Step(s, e))
  {
    hide Referenced;
  }

  lemma CleanupChores(s: State, e: Event)
    requires Stores(s) && Chores(s) && (e.Sweeps? || e.Checks? || e.HostDeletes? || e.Cleaned? || e.Postpones?)
    ensures Chores(Step(s, e))
  {
    hide Chores, Stores, Guarded, Evolves, Step;
    var n := Step(s, e);
    CleanupFrame(s, e);
    forall id | Active(n.tasks, id) && Guarded(s, id) ensures Guarded(n, id) {
      CleanupGuarded(s, e, id);
    }
    ApartOf(s);
    EvolvesSelf(s.conns, s.nextConn);
    TasksStay(s, n);
  }

  lemma CleanupFrame(s: State, e: Event)
    requires e.Sweeps? || e.Checks? || e.HostDeletes? || e.Cleaned? || e.Postpones?
    ensures var n := Step(s, e);
            n == s.(listed := n.listed, intents := n.intents, cleaning := n.cleaning, host := n.host, gone := n.gone)
  {
    hide Referenced;
  }

  lemma CleanupGuarded(s: State, e: Event, id: int)
    requires Stores(s) && Guarded(s, id) && (e.Sweeps? || e.Checks? || e.HostDeletes? || e.Cleaned? || e.Postpones?)
    ensures Guarded(Step(s, e), id)
  {
    hide Live, Unshared, Bounded, Awaited;
  }

  lemma TaskEventStores(s: State, e: Event)
    requires Stores(s) && (e.Tick? || e.Opens? || e.Acks? || e.Fails? || e.Rechecks? || e.Expedites?)
    ensures Stores(Step(s, e))
  {
    hide Referenced, Unshared;
  }

  lemma HostStoresStores(s: State, id: int)
    requires Stores(s) && Timely(s, HostStores(id))
    ensures Stores(Step(s, HostStores(id)))
  {
  }

  lemma TaskEventOwned(s: State, e: Event)
    requires NoOrphan(s) && Stores(s) && Timely(s, e)
    requires e.Tick? || e.Opens? || e.HostStores? || e.Acks? || e.Fails? || e.Rechecks? || e.Expedites?
    ensures NoOrphan(Step(s, e))
  {
    hide Referenced, Live, Unshared, Bounded;
  }

  lemma QuietChores(s: State, e: Event)
    requires Stores(s) && Chores(s) && (e.Tick? || e.HostStores? || e.Fails? || e.Rechecks? || e.Expedites?)
    ensures Chores(Step(s, e))
  {
    hide Stores, Referenced, Evolves, Guarded, Chores, TaskKept;
    var n := Step(s, e);
    forall id | Active(n.tasks, id) && Guarded(s, id) ensures Guarded(n, id) {
      QuietGuarded(s, e, id);
    }
    EvolvesSelf(s.conns, s.nextConn);
    ApartOf(s);
    TasksStay(s, n);
  }

  lemma QuietGuarded(s: State, e: Event, id: int)
    requires Chores(s) && (e.Tick? || e.HostStores? || e.Fails? || e.Rechecks? || e.Expedites?)
    requires Guarded(s, id) && Active(Step(s, e).tasks, id)
    ensures Guarded(Step(s, e), id)
  {
    hide TaskKept;
    if e.Rechecks? && id == e.secret {
      var k :| k in s.tasks && !s.tasks[k].failed && id in s.tasks[k].imported;
      assert Step(s, e) == s;
    }
  }

  lemma EvolvesSelf(conns: map<int, Connection>, next: int)
    ensures Evolves(conns, conns, next)
  {
  }

  lemma OpenChores(s: State, k: int, conn: Option<int>)
    requires Stores(s) && Chores(s)
    ensures Chores(Open(s, k, conn))
  {
    hide Guarded;
    var n := Open(s, k, conn);
    forall j | j in n.tasks ensures TaskKept(n, n.tasks[j]) {
      if j in s.tasks {
        EvolvesSelf(s.conns, s.nextConn);
        SameGuards(s, n);
        TaskStays(s, n, s.tasks[j]);
      }
    }
  }

  /** `Guarded` does not depend on the tasks. */
  lemma SameGuards(s: State, n: State)
    requires n == s.(tasks := n.tasks)
    ensures forall id :: Guarded(s, id) ==> Guarded(n, id)
  {
  }

  lemma AckChores(s: State, k: int)
    requires Chores(s)
    ensures Chores(Step(s, Acks(k)))
  {
    hide Guarded;
    var n := Step(s, Acks(k));
    if n != s {
      SameGuards(s, n);
      forall j | j in n.tasks ensures TaskKept(n, n.tasks[j]) {
        EvolvesSelf(s.conns, s.nextConn);
        TaskStays(s, n, s.tasks[j]);
      }
    }
  }

  lemma ImportStores(s: State, k: int, t: Task)
    requires Stores(s)
    ensures Stores(Import(s, k, t))
  {
    hide Unshared, Deleted;
    assert s.nextSecret !in s.gone by { GoneBounded(s); }
    DeletedAfterImport(s, k, t);
  }

  lemma GoneBounded(s: State)
    requires Deleted(s) && Bounded(s)
    ensures s.nextSecret !in s.gone
  {
  }

  lemma DeletedAfterImport(s: State, k: int, t: Task)
    requires Deleted(s)
    ensures Deleted(Import(s, k, t))
  {
  }

  lemma ImportOwned(s: State, k: int, t: Task)
    requires NoOrphan(s)
    ensures NoOrphan(Import(s, k, t))
  {
    hide Referenced;
  }

  lemma ImportGuarded(s: State, k: int, t: Task, id: int)
    requires Bounded(s) && Guarded(s, id)
    ensures Guarded(Import(s, k, t), id)
  {
  }

  lemma ImportChores(s: State, k: int)
    requires Stores(s) && Chores(s) && k in s.tasks
    ensures Chores(Import(s, k, s.tasks[k]))
  {
    hide Guarded, Stores;
    var n := Import(s, k, s.tasks[k]);
    if n != s {
      var id := s.nextSecret;
      assert n.tasks[k].imported == s.tasks[k].imported + [id];
      assert Guarded(n, id) by { NewGuarded(s, k, s.tasks[k]); }
      forall i | Guarded(s, i) ensures Guarded(n, i) {
        BoundedOf(s);
        ImportGuarded(s, k, s.tasks[k], i);
      }
      forall j | j in n.tasks ensures TaskKept(n, n.tasks[j]) {
        var t := s.tasks[j];
        assert TaskKept(s, t);
        forall i | 0 <= i < |t.imported| ensures t.imported[i] != id { assert t.imported[i] in t.imported; }
        if j == k {
          assert forall i | i in n.tasks[k].imported :: i in t.imported || i == id;
        }
      }
    }
  }

  lemma BoundedOf(s: State)
    requires Stores(s)
    ensures Bounded(s)
  {
  }

  lemma NewGuarded(s: State, k: int, t: Task)
    requires Stores(s) && Import(s, k, t) != s
    ensures Guarded(Import(s, k, t), s.nextSecret)
  {
  }

  // ---- Committing a save ----

  predicate Unnamed(conns: map<int, Connection>, id: int) {
    forall c | c in conns :: conns[c].secret != Some(id)
  }

  predicate Ready(s: State, imported: seq<int>, choice: Option<int>) {
    forall id | id in imported ::
      && id !in s.flying && id < s.nextSecret && Unnamed(s.conns, id)
      && (choice == Some(id) ==> id in s.host && id !in s.cleaning)
  }

  /** The new row names an import or what it named before. */
  predicate Names(conns: map<int, Connection>, c: int, row: Connection, imported: seq<int>) {
    row.secret.Some? ==> row.secret.value in imported || (c in conns && conns[c].secret == row.secret)
  }

  lemma WriteStores(s: State, c: int, row: Connection, imported: seq<int>)
    requires Stores(s) && Ready(s, imported, row.secret) && Names(s.conns, c, row, imported) && c < s.nextConn
    ensures Stores(Written(s, c, row, imported))
  {
    hide Referenced;
    var n := Written(s, c, row, imported);
    forall d | d in n.conns ensures RefSafe(n.host, n.intents, n.cleaning, n.conns[d]) {
      WriteSafe(s, c, row, imported, d);
    }
    forall id | id in n.flying ensures Awaited(n, id) { WriteAwaited(s, c, row, imported, id); }
  }

  lemma WriteSafe(s: State, c: int, row: Connection, imported: seq<int>, d: int)
    requires Live(s) && Ready(s, imported, row.secret) && Names(s.conns, c, row, imported) && (d == c || d in s.conns)
    ensures var n := Written(s, c, row, imported);
            RefSafe(s.host, n.intents, s.cleaning, if d == c then row else s.conns[d])
  {
    var n := Written(s, c, row, imported);
    assert d in s.conns ==> RefSafe(s.host, s.intents, s.cleaning, s.conns[d]);
    assert forall id | id in n.intents :: id in s.intents && id !in imported;
    if row.secret.Some? && row.secret.value in imported {
      var id := row.secret.value;
      assert id in s.host && id !in s.cleaning;
    }
  }

  lemma WriteAwaited(s: State, c: int, row: Connection, imported: seq<int>, id: int)
    requires Awaited(s, id) && id !in imported && Names(s.conns, c, row, imported)
    ensures Awaited(Written(s, c, row, imported), id)
  {
    var n := Written(s, c, row, imported);
    forall d | d in n.conns ensures n.conns[d].secret != Some(id) {
      assert d in s.conns ==> s.conns[d].secret != Some(id);
    }
  }

  lemma RetireStores(s: State, was: int)
    requires Stores(s) && was in s.host && Unnamed(s.conns, was)
    ensures Stores(Retired(s, was))
  {
    var n := Retired(s, was);
    forall id | id in n.flying ensures Awaited(n, id) { assert Awaited(s, id); }
  }

  lemma MoreRows(s: State)
    requires Stores(s)
    ensures Stores(s.(nextConn := s.nextConn + 1))
  {
    hide Unshared;
    forall id | id in s.flying ensures Awaited(s.(nextConn := s.nextConn + 1), id) {}
  }

  lemma StoresAnyTasks(s: State, tasks: map<int, Task>)
    requires Stores(s)
    ensures Stores(s.(tasks := tasks))
  {
    hide Unshared;
    forall id | id in s.flying ensures Awaited(s.(tasks := tasks), id) {}
  }

  lemma TaskReady(s: State, t: Task, keep: bool)
    requires TaskKept(s, t) && !t.failed && !t.waiting && Settles(s, t)
    ensures Ready(s, t.imported, Choice(t, keep))
  {
  }

  lemma UnnamedAfter(s: State, seen: Seen, row: Connection, imported: seq<int>)
    requires Stores(s) && Ready(s, imported, row.secret) && seen.conn in s.conns && s.conns[seen.conn].secret.Some?
    requires row.secret.Some? ==> row.secret.value in imported
    ensures var was := s.conns[seen.conn].secret.value;
            was in s.host && Unnamed(Written(s, seen.conn, row, imported).conns, was)
            && was !in Written(s, seen.conn, row, imported).intents
  {
    assert RefSafe(s.host, s.intents, s.cleaning, s.conns[seen.conn]);
  }

  lemma CommitStores(s: State, k: int, keep: bool, lost: bool)
    requires Stores(s) && Chores(s) && k in s.tasks && Timely(s, Commits(k, keep, lost))
    ensures Stores(Commit(s, k, s.tasks[k], keep, lost))
  {
    hide Stores, Chores, Written, Retired, Ready, Unnamed, TaskKept, Choice, Replaces;
    var t := s.tasks[k];
    TaskOf(s, k);
    if t.failed || t.waiting {
    } else if t.seen.None? {
      TaskReady(s, t, keep);
      NewStores(s, k, t, keep);
    } else if !Unchanged(s, t.seen.value) {
      StoresAnyTasks(s, s.tasks[k := t.(failed := true)]);
    } else {
      TaskReady(s, t, keep);
      EditStores(s, k, t, keep, lost);
    }
  }

  lemma NewStores(s: State, k: int, t: Task, keep: bool)
    requires Stores(s) && Ready(s, t.imported, Choice(t, keep)) && t.seen.None? && !t.failed && !t.waiting
    ensures Stores(Commit(s, k, t, keep, true)) && Stores(Commit(s, k, t, keep, false))
  {
    hide Stores, Ready;
    var more := s.(nextConn := s.nextConn + 1);
    MoreRows(s);
    ReadyAnyRow(s, t.imported, Choice(t, keep));
    WriteStores(more, s.nextConn, Connection(Choice(t, keep), 0), t.imported);
    StoresAnyTasks(Written(more, s.nextConn, Connection(Choice(t, keep), 0), t.imported), s.tasks - {k});
  }

  lemma EditStores(s: State, k: int, t: Task, keep: bool, lost: bool)
    requires Stores(s) && Ready(s, t.imported, Choice(t, keep)) && t.seen.Some? && !t.failed && !t.waiting
    requires TaskKept(s, t) && Unchanged(s, t.seen.value)
    ensures Stores(Commit(s, k, t, keep, lost))
  {
    hide Stores, Ready, Written, Retired, Unnamed;
    var seen := t.seen.value;
    var row := Connection(Choice(t, keep), seen.row.revision + 1);
    var w := Written(s, seen.conn, row, t.imported);
    var tasks := if lost then s.tasks[k := t.(failed := true)] else s.tasks - {k};
    WriteStores(s, seen.conn, row, t.imported);
    WrittenKeeps(s, seen.conn, row, t.imported);
    if Replaces(t, keep) {
      UnnamedAfter(s, seen, row, t.imported);
      RetireStores(w, seen.row.secret.value);
      StoresAnyTasks(Retired(w, seen.row.secret.value), tasks);
    } else {
      StoresAnyTasks(w, tasks);
    }
  }

  lemma WrittenKeeps(s: State, c: int, row: Connection, imported: seq<int>)
    ensures Written(s, c, row, imported).host == s.host
  {
  }

  lemma TaskOf(s: State, k: int)
    requires Chores(s) && k in s.tasks
    ensures TaskKept(s, s.tasks[k])
  {
  }

  lemma ReadyAnyRow(s: State, imported: seq<int>, choice: Option<int>)
    requires Ready(s, imported, choice)
    ensures Ready(s.(nextConn := s.nextConn + 1), imported, choice)
  {
  }

  /** Every credential keeps an owner except the one the row named before. */
  lemma WriteOwned(s: State, c: int, row: Connection, imported: seq<int>, id: int)
    requires Owned(s, id) && (id in imported ==> row.secret == Some(id))
    requires c in s.conns && s.conns[c].secret == Some(id) ==> row.secret == Some(id)
    ensures Owned(Written(s, c, row, imported), id)
  {
    hide Referenced;
    var n := Written(s, c, row, imported);
    if row.secret == Some(id) {
      RowRefers(n.conns, c);
    } else if id !in s.intents {
      OtherReferences(s.conns, n.conns, c, id);
    }
  }

  lemma CommitOwned(s: State, k: int, keep: bool, lost: bool)
    requires NoOrphan(s) && Stores(s) && Chores(s) && k in s.tasks && Timely(s, Commits(k, keep, lost))
    ensures NoOrphan(Commit(s, k, s.tasks[k], keep, lost))
  {
    hide Referenced, Stores, Chores;
    var t := s.tasks[k];
    var n := Commit(s, k, t, keep, lost);
    TaskOf(s, k);
    forall id | id in n.host && id !in n.gone ensures Owned(n, id) {
      if !t.failed && !t.waiting {
        if t.seen.None? {
          RowIdsBounded(s);
          WriteOwned(s, s.nextConn, Connection(Choice(t, keep), 0), t.imported, id);
        } else if Unchanged(s, t.seen.value) && t.seen.value.row.secret != Some(id) {
          WriteOwned(s, t.seen.value.conn, Connection(Choice(t, keep), t.seen.value.row.revision + 1), t.imported, id);
        } else if Unchanged(s, t.seen.value) && !Replaces(t, keep) {
          RowRefers(n.conns, t.seen.value.conn);
        }
      }
    }
  }

  lemma RowIdsBounded(s: State)
    requires Stores(s)
    ensures s.nextConn !in s.conns
  {
  }

  lemma WriteGuarded(s: State, c: int, row: Connection, imported: seq<int>, id: int)
    requires Guarded(s, id) && id !in imported && Names(s.conns, c, row, imported)
    ensures Guarded(Written(s, c, row, imported), id)
  {
    var n := Written(s, c, row, imported);
    forall d | d in n.conns ensures n.conns[d].secret != Some(id) {
      assert d in s.conns ==> s.conns[d].secret != Some(id);
    }
  }

  lemma RetireGuarded(s: State, was: int, id: int)
    requires Guarded(s, id) && id != was
    ensures Guarded(Retired(s, was), id)
  {
  }

  lemma OtherTask(s: State, n: State, k: int, t: Task, id: int)
    requires Chores(s) && k in s.tasks && s.tasks[k] == t && !t.failed && Active(n.tasks, id)
    requires n.tasks == s.tasks - {k} || n.tasks == s.tasks[k := t.(failed := true)]
    ensures id !in t.imported && Apart(n.tasks)
  {
  }

  lemma CommitGuarded(s: State, k: int, t: Task, keep: bool, lost: bool, id: int)
    requires Chores(s) && k in s.tasks && s.tasks[k] == t
    requires Guarded(s, id) && Active(Commit(s, k, t, keep, lost).tasks, id)
    ensures Guarded(Commit(s, k, t, keep, lost), id)
  {
    hide Guarded, Chores, TaskKept, Active, Choice, Replaces;
    var n := Commit(s, k, t, keep, lost);
    if !t.failed && !t.waiting {
      OtherTask(s, n, k, t, id);
      if t.seen.None? {
        ChoiceOf(s, t, keep, s.nextConn);
        WriteGuarded(s, s.nextConn, Connection(Choice(t, keep), 0), t.imported, id);
        GuardedAnyRow(Written(s, s.nextConn, Connection(Choice(t, keep), 0), t.imported), n, id);
      } else if Unchanged(s, t.seen.value) {
        SeenSecret(s, k);
        EditGuarded(s, k, t, keep, lost, id);
      } else {
        GuardedAnyRow(s, n, id);
      }
    }
  }

  lemma ChoiceOf(s: State, t: Task, keep: bool, c: int)
    requires t.seen.Some? ==> c in s.conns && s.conns[c].secret == t.seen.value.row.secret
    ensures forall r :: Names(s.conns, c, Connection(Choice(t, keep), r), t.imported)
  {
  }

  lemma EditGuarded(s: State, k: int, t: Task, keep: bool, lost: bool, id: int)
    requires t.seen.Some? && Unchanged(s, t.seen.value) && !t.failed && !t.waiting
    requires s.conns[t.seen.value.conn].secret == t.seen.value.row.secret
    requires Guarded(s, id) && id !in t.imported
    ensures Guarded(Commit(s, k, t, keep, lost), id)
  {
    hide Guarded, Choice, Written, Retired, Names;
    var n := Commit(s, k, t, keep, lost);
    var seen := t.seen.value;
    var row := Connection(Choice(t, keep), seen.row.revision + 1);
    var w := Written(s, seen.conn, row, t.imported);
    ChoiceOf(s, t, keep, seen.conn);
    WriteGuarded(s, seen.conn, row, t.imported, id);
    if !Replaces(t, keep) {
      GuardedAnyRow(w, n, id);
    } else if seen.row.secret.value in w.intents {
      GuardedAnyRow(s, n, id);
    } else {
      NotNamed(s, seen.conn, id);
      RetireGuarded(w, seen.row.secret.value, id);
      GuardedAnyRow(Retired(w, seen.row.secret.value), n, id);
    }
  }

  lemma SeenSecret(s: State, k: int)
    requires Chores(s) && k in s.tasks && s.tasks[k].seen.Some? && Unchanged(s, s.tasks[k].seen.value)
    ensures s.conns[s.tasks[k].seen.value.conn].secret == s.tasks[k].seen.value.row.secret
  {
    assert TaskKept(s, s.tasks[k]);
  }

  lemma NotNamed(s: State, c: int, id: int)
    requires Guarded(s, id) && c in s.conns
    ensures s.conns[c].secret != Some(id)
  {
  }

  lemma GuardedAnyRow(s: State, n: State, id: int)
    requires Guarded(s, id) && n == s.(nextConn := n.nextConn, tasks := n.tasks)
    ensures Guarded(n, id)
  {
  }

  lemma CommitChores(s: State, k: int, keep: bool, lost: bool)
    requires Stores(s) && Chores(s) && k in s.tasks
    ensures Chores(Commit(s, k, s.tasks[k], keep, lost))
  {
    hide Stores, Chores, Guarded, TaskKept, Choice, Replaces, Commit;
    var t := s.tasks[k];
    var n := Commit(s, k, t, keep, lost);
    CommitFrame(s, k, t, keep, lost);
    ApartOf(s);
    RowIdsBounded(s);
    forall id | Active(n.tasks, id) && Guarded(s, id) ensures Guarded(n, id) {
      CommitGuarded(s, k, t, keep, lost, id);
    }
    TasksStay(s, n);
  }

  lemma CommitFrame(s: State, k: int, t: Task, keep: bool, lost: bool)
    requires Stores(s)
    ensures var n := Commit(s, k, t, keep, lost);
            && n.nextSecret == s.nextSecret && n.nextConn >= s.nextConn && n.flying == s.flying
            && (n.tasks == s.tasks || n.tasks == s.tasks - {k} || n.tasks == s.tasks[k := t.(failed := true)])
            && Evolves(s.conns, n.conns, s.nextConn)
  {
    hide Stores, Choice, Replaces, Evolves, Drop;
    EvolvesSelf(s.conns, s.nextConn);
    RowIdsBounded(s);
    EvolvesRow(s.conns, s.nextConn, Connection(Choice(t, keep), 0), s.nextConn);
    if t.seen.Some? && Unchanged(s, t.seen.value) {
      EvolvesRow(s.conns, t.seen.value.conn, Connection(Choice(t, keep), t.seen.value.row.revision + 1), s.nextConn);
    }
  }

  lemma EvolvesRow(conns: map<int, Connection>, c: int, row: Connection, next: int)
    requires if c in conns then conns[c].revision < row.revision else c == next
    ensures Evolves(conns, conns[c := row], next)
  {
  }

  // ---- Whole runs ----

  lemma StepKeeps(s: State, e: Event)
    requires Inv(s) && Timely(s, e)
    ensures Inv(Step(s, e))
  {
    hide NoOrphan, Stores, Chores, Commit, Import, Remove, Open, Timely;
    match e
    case Imports(k) =>
      if k in s.tasks {
        ImportStores(s, k, s.tasks[k]);
        ImportOwned(s, k, s.tasks[k]);
        ImportChores(s, k);
      }
    case Commits(k, keep, lost) =>
      if k in s.tasks {
        CommitStores(s, k, keep, lost);
        CommitOwned(s, k, keep, lost);
        CommitChores(s, k, keep, lost);
      }
    case Removes(c) =>
      RemoveStores(s, c);
      RemoveOwned(s, c);
      RemoveChores(s, c);
    case Opens(k, target) =>
      TaskEventStores(s, e);
      TaskEventOwned(s, e);
      OpenChores(s, k, target);
    case Acks(k) =>
      TaskEventStores(s, e);
      TaskEventOwned(s, e);
      AckChores(s, k);
    case HostStores(id) =>
      HostStoresStores(s, id);
      TaskEventOwned(s, e);
      QuietChores(s, e);
    case _ => OtherStepKeeps(s, e);
  }

  lemma OtherStepKeeps(s: State, e: Event)
    requires Inv(s)
    requires e.Tick? || e.Fails? || e.Rechecks? || e.Expedites?
             || e.Sweeps? || e.Checks? || e.HostDeletes? || e.Cleaned? || e.Postpones?
    ensures Inv(Step(s, e))
  {
    hide NoOrphan, Stores, Chores, Step, Deleted;
    if e.Tick? || e.Fails? || e.Rechecks? || e.Expedites? {
      TaskEventStores(s, e);
      TaskEventOwned(s, e);
      QuietChores(s, e);
    } else {
      DeletedOf(s);
      CleanupOwned(s, e);
      CleanupChores(s, e);
      if e.HostDeletes? { DeleteStores(s, e.secret); }
      else if e.Checks? { CheckStores(s, e.secret); }
      else { SweepStores(s, e); }
    }
  }

  lemma DeletedOf(s: State)
    requires Stores(s)
    ensures Deleted(s)
  {
  }

  ghost predicate TimelyRun(events: seq<Event>) {
    forall i | 0 <= i < |events| :: Timely(Run(events[..i]), events[i])
  }

  /**
   At every point of every timely run, whatever call was cut short where: each credential on the host
   is named by a saved connection, has a cleanup intent, or arrived after the host had deleted it; and
   one that is named is on the host.
   */
  lemma {:induction false} SecretsAccountedFor(events: seq<Event>)
    requires TimelyRun(events)
    ensures Inv(Run(events))
  {
    hide Inv, Timely, Step;
    if events == [] {
      InitInv();
    } else {
      var last := |events| - 1;
      var fore := events[..last];
      assert forall i | 0 <= i < last :: fore[..i] == events[..i] && fore[i] == events[i];
      SecretsAccountedFor(fore);
      StepKeeps(Run(fore), events[last]);
    }
  }

  lemma InitInv()
    ensures Inv(Init())
  {
  }

  predicate WithinLead(s: State, e: Event) {
    match e
    case Commits(k, _, _) =>
      k in s.tasks ==>
        && |s.tasks[k].imported| <= 1
        && forall id | id in s.tasks[k].imported :: id in s.deadline && s.now < s.deadline[id]
    case _ => true
  }

  ghost predicate WithinLeadRun(events: seq<Event>) {
    forall i | 0 <= i < |events| :: WithinLead(Run(events[..i]), events[i])
  }

  /** Before the hour is over no cleanup of an unfinished save's credential has begun. */
  lemma LeadIsTimely(s: State, e: Event)
    requires Inv(s) && WithinLead(s, e)
    ensures Inv(Step(s, e))
  {
    hide NoOrphan, Stores, Chores, Step;
    if e.Commits? && e.k in s.tasks {
      if s.tasks[e.k].failed {
        FailedCommit(s, e.k, e.keep, e.lost);
      } else {
        NotCleaning(s, e.k);
        StepKeeps(s, e);
      }
    } else {
      StepKeeps(s, e);
    }
  }

  lemma FailedCommit(s: State, k: int, keep: bool, lost: bool)
    requires k in s.tasks && s.tasks[k].failed
    ensures Step(s, Commits(k, keep, lost)) == s
  {
  }

  lemma NotCleaning(s: State, k: int)
    requires Chores(s) && k in s.tasks && !s.tasks[k].failed
    requires forall id | id in s.tasks[k].imported :: id in s.deadline && s.now < s.deadline[id]
    ensures |s.tasks[k].imported| <= 1 ==> Settles(s, s.tasks[k])
  {
    assert TaskKept(s, s.tasks[k]);
  }

  /** The same for every run whose saves import once and commit within the hour. */
  lemma {:induction false} SavedWithinLead(events: seq<Event>)
    requires WithinLeadRun(events)
    ensures Inv(Run(events))
  {
    hide Inv, WithinLead, Step;
    if events == [] {
      InitInv();
    } else {
      var last := |events| - 1;
      var fore := events[..last];
      assert forall i | 0 <= i < last :: fore[..i] == events[..i] && fore[i] == events[i];
      SavedWithinLead(fore);
      LeadIsTimely(Run(fore), events[last]);
    }
  }

  /** The host stores no credential after it has performed its deletion. */
  ghost predicate PromptRun(events: seq<Event>) {
    forall i | 0 <= i < |events| && events[i].HostStores? :: events[i].secret !in Run(events[..i]).gone
  }

  predicate Prompt(s: State) { forall id | id in s.gone :: id !in s.host }

  lemma StepPrompt(s: State, e: Event)
    requires Prompt(s) && (e.HostStores? ==> e.secret !in s.gone)
    ensures Prompt(Step(s, e))
  {
    hide Referenced;
    if e.Commits? && e.k in s.tasks { CommitHost(s, e.k, s.tasks[e.k], e.keep, e.lost); }
  }

  lemma CommitHost(s: State, k: int, t: Task, keep: bool, lost: bool)
    ensures Commit(s, k, t, keep, lost).host == s.host && Commit(s, k, t, keep, lost).gone == s.gone
  {
  }

  lemma {:induction false} RunPrompt(events: seq<Event>)
    requires PromptRun(events)
    ensures Prompt(Run(events))
  {
    hide Step, Prompt;
    if events == [] {
      InitPrompt();
    } else {
      var last := |events| - 1;
      var fore := events[..last];
      assert forall i | 0 <= i < last :: fore[..i] == events[..i] && fore[i] == events[i];
      RunPrompt(fore);
      StepPrompt(Run(fore), events[last]);
    }
  }

  lemma InitPrompt()
    ensures Prompt(Init())
  {
  }

  /** With a host that never stores after deleting, every credential on the host is named or has an intent. */
  lemma PromptlyOwned(events: seq<Event>)
    requires WithinLeadRun(events) && PromptRun(events)
    ensures AllOwned(Run(events))
  {
    hide Run, Stores, Chores, Referenced;
    SavedWithinLead(events);
    RunPrompt(events);
  }

  // ---- Exactly when the two assumptions are needed ----

  /** A credential that arrives becomes an orphan exactly when the host has already performed its deletion. */
  lemma StoreExact(s: State, id: int)
    requires Inv(s) && AllOwned(s) && id in s.flying
    ensures AllOwned(Step(Step(s, HostStores(id)), Cleaned(id))) <==> id !in s.gone
  {
    hide Chores, Live, Unshared, Bounded;
    var n := Step(Step(s, HostStores(id)), Cleaned(id));
    assert Awaited(s, id);
    NotReferenced(s.conns, id);
    if id in s.gone {
      assert id in n.host && id !in n.intents;
    }
  }

  predicate Accepts(s: State, t: Task) {
    !t.failed && !t.waiting && (t.seen.Some? ==> Unchanged(s, t.seen.value))
  }

  /**
   A commit keeps both promises exactly when `Settles` holds: every import it does not name is off the
   host already, and the cleanup of the one it names has not begun.
   */
  lemma CommitExact(s: State, k: int, keep: bool, lost: bool)
    requires Inv(s) && k in s.tasks && Accepts(s, s.tasks[k])
    ensures var n := Commit(s, k, s.tasks[k], keep, lost);
            NoOrphan(n) && Live(n) <==> Settles(s, s.tasks[k])
  {
    hide NoOrphan, Live, Stores, Chores, TaskKept, Commit;
    var t := s.tasks[k];
    var n := Commit(s, k, t, keep, lost);
    TaskOf(s, k);
    if Settles(s, t) {
      CommitStores(s, k, keep, lost);
      CommitOwned(s, k, keep, lost);
      LiveOf(n);
    } else {
      var id :| id in t.imported && if id == t.imported[|t.imported| - 1] then id in s.cleaning else id in s.host && id !in s.gone;
      SeenNamed(s, k, id);
      if id == t.imported[|t.imported| - 1] {
        NamesCleaning(s, k, t, keep, lost, id);
      } else {
        LeavesOrphan(s, k, t, keep, lost, id);
      }
    }
  }

  lemma LiveOf(s: State)
    requires Stores(s)
    ensures Live(s)
  {
  }

  lemma SeenNamed(s: State, k: int, id: int)
    requires Stores(s) && Chores(s) && k in s.tasks && Accepts(s, s.tasks[k]) && id in s.tasks[k].imported
    ensures Unnamed(s.conns, id) && s.nextConn !in s.conns
    ensures s.tasks[k].seen.Some? ==>
              s.conns[s.tasks[k].seen.value.conn].secret == s.tasks[k].seen.value.row.secret
    ensures s.tasks[k].seen.Some? && s.tasks[k].seen.value.row.secret.Some? ==>
              s.tasks[k].seen.value.row.secret.value !in s.intents
  {
    assert TaskKept(s, s.tasks[k]);
  }

  lemma NamesCleaning(s: State, k: int, t: Task, keep: bool, lost: bool, id: int)
    requires Accepts(s, t) && t.imported != [] && id == t.imported[|t.imported| - 1] && id in s.cleaning
    requires t.seen.Some? && t.seen.value.row.secret.Some? ==> t.seen.value.row.secret.value !in s.intents
    ensures !Live(Commit(s, k, t, keep, lost))
  {
    var n := Commit(s, k, t, keep, lost);
    var c := if t.seen.None? then s.nextConn else t.seen.value.conn;
    assert c in n.conns && n.conns[c].secret == Some(id) && id in n.cleaning;
    assert !RefSafe(n.host, n.intents, n.cleaning, n.conns[c]);
  }

  lemma LeavesOrphan(s: State, k: int, t: Task, keep: bool, lost: bool, id: int)
    requires Accepts(s, t) && id in t.imported && id != t.imported[|t.imported| - 1] && id in s.host && id !in s.gone
    requires Unnamed(s.conns, id)
    requires t.seen.Some? ==> s.conns[t.seen.value.conn].secret == t.seen.value.row.secret
    requires t.seen.Some? && t.seen.value.row.secret.Some? ==> t.seen.value.row.secret.value !in s.intents
    ensures !NoOrphan(Commit(s, k, t, keep, lost))
  {
    var n := Commit(s, k, t, keep, lost);
    assert id in n.host && id !in n.intents;
    forall c | c in n.conns ensures n.conns[c].secret != Some(id) {
      assert c in s.conns ==> s.conns[c].secret != Some(id);
    }
  }

  // ---- The two-import save ----

  /** A Kubernetes connection saved with a key or certificates imports twice. */
  function TwoImports(): seq<Event> {
    [Opens(0, None), Imports(0), HostStores(0), Acks(0), Imports(0), HostStores(1), Acks(0), Commits(0, false, false)]
  }

  lemma RunAdds(events: seq<Event>, e: Event)
    ensures Run(events + [e]) == Step(Run(events), e)
  {
    assert (events + [e])[..|events|] == events;
  }

  /** What a prefix of the run leaves; the last state is the one that counts. */
  predicate Reached(s: State, task: Option<Task>, host: set<int>, nextSecret: int, nextConn: int) {
    && s.tasks == (if task.Some? then map[0 := task.value] else map[])
    && s.host == host && s.nextSecret == nextSecret && s.nextConn == nextConn
    && (task.Some? ==> s.conns == map[] && forall id | id in s.flying :: task.value.waiting && id == nextSecret - 1)
    && (task.Some? && task.value.waiting && host !! {nextSecret - 1} ==> nextSecret - 1 in s.flying)
  }

  lemma OneImport(events: seq<Event>, imported: seq<int>, host: set<int>, id: int)
    requires Reached(Run(events), Some(Task(None, imported, false, false)), host, id, 0) && |imported| < 2 && id !in host
    ensures Reached(Run(events + [Imports(0)] + [HostStores(id)] + [Acks(0)]),
                    Some(Task(None, imported + [id], false, false)), host + {id}, id + 1, 0)
  {
    RunAdds(events, Imports(0));
    RunAdds(events + [Imports(0)], HostStores(id));
    RunAdds(events + [Imports(0)] + [HostStores(id)], Acks(0));
    var t := Task(None, imported + [id], true, false);
    assert Reached(Run(events + [Imports(0)]), Some(t), host, id + 1, 0);
    assert Reached(Run(events + [Imports(0)] + [HostStores(id)]), Some(t), host + {id}, id + 1, 0);
  }

  /** Its commit clears both intents, and the first credential stays on the host for good. */
  lemma TwoImportsOrphan()
    ensures var s := Run(TwoImports());
            0 in s.host && 0 !in s.intents && !Referenced(s.conns, 0)
  {
    hide Reached;
    var e := TwoImports();
    var one := [e[0]] + [e[1]] + [e[2]] + [e[3]];
    var two := one + [e[4]] + [e[5]] + [e[6]];
    assert e == two + [e[7]];
    Opened();
    OneImport([e[0]], [], {}, 0);
    assert [] + [0] == [0] && [0] + [1] == [0, 1] && {} + {0} == {0};
    OneImport(one, [0], {0}, 1);
    RunAdds(two, e[7]);
    TwoCommitted(Run(two));
  }

  lemma Opened()
    ensures Reached(Run([Opens(0, None)]), Some(Task(None, [], false, false)), {}, 0, 0)
  {
    RunAdds([], Opens(0, None));
    assert [] + [Opens(0, None)] == [Opens(0, None)];
  }

  lemma TwoCommitted(s: State)
    requires Reached(s, Some(Task(None, [0, 1], false, false)), {0} + {1}, 2, 0)
    ensures var n := Step(s, Commits(0, false, false));
            0 in n.host && 0 !in n.intents && !Referenced(n.conns, 0)
  {
  }

  // ---- The late store ----

  /** The host does not answer, the hour passes and the sweep cleans up; then the credential arrives. */
  function LateStore(): seq<Event> {
    [Opens(0, None), Imports(0), Tick(LEAD), Sweeps({0}), Checks(0), HostDeletes(0), Cleaned(0), HostStores(0)]
  }

  lemma LateImport()
    ensures var s := Run([Opens(0, None)] + [Imports(0)]);
            s.now == 0 && s.intents == map[0 := LEAD] && s.conns == map[] && s.flying == {0} && s.listed == {} && s.gone == {}
  {
    Opened();
    RunAdds([], Opens(0, None));
    assert [] + [Opens(0, None)] == [Opens(0, None)];
    RunAdds([Opens(0, None)], Imports(0));
  }

  /** A sweep that finds the intent due and the credential unreferenced, and a host that has nothing to delete. */
  lemma SweptEarly(s: State)
    requires s.now == 0 && s.intents == map[0 := LEAD] && s.conns == map[] && s.flying == {0} && s.listed == {} && s.gone == {}
    ensures var n := Step(Step(Step(s, Tick(LEAD)), Sweeps({0})), Checks(0));
            n.intents == s.intents && n.conns == map[] && n.flying == {0} && 0 in n.cleaning
  {
    var due := Step(s, Tick(LEAD));
    assert |{0}| == 1;
    assert Step(due, Sweeps({0})).listed == {0};
  }

  lemma DeletedEarly(s: State)
    requires s.intents == map[0 := LEAD] && s.conns == map[] && s.flying == {0} && 0 in s.cleaning
    ensures var n := Step(Step(Step(s, HostDeletes(0)), Cleaned(0)), HostStores(0));
            0 in n.host && 0 !in n.intents && !Referenced(n.conns, 0)
  {
  }

  /** A credential stored after its deletion was performed is left on the host for good. */
  lemma LateStoreOrphan()
    ensures !AllOwned(Run(LateStore()))
  {
    hide Step;
    var e := LateStore();
    var two := [e[0]] + [e[1]];
    LateImport();
    RunAdds(two, e[2]);
    RunAdds(two + [e[2]], e[3]);
    RunAdds(two + [e[2]] + [e[3]], e[4]);
    SweptEarly(Run(two));
    var five := two + [e[2]] + [e[3]] + [e[4]];
    RunAdds(five, e[5]);
    RunAdds(five + [e[5]], e[6]);
    RunAdds(five + [e[5]] + [e[6]], e[7]);
    DeletedEarly(Run(five));
    assert e == five + [e[5]] + [e[6]] + [e[7]];
  }
}
