/**
 Applies that run at the same time as each other and as every other writer of the server rows. An
 apply remembers the local rows as its staging read them; `touched` is history: the rows of its
 snapshot that somebody else has changed or removed since.
 */
module McpRuns {
  import opened Options
  import opened McpConfig
  import opened McpApply

  datatype Apply = Apply(before: map<int, Row>, failed: bool, restored: set<int>, touched: set<int>)

  datatype State = State(db: Db, applies: map<int, Apply>)

  datatype Event =
    | Other(next: Db)
    | Stages(k: int, seen: map<int, nat>)
    | Commits(k: int, next: Db, config: Config, host: bool, shown: Shown)
    | Fails(k: int)
    | Restores(k: int, id: int)

  // ---- Revisions ----

  /** Plugins flip rows of their own without a new revision; a row of the editor never changes without one. */
  predicate RowMoves(a: map<int, Row>, row: Row, id: int, next: int) {
    if id !in a then next <= id
    else if Editable(a[id]) || Editable(row) then row == a[id] || a[id].revision < row.revision
    else a[id].revision <= row.revision
  }

  /** What every writer of server rows does: no revision falls, and new rows get new ids. */
  predicate Moves(a: Db, b: Db) {
    a.nextRow <= b.nextRow && forall id | id in b.rows :: RowMoves(a.rows, b.rows[id], id, a.nextRow)
  }

  function Locals(rows: map<int, Row>): map<int, Row> {
    map id | id in rows && rows[id].local :: rows[id]
  }

  /** The digest over the ids and revisions of the local rows, taken to be collision free. */
  function Stamp(rows: map<int, Row>): map<int, nat> {
    map id | id in rows && rows[id].local :: rows[id].revision
  }

  function StagedRow(ap: Apply, id: int): Row
    requires id in ap.before
  {
    AfterStage(ap.before[id])
  }

  function StagedStamp(ap: Apply): map<int, nat> {
    map id | id in ap.before :: StagedRow(ap, id).revision
  }

  function Same(a: map<int, Row>, b: map<int, Row>, id: int): bool {
    (id in a <==> id in b) && (id in a && id in b ==> a[id] == b[id])
  }

  function Touch(ap: Apply, a: map<int, Row>, b: map<int, Row>): Apply {
    ap.(touched := ap.touched + set id | id in ap.before && !Same(a, b, id))
  }

  /** The rows become those of `next`; every apply but `own` sees that as somebody else's change. */
  function Replace(s: State, next: Db, own: Option<int>): State {
    State(next, map k | k in s.applies ::
      if own == Some(k) then s.applies[k] else Touch(s.applies[k], s.db.rows, next.rows))
  }

  ghost predicate Allowed(s: State, e: Event) {
    match e
    case Other(next) => Moves(s.db, next) && Sound(next)
    case Stages(k, seen) => k !in s.applies && Stamp(s.db.rows) == seen
    case Commits(k, next, config, host, shown) =>
      && k in s.applies && !s.applies[k].failed
      && Stamp(s.db.rows) == StagedStamp(s.applies[k])
      && config.Keys <= shown.Keys && Applied(s.db, next, config, host, shown)
    case Fails(k) => k in s.applies
    case Restores(k, id) =>
      && k in s.applies && s.applies[k].failed
      && id in s.applies[k].before && Staged(s.applies[k].before[id]) && id !in s.applies[k].restored
  }

  ghost function Step(s: State, e: Event): State
    requires Allowed(s, e)
  {
    match e
    case Other(next) => Replace(s, next, None)
    case Stages(k, _) =>
      var n := Replace(s, StageAll(s.db), None);
      n.(applies := n.applies[k := Apply(Locals(s.db.rows), false, {}, {})])
    case Commits(k, next, config, host, shown) =>
      var n := Replace(s, next, Some(k));
      n.(applies := n.applies - {k})
    case Fails(k) => s.(applies := s.applies[k := s.applies[k].(failed := true)])
    case Restores(k, id) =>
      var n := Replace(s, Restore(s.db, id, s.applies[k].before[id]), Some(k));
      n.(applies := n.applies[k := s.applies[k].(restored := s.applies[k].restored + {id})])
  }

  // ---- What every step keeps ----

  predicate Ahead(rows: map<int, Row>, row: Row, id: int) {
    id in rows ==> row.revision < rows[id].revision
  }

  predicate Tracks(ap: Apply, db: Db, id: int)
    requires id in ap.before
  {
    && id < db.nextRow
    && if Editable(ap.before[id]) then
         && (id in ap.touched || id in ap.restored ==> Ahead(db.rows, StagedRow(ap, id), id))
         && (id !in ap.touched && id !in ap.restored ==> id in db.rows && db.rows[id] == StagedRow(ap, id))
       else id in db.rows ==>
         if Editable(db.rows[id]) then ap.before[id].revision < db.rows[id].revision
         else ap.before[id].revision <= db.rows[id].revision
  }

  predicate ApplyKept(ap: Apply, db: Db) {
    && (!ap.failed ==> ap.restored == {})
    && (forall id | id in ap.before :: ap.before[id].local && Tracks(ap, db, id))
  }

  ghost predicate Inv(s: State) {
    Sound(s.db) && forall k | k in s.applies :: ApplyKept(s.applies[k], s.db)
  }

  lemma TouchKept(ap: Apply, a: Db, b: Db)
    requires ApplyKept(ap, a) && Moves(a, b)
    ensures ApplyKept(Touch(ap, a.rows, b.rows), b)
  {
    var n := Touch(ap, a.rows, b.rows);
    forall id | id in n.before ensures n.before[id].local && Tracks(n, b, id) {
      assert Tracks(ap, a, id);
      assert id in b.rows ==> RowMoves(a.rows, b.rows[id], id, a.nextRow);
    }
  }

  lemma StageMoves(db: Db)
    ensures Moves(db, StageAll(db))
  {
  }

  lemma RestoreMoves(db: Db, id: int, was: Row)
    ensures Moves(db, Restore(db, id, was))
  {
  }

  lemma AppliedMoves(a: Db, b: Db, config: Config, host: bool, shown: Shown)
    requires config.Keys <= shown.Keys && Applied(a, b, config, host, shown)
    ensures Moves(a, b)
  {
    hide Holds;
    forall id | id in b.rows ensures RowMoves(a.rows, b.rows[id], id, a.nextRow) {
      assert id in a.rows ==> OldRow(a, b, config, host, shown, config.Keys, id);
      assert id !in a.rows ==> NewRow(a, b, config, host, shown, config.Keys, id);
    }
  }

  function Flipped(db: Db, id: int, enabled: bool): Db
    requires id in db.rows
  {
    db.(rows := db.rows[id := db.rows[id].(plain := db.rows[id].plain.(enabled := enabled))])
  }

  lemma FlippedSound(db: Db, id: int, enabled: bool)
    requires Sound(db) && id in db.rows
    ensures Sound(Flipped(db, id, enabled))
  {
    var next := Flipped(db, id, enabled);
    assert forall a | a in next.rows :: next.rows[a].secret == db.rows[a].secret && next.rows[a].slug == db.rows[a].slug;
    forall s | s in next.secrets ensures exists a | a in next.rows :: next.rows[a].secret == Some(s) {
      var a :| a in db.rows && db.rows[a].secret == Some(s);
      assert a in next.rows && next.rows[a].secret == Some(s);
    }
  }

  /** Enabling or disabling a plugin's own row is one of those writes, though it keeps the revision. */
  lemma PluginFlips(db: Db, id: int, enabled: bool)
    requires Sound(db) && id in db.rows && !Editable(db.rows[id])
    ensures var next := db.(rows := db.rows[id := db.rows[id].(plain := db.rows[id].plain.(enabled := enabled))]);
            Moves(db, next) && Sound(next) && Stamp(next.rows) == Stamp(db.rows)
  {
    hide SlugsUnique, SecretsOwned, NoOrphans;
    FlippedSound(db, id, enabled);
  }

  /** No step lowers a revision, changes a row of the editor without raising it, or reuses an id. */
  lemma StepMoves(s: State, e: Event)
    requires Allowed(s, e)
    ensures Moves(s.db, Step(s, e).db)
  {
    hide Applied, StageAll, Restore, Sound;
    match e
    case Stages(_, _) => StageMoves(s.db);
    case Commits(_, next, config, host, shown) => AppliedMoves(s.db, next, config, host, shown);
    case Restores(k, id) => RestoreMoves(s.db, id, s.applies[k].before[id]);
    case _ =>
  }

  lemma StageTracks(db: Db)
    requires Fresh(db)
    ensures ApplyKept(Apply(Locals(db.rows), false, {}, {}), StageAll(db))
  {
  }

  /** A restored row is ahead of its staged revision; the apply's other rows are as before. */
  lemma OwnRestore(ap: Apply, db: Db, id: int)
    requires ApplyKept(ap, db) && ap.failed && id in ap.before && Staged(ap.before[id]) && id !in ap.restored
    ensures ApplyKept(ap.(restored := ap.restored + {id}), Restore(db, id, ap.before[id]))
  {
    var n := ap.(restored := ap.restored + {id});
    forall i | i in n.before ensures n.before[i].local && Tracks(n, Restore(db, id, ap.before[id]), i) {
      assert Tracks(ap, db, i);
    }
  }

  lemma StepSound(s: State, e: Event)
    requires Inv(s) && Allowed(s, e)
    ensures Sound(Step(s, e).db)
  {
    hide ApplyKept, Sound;
    match e
    case Stages(_, _) => StageSound(s.db);
    case Commits(k, next, config, host, shown) => AppliedSound(s.db, next, config, host, shown);
    case Restores(k, id) => RestoreSound(s.db, id, s.applies[k].before[id]);
    case _ =>
  }

  lemma AppliedSound(a: Db, b: Db, config: Config, host: bool, shown: Shown)
    requires config.Keys <= shown.Keys && Applied(a, b, config, host, shown)
    ensures Sound(b)
  {
  }

  lemma StepInv(s: State, e: Event)
    requires Inv(s) && Allowed(s, e)
    ensures Inv(Step(s, e))
  {
    hide Applied, Sound, StageAll, Restore, Touch, ApplyKept, Locals, Stamp, StagedStamp;
    var n := Step(s, e);
    StepSound(s, e);
    StepMoves(s, e);
    forall k | k in n.applies ensures ApplyKept(n.applies[k], n.db) {
      if k in s.applies { TouchKept(s.applies[k], s.db, n.db); }
      if e.Stages? && k == e.k {
        FreshOf(s.db);
        StageTracks(s.db);
      }
      if e.Restores? && k == e.k { OwnRestore(s.applies[k], s.db, e.id); }
      if e.Fails? { FailKept(s.applies[k], s.db); }
    }
  }

  lemma FailKept(ap: Apply, db: Db)
    requires ApplyKept(ap, db)
    ensures ApplyKept(ap.(failed := true), db)
  {
    forall id | id in ap.before ensures Tracks(ap.(failed := true), db, id) { assert Tracks(ap, db, id); }
  }

  ghost predicate Legal(s: State, events: seq<Event>)
    decreases |events|
  {
    events == [] || (Allowed(s, events[0]) && Legal(Step(s, events[0]), events[1..]))
  }

  ghost function Run(s: State, events: seq<Event>): State
    requires Legal(s, events)
    decreases |events|
  {
    if events == [] then s else Run(Step(s, events[0]), events[1..])
  }

  lemma {:induction false} RunInv(s: State, events: seq<Event>)
    requires Inv(s) && Legal(s, events)
    ensures Inv(Run(s, events))
    decreases |events|
  {
    hide Inv, Step, Allowed;
    if events != [] {
      StepInv(s, events[0]);
      RunInv(Step(s, events[0]), events[1..]);
    }
  }

  /** A row that is present at both ends of a run never has a lower revision at the end. */
  lemma {:induction false} RevisionsNeverFall(s: State, events: seq<Event>, id: int)
    requires Inv(s) && Legal(s, events) && id < s.db.nextRow
    ensures id in Run(s, events).db.rows ==>
              id in s.db.rows && s.db.rows[id].revision <= Run(s, events).db.rows[id].revision
    decreases |events|
  {
    hide Inv, Step, Allowed;
    if events != [] {
      StepMoves(s, events[0]);
      StepInv(s, events[0]);
      RevisionsNeverFall(Step(s, events[0]), events[1..], id);
    }
  }

  // ---- The main results ----

  /**
   Restoring puts a staged row back exactly when nobody else changed it since, and then the row is
   what it was before the apply, two revisions on. No other row changes.
   */
  lemma RestoreExact(s: State, k: int, id: int)
    requires Inv(s) && Allowed(s, Restores(k, id))
    ensures var ap := s.applies[k];
            var n := Step(s, Restores(k, id));
            && (n.db != s.db <==> id !in ap.touched)
            && (id !in ap.touched ==>
                  id in n.db.rows && n.db.rows[id] == ap.before[id].(revision := ap.before[id].revision + 2))
            && forall i | i != id :: Same(s.db.rows, n.db.rows, i)
  {
    hide Sound, Applied;
    var ap := s.applies[k];
    assert ApplyKept(ap, s.db);
    assert Tracks(ap, s.db, id);
    var n := Restore(s.db, id, ap.before[id]);
    if id !in ap.touched {
      assert s.db.rows[id] == Disabled(ap.before[id]);
      assert n.rows[id] == ap.before[id].(revision := ap.before[id].revision + 2);
      assert n.rows[id] != s.db.rows[id];
    }
  }

  /** The rows of the editor. */
  function Editables(rows: map<int, Row>): map<int, Row> {
    map id | id in rows && Editable(rows[id]) :: rows[id]
  }

  /** Ids and revisions of the local rows that extensions, plugins and the catalog manage. */
  function ManagedStamp(rows: map<int, Row>): map<int, nat> {
    map id | id in rows && rows[id].local && !Editable(rows[id]) :: rows[id].revision
  }

  function StagedRows(ap: Apply): map<int, Row> {
    map id | id in ap.before :: StagedRow(ap, id)
  }

  /** The digest covers the editor's rows and the managed ones, and nothing else. */
  lemma StampParts(a: map<int, Row>, b: map<int, Row>)
    ensures Editables(a) == Editables(b) && ManagedStamp(a) == ManagedStamp(b) ==> Stamp(a) == Stamp(b)
  {
    if Editables(a) == Editables(b) && ManagedStamp(a) == ManagedStamp(b) {
      forall id ensures id in Stamp(a) <==> id in Stamp(b) {
        PartAt(a, id);
        PartAt(b, id);
      }
      forall id | id in Stamp(a) ensures Stamp(a)[id] == Stamp(b)[id] {
        PartAt(a, id);
        PartAt(b, id);
      }
    }
  }

  lemma PartAt(rows: map<int, Row>, id: int)
    ensures id in Stamp(rows) <==> id in Editables(rows) || id in ManagedStamp(rows)
    ensures id in Editables(rows) ==> Stamp(rows)[id] == Editables(rows)[id].revision
    ensures id in ManagedStamp(rows) ==> id !in Editables(rows) && Stamp(rows)[id] == ManagedStamp(rows)[id]
  {
  }

  lemma StagedStampIs(ap: Apply)
    requires forall id | id in ap.before :: ap.before[id].local
    ensures StagedStamp(ap) == Stamp(StagedRows(ap))
  {
  }

  /**
   A commit goes ahead exactly when the editor's rows are as the apply staged them and the managed
   local rows have the ids and revisions they had; a plugin may have flipped one of those.
   */
  lemma CommitSeesStaged(s: State, k: int)
    requires Inv(s) && k in s.applies && !s.applies[k].failed
    ensures Stamp(s.db.rows) == StagedStamp(s.applies[k])
            <==> && Editables(s.db.rows) == Editables(StagedRows(s.applies[k]))
                 && ManagedStamp(s.db.rows) == ManagedStamp(StagedRows(s.applies[k]))
  {
    hide Sound, Editables, ManagedStamp, Stamp, StagedRows;
    var ap := s.applies[k];
    assert ApplyKept(ap, s.db);
    StagedStampIs(ap);
    StampParts(s.db.rows, StagedRows(ap));
    if Stamp(s.db.rows) == StagedStamp(ap) {
      forall id ensures SamePart(s.db.rows, StagedRows(ap), id) { StampedRow(ap, s.db, id); }
      SameParts(s.db.rows, StagedRows(ap));
    }
  }

  predicate SamePart(a: map<int, Row>, b: map<int, Row>, id: int) {
    && (id in a && Editable(a[id]) <==> id in b && Editable(b[id]))
    && (id in a && Editable(a[id]) ==> a[id] == b[id])
    && (id in a && a[id].local && !Editable(a[id]) <==> id in b && b[id].local && !Editable(b[id]))
    && (id in a && a[id].local && !Editable(a[id]) ==> a[id].revision == b[id].revision)
  }

  lemma SameParts(a: map<int, Row>, b: map<int, Row>)
    requires forall id :: SamePart(a, b, id)
    ensures Editables(a) == Editables(b) && ManagedStamp(a) == ManagedStamp(b)
  {
    forall id
      ensures id in Editables(a) <==> id in Editables(b)
      ensures id in Editables(a) ==> Editables(a)[id] == Editables(b)[id]
      ensures id in ManagedStamp(a) <==> id in ManagedStamp(b)
      ensures id in ManagedStamp(a) ==> ManagedStamp(a)[id] == ManagedStamp(b)[id]
    {
      assert SamePart(a, b, id);
    }
  }

  lemma StampedRow(ap: Apply, db: Db, id: int)
    requires ApplyKept(ap, db) && !ap.failed && Stamp(db.rows) == Stamp(StagedRows(ap))
    ensures SamePart(db.rows, StagedRows(ap), id)
  {
    var staged := StagedRows(ap);
    assert id in Stamp(db.rows) <==> id in Stamp(staged);
    if id in ap.before {
      assert Tracks(ap, db, id);
      assert id in Stamp(staged) && Stamp(db.rows)[id] == Stamp(staged)[id];
    }
  }
}
