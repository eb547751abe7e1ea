/**
 Applying a previewed configuration, from apps/api/src/mcp-settings.ts: host rows are disabled under a
 new revision, the host is asked to stop them, and only then is the new configuration committed. If
 anything fails, the staged rows that nobody else has changed get their enabled flag back.
 */
module McpApply {
  import opened Options
  import opened McpConfig

  /** A server row. `editable`: neither managed by an extension nor from the catalog. */
  datatype Row = Row(
    slug: string, plain: Plain, revision: nat, host: bool, editable: bool, local: bool, secret: Option<int>)

  datatype Db = Db(rows: map<int, Row>, secrets: map<int, Material>, nextRow: int, nextSecret: int)

  // ---- What the tables always satisfy ----

  /** The unique index on the slug. */
  predicate SlugsUnique(rows: map<int, Row>) {
    forall a, b | a in rows && b in rows && rows[a].slug == rows[b].slug :: a == b
  }

  /** Each row's secret is live and its own. */
  predicate SecretsOwned(rows: map<int, Row>, secrets: map<int, Material>) {
    && (forall a | a in rows && rows[a].secret.Some? :: rows[a].secret.value in secrets)
    && (forall a, b | a in rows && b in rows && rows[a].secret.Some? && rows[a].secret == rows[b].secret :: a == b)
  }

  /** No secret is left without a row. */
  ghost predicate NoOrphans(rows: map<int, Row>, secrets: map<int, Material>) {
    forall s | s in secrets :: exists a | a in rows :: rows[a].secret == Some(s)
  }

  predicate Fresh(db: Db) {
    (forall a | a in db.rows :: a < db.nextRow) && (forall s | s in db.secrets :: s < db.nextSecret)
  }

  ghost predicate Sound(db: Db) {
    SlugsUnique(db.rows) && SecretsOwned(db.rows, db.secrets) && NoOrphans(db.rows, db.secrets) && Fresh(db)
  }

  predicate Editable(row: Row) { row.local && row.editable }

  // ---- The committing transaction ----

  function Stored(server: Server): Material {
    Material(Some(server.command), Some(server.args), Some(server.env), server.order, server.credential)
  }

  /** The property the object inherits: looking it up finds something although no server has that name. */
  const INHERITED := "constructor"

  predicate Keeps(config: Config, slug: string) { slug in config || slug == INHERITED }

  predicate Drops(config: Config, row: Row) { Editable(row) && !Keeps(config, row.slug) }

  function Without(secrets: map<int, Material>, secret: Option<int>): map<int, Material> {
    if secret.Some? then secrets - {secret.value} else secrets
  }

  function RemoveRow(db: Db, id: int): Db
    requires id in db.rows
  {
    db.(rows := db.rows - {id}, secrets := Without(db.secrets, db.rows[id].secret))
  }

  function Written(was: Row, server: Server, host: bool, shown: Redacted, secret: int): Row {
    was.(plain := Plain(server.name, server.description, server.enabled, Some(shown.command), shown.args),
         host := host, local := true, revision := was.revision + 1, secret := Some(secret))
  }

  function UpdateRow(db: Db, id: int, server: Server, host: bool, shown: Redacted): Db
    requires id in db.rows
  {
    var secret := db.nextSecret;
    db.(rows := db.rows[id := Written(db.rows[id], server, host, shown, secret)],
        secrets := Without(db.secrets[secret := Stored(server)], db.rows[id].secret), nextSecret := secret + 1)
  }

  function Created(slug: string, server: Server, host: bool, shown: Redacted, secret: int): Row {
    Written(Row(slug, Plain("", "", false, None, []), 0, host, true, true, None), server, host, shown, secret)
  }

  function CreateRow(db: Db, slug: string, server: Server, host: bool, shown: Redacted): Db {
    db.(rows := db.rows[db.nextRow := Created(slug, server, host, shown, db.nextSecret)],
        secrets := db.secrets[db.nextSecret := Stored(server)],
        nextRow := db.nextRow + 1, nextSecret := db.nextSecret + 1)
  }

  lemma RemoveSound(db: Db, id: int)
    requires Sound(db) && id in db.rows
    ensures Sound(RemoveRow(db, id))
  {
    var n := RemoveRow(db, id);
    forall s | s in n.secrets ensures exists a | a in n.rows :: n.rows[a].secret == Some(s) {
      var a :| a in db.rows && db.rows[a].secret == Some(s);
      assert a in n.rows && n.rows[a].secret == Some(s);
    }
  }

  lemma UpdateSound(db: Db, id: int, server: Server, host: bool, shown: Redacted)
    requires Sound(db) && id in db.rows
    ensures Sound(UpdateRow(db, id, server, host, shown))
  {
    var n := UpdateRow(db, id, server, host, shown);
    forall s | s in n.secrets ensures exists a | a in n.rows :: n.rows[a].secret == Some(s) {
      if s == db.nextSecret {
        assert id in n.rows && n.rows[id].secret == Some(s);
      } else {
        var a :| a in db.rows && db.rows[a].secret == Some(s);
        assert a in n.rows && n.rows[a].secret == Some(s);
      }
    }
  }

  lemma CreateSound(db: Db, slug: string, server: Server, host: bool, shown: Redacted)
    requires Sound(db) && forall a | a in db.rows :: db.rows[a].slug != slug
    ensures Sound(CreateRow(db, slug, server, host, shown))
  {
    var n := CreateRow(db, slug, server, host, shown);
    forall s | s in n.secrets ensures exists a | a in n.rows :: n.rows[a].secret == Some(s) {
      if s == db.nextSecret {
        assert db.nextRow in n.rows && n.rows[db.nextRow].secret == Some(s);
      } else {
        var a :| a in db.rows && db.rows[a].secret == Some(s);
        assert a in n.rows && n.rows[a].secret == Some(s);
      }
    }
  }

  // ---- What a commit must achieve ----

  /** What redaction made of each previewed command line; the plain columns hold nothing else of it. */
  type Shown = map<string, Redacted>

  /** A row that is left alone keeps what its secret holds. */
  predicate SameSecret(a: map<int, Material>, b: map<int, Material>, secret: Option<int>) {
    secret.Some? ==> secret.value in a && secret.value in b && a[secret.value] == b[secret.value]
  }

  /** The row shows `server` with its redacted command line, runs where asked, and keeps it in a live secret of its own. */
  predicate Holds(row: Row, secrets: map<int, Material>, server: Server, host: bool, shown: Redacted) {
    && Editable(row) && row.host == host
    && row.plain.command == Some(shown.command) && row.plain.args == shown.args
    && row.plain.name == server.name && row.plain.description == server.description
    && row.plain.enabled == server.enabled
    && row.secret.Some? && row.secret.value in secrets && secrets[row.secret.value] == Stored(server)
  }

  /** What became of a row of `a` once the servers `done` are written. */
  predicate OldRow(a: Db, b: Db, config: Config, host: bool, shown: Shown, done: set<string>, id: int)
    requires id in a.rows && done <= config.Keys && done <= shown.Keys
  {
    var row := a.rows[id];
    if Editable(row) && row.slug in done then
      && id in b.rows && b.rows[id].slug == row.slug && b.rows[id].revision == row.revision + 1
      && Holds(b.rows[id], b.secrets, config[row.slug], host, shown[row.slug])
    else if Editable(row) && !Keeps(config, row.slug) then id !in b.rows
    else id in b.rows && b.rows[id] == row && SameSecret(a.secrets, b.secrets, row.secret)
  }

  predicate NewRow(a: Db, b: Db, config: Config, host: bool, shown: Shown, done: set<string>, id: int)
    requires id in b.rows && done <= config.Keys && done <= shown.Keys
  {
    && a.nextRow <= id && b.rows[id].slug in done && b.rows[id].revision == 1
    && Holds(b.rows[id], b.secrets, config[b.rows[id].slug], host, shown[b.rows[id].slug])
  }

  ghost predicate HasRow(rows: map<int, Row>, slug: string) {
    exists id | id in rows :: Editable(rows[id]) && rows[id].slug == slug
  }

  ghost predicate Progress(a: Db, b: Db, config: Config, host: bool, shown: Shown, done: set<string>)
    requires done <= config.Keys && done <= shown.Keys
  {
    && Sound(b) && a.nextRow <= b.nextRow
    && (forall id | id in a.rows :: OldRow(a, b, config, host, shown, done, id))
    && (forall id | id in b.rows && id !in a.rows :: NewRow(a, b, config, host, shown, done, id))
    && (forall slug | slug in done :: HasRow(b.rows, slug))
  }

  ghost predicate Applied(a: Db, b: Db, config: Config, host: bool, shown: Shown)
    requires config.Keys <= shown.Keys
  {
    Progress(a, b, config, host, shown, config.Keys)
  }

  lemma UpdateProgress(a: Db, b: Db, config: Config, host: bool, shown: Shown, done: set<string>, slug: string, id: int)
    requires config.Keys <= shown.Keys && done <= config.Keys && Progress(a, b, config, host, shown, done) && slug in config && slug !in done
    requires id in b.rows && Editable(b.rows[id]) && b.rows[id].slug == slug
    ensures Progress(a, UpdateRow(b, id, config[slug], host, shown[slug]), config, host, shown, done + {slug})
  {
    hide Holds, Sound;
    var n := UpdateRow(b, id, config[slug], host, shown[slug]);
    UpdateSound(b, id, config[slug], host, shown[slug]);
    UpdateHolds(b, id, config[slug], host, shown[slug]);
    forall i | i in a.rows ensures OldRow(a, n, config, host, shown, done + {slug}, i) {
      assert OldRow(a, b, config, host, shown, done, i);
      UpdateKeeps(b, id, config[slug], host, shown[slug], i);
    }
    forall i | i in n.rows && i !in a.rows ensures NewRow(a, n, config, host, shown, done + {slug}, i) {
      assert NewRow(a, b, config, host, shown, done, i);
      UpdateKeeps(b, id, config[slug], host, shown[slug], i);
    }
    forall g | g in done + {slug} ensures HasRow(n.rows, g) {
      if g != slug {
        var i :| i in b.rows && Editable(b.rows[i]) && b.rows[i].slug == g;
        assert i in n.rows && n.rows[i] == b.rows[i];
      } else {
        assert id in n.rows && Editable(n.rows[id]) && n.rows[id].slug == slug;
      }
    }
  }

  lemma UpdateHolds(b: Db, id: int, server: Server, host: bool, shown: Redacted)
    requires Sound(b) && id in b.rows && Editable(b.rows[id])
    ensures var n := UpdateRow(b, id, server, host, shown);
            Holds(n.rows[id], n.secrets, server, host, shown)
  {
  }

  lemma UpdateKeeps(b: Db, id: int, server: Server, host: bool, shown: Redacted, other: int)
    requires Sound(b) && id in b.rows
    ensures var n := UpdateRow(b, id, server, host, shown);
            forall s: Server, h: bool, r: Redacted ::
              other != id && other in b.rows && Holds(b.rows[other], b.secrets, s, h, r)
              ==> Holds(n.rows[other], n.secrets, s, h, r)
    ensures var n := UpdateRow(b, id, server, host, shown);
            other != id && other in b.rows ==> SameSecret(b.secrets, n.secrets, b.rows[other].secret)
    ensures SlugsUnique(b.rows)
  {
  }

  lemma CreateProgress(a: Db, b: Db, config: Config, host: bool, shown: Shown, done: set<string>, slug: string)
    requires config.Keys <= shown.Keys && done <= config.Keys && Progress(a, b, config, host, shown, done) && slug in config && slug !in done
    requires Fresh(a) && forall id | id in b.rows :: b.rows[id].slug != slug
    ensures Progress(a, CreateRow(b, slug, config[slug], host, shown[slug]), config, host, shown, done + {slug})
  {
    hide Holds, Sound;
    var n := CreateRow(b, slug, config[slug], host, shown[slug]);
    CreateSound(b, slug, config[slug], host, shown[slug]);
    CreateHolds(b, slug, config[slug], host, shown[slug]);
    forall i | i in a.rows ensures OldRow(a, n, config, host, shown, done + {slug}, i) {
      assert OldRow(a, b, config, host, shown, done, i);
    }
    forall i | i in n.rows && i !in a.rows ensures NewRow(a, n, config, host, shown, done + {slug}, i) {
      assert i in b.rows ==> NewRow(a, b, config, host, shown, done, i);
    }
    forall g | g in done + {slug} ensures HasRow(n.rows, g) {
      if g != slug {
        var i :| i in b.rows && Editable(b.rows[i]) && b.rows[i].slug == g;
        assert i in n.rows && n.rows[i] == b.rows[i];
      } else {
        assert b.nextRow in n.rows && Editable(n.rows[b.nextRow]) && n.rows[b.nextRow].slug == slug;
      }
    }
  }

  lemma CreateHolds(b: Db, slug: string, server: Server, host: bool, shown: Redacted)
    requires Sound(b)
    ensures var n := CreateRow(b, slug, server, host, shown);
            && Holds(n.rows[b.nextRow], n.secrets, server, host, shown) && b.nextRow !in b.rows
            && (forall i, s: Server, h: bool, r: Redacted | i in b.rows && Holds(b.rows[i], b.secrets, s, h, r) ::
                  Holds(n.rows[i], n.secrets, s, h, r))
            && forall i | i in b.rows :: SameSecret(b.secrets, n.secrets, b.rows[i].secret)
  {
  }

  // ---- The result read back ----

  function RowEntry(db: Db, id: int): Entry
    requires id in db.rows && SecretsOwned(db.rows, db.secrets)
  {
    var row := db.rows[id];
    Entry(row.plain, if row.secret.Some? then db.secrets[row.secret.value] else Material(None, None, None, [], None),
          Redacted("", []))
  }

  /** The configuration with its values shown, as the editor would read it. */
  ghost function Current(db: Db): Config
    requires Sound(db)
  {
    map id | id in db.rows && Editable(db.rows[id]) :: db.rows[id].slug := Revealed(RowEntry(db, id))
  }

  /** An empty credential counts as none. */
  function Normal(server: Server): Server {
    if server.credential == Some("") then server.(credential := None) else server
  }

  predicate Leftover(db: Db, config: Config) {
    INHERITED !in config && exists id | id in db.rows :: Editable(db.rows[id]) && db.rows[id].slug == INHERITED
  }

  lemma HeldReadsBack(db: Db, id: int, server: Server, host: bool, shown: Redacted)
    requires Sound(db) && id in db.rows && Holds(db.rows[id], db.secrets, server, host, shown)
    ensures Revealed(RowEntry(db, id)) == Normal(server)
  {
  }

  lemma CurrentAt(db: Db, id: int)
    requires Sound(db) && id in db.rows && Editable(db.rows[id])
    ensures db.rows[id].slug in Current(db) && Current(db)[db.rows[id].slug] == Revealed(RowEntry(db, id))
  {
  }

  /** After a commit the editor reads back every previewed server exactly. */
  lemma AppliedReadsBack(a: Db, b: Db, config: Config, host: bool, shown: Shown, slug: string)
    requires config.Keys <= shown.Keys && Sound(a) && Applied(a, b, config, host, shown) && slug in config
    ensures slug in Current(b) && Current(b)[slug] == Normal(config[slug])
  {
    hide Holds, Sound, Current, Revealed;
    var id :| id in b.rows && Editable(b.rows[id]) && b.rows[id].slug == slug;
    CurrentAt(b, id);
    if id in a.rows {
      assert OldRow(a, b, config, host, shown, config.Keys, id);
      SameSlug(a, b, config, host, shown, id);
    } else {
      assert NewRow(a, b, config, host, shown, config.Keys, id);
    }
    HeldReadsBack(b, id, config[slug], host, shown[slug]);
  }

  /** An old row that is editable now was editable before. */
  lemma SameSlug(a: Db, b: Db, config: Config, host: bool, shown: Shown, id: int)
    requires config.Keys <= shown.Keys && id in a.rows && id in b.rows && OldRow(a, b, config, host, shown, config.Keys, id) && Editable(b.rows[id])
    ensures Editable(a.rows[id]) && a.rows[id].slug == b.rows[id].slug
  {
  }

  /**
   After a commit the editable rows are the previewed servers and no others, exactly unless a row
   named after the inherited property is left behind.
   */
  lemma AppliedExact(a: Db, b: Db, config: Config, host: bool, shown: Shown)
    requires config.Keys <= shown.Keys && Sound(a) && Applied(a, b, config, host, shown)
    ensures Current(b).Keys == config.Keys <==> !Leftover(a, config)
  {
    hide Holds, Sound, Revealed, Current;
    forall slug | slug in config ensures slug in Current(b) { AppliedReadsBack(a, b, config, host, shown, slug); }
    forall slug | slug in Current(b) && slug !in config
      ensures slug == INHERITED && Leftover(a, config)
    {
      CurrentFrom(b, slug);
      var id :| id in b.rows && Editable(b.rows[id]) && b.rows[id].slug == slug;
      OnlyOld(a, b, config, host, shown, config.Keys, id);
      assert OldRow(a, b, config, host, shown, config.Keys, id);
    }
    if Leftover(a, config) {
      var id :| id in a.rows && Editable(a.rows[id]) && a.rows[id].slug == INHERITED;
      assert OldRow(a, b, config, host, shown, config.Keys, id);
      CurrentAt(b, id);
    }
  }

  lemma CurrentFrom(db: Db, slug: string)
    requires Sound(db) && slug in Current(db)
    ensures HasRow(db.rows, slug)
  {
    var id :| id in db.rows && Editable(db.rows[id]) && db.rows[id].slug == slug;
  }

  /** The two servers look the same in the editor's plain columns. */
  predicate LooksSame(a: Server, b: Server) {
    a.name == b.name && a.description == b.description && a.enabled == b.enabled
  }

  lemma AppliedRow(a: Db, b: Db, config: Config, host: bool, shown: Shown, id: int)
    requires config.Keys <= shown.Keys && Applied(a, b, config, host, shown)
    requires id in b.rows && Editable(b.rows[id]) && b.rows[id].slug in config
    ensures var slug := b.rows[id].slug; Holds(b.rows[id], b.secrets, config[slug], host, shown[slug])
  {
    hide Holds, Sound;
    if id in a.rows {
      assert OldRow(a, b, config, host, shown, config.Keys, id);
    } else {
      assert NewRow(a, b, config, host, shown, config.Keys, id);
    }
  }

  /**
   The plain columns hold nothing of a previewed server but its name, description, enabled flag and
   redacted command line: commits that differ in anything else leave the same plain columns.
   */
  lemma PlainHides(a: Db, b: Db, c: Db, config: Config, other: Config, host: bool, shown: Shown, i: int, j: int)
    requires config.Keys == other.Keys && config.Keys <= shown.Keys
    requires forall slug | slug in config :: LooksSame(config[slug], other[slug])
    requires Applied(a, b, config, host, shown) && Applied(a, c, other, host, shown)
    requires i in b.rows && j in c.rows && Editable(b.rows[i]) && Editable(c.rows[j])
    requires b.rows[i].slug == c.rows[j].slug && b.rows[i].slug in config
    ensures b.rows[i].plain == c.rows[j].plain
  {
    hide Applied;
    AppliedRow(a, b, config, host, shown, i);
    AppliedRow(a, c, other, host, shown, j);
  }

  function OneRow(): Db {
    Db(map[0 := Row(INHERITED, Plain("n", "", true, Some("c"), []), 1, false, true, true, None)], map[], 1, 0)
  }

  /** Such a row survives an apply whose preview deleted it. */
  lemma InheritedNameSurvives()
    ensures Sound(OneRow()) && Applied(OneRow(), OneRow(), map[], false, map[])
    ensures Leftover(OneRow(), map[])
  {
    var config: Config := map[];
    assert config.Keys == {};
    assert OldRow(OneRow(), OneRow(), config, false, map[], {}, 0);
  }

  // ---- Staging and restoring ----

  predicate Staged(row: Row) { row.host && Editable(row) }

  function Disabled(row: Row): Row {
    row.(plain := row.plain.(enabled := false), revision := row.revision + 1)
  }

  function AfterStage(row: Row): Row { if Staged(row) then Disabled(row) else row }

  function StageAll(db: Db): Db { db.(rows := map id | id in db.rows :: AfterStage(db.rows[id])) }

  /** `was` is the row as staging read it. */
  function Restore(db: Db, id: int, was: Row): Db {
    if id in db.rows && db.rows[id].revision == was.revision + 1
    then db.(rows := db.rows[id := db.rows[id].(plain := db.rows[id].plain.(enabled := was.plain.enabled),
                                                revision := was.revision + 2)])
    else db
  }

  lemma StageSound(db: Db)
    requires Sound(db)
    ensures Sound(StageAll(db))
  {
    var n := StageAll(db);
    StageKeeps(db);
    forall s | s in n.secrets ensures exists a | a in n.rows :: n.rows[a].secret == Some(s) {
      var a :| a in db.rows && db.rows[a].secret == Some(s);
      assert a in n.rows && n.rows[a].secret == Some(s);
    }
  }

  lemma StageKeeps(db: Db)
    requires SlugsUnique(db.rows) && SecretsOwned(db.rows, db.secrets) && Fresh(db)
    ensures SlugsUnique(StageAll(db).rows) && SecretsOwned(StageAll(db).rows, db.secrets) && Fresh(StageAll(db))
  {
    var n := StageAll(db).rows;
    assert forall id | id in n :: n[id].slug == db.rows[id].slug && n[id].secret == db.rows[id].secret;
  }

  lemma RestoreSound(db: Db, id: int, was: Row)
    requires Sound(db)
    ensures Sound(Restore(db, id, was))
  {
    var n := Restore(db, id, was);
    forall s | s in n.secrets ensures exists a | a in n.rows :: n.rows[a].secret == Some(s) {
      var a :| a in db.rows && db.rows[a].secret == Some(s);
      assert a in n.rows && n.rows[a].secret == Some(s);
    }
  }

  ghost predicate Taken(rows: map<int, Row>, slug: string) {
    exists id | id in rows :: rows[id].slug == slug && !Editable(rows[id])
  }

  /** Why a commit is refused: the stored secret cannot be read, or another row has the name. */
  ghost predicate Blocked(rows: map<int, Row>, unreadable: set<string>, slug: string) {
    (slug in unreadable && HasRow(rows, slug)) || Taken(rows, slug)
  }

  lemma SlugRows(a: Db, b: Db, config: Config, host: bool, shown: Shown, done: set<string>, slug: string)
    requires done <= config.Keys && done <= shown.Keys && Progress(a, b, config, host, shown, done) && slug in config && slug !in done
    ensures HasRow(b.rows, slug) <==> HasRow(a.rows, slug)
    ensures Taken(b.rows, slug) <==> Taken(a.rows, slug)
    ensures SlugsUnique(b.rows)
  {
    hide Holds;
    forall id | id in a.rows && a.rows[id].slug == slug ensures id in b.rows && b.rows[id] == a.rows[id] {
      assert OldRow(a, b, config, host, shown, done, id);
    }
    forall id | id in b.rows && b.rows[id].slug == slug ensures id in a.rows && b.rows[id] == a.rows[id] {
      OnlyOld(a, b, config, host, shown, done, id);
      assert OldRow(a, b, config, host, shown, done, id);
    }
  }

  lemma OnlyOld(a: Db, b: Db, config: Config, host: bool, shown: Shown, done: set<string>, id: int)
    requires done <= config.Keys && done <= shown.Keys && Progress(a, b, config, host, shown, done) && id in b.rows && b.rows[id].slug !in done
    ensures id in a.rows
  {
  }

  lemma RowOrTaken(rows: map<int, Row>, slug: string)
    requires SlugsUnique(rows)
    ensures HasRow(rows, slug) ==> !Taken(rows, slug)
    ensures (forall id | id in rows :: rows[id].slug != slug) <==> !HasRow(rows, slug) && !Taken(rows, slug)
  {
  }

  // ---- The transactions, step by step ----

  class ServerTable {
    var db: Db

    constructor (db: Db)
      ensures this.db == db
    {
      this.db := db;
    }

    /** `removeRows` over the editable rows that the preview does not name. */
    method RemoveRows(config: Config)
      requires Sound(db)
      modifies this
      ensures Sound(db) && db.nextRow == old(db).nextRow
      ensures forall id :: id in db.rows <==>
                id in old(db).rows && !(old(db).rows[id].local && old(db).rows[id].editable &&
                                        old(db).rows[id].slug !in config && old(db).rows[id].slug != INHERITED)
      ensures forall id | id in db.rows :: db.rows[id] == old(db).rows[id]
      ensures forall s | s in db.secrets :: s in old(db).secrets && db.secrets[s] == old(db).secrets[s]
    {
      ghost var was := db;
      var left := set id | id in db.rows && Drops(config, db.rows[id]);
      while left != {}
        invariant Sound(db) && db.nextRow == was.nextRow
        invariant forall id | id in left :: id in was.rows && Drops(config, was.rows[id])
        invariant forall id :: id in db.rows <==> id in was.rows && (id in left || !Drops(config, was.rows[id]))
        invariant forall id | id in db.rows :: db.rows[id] == was.rows[id]
        invariant forall s | s in db.secrets :: s in was.secrets && db.secrets[s] == was.secrets[s]
        decreases |left|
      {
        NonEmpty(left);
        var id :| id in left;
        RemoveSound(db, id);
        db := RemoveRow(db, id);
        left := left - {id};
      }
    }

    /** The committing transaction; a taken slug or an unreadable stored secret rolls everything back. */
    method Commit(config: Config, host: bool, shown: Shown, unreadable: set<string>) returns (ok: bool)
      requires Sound(db) && config.Keys <= shown.Keys
      modifies this
      ensures ok <==> forall slug | slug in config :: !Blocked(old(db).rows, unreadable, slug)
      ensures ok ==> Applied(old(db), db, config, host, shown)
      ensures !ok ==> db == old(db)
    {
      hide Sound, OldRow, NewRow, HasRow, Taken, Progress, Holds, CreateRow, UpdateRow, SlugsUnique;
      var start := db;
      RemoveRows(config);
      RemovedAll(start, db, config, host, shown);
      var left := config.Keys;
      ghost var done: set<string> := {};
      while left != {}
        invariant left !! done && left + done == config.Keys
        invariant Progress(start, db, config, host, shown, done)
        invariant forall slug | slug in done :: !Blocked(start.rows, unreadable, slug)
        decreases |left|
      {
        var slug :| slug in left;
        left := left - {slug};
        SlugRows(start, db, config, host, shown, done, slug);
        RowOrTaken(db.rows, slug);
        if id :| id in db.rows && Editable(db.rows[id]) && db.rows[id].slug == slug {
          RowThere(db.rows, slug, id);
          if slug in unreadable {
            db := start;
            return false;
          }
          UpdateProgress(start, db, config, host, shown, done, slug, id);
          db := UpdateRow(db, id, config[slug], host, shown[slug]);
        } else {
          RowAbsent(db.rows, slug);
          if exists id | id in db.rows :: db.rows[id].slug == slug {
            db := start;
            return false;
          }
          FreshOf(start);
          CreateProgress(start, db, config, host, shown, done, slug);
          db := CreateRow(db, slug, config[slug], host, shown[slug]);
        }
        done := done + {slug};
      }
      assert done == config.Keys;
      ok := true;
    }

    /** Disables the host rows under a new revision; returns them as they were read. */
    method Stage() returns (hosts: map<int, Row>)
      modifies this
      ensures db == StageAll(old(db)) && db == old(db).(rows := db.rows) && db.rows.Keys == old(db).rows.Keys
      ensures forall id | id in db.rows ::
                var row := old(db).rows[id];
                db.rows[id] == if row.host && row.local && row.editable
                               then row.(plain := row.plain.(enabled := false), revision := row.revision + 1) else row
      ensures forall id :: id in hosts <==>
                id in old(db).rows && old(db).rows[id].host && old(db).rows[id].local && old(db).rows[id].editable
      ensures forall id | id in hosts :: hosts[id] == old(db).rows[id]
    {
      ghost var was := db;
      hosts := map id | id in db.rows && Staged(db.rows[id]) :: db.rows[id];
      var left := hosts.Keys;
      while left != {}
        invariant left <= hosts.Keys && db == was.(rows := db.rows) && db.rows.Keys == was.rows.Keys
        invariant forall id | id in was.rows :: db.rows[id] == if id in left then was.rows[id] else AfterStage(was.rows[id])
        decreases |left|
      {
        NonEmpty(left);
        var id :| id in left;
        left := left - {id};
        db := db.(rows := db.rows[id := Disabled(db.rows[id])]);
      }
      StagedRows(was, db);
    }

    /** The error path: each staged row still under its staged revision gets its flag back. */
    method RestoreAll(hosts: map<int, Row>)
      modifies this
      ensures db == old(db).(rows := db.rows) && db.rows.Keys == old(db).rows.Keys
      ensures forall id | id in db.rows ::
                var row := old(db).rows[id];
                db.rows[id] == if id in hosts && row.revision == hosts[id].revision + 1
                               then row.(plain := row.plain.(enabled := hosts[id].plain.enabled), revision := row.revision + 1)
                               else row
    {
      ghost var was := db;
      var left := hosts.Keys;
      while left != {}
        invariant left <= hosts.Keys && db == was.(rows := db.rows) && db.rows.Keys == was.rows.Keys
        invariant forall id | id in was.rows ::
                    db.rows[id] == (if id in hosts && id !in left then Restore(was, id, hosts[id]) else was).rows[id]
        decreases |left|
      {
        NonEmpty(left);
        var id :| id in left;
        left := left - {id};
        db := Restore(db, id, hosts[id]);
      }
    }
  }

  lemma RowThere(rows: map<int, Row>, slug: string, id: int)
    requires id in rows && Editable(rows[id]) && rows[id].slug == slug
    ensures HasRow(rows, slug)
  {
  }

  lemma RowAbsent(rows: map<int, Row>, slug: string)
    ensures HasRow(rows, slug) <==> exists id :: id in rows && Editable(rows[id]) && rows[id].slug == slug
  {
  }

  lemma RemovedAll(was: Db, db: Db, config: Config, host: bool, shown: Shown)
    requires Sound(db) && db.nextRow == was.nextRow
    requires forall s | s in db.secrets :: s in was.secrets && db.secrets[s] == was.secrets[s]
    requires forall id :: id in db.rows <==> id in was.rows && !Drops(config, was.rows[id])
    requires forall id | id in db.rows :: db.rows[id] == was.rows[id]
    ensures Progress(was, db, config, host, shown, {})
  {
    forall id | id in was.rows ensures OldRow(was, db, config, host, shown, {}, id) {
      if id in db.rows { KeptSecret(was, db, id); }
    }
  }

  lemma KeptSecret(was: Db, db: Db, id: int)
    requires Sound(db) && id in was.rows && id in db.rows && db.rows[id] == was.rows[id]
    requires forall s | s in db.secrets :: s in was.secrets && db.secrets[s] == was.secrets[s]
    ensures SameSecret(was.secrets, db.secrets, was.rows[id].secret)
  {
    if db.rows[id].secret.Some? {
      var x := db.rows[id].secret.value;
      assert x in db.secrets && db.secrets[x] == was.secrets[x];
    }
  }

  lemma StagedRows(was: Db, db: Db)
    requires db == was.(rows := db.rows) && db.rows.Keys == was.rows.Keys
    requires forall id | id in was.rows :: db.rows[id] == AfterStage(was.rows[id])
    ensures db == StageAll(was)
  {
    var n := StageAll(was).rows;
    assert n.Keys == db.rows.Keys;
    assert forall id | id in n :: n[id] == db.rows[id];
    assert db.rows == n;
  }

  lemma NonEmpty(ids: set<int>)
    requires ids != {}
    ensures exists id :: id in ids
  {
    assert (forall id :: id !in ids) ==> ids == {};
  }

  lemma FreshOf(db: Db)
    requires Sound(db)
    ensures Fresh(db)
  {
  }
}
