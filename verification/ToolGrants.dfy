/**
 Which tool definitions stay allowed across re-sign-in, from apps/api/src/integration-connections.ts.
 A capture reads the row, asks the vendor for its tools, and commits later behind a revision check;
 anything may happen to the row in between. `approved` is history: the definition each tool id had
 when a space owner last allowed it or when the connection was first captured.
 */
module ToolGrants {
  import opened Options

  datatype Definition = Definition(digest: string, description: string)

  datatype Tool = Tool(id: string, definition: Definition, annotations: string)

  datatype Manifest = Manifest(tools: seq<Tool>, account: Option<string>, workspace: Option<string>)

  datatype Connection = Connected | AwaitingConsent | NotConnected | Failed

  datatype Row = Row(
    enabled: bool, revision: nat, state: Connection, manifest: Option<Manifest>,
    allowed: seq<string>, policies: map<string, string>, needsReview: bool, session: Option<nat>)

  datatype State = State(row: Row, snapshots: map<nat, Row>, nextRead: nat, nextSession: nat,
                         approved: map<string, Definition>)

  // ---- Lists ----

  function Find(tools: seq<Tool>, id: string): Option<Tool> {
    if tools == [] then None else if tools[0].id == id then Some(tools[0]) else Find(tools[1..], id)
  }

  function Ids(tools: seq<Tool>): seq<string> {
    if tools == [] then [] else [tools[0].id] + Ids(tools[1..])
  }

  function Kept(allowed: seq<string>, tools: seq<Tool>): (r: seq<string>)
    ensures forall id | id in r :: id in allowed && Find(tools, id).Some?
  {
    if allowed == [] then []
    else (if Find(tools, allowed[0]).Some? then [allowed[0]] else []) + Kept(allowed[1..], tools)
  }

  function Distinct(ids: seq<string>): (r: seq<string>)
    ensures forall id :: id in r <==> id in ids
    ensures |r| <= |ids|
  {
    if ids == [] then []
    else
      var rest := Distinct(ids[..|ids| - 1]);
      if ids[|ids| - 1] in rest then rest else rest + [ids[|ids| - 1]]
  }

  lemma {:induction false} FindFirst(tools: seq<Tool>, id: string)
    ensures match Find(tools, id)
            case Some(t) => t in tools && t.id == id
            case None => forall t | t in tools :: t.id != id
  {
    if tools != [] && tools[0].id != id {
      FindFirst(tools[1..], id);
      assert forall t | t in tools :: t == tools[0] || t in tools[1..];
    }
  }

  lemma {:induction false} IdsOf(tools: seq<Tool>, id: string)
    ensures id in Ids(tools) <==> exists t :: t in tools && t.id == id
  {
    if tools != [] {
      IdsOf(tools[1..], id);
      assert forall t | t in tools :: t == tools[0] || t in tools[1..];
      assert tools[0] in tools;
    }
  }

  predicate NoRepeats(ids: seq<string>) {
    forall i, j | 0 <= i < j < |ids| :: ids[i] != ids[j]
  }

  /** `part` is `whole` with some elements left out. */
  predicate Subsequence(part: seq<string>, whole: seq<string>) {
    part == [] ||
    (whole != [] && ((part[0] == whole[0] && Subsequence(part[1..], whole[1..])) || Subsequence(part, whole[1..])))
  }

  /** Every allowed tool that is still offered is kept, once for each time it was there, in the same order. */
  lemma {:induction false} KeptExactly(allowed: seq<string>, tools: seq<Tool>)
    ensures forall id :: id in Kept(allowed, tools) <==> id in allowed && exists t :: t in tools && t.id == id
    ensures Subsequence(Kept(allowed, tools), allowed)
    ensures NoRepeats(allowed) ==> NoRepeats(Kept(allowed, tools))
  {
    if allowed != [] {
      KeptExactly(allowed[1..], tools);
      FindFirst(tools, allowed[0]);
      var rest := Kept(allowed[1..], tools);
      forall id | id in allowed ensures id == allowed[0] || id in allowed[1..] {}
      if Find(tools, allowed[0]).Some? {
        assert Kept(allowed, tools) == [allowed[0]] + rest;
        assert Kept(allowed, tools)[1..] == rest;
        assert NoRepeats(allowed) ==> allowed[0] !in allowed[1..];
      } else {
        assert Kept(allowed, tools) == rest;
      }
    }
  }

  lemma {:induction false} IdsExactly(tools: seq<Tool>)
    ensures |Ids(tools)| == |tools| && forall i | 0 <= i < |tools| :: Ids(tools)[i] == tools[i].id
    ensures UniqueIds(tools) ==> NoRepeats(Ids(tools))
  {
    if tools != [] { IdsExactly(tools[1..]); }
  }

  /** Repeated ids are dropped, and what comes later never changes the order of what came first. */
  lemma {:induction false} DistinctExactly(ids: seq<string>, more: seq<string>)
    ensures NoRepeats(Distinct(ids))
    ensures Distinct(ids) <= Distinct(ids + more)
    decreases |ids| + |more|
  {
    if more != [] {
      var fore, last := more[..|more| - 1], more[|more| - 1];
      DistinctExactly(ids, fore);
      assert (ids + more)[..|ids + more| - 1] == ids + fore && (ids + more)[|ids + more| - 1] == last;
    } else {
      assert ids + more == ids;
      if ids != [] { DistinctExactly(ids[..|ids| - 1], []); }
    }
  }

  // ---- The grant computation of `capture` ----

  /** A missing account or workspace keeps the known one while the connection is alive. */
  function Merged(before: Row, m: Manifest): Manifest {
    if before.manifest.Some? && (before.state.Connected? || before.state.AwaitingConsent?) then
      m.(account := if m.account.None? then before.manifest.value.account else m.account,
         workspace := if m.workspace.None? then before.manifest.value.workspace else m.workspace)
    else m
  }

  /** `reordered`: the sorted tool texts differ although they list the same tools. */
  predicate Changed(before: Row, m: Manifest, reordered: bool) {
    || before.manifest.None? || reordered
    || multiset(before.manifest.value.tools) != multiset(m.tools)
    || before.manifest.value.account != m.account
    || before.manifest.value.workspace != m.workspace
  }

  predicate SameSignIn(before: Row, m: Manifest) {
    && before.state.AwaitingConsent?
    && before.manifest.Some?
    && before.manifest.value.account == m.account
    && before.manifest.value.workspace == m.workspace
    && forall t | t in before.manifest.value.tools ::
         var next := Find(m.tools, t.id);
         next.None? || next.value.definition == t.definition
  }

  predicate AddedTools(before: Row, m: Manifest) {
    before.manifest.Some? && exists t | t in m.tools :: Find(before.manifest.value.tools, t.id).None?
  }

  function Captured(before: Row, current: Row, m: Manifest): Row {
    var row := current.(manifest := Some(m), state := Connected, revision := current.revision + 1);
    if SameSignIn(before, m) then
      var kept := Kept(before.allowed, m.tools);
      row.(allowed := kept, policies := map id | id in before.policies && id in kept :: before.policies[id],
           needsReview := AddedTools(before, m) || before.needsReview)
    else
      row.(allowed := if before.manifest.Some? then [] else Ids(m.tools),
           policies := map[], needsReview := before.manifest.Some?)
  }

  function Definitions(tools: seq<Tool>): map<string, Definition> {
    if tools == [] then map[] else Definitions(tools[1..])[tools[0].id := tools[0].definition]
  }

  function ApprovedBy(s: State, before: Row, m: Manifest): map<string, Definition> {
    if before.manifest.None? then s.approved + Definitions(m.tools) else s.approved
  }

  /** A list of tools that repeats a name is refused before it becomes a manifest. */
  predicate UniqueIds(tools: seq<Tool>) {
    forall i, j | 0 <= i < j < |tools| :: tools[i].id != tools[j].id
  }

  /** The committing transaction: refused unless the row is enabled and unchanged since it was read. */
  function CommitCapture(s: State, before: Row, vendor: Manifest, reordered: bool, session: Option<nat>): State {
    var m := Merged(before, vendor);
    var row := s.row;
    if !UniqueIds(vendor.tools) then s
    else if !row.enabled || row.revision != before.revision || (session.Some? && row.session != session) then s
    else
      var free := if session.Some? then row.(session := None) else row;
      if Changed(before, m, reordered) then
        s.(row := Captured(before, free, m),
           approved := ApprovedBy(s, before, m))
      else s.(row := free.(manifest := Some(m), state := Connected))
  }

  // ---- Decisions of the members ----

  function Offered(m: Manifest, disabled: set<string>): set<string> {
    set t | t in m.tools && t.id !in disabled :: t.id
  }

  function Approve(s: State, ids: seq<string>, m: Manifest): map<string, Definition> {
    s.approved + (map id | id in ids && Find(m.tools, id).Some? :: Find(m.tools, id).value.definition)
  }

  function Assign(s: State, toolIds: seq<string>, disabled: set<string>, owner: bool,
                  policies: Option<map<string, string>>): State {
    var row := s.row;
    if !row.enabled || !row.state.Connected? || row.manifest.None? then s
    else if exists id | id in toolIds :: id !in Offered(row.manifest.value, disabled) then s
    else if policies.Some? && !owner then s
    else
      var ids := Distinct(toolIds);
      var same := !row.needsReview && |ids| == |row.allowed| && forall id | id in ids :: id in row.allowed;
      if !same && !owner then s
      else
        s.(row := row.(allowed := ids, needsReview := false, revision := row.revision + 1,
                       policies := if policies.Some? then policies.value else row.policies),
           approved := if owner then Approve(s, ids, row.manifest.value) else s.approved)
  }

  function Review(s: State, revision: nat, bot: bool, approveSpace: bool, toolIds: seq<string>,
                  disabled: set<string>, owner: bool): State {
    var row := s.row;
    if !row.enabled || row.revision != revision || !row.state.Connected? || row.manifest.None? then s
    else
      var offered := Offered(row.manifest.value, disabled);
      var selected := Distinct(toolIds);
      if exists id | id in selected :: id !in offered then s
      else if !bot || approveSpace then
        if !owner then s
        else
          var kept := if bot && !row.needsReview then Distinct(KeptIn(row.allowed, offered) + selected) else selected;
          s.(row := row.(allowed := kept, needsReview := false, revision := row.revision + 1),
             approved := Approve(s, selected, row.manifest.value))
      else if row.needsReview || exists id | id in selected :: id !in row.allowed then s
      else s.(row := row.(revision := row.revision + 1))
  }

  function KeptIn(ids: seq<string>, offered: set<string>): (r: seq<string>)
    ensures forall id | id in r :: id in ids && id in offered
  {
    if ids == [] then [] else (if ids[0] in offered then [ids[0]] else []) + KeptIn(ids[1..], offered)
  }

  function Revoke(s: State, preserve: bool): State {
    var row := s.row.(enabled := false, state := NotConnected, revision := s.row.revision + 1);
    s.(row := if preserve then row else row.(manifest := None, allowed := [], policies := map[]))
  }

  datatype Event =
    | Reads
    | Commits(read: nat, vendor: Manifest, reordered: bool, session: Option<nat>)
    | Assigns(toolIds: seq<string>, disabled: set<string>, owner: bool, policies: Option<map<string, string>>)
    | Reviews(revision: nat, bot: bool, approveSpace: bool, toolIds: seq<string>, disabled: set<string>, owner: bool)
    | Revokes(preserve: bool)
    | Reopens
    | Claims(seen: Option<nat>, catalog: bool)
    | EndsAttempt(held: nat, state: Connection)
    | Fails(state: Connection)

  function Step(s: State, e: Event): State {
    match e
    case Reads =>
      if s.row.enabled then s.(snapshots := s.snapshots[s.nextRead := s.row], nextRead := s.nextRead + 1) else s
    case Commits(k, vendor, reordered, session) =>
      if k in s.snapshots then CommitCapture(s, s.snapshots[k], vendor, reordered, session) else s
    case Assigns(ids, disabled, owner, policies) => Assign(s, ids, disabled, owner, policies)
    case Reviews(revision, bot, approveSpace, ids, disabled, owner) =>
      Review(s, revision, bot, approveSpace, ids, disabled, owner)
    case Revokes(preserve) => Revoke(s, preserve)
    case Reopens => s.(row := s.row.(enabled := true, state := AwaitingConsent))
    case Claims(seen, catalog) =>
      if s.row.enabled && s.row.session == seen
      then s.(row := s.row.(session := Some(s.nextSession),
                            state := if !catalog && !s.row.state.Connected? then NotConnected else s.row.state),
              nextSession := s.nextSession + 1) else s
    case EndsAttempt(session, state) =>
      if s.row.enabled && s.row.session == Some(session) then s.(row := s.row.(session := None, state := state)) else s
    case Fails(state) => if s.row.enabled then s.(row := s.row.(state := state)) else s
  }

  function Init(): State {
    State(Row(true, 0, AwaitingConsent, None, [], map[], false, None), map[], 0, 0, map[])
  }

  function Run(events: seq<Event>): State {
    if events == [] then Init() else Step(Run(events[..|events| - 1]), events[|events| - 1])
  }

  // ---- The invariant ----

  /** The manifest offers `id`, and under no other definition than `d`. */
  predicate OffersOnly(m: Manifest, id: string, d: Definition) {
    Find(m.tools, id).Some? && forall t | t in m.tools && t.id == id :: t.definition == d
  }

  predicate Backed(row: Row, approved: map<string, Definition>) {
    forall id | id in row.allowed ::
      id in approved && row.manifest.Some? && OffersOnly(row.manifest.value, id, approved[id])
  }

  predicate SameTools(a: Option<Manifest>, b: Option<Manifest>) {
    match (a, b)
    case (Some(x), Some(y)) => multiset(x.tools) == multiset(y.tools)
    case (None, None) => true
    case _ => false
  }

  /** A read that still carries the row's revision saw the row's grants. */
  predicate Fresh(before: Row, row: Row) {
    && before.revision <= row.revision
    && (before.revision == row.revision ==> before.allowed == row.allowed && SameTools(before.manifest, row.manifest))
  }

  predicate Inv(s: State) {
    && Backed(s.row, s.approved)
    && (forall k | k in s.snapshots :: k < s.nextRead && Fresh(s.snapshots[k], s.row))
  }

  lemma {:induction false} DefinitionsOf(tools: seq<Tool>, id: string)
    ensures id in Definitions(tools) <==> Find(tools, id).Some?
    ensures id in Definitions(tools) ==> Definitions(tools)[id] == Find(tools, id).value.definition
  {
    if tools != [] {
      DefinitionsOf(tools[1..], id);
    }
  }

  lemma SameOffer(a: Manifest, b: Manifest, id: string, d: Definition)
    requires multiset(a.tools) == multiset(b.tools) && OffersOnly(a, id, d)
    ensures OffersOnly(b, id, d)
  {
    FindFirst(a.tools, id);
    FindFirst(b.tools, id);
    assert forall t :: t in a.tools <==> t in multiset(a.tools);
    assert forall t :: t in b.tools <==> t in multiset(b.tools);
  }

  lemma OneTool(m: Manifest, id: string)
    requires UniqueIds(m.tools) && Find(m.tools, id).Some?
    ensures OffersOnly(m, id, Find(m.tools, id).value.definition)
  {
    FindFirst(m.tools, id);
    var f := Find(m.tools, id).value;
    forall t | t in m.tools && t.id == id ensures t == f {
      var i :| 0 <= i < |m.tools| && m.tools[i] == t;
      var j :| 0 <= j < |m.tools| && m.tools[j] == f;
    }
  }

  lemma FirstCapture(s: State, m: Manifest, id: string)
    requires UniqueIds(m.tools) && id in Ids(m.tools)
    ensures id in Definitions(m.tools)
    ensures OffersOnly(m, id, (s.approved + Definitions(m.tools))[id])
  {
    DefinitionsOf(m.tools, id);
    IdsOf(m.tools, id);
    FindFirst(m.tools, id);
    OneTool(m, id);
  }

  /** On re-sign-in a kept tool still has its approved definition. */
  lemma KeptStaysBacked(before: Row, m: Manifest, approved: map<string, Definition>, id: string)
    requires SameSignIn(before, m) && UniqueIds(m.tools) && id in Kept(before.allowed, m.tools)
    requires id in approved && OffersOnly(before.manifest.value, id, approved[id])
    ensures OffersOnly(m, id, approved[id])
  {
    FindFirst(m.tools, id);
    FindFirst(before.manifest.value.tools, id);
    var t := Find(before.manifest.value.tools, id).value;
    assert t in before.manifest.value.tools;
    OneTool(m, id);
  }

  lemma BackedWhenRead(s: State, before: Row)
    requires Backed(s.row, s.approved) && Fresh(before, s.row) && before.revision == s.row.revision
    ensures Backed(before, s.approved)
  {
    forall id | id in before.allowed
      ensures id in s.approved && before.manifest.Some? && OffersOnly(before.manifest.value, id, s.approved[id])
    {
      SameOffer(s.row.manifest.value, before.manifest.value, id, s.approved[id]);
    }
  }

  /** The ids a changed manifest leaves allowed. */
  function Granted(before: Row, m: Manifest): seq<string> {
    if SameSignIn(before, m) then Kept(before.allowed, m.tools)
    else if before.manifest.Some? then []
    else Ids(m.tools)
  }

  predicate Accepted(row: Row, before: Row, session: Option<nat>) {
    row.enabled && row.revision == before.revision && (session.Some? ==> row.session == session)
  }

  lemma ChangedBacked(s: State, before: Row, m: Manifest, current: Row)
    requires Backed(before, s.approved) && UniqueIds(m.tools)
    ensures Backed(Captured(before, current, m), ApprovedBy(s, before, m))
  {
    forall id | id in Granted(before, m)
      ensures id in ApprovedBy(s, before, m) && OffersOnly(m, id, ApprovedBy(s, before, m)[id])
    {
      if SameSignIn(before, m) {
        KeptStaysBacked(before, m, s.approved, id);
      } else {
        FirstCapture(s, m, id);
      }
    }
    CapturedGrants(before, current, m);
    BackedBy(Captured(before, current, m), m, ApprovedBy(s, before, m));
  }

  lemma CapturedGrants(before: Row, current: Row, m: Manifest)
    ensures Captured(before, current, m).allowed == Granted(before, m)
    ensures Captured(before, current, m).manifest == Some(m)
  {
  }

  lemma BackedBy(row: Row, m: Manifest, approved: map<string, Definition>)
    requires row.manifest == Some(m)
    requires forall id | id in row.allowed :: id in approved && OffersOnly(m, id, approved[id])
    ensures Backed(row, approved)
  {
  }

  /** A capture, however stale its read, leaves every allowed tool at its approved definition. */
  lemma CommitBacked(s: State, before: Row, vendor: Manifest, reordered: bool, session: Option<nat>)
    requires Inv(s) && Fresh(before, s.row)
    ensures Backed(CommitCapture(s, before, vendor, reordered, session).row,
                   CommitCapture(s, before, vendor, reordered, session).approved)
  {
    hide Captured, Definitions, Granted, UniqueIds;
    var m := Merged(before, vendor);
    if Accepted(s.row, before, session) && UniqueIds(vendor.tools) {
      BackedWhenRead(s, before);
      if Changed(before, m, reordered) {
        ChangedBacked(s, before, m, if session.Some? then s.row.(session := None) else s.row);
      } else {
        forall id | id in s.row.allowed ensures OffersOnly(m, id, s.approved[id]) {
          SameOffer(before.manifest.value, m, id, s.approved[id]);
        }
      }
    }
  }

  /**
   A capture over a known manifest never allows a tool that was not allowed before, and it asks for
   a review whenever the vendor added a tool, changed a definition, or another account signed in.
   */
  lemma NothingNewAllowed(s: State, before: Row, vendor: Manifest, reordered: bool, session: Option<nat>)
    requires Inv(s) && Fresh(before, s.row) && before.manifest.Some?
    ensures var n := CommitCapture(s, before, vendor, reordered, session);
            forall id | id in n.row.allowed :: id in s.row.allowed
    ensures var n := CommitCapture(s, before, vendor, reordered, session);
            var m := Merged(before, vendor);
            Accepted(s.row, before, session) && UniqueIds(vendor.tools) && Changed(before, m, reordered) ==>
              && (AddedTools(before, m) || !SameSignIn(before, m) ==> n.row.needsReview)
              && (!SameSignIn(before, m) ==> n.row.allowed == [])
  {
    hide SameSignIn, AddedTools, Definitions, Inv, Backed, Changed;
  }

  lemma CapturedBumps(before: Row, current: Row, m: Manifest)
    ensures Captured(before, current, m).revision == current.revision + 1
    ensures Captured(before, current, m).manifest == Some(m) && Captured(before, current, m).state.Connected?
  {
  }

  lemma CommitFresh(s: State, before: Row, vendor: Manifest, reordered: bool, session: Option<nat>, read: Row)
    requires Fresh(before, s.row) && Fresh(read, s.row)
    ensures Fresh(read, CommitCapture(s, before, vendor, reordered, session).row)
  {
    hide Captured, Definitions;
    CapturedBumps(before, s.row, Merged(before, vendor));
    CapturedBumps(before, s.row.(session := None), Merged(before, vendor));
  }

  lemma GrantedOnce(before: Row, m: Manifest)
    requires UniqueIds(m.tools) && NoRepeats(before.allowed)
    ensures NoRepeats(Granted(before, m))
  {
    hide SameSignIn, UniqueIds, NoRepeats;
    KeptExactly(before.allowed, m.tools);
    IdsExactly(m.tools);
    NoneTwice();
  }

  lemma NoneTwice()
    ensures NoRepeats([])
  {
  }

  lemma CommitKeepsReads(s: State, before: Row, vendor: Manifest, reordered: bool, session: Option<nat>)
    requires Fresh(before, s.row)
    ensures CommitCapture(s, before, vendor, reordered, session).snapshots == s.snapshots
    ensures CommitCapture(s, before, vendor, reordered, session).nextRead == s.nextRead
    ensures RowConsistent(s.row) ==> RowConsistent(CommitCapture(s, before, vendor, reordered, session).row)
  {
    hide Captured, Definitions, Changed, NoRepeats, UniqueIds, Granted;
    var m := Merged(before, vendor);
    CapturedBumps(before, s.row, m);
    CapturedBumps(before, s.row.(session := None), m);
    CapturedGrants(before, s.row, m);
    CapturedGrants(before, s.row.(session := None), m);
    if UniqueIds(vendor.tools) && NoRepeats(before.allowed) { GrantedOnce(before, m); }
  }

  lemma CommitInv(s: State, before: Row, vendor: Manifest, reordered: bool, session: Option<nat>)
    requires Inv(s) && Fresh(before, s.row) && RowConsistent(s.row)
    ensures Inv(CommitCapture(s, before, vendor, reordered, session))
    ensures RowConsistent(CommitCapture(s, before, vendor, reordered, session).row)
  {
    hide CommitCapture, Fresh, Backed, RowConsistent;
    CommitBacked(s, before, vendor, reordered, session);
    CommitKeepsReads(s, before, vendor, reordered, session);
    forall l | l in s.snapshots
      ensures Fresh(s.snapshots[l], CommitCapture(s, before, vendor, reordered, session).row)
    {
      CommitFresh(s, before, vendor, reordered, session, s.snapshots[l]);
    }
  }

  lemma ApprovedOffer(s: State, ids: seq<string>, m: Manifest, id: string)
    requires UniqueIds(m.tools) && id in ids && Find(m.tools, id).Some?
    ensures id in Approve(s, ids, m) && OffersOnly(m, id, Approve(s, ids, m)[id])
  {
    OneTool(m, id);
  }

  lemma AssignInv(s: State, ids: seq<string>, disabled: set<string>, owner: bool, policies: Option<map<string, string>>)
    requires Inv(s) && RowConsistent(s.row)
    ensures Inv(Assign(s, ids, disabled, owner, policies)) && RowConsistent(Assign(s, ids, disabled, owner, policies).row)
  {
    hide NoRepeats;
    var n := Assign(s, ids, disabled, owner, policies);
    DistinctExactly(ids, []);
    if n != s {
      var m := s.row.manifest.value;
      forall id | id in n.row.allowed
        ensures id in n.approved && OffersOnly(m, id, n.approved[id])
      {
        assert id in ids && id in Offered(m, disabled);
        if owner {
          FindFirst(m.tools, id);
          ApprovedOffer(s, Distinct(ids), m, id);
        }
      }
    }
  }

  lemma ReviewInv(s: State, revision: nat, bot: bool, approveSpace: bool, ids: seq<string>, disabled: set<string>, owner: bool)
    requires Inv(s) && RowConsistent(s.row)
    ensures Inv(Review(s, revision, bot, approveSpace, ids, disabled, owner))
    ensures RowConsistent(Review(s, revision, bot, approveSpace, ids, disabled, owner).row)
  {
    hide NoRepeats;
    var n := Review(s, revision, bot, approveSpace, ids, disabled, owner);
    DistinctExactly(ids, []);
    if n != s && (!bot || approveSpace) {
      var m := s.row.manifest.value;
      var selected := Distinct(ids);
      DistinctExactly(KeptIn(s.row.allowed, Offered(m, disabled)) + selected, []);
      forall id | id in n.row.allowed
        ensures id in n.approved && OffersOnly(m, id, n.approved[id])
      {
        if id in selected {
          FindFirst(m.tools, id);
          ApprovedOffer(s, selected, m, id);
        } else {
          assert id in s.row.allowed;
        }
      }
    }
  }

  /** A stored manifest lists every id once, and no tool is allowed twice. */
  predicate RowConsistent(row: Row) {
    (row.manifest.Some? ==> UniqueIds(row.manifest.value.tools)) && NoRepeats(row.allowed)
  }

  lemma StepInv(s: State, e: Event)
    requires Inv(s) && RowConsistent(s.row)
    ensures Inv(Step(s, e)) && RowConsistent(Step(s, e).row)
  {
    hide CommitCapture, Assign, Review, UniqueIds;
    match e
    case Commits(k, vendor, reordered, session) =>
      if k in s.snapshots {
        CommitInv(s, s.snapshots[k], vendor, reordered, session);
      }
    case Assigns(ids, disabled, owner, policies) => AssignInv(s, ids, disabled, owner, policies);
    case Reviews(revision, bot, approveSpace, ids, disabled, owner) =>
      ReviewInv(s, revision, bot, approveSpace, ids, disabled, owner);
    case _ =>
  }

  /**
   In every run, every allowed tool is in the stored manifest under exactly the definition that was
   approved for it, however stale the reads of the captures were.
   */
  lemma {:induction false} AllowedAsApproved(events: seq<Event>)
    ensures Inv(Run(events)) && RowConsistent(Run(events).row)
  {
    if events != [] {
      var before := events[..|events| - 1];
      AllowedAsApproved(before);
      StepInv(Run(before), events[|events| - 1]);
    }
  }

  lemma RunAdds(events: seq<Event>, e: Event)
    ensures Run(events + [e]) == Step(Run(events), e)
  {
    assert (events + [e])[..|events|] == events;
  }

  /** `captureIntegrationManifest`: what the vendor lists becomes a manifest unless a name comes twice. */
  method CaptureManifest(listed: seq<Tool>) returns (tools: Option<seq<Tool>>)
    ensures tools == if UniqueIds(listed) then Some(listed) else None
  {
    var ids: set<string> := {};
    var kept := [];
    for i := 0 to |listed|
      invariant kept == listed[..i] && UniqueIds(listed[..i])
      invariant forall id :: id in ids <==> exists j | 0 <= j < i :: listed[j].id == id
    {
      if listed[i].id in ids { return None; }
      ids := ids + {listed[i].id};
      kept := kept + [listed[i]];
    }
    assert listed[..|listed|] == listed;
    tools := Some(kept);
  }

  // ---- Sign-in attempts ----

  /** Attempt `k` was claimed and no longer holds the pending id. */
  predicate Over(s: State, k: nat) { k < s.nextSession && s.row.session != Some(k) }

  predicate ActsFor(e: Event, k: nat) {
    (e.Commits? && e.session == Some(k)) || (e.EndsAttempt? && e.held == k)
  }

  lemma OverStep(s: State, e: Event, k: nat)
    requires Over(s, k)
    ensures Over(Step(s, e), k)
    ensures ActsFor(e, k) ==> Step(s, e) == s
  {
    hide Captured, Definitions, Changed, Merged, Find, Kept, Distinct, KeptIn;
    if e.Commits? && e.read in s.snapshots {
      SessionAfterCommit(s, s.snapshots[e.read], e.vendor, e.reordered, e.session);
    }
  }

  lemma SessionAfterCommit(s: State, before: Row, vendor: Manifest, reordered: bool, session: Option<nat>)
    ensures var n := CommitCapture(s, before, vendor, reordered, session);
            n.nextSession == s.nextSession && (n.row.session == s.row.session || n.row.session == None)
    ensures session.Some? && s.row.session != session ==> CommitCapture(s, before, vendor, reordered, session) == s
  {
    hide Changed, Merged, Definitions, SameSignIn, AddedTools;
  }

  /** A superseded or released attempt never changes the connection again, whatever happens later. */
  lemma {:induction false} SupersededIsInert(events: seq<Event>, later: seq<Event>, k: nat, e: Event)
    requires Over(Run(events), k) && ActsFor(e, k)
    ensures Run(events + later + [e]) == Run(events + later)
    ensures Over(Run(events + later), k)
  {
    if later == [] {
      assert events + later == events;
    } else {
      var fore, last := later[..|later| - 1], later[|later| - 1];
      SupersededIsInert(events, fore, k, e);
      assert events + later == (events + fore) + [last];
      RunAdds(events + fore, last);
      OverStep(Run(events + fore), last, k);
    }
    RunAdds(events + later, e);
    OverStep(Run(events + later), e, k);
  }

  // ---- The stored row, updated in place ----

  /** A profile that could not be read does not erase a known identity. */
  method KeepIdentity(before: Row, vendor: Manifest) returns (m: Manifest)
    ensures m == Merged(before, vendor)
    ensures m.tools == vendor.tools
    ensures vendor.account.Some? ==> m.account == vendor.account
    ensures vendor.workspace.Some? ==> m.workspace == vendor.workspace
    ensures var alive := before.manifest.Some? && (before.state.Connected? || before.state.AwaitingConsent?);
            && (vendor.account.None? ==> m.account == if alive then before.manifest.value.account else None)
            && (vendor.workspace.None? ==> m.workspace == if alive then before.manifest.value.workspace else None)
  {
    m := vendor;
    if before.manifest.Some? && (before.state.Connected? || before.state.AwaitingConsent?) {
      if m.account.None? { m := m.(account := before.manifest.value.account); }
      if m.workspace.None? { m := m.(workspace := before.manifest.value.workspace); }
    }
  }

  /** The same account signed in again, and no tool it offered then has another definition now. */
  ghost predicate SignedInAgain(before: Row, m: Manifest) {
    && before.state.AwaitingConsent? && before.manifest.Some?
    && before.manifest.value.account == m.account && before.manifest.value.workspace == m.workspace
    && forall t, u | t in before.manifest.value.tools && u in m.tools && t.id == u.id :: t.definition == u.definition
  }

  ghost predicate Listed(m: Manifest, id: string) { exists t :: t in m.tools && t.id == id }

  /**
   What a changed manifest leaves: after the same sign-in every tool that was allowed and is still
   listed, with its policy; otherwise nothing; at the first capture everything the vendor lists.
   */
  ghost predicate GrantsOf(before: Row, m: Manifest, row: Row) {
    if SignedInAgain(before, m) then
      && (forall id :: id in row.allowed <==> id in before.allowed && Listed(m, id))
      && Subsequence(row.allowed, before.allowed)
      && (forall id :: id in row.policies <==> id in before.policies && id in row.allowed)
      && (forall id | id in row.policies :: row.policies[id] == before.policies[id])
      && (row.needsReview <==>
            before.needsReview || exists t :: t in m.tools && !Listed(before.manifest.value, t.id))
    else if before.manifest.Some? then row.allowed == [] && row.policies == map[] && row.needsReview
    else
      && |row.allowed| == |m.tools| && (forall i | 0 <= i < |m.tools| :: row.allowed[i] == m.tools[i].id)
      && row.policies == map[] && !row.needsReview
  }

  lemma SignInExactly(before: Row, m: Manifest)
    requires UniqueIds(m.tools)
    ensures SameSignIn(before, m) <==> SignedInAgain(before, m)
  {
    hide OffersOnly;
    if before.manifest.Some? {
      forall t | t in before.manifest.value.tools
        ensures (Find(m.tools, t.id).None? || Find(m.tools, t.id).value.definition == t.definition)
                <==> forall u | u in m.tools && t.id == u.id :: t.definition == u.definition
      {
        FindFirst(m.tools, t.id);
        if Find(m.tools, t.id).Some? { SoleTool(m, t.id); }
      }
    }
  }

  lemma SoleTool(m: Manifest, id: string)
    requires UniqueIds(m.tools) && Find(m.tools, id).Some?
    ensures forall u | u in m.tools && u.id == id :: u.definition == Find(m.tools, id).value.definition
  {
    OneTool(m, id);
  }

  lemma AddedExactly(before: Row, m: Manifest)
    requires before.manifest.Some?
    ensures AddedTools(before, m) <==> exists t :: t in m.tools && !Listed(before.manifest.value, t.id)
  {
    forall t | t in m.tools
      ensures Find(before.manifest.value.tools, t.id).None? <==> !Listed(before.manifest.value, t.id)
    {
      FindFirst(before.manifest.value.tools, t.id);
    }
  }

  lemma CapturedExactly(before: Row, current: Row, m: Manifest)
    requires UniqueIds(m.tools)
    ensures GrantsOf(before, m, Captured(before, current, m))
    ensures before.manifest.Some? ==> forall id | id in Captured(before, current, m).allowed :: id in before.allowed
  {
    hide SameSignIn, SignedInAgain, AddedTools, Subsequence, Kept, Ids, UniqueIds, Listed;
    SignInExactly(before, m);
    SignedInBefore(before, m);
    KeptListed(before.allowed, m);
    IdsExactly(m.tools);
    if before.manifest.Some? { AddedExactly(before, m); }
  }

  lemma KeptListed(allowed: seq<string>, m: Manifest)
    ensures forall id :: id in Kept(allowed, m.tools) <==> id in allowed && Listed(m, id)
    ensures Subsequence(Kept(allowed, m.tools), allowed)
  {
    KeptExactly(allowed, m.tools);
  }

  lemma SignedInBefore(before: Row, m: Manifest)
    ensures SignedInAgain(before, m) ==> before.manifest.Some?
  {
  }

  /** The grants of a changed manifest. */
  method Regrant(before: Row, current: Row, m: Manifest) returns (row: Row)
    requires UniqueIds(m.tools)
    ensures row == Captured(before, current, m) && GrantsOf(before, m, row)
    ensures row == current.(manifest := Some(m), state := Connected, revision := current.revision + 1,
                            allowed := row.allowed, policies := row.policies, needsReview := row.needsReview)
    ensures before.manifest.Some? ==> forall id | id in row.allowed :: id in before.allowed
  {
    hide SameSignIn, AddedTools, GrantsOf, Kept, Ids, UniqueIds;
    CapturedExactly(before, current, m);
    row := current.(manifest := Some(m), state := Connected, revision := current.revision + 1);
    if SameSignIn(before, m) {
      var kept := Kept(before.allowed, m.tools);
      row := row.(allowed := kept, policies := map id | id in before.policies && id in kept :: before.policies[id],
                  needsReview := AddedTools(before, m) || before.needsReview);
    } else {
      row := row.(allowed := if before.manifest.Some? then [] else Ids(m.tools),
                  policies := map[], needsReview := before.manifest.Some?);
    }
  }

  class Connections {
    var row: Row
    var nextSession: nat
    /** Everything that has happened to this connection, and the state it leads to. */
    ghost var events: seq<Event>
    ghost var state: State

    ghost predicate Valid() reads this {
      && state == Run(events) && state.row == row && state.nextSession == nextSession
      && Inv(state) && RowConsistent(row)
    }

    /** Every allowed tool is offered, under exactly the definition that was approved for it. */
    ghost predicate AllApproved() reads this { Backed(row, state.approved) }

    constructor ()
      ensures Valid() && events == [] && row.allowed == []
    {
      row := Row(true, 0, AwaitingConsent, None, [], map[], false, None);
      nextSession := 0;
      state := Init();
      events := [];
    }

    /** What `capture` reads before it asks the vendor. */
    method Read() returns (before: Option<Row>)
      requires Valid()
      modifies this`state, this`events
      ensures Valid() && events == old(events) + [Reads]
      ensures before.Some? <==> row.enabled
      ensures before.Some? ==> old(state).nextRead in state.snapshots
                               && before == Some(state.snapshots[old(state).nextRead])
    {
      Record(Reads);
      before := if row.enabled then Some(row) else None;
    }

    ghost method Record(e: Event)
      requires Valid()
      modifies this`state, this`events
      ensures events == old(events) + [e] && state == Run(events) && state == Step(old(state), e)
      ensures Inv(state) && RowConsistent(state.row) && Backed(state.row, state.approved)
    {
      hide Step, Inv, RowConsistent, Run, Backed;
      RunAdds(events, e);
      StepInv(state, e);
      state := Step(state, e);
      events := events + [e];
      BackedOf(state);
    }

    /** The committing transaction of a capture that read `before`. */
    method Commit(ghost k: nat, before: Row, vendor: Manifest, reordered: bool, session: Option<nat>) returns (ok: bool)
      requires Valid() && k in state.snapshots && state.snapshots[k] == before
      modifies this
      ensures Valid() && AllApproved() && events == old(events) + [Commits(k, vendor, reordered, session)]
      ensures ok <==> UniqueIds(vendor.tools) && old(Accepted(row, before, session))
      ensures !ok ==> row == old(row)
      ensures ok ==> row.state.Connected? && row.manifest == Some(Merged(before, vendor))
      ensures before.manifest.Some? ==> forall id | id in row.allowed :: id in old(row).allowed
      ensures ok ==> row.enabled && row.session == if session.Some? then None else old(row).session
      ensures ok ==>
                var m := Merged(before, vendor);
                if || before.manifest.None? || reordered
                   || multiset(before.manifest.value.tools) != multiset(m.tools)
                   || before.manifest.value.account != m.account || before.manifest.value.workspace != m.workspace
                then row.revision == old(row).revision + 1 && GrantsOf(before, m, row)
                else row == old(row).(manifest := row.manifest, state := row.state, session := row.session)
    {
      hide Inv, RowConsistent, Backed, UniqueIds, Step, Run, Captured, Merged, ApprovedBy, GrantsOf;
      NewIdsOnlyAtFirst(state, before, vendor, reordered, session);
      CommitStep(state, k, vendor, reordered, session);
      CapturedBumps(before, row, Merged(before, vendor));
      CapturedBumps(before, row.(session := None), Merged(before, vendor));
      Record(Commits(k, vendor, reordered, session));
      var tools := CaptureManifest(vendor.tools);
      if tools.None? { return false; }
      var m := KeepIdentity(before, vendor);
      ok := row.enabled && row.revision == before.revision && (session.None? || row.session == session);
      if !ok { return; }
      if session.Some? { row := row.(session := None); }
      if Changed(before, m, reordered) {
        row := Regrant(before, row, m);
      } else {
        row := row.(manifest := Some(m), state := Connected);
      }
    }

    /** An owner, or a member who changes nothing, sets the tools of the space. */
    method Assign(toolIds: seq<string>, disabled: set<string>, owner: bool, policies: Option<map<string, string>>)
      returns (ok: bool)
      requires Valid()
      modifies this
      ensures Valid() && AllApproved() && events == old(events) + [Assigns(toolIds, disabled, owner, policies)]
      ensures !ok ==> row == old(row)
      ensures ok <==>
                && old(row).enabled && old(row).state.Connected? && old(row).manifest.Some?
                && (forall id | id in toolIds :: id !in disabled && Listed(old(row).manifest.value, id))
                && (owner || (policies.None? && !old(row).needsReview &&
                              forall id :: id in toolIds <==> id in old(row).allowed))
      ensures ok ==> forall id :: id in row.allowed <==> id in toolIds
      ensures ok ==> NoRepeats(row.allowed)
      ensures ok ==> row == old(row).(allowed := row.allowed, needsReview := false, revision := old(row).revision + 1,
                                      policies := if policies.Some? then policies.value else old(row).policies)
    {
      hide Inv, Backed, Run, CommitCapture, NoRepeats, UniqueIds, Step;
      ghost var was := row;
      Record(Assigns(toolIds, disabled, owner, policies));
      AssignStep(old(state), toolIds, disabled, owner, policies);
      ok := false;
      if !row.enabled || !row.state.Connected? || row.manifest.None? { return; }
      var names := Offered(row.manifest.value, disabled);
      OfferedExactly(row.manifest.value, disabled);
      if exists id | id in toolIds :: id !in names { return; }
      if policies.Some? && !owner { return; }
      var ids := Distinct(toolIds);
      DistinctExactly(toolIds, []);
      SameIds(ids, row.allowed);
      if row.needsReview || |ids| != |row.allowed| || exists id | id in ids :: id !in row.allowed {
        if !owner { return; }
      }
      row := row.(allowed := ids, needsReview := false, revision := row.revision + 1);
      if policies.Some? { row := row.(policies := policies.value); }
      ok := true;
    }

    /** A review for the space, for one bot, or for one bot and the space. */
    method Review(revision: nat, bot: bool, approveSpace: bool, toolIds: seq<string>, disabled: set<string>, owner: bool)
      returns (ok: bool)
      requires Valid()
      modifies this
      ensures Valid() && AllApproved()
      ensures events == old(events) + [Reviews(revision, bot, approveSpace, toolIds, disabled, owner)]
      ensures !ok ==> row == old(row)
      ensures ok <==>
                && old(row).enabled && old(row).revision == revision
                && old(row).state.Connected? && old(row).manifest.Some?
                && (forall id | id in toolIds :: id !in disabled && Listed(old(row).manifest.value, id))
                && if !bot || approveSpace then owner
                   else !old(row).needsReview && forall id | id in toolIds :: id in old(row).allowed
      ensures ok && (!bot || approveSpace) ==>
                && row == old(row).(allowed := row.allowed, needsReview := false, revision := revision + 1)
                && NoRepeats(row.allowed)
                && forall id :: id in row.allowed <==>
                     || id in toolIds
                     || (bot && !old(row).needsReview && id in old(row).allowed && id !in disabled
                         && Listed(old(row).manifest.value, id))
      ensures ok && bot && !approveSpace ==> row == old(row).(revision := revision + 1)
    {
      hide Inv, Backed, Run, CommitCapture, NoRepeats, UniqueIds, Step;
      Record(Reviews(revision, bot, approveSpace, toolIds, disabled, owner));
      ReviewStep(old(state), revision, bot, approveSpace, toolIds, disabled, owner);
      ok := false;
      if !row.enabled || row.revision != revision { return; }
      if !row.state.Connected? || row.manifest.None? { return; }
      var offered := Offered(row.manifest.value, disabled);
      OfferedExactly(row.manifest.value, disabled);
      var selected := Distinct(toolIds);
      DistinctExactly(toolIds, []);
      if exists id | id in selected :: id !in offered { return; }
      if !bot || approveSpace {
        if !owner { return; }
      } else if row.needsReview || exists id | id in selected :: id !in row.allowed {
        return;
      }
      if !bot || approveSpace {
        DistinctExactly(KeptIn(row.allowed, offered) + selected, []);
        KeptInExactly(row.allowed, offered);
        var kept := if bot && !row.needsReview then Distinct(KeptIn(row.allowed, offered) + selected) else selected;
        row := row.(allowed := kept, needsReview := false);
      }
      row := row.(revision := row.revision + 1);
      ok := true;
    }

    method Revoke(preserve: bool)
      requires Valid()
      modifies this
      ensures Valid() && AllApproved() && events == old(events) + [Revokes(preserve)]
      ensures !row.enabled && row.state.NotConnected? && row.revision == old(row).revision + 1
      ensures row.session == old(row).session && row.needsReview == old(row).needsReview
      ensures preserve ==>
                row.allowed == old(row).allowed && row.manifest == old(row).manifest && row.policies == old(row).policies
      ensures !preserve ==> row.allowed == [] && row.manifest.None? && row.policies == map[]
    {
      Record(Revokes(preserve));
      row := row.(enabled := false, state := NotConnected, revision := row.revision + 1);
      if !preserve { row := row.(manifest := None, allowed := [], policies := map[]); }
    }

    /** A connection that is not from the catalog and not connected stops waiting for consent. */
    method Claim(seen: Option<nat>, catalog: bool) returns (mine: Option<nat>)
      requires Valid()
      modifies this
      ensures Valid() && events == old(events) + [Claims(seen, catalog)]
      ensures mine.Some? <==> old(row.enabled) && old(row.session) == seen
      ensures mine.None? ==> row == old(row)
      ensures mine.Some? ==> !Over(state, mine.value) && mine.value >= old(nextSession)
      ensures mine.Some? ==>
                row == old(row).(session := mine, state := if catalog || old(row).state.Connected? then old(row).state
                                                           else NotConnected)
    {
      Record(Claims(seen, catalog));
      mine := None;
      if row.enabled && row.session == seen {
        mine := Some(nextSession);
        row := row.(session := mine);
        if !catalog && !row.state.Connected? { row := row.(state := NotConnected); }
        nextSession := nextSession + 1;
      }
    }

    /** `releaseAttempt`, and with the new state of a failure `markAttemptFailed`. */
    method EndAttempt(held: nat, state': Connection) returns (ended: bool)
      requires Valid()
      modifies this
      ensures Valid() && events == old(events) + [EndsAttempt(held, state')]
      ensures ended <==> old(row.enabled) && old(row.session) == Some(held)
      ensures row == if ended then old(row).(session := None, state := state') else old(row)
      ensures held < nextSession ==> Over(state, held) || !old(row.enabled)
    {
      Record(EndsAttempt(held, state'));
      ended := row.enabled && row.session == Some(held);
      if ended { row := row.(session := None, state := state'); }
    }
  }

  lemma AssignStep(s: State, ids: seq<string>, disabled: set<string>, owner: bool, policies: Option<map<string, string>>)
    ensures Step(s, Assigns(ids, disabled, owner, policies)) == Assign(s, ids, disabled, owner, policies)
  {
  }

  lemma ReviewStep(s: State, revision: nat, bot: bool, approveSpace: bool, ids: seq<string>, disabled: set<string>, owner: bool)
    ensures Step(s, Reviews(revision, bot, approveSpace, ids, disabled, owner))
         == Review(s, revision, bot, approveSpace, ids, disabled, owner)
  {
  }

  lemma OfferedExactly(m: Manifest, disabled: set<string>)
    ensures forall id :: id in Offered(m, disabled) <==> id !in disabled && Listed(m, id)
  {
  }

  lemma {:induction false} KeptInExactly(ids: seq<string>, offered: set<string>)
    ensures forall id :: id in KeptIn(ids, offered) <==> id in ids && id in offered
  {
    if ids != [] {
      KeptInExactly(ids[1..], offered);
      assert forall id :: id in ids <==> id == ids[0] || id in ids[1..];
    }
  }

  /** Two lists without repeats hold the same ids when they are equally long and one holds those of the other. */
  lemma SameIds(a: seq<string>, b: seq<string>)
    requires NoRepeats(a) && NoRepeats(b)
    ensures (|a| == |b| && forall id | id in a :: id in b) <==> forall id :: id in a <==> id in b
  {
    hide NoRepeats;
    var x, y := set id | id in a, set id | id in b;
    SizeOf(a);
    SizeOf(b);
    if |a| == |b| && forall id | id in a :: id in b {
      assert x <= y;
      SameSize(x, y);
      forall id ensures id in a <==> id in b { assert id in x <==> id in y; }
    }
    if forall id :: id in a <==> id in b {
      assert x == y;
    }
  }

  lemma SameSize(x: set<string>, y: set<string>)
    requires x <= y && |x| == |y|
    ensures x == y
  {
    assert y == x + (y - x);
  }

  lemma {:induction false} SizeOf(ids: seq<string>)
    requires NoRepeats(ids)
    ensures |set id | id in ids| == |ids|
  {
    if ids != [] {
      var fore, last := ids[..|ids| - 1], ids[|ids| - 1];
      SizeOf(fore);
      assert (set id | id in ids) == (set id | id in fore) + {last};
      assert last !in fore;
    }
  }

  lemma BackedOf(s: State)
    requires Inv(s)
    ensures Backed(s.row, s.approved)
  {
  }

  lemma CommitStep(s: State, k: nat, vendor: Manifest, reordered: bool, session: Option<nat>)
    requires k in s.snapshots
    ensures Step(s, Commits(k, vendor, reordered, session)) == CommitCapture(s, s.snapshots[k], vendor, reordered, session)
    ensures CommitCapture(s, s.snapshots[k], vendor, reordered, session).nextSession == s.nextSession
  {
    SessionAfterCommit(s, s.snapshots[k], vendor, reordered, session);
  }

  lemma NewIdsOnlyAtFirst(s: State, before: Row, vendor: Manifest, reordered: bool, session: Option<nat>)
    requires Inv(s) && before in s.snapshots.Values
    ensures before.manifest.Some? ==>
              forall id | id in CommitCapture(s, before, vendor, reordered, session).row.allowed :: id in s.row.allowed
  {
    hide CommitCapture, Inv;
    if before.manifest.Some? {
      SnapshotFresh(s, before);
      NothingNewAllowed(s, before, vendor, reordered, session);
    }
  }

  lemma SnapshotFresh(s: State, before: Row)
    requires Inv(s) && before in s.snapshots.Values
    ensures Fresh(before, s.row)
  {
  }
}
