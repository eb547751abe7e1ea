/**
 Editing the local server configuration, from apps/api/src/mcp-settings.ts: stored values that would
 reveal a credential are shown as "[saved]", and a preview puts the stored values back.
 */
module McpConfig {
  import opened Options

  const SAVED := "[saved]"

  /** `order` is the order in which the text lists the environment fields; the comparison sees it. */
  datatype Server = Server(
    name: string, description: string, enabled: bool, command: string, args: seq<string>,
    env: map<string, string>, order: seq<string>, credential: Option<string>)

  type Config = map<string, Server>

  /** The encrypted part of a row; older rows lack some of it. */
  datatype Material = Material(
    command: Option<string>, args: Option<seq<string>>, env: Option<map<string, string>>, order: seq<string>,
    credential: Option<string>)

  /** The plain part of a row that the configuration shows. */
  datatype Plain = Plain(name: string, description: string, enabled: bool, command: Option<string>, args: seq<string>)

  /** What redaction made of a command and its arguments; it may have any text and any length. */
  datatype Redacted = Redacted(command: string, args: seq<string>)

  datatype Entry = Entry(plain: Plain, material: Material, redacted: Redacted)

  function Or<T>(o: Option<T>, fallback: T): T {
    if o.Some? then o.value else fallback
  }

  /** `configuration` with `reveal` set; an empty credential counts as none. */
  function Revealed(e: Entry): Server {
    Server(e.plain.name, e.plain.description, e.plain.enabled,
           Or(e.material.command, Or(e.plain.command, "")),
           Or(e.material.args, e.plain.args),
           Or(e.material.env, map[]),
           if e.material.env.Some? then e.material.order else [],
           if e.material.credential == Some("") then None else e.material.credential)
  }

  /** The same with every value hidden that redaction touched, and every named value hidden always. */
  function Masked(e: Entry): Server {
    var s := Revealed(e);
    s.(command := if e.redacted.command == s.command then s.command else SAVED,
       args := seq(|s.args|, i requires 0 <= i < |s.args| =>
         if i < |e.redacted.args| && e.redacted.args[i] == s.args[i] then s.args[i] else SAVED),
       env := map k | k in s.env :: SAVED,
       credential := if s.credential.Some? then Some(SAVED) else None)
  }

  function RevealedAll(entries: map<string, Entry>): Config {
    map slug | slug in entries :: Revealed(entries[slug])
  }

  function MaskedAll(entries: map<string, Entry>): Config {
    map slug | slug in entries :: Masked(entries[slug])
  }

  // ---- Putting the stored values back ----

  /** A text slot after resolution, given what is stored in that slot. */
  predicate Fills(stored: Option<string>, sent: string, r: string) {
    if sent == SAVED then stored == Some(r) else r == sent
  }

  predicate Fillable(stored: Option<string>, sent: string) { sent == SAVED ==> stored.Some? }

  function StoredArg(prior: Option<Server>, i: nat): Option<string> {
    if prior.Some? && i < |prior.value.args| then Some(prior.value.args[i]) else None
  }

  function StoredEnv(prior: Option<Server>, k: string): Option<string> {
    if prior.Some? && k in prior.value.env then Some(prior.value.env[k]) else None
  }

  function StoredCommand(prior: Option<Server>): Option<string> {
    if prior.Some? then Some(prior.value.command) else None
  }

  /** An empty credential counts as none here too. */
  function StoredCredential(prior: Option<Server>): Option<string> {
    if prior.Some? && prior.value.credential != Some("") then prior.value.credential else None
  }

  /** `r` is `sent` with every "[saved]" slot filled from the same slot of `prior`. */
  predicate Resolves(prior: Option<Server>, sent: Server, r: Server) {
    && r == sent.(command := r.command, args := r.args, env := r.env, credential := r.credential)
    && Fills(StoredCommand(prior), sent.command, r.command)
    && |r.args| == |sent.args|
    && (forall i | 0 <= i < |sent.args| :: Fills(StoredArg(prior, i), sent.args[i], r.args[i]))
    && r.env.Keys == sent.env.Keys
    && (forall k | k in sent.env :: Fills(StoredEnv(prior, k), sent.env[k], r.env[k]))
    && (sent.credential.None? ==> r.credential.None?)
    && (sent.credential.Some? ==>
          r.credential.Some? && Fills(StoredCredential(prior), sent.credential.value, r.credential.value))
  }

  predicate Resolvable(prior: Option<Server>, sent: Server) {
    && Fillable(StoredCommand(prior), sent.command)
    && (forall i | 0 <= i < |sent.args| :: Fillable(StoredArg(prior, i), sent.args[i]))
    && (forall k | k in sent.env :: Fillable(StoredEnv(prior, k), sent.env[k]))
    && (sent.credential.Some? ==> Fillable(StoredCredential(prior), sent.credential.value))
  }

  function Prior(before: Config, slug: string): Option<Server> {
    if slug in before then Some(before[slug]) else None
  }

  predicate ResolvesAll(before: Config, sent: Config, r: Config) {
    r.Keys == sent.Keys && forall slug | slug in sent :: Resolves(Prior(before, slug), sent[slug], r[slug])
  }

  predicate ResolvableAll(managed: set<string>, before: Config, sent: Config) {
    forall slug | slug in sent :: slug !in managed && Resolvable(Prior(before, slug), sent[slug])
  }

  /** A resolution is unique. */
  lemma ResolvesOnce(prior: Option<Server>, sent: Server, a: Server, b: Server)
    requires Resolves(prior, sent, a) && Resolves(prior, sent, b)
    ensures a == b
  {
    forall i | 0 <= i < |sent.args| ensures a.args[i] == b.args[i] {
      assert Fills(StoredArg(prior, i), sent.args[i], a.args[i]);
    }
    forall k | k in sent.env ensures a.env[k] == b.env[k] {
      assert Fills(StoredEnv(prior, k), sent.env[k], a.env[k]) && Fills(StoredEnv(prior, k), sent.env[k], b.env[k]);
    }
  }

  /** There is one exactly when every "[saved]" slot has a stored counterpart. */
  lemma ResolvableIff(prior: Option<Server>, sent: Server)
    ensures Resolvable(prior, sent) <==> exists r :: Resolves(prior, sent, r)
  {
    if Resolvable(prior, sent) {
      var r := Server(
        sent.name, sent.description, sent.enabled, Filled(StoredCommand(prior), sent.command),
        seq(|sent.args|, i requires 0 <= i < |sent.args| => Filled(StoredArg(prior, i), sent.args[i])),
        map k | k in sent.env :: Filled(StoredEnv(prior, k), sent.env[k]),
        sent.order,
        if sent.credential.None? then None else Some(Filled(StoredCredential(prior), sent.credential.value)));
      assert Resolves(prior, sent, r);
    }
    if r :| Resolves(prior, sent, r) {
      forall i | 0 <= i < |sent.args| ensures Fillable(StoredArg(prior, i), sent.args[i]) {
        assert Fills(StoredArg(prior, i), sent.args[i], r.args[i]);
      }
      forall k | k in sent.env ensures Fillable(StoredEnv(prior, k), sent.env[k]) {
        assert Fills(StoredEnv(prior, k), sent.env[k], r.env[k]);
      }
    }
  }

  function Filled(stored: Option<string>, sent: string): string {
    if sent == SAVED && stored.Some? then stored.value else sent
  }

  /** Sending the masked server back unedited resolves to what is stored, even where that is "[saved]". */
  lemma MaskThenResolve(e: Entry)
    ensures Resolves(Some(Revealed(e)), Masked(e), Revealed(e))
  {
    var s, m := Revealed(e), Masked(e);
    forall i | 0 <= i < |m.args| ensures Fills(StoredArg(Some(s), i), m.args[i], s.args[i]) {}
    forall k | k in m.env ensures Fills(StoredEnv(Some(s), k), m.env[k], s.env[k]) {}
  }

  lemma MaskThenResolveAll(entries: map<string, Entry>, managed: set<string>, r: Config)
    requires entries.Keys !! managed
    ensures ResolvableAll(managed, RevealedAll(entries), MaskedAll(entries))
    ensures ResolvesAll(RevealedAll(entries), MaskedAll(entries), r) <==> r == RevealedAll(entries)
  {
    hide Resolves, Resolvable, Revealed, Masked;
    var before, sent := RevealedAll(entries), MaskedAll(entries);
    forall slug | slug in entries
      ensures Resolves(Prior(before, slug), sent[slug], before[slug]) && Resolvable(Prior(before, slug), sent[slug])
      ensures slug in r && Resolves(Prior(before, slug), sent[slug], r[slug]) ==> r[slug] == before[slug]
    {
      MaskThenResolve(entries[slug]);
      ResolvableIff(Prior(before, slug), sent[slug]);
      if slug in r && Resolves(Prior(before, slug), sent[slug], r[slug]) {
        ResolvesOnce(Prior(before, slug), sent[slug], r[slug], before[slug]);
      }
    }
  }

  /** The masked configuration does not depend on a hidden value. */
  lemma MaskHides(a: Entry, b: Entry)
    requires a.plain == b.plain && Revealed(a).env.Keys == Revealed(b).env.Keys && Revealed(a).order == Revealed(b).order
    requires Revealed(a).credential.Some? == Revealed(b).credential.Some?
    requires |Revealed(a).args| == |Revealed(b).args|
    requires Revealed(a).command == Revealed(b).command ==> a.redacted.command == b.redacted.command
    requires Revealed(a).command != Revealed(b).command ==>
               a.redacted.command != Revealed(a).command && b.redacted.command != Revealed(b).command
    requires forall i | 0 <= i < |Revealed(a).args| ::
               HidesArg(a, i) == HidesArg(b, i) && (Revealed(a).args[i] == Revealed(b).args[i] || HidesArg(a, i))
    ensures Masked(a) == Masked(b)
  {
    forall i | 0 <= i < |Revealed(a).args| ensures Masked(a).args[i] == Masked(b).args[i] {
      assert HidesArg(a, i) == HidesArg(b, i);
    }
  }

  /** A value is shown exactly where redaction left it alone; named values are never shown, and all names are. */
  lemma MaskShows(e: Entry, k: string)
    ensures var s := Revealed(e); var m := Masked(e);
            && m == s.(command := m.command, args := m.args, env := m.env, credential := m.credential)
            && (if e.redacted.command == s.command then m.command == s.command else m.command == SAVED)
            && |m.args| == |s.args|
            && (forall i | 0 <= i < |s.args| :: m.args[i] == if HidesArg(e, i) then SAVED else s.args[i])
            && (k in m.env <==> k in s.env) && (k in m.env ==> m.env[k] == SAVED)
            && (m.credential.None? <==> s.credential.None?) && (m.credential.Some? ==> m.credential.value == SAVED)
  {
    forall i | 0 <= i < |Revealed(e).args|
      ensures Masked(e).args[i] == if HidesArg(e, i) then SAVED else Revealed(e).args[i]
    {
    }
  }

  /** What an encrypted part lacks is taken from the plain columns; what it has wins over them. */
  lemma RevealsExactly(plain: Plain, m: Material, redacted: Redacted)
    ensures var s := Revealed(Entry(plain, m, redacted));
            && s.name == plain.name && s.description == plain.description && s.enabled == plain.enabled
            && (m.command.Some? ==> s.command == m.command.value)
            && (m.command.None? && plain.command.Some? ==> s.command == plain.command.value)
            && (m.command.None? && plain.command.None? ==> s.command == "")
            && (m.args.Some? ==> s.args == m.args.value) && (m.args.None? ==> s.args == plain.args)
            && (m.env.Some? ==> s.env == m.env.value && s.order == m.order)
            && (m.env.None? ==> s.env == map[] && s.order == [])
            && (s.credential.Some? <==> m.credential.Some? && m.credential.value != "")
            && (s.credential.Some? ==> s.credential == m.credential)
  {
  }

  predicate HidesArg(e: Entry, i: nat)
    requires i < |Revealed(e).args|
  {
    !(i < |e.redacted.args| && e.redacted.args[i] == Revealed(e).args[i])
  }

  // ---- The differences a preview reports ----

  datatype Action = Add | Change | Remove

  function Diff(before: Config, after: Config): map<string, Action> {
    map slug | slug in before.Keys + after.Keys && Prior(before, slug) != Prior(after, slug) ::
      if slug !in before then Add else if slug !in after then Remove else Change
  }

  /** `before` with the named servers replaced, added or removed as `after` has them. */
  function Patch(before: Config, after: Config, names: set<string>): Config {
    map slug | slug in before.Keys + after.Keys && Prior(if slug in names then after else before, slug).Some? ::
      Prior(if slug in names then after else before, slug).value
  }

  /** The reported servers are exactly those that have to be replaced to get from one configuration to the other. */
  lemma DiffPatches(before: Config, after: Config, names: set<string>)
    ensures Patch(before, after, names) == after <==> Diff(before, after).Keys <= names
  {
    var n := Patch(before, after, names);
    forall slug ensures Prior(n, slug) == Prior(if slug in names then after else before, slug) {}
    if Diff(before, after).Keys <= names {
      forall slug ensures Prior(n, slug) == Prior(after, slug) {
        assert slug !in names ==> slug !in Diff(before, after);
      }
      SamePriors(n, after);
    } else {
      var slug :| slug in Diff(before, after) && slug !in names;
      assert Prior(n, slug) == Prior(before, slug) != Prior(after, slug);
    }
  }

  lemma SamePriors(a: Config, b: Config)
    requires forall slug :: Prior(a, slug) == Prior(b, slug)
    ensures a == b
  {
    forall slug ensures slug in a <==> slug in b { assert Prior(a, slug) == Prior(b, slug); }
    forall slug | slug in a ensures a[slug] == b[slug] { assert Prior(a, slug) == Prior(b, slug); }
  }

  /** A reordered environment alone is a change. */
  lemma ReorderedIsChange(slug: string, server: Server, order: seq<string>)
    requires order != server.order
    ensures Diff(map[slug := server], map[slug := server.(order := order)]) == map[slug := Change]
  {
  }

  /** Nothing is reported exactly when nothing changed, hidden values included. */
  lemma DiffExact(before: Config, after: Config)
    ensures Diff(before, after) == map[] <==> before == after
    ensures forall slug :: slug in Diff(before, after) <==> Prior(before, slug) != Prior(after, slug)
    ensures forall slug | slug in Diff(before, after) ::
              && (Diff(before, after)[slug].Add? <==> slug !in before)
              && (Diff(before, after)[slug].Remove? <==> slug !in after)
  {
    if Diff(before, after) == map[] {
      forall slug | slug in before.Keys + after.Keys
        ensures slug in before && slug in after && before[slug] == after[slug]
      {
        assert slug !in Diff(before, after);
      }
      assert before.Keys == after.Keys;
    }
  }

  // ---- The preview, step by step ----

  method ResolveArgs(prior: Option<Server>, sent: seq<string>) returns (r: Option<seq<string>>)
    ensures r.Some? <==> forall i | 0 <= i < |sent| :: Fillable(StoredArg(prior, i), sent[i])
    ensures r.Some? ==> |r.value| == |sent| && forall i | 0 <= i < |sent| :: Fills(StoredArg(prior, i), sent[i], r.value[i])
  {
    var out := [];
    for i := 0 to |sent|
      invariant |out| == i
      invariant forall j | 0 <= j < i :: Fillable(StoredArg(prior, j), sent[j])
      invariant forall j | 0 <= j < i :: Fills(StoredArg(prior, j), sent[j], out[j])
    {
      if sent[i] != SAVED {
        out := out + [sent[i]];
      } else if StoredArg(prior, i).None? {
        return None;
      } else {
        out := out + [StoredArg(prior, i).value];
      }
    }
    r := Some(out);
  }

  method ResolveEnv(prior: Option<Server>, sent: map<string, string>) returns (r: Option<map<string, string>>)
    ensures r.Some? <==> forall k | k in sent :: Fillable(StoredEnv(prior, k), sent[k])
    ensures r.Some? ==> r.value.Keys == sent.Keys && forall k | k in sent :: Fills(StoredEnv(prior, k), sent[k], r.value[k])
  {
    var env := sent;
    var left := sent.Keys;
    while left != {}
      invariant left <= sent.Keys && env.Keys == sent.Keys
      invariant forall k | k in sent && k !in left :: Fillable(StoredEnv(prior, k), sent[k])
      invariant forall k | k in sent && k !in left :: Fills(StoredEnv(prior, k), sent[k], env[k])
      invariant forall k | k in left :: env[k] == sent[k]
      decreases |left|
    {
      var key :| key in left;
      left := left - {key};
      if env[key] == SAVED {
        if StoredEnv(prior, key).None? { return None; }
        env := env[key := StoredEnv(prior, key).value];
      }
    }
    r := Some(env);
  }

  method ResolveServer(prior: Option<Server>, sent: Server) returns (r: Option<Server>)
    ensures r.Some? <==> Resolvable(prior, sent)
    ensures r.Some? ==> Resolves(prior, sent, r.value)
  {
    var server := sent;
    if server.command == SAVED {
      if prior.None? { return None; }
      server := server.(command := prior.value.command);
    }
    var args := ResolveArgs(prior, sent.args);
    if args.None? { return None; }
    var env := ResolveEnv(prior, sent.env);
    if env.None? { return None; }
    if sent.credential == Some(SAVED) {
      if StoredCredential(prior).None? { return None; }
      server := server.(credential := StoredCredential(prior));
    }
    r := Some(server.(args := args.value, env := env.value));
  }

  /** `preview`: refuses managed servers and unfillable slots, otherwise resolves and compares. */
  method Preview(managed: set<string>, before: Config, sent: Config) returns (r: Option<Config>, changes: map<string, Action>)
    ensures r.Some? <==> ResolvableAll(managed, before, sent)
    ensures r.Some? ==> ResolvesAll(before, sent, r.value)
    ensures r.Some? ==> changes == Diff(before, r.value) && (changes == map[] <==> r.value == before)
    ensures r.None? ==> changes == map[]
  {
    var config := sent;
    var left := sent.Keys;
    changes := map[];
    while left != {}
      invariant left <= sent.Keys && config.Keys == sent.Keys
      invariant forall slug | slug in sent && slug !in left ::
                  slug !in managed && Resolvable(Prior(before, slug), sent[slug])
                  && Resolves(Prior(before, slug), sent[slug], config[slug])
      decreases |left|
    {
      var slug :| slug in left;
      left := left - {slug};
      if slug in managed { return None, map[]; }
      var server := ResolveServer(Prior(before, slug), sent[slug]);
      if server.None? { return None, map[]; }
      config := config[slug := server.value];
    }
    DiffExact(before, config);
    return Some(config), Diff(before, config);
  }

  /** Previewing the masked configuration as it was shown changes nothing. */
  method PreviewUnedited(entries: map<string, Entry>, managed: set<string>) returns (changes: map<string, Action>)
    requires entries.Keys !! managed
    ensures changes == map[]
  {
    var before := RevealedAll(entries);
    MaskThenResolveAll(entries, managed, before);
    var r, c := Preview(managed, before, MaskedAll(entries));
    MaskThenResolveAll(entries, managed, r.value);
    changes := c;
  }
}
