/** The validated shape of `gateway.yaml` and how it is loaded. */
module GatewayConfig {
  import opened Wrappers
  import opened YamlTree
  import opened AliasGraph

  type InferenceTier = n: int | 1 <= n <= 5 witness 1

  datatype Provider = Provider(
    name: string, kind: string, tier: InferenceTier, models: seq<string>, enabled: bool,
    apiKeyEnv: Option<string>, apiKeyEncrypted: Option<string>, details: Fields)

  datatype ToolProvider = ToolProvider(
    name: string, kind: string, egressTier: InferenceTier, anonymizeOutbound: bool, enabled: bool,
    oauth: bool, apiKeyEnv: Option<string>, apiKeyEncrypted: Option<string>, details: Fields)

  datatype TierTable = TierTable(overrides: map<string, InferenceTier>, defaults: map<string, InferenceTier>)

  datatype Anonymization = Anonymization(enabled: bool, applyAtTiers: set<int>)

  datatype TierPolicy = TierPolicy(
    allowedTiersGlobal: seq<InferenceTier>, defaultMinimumTier: InferenceTier,
    privilegedMinimumTier: InferenceTier, warnOnTiers: seq<InferenceTier>)

  /** Every section the writer and the router do not look into. */
  datatype Settings = Settings(tiers: TierTable, anonymization: Anonymization, details: Fields)

  datatype Config = Config(
    providers: seq<Provider>, tools: seq<ToolProvider>, aliases: Aliases,
    tierPolicy: TierPolicy, settings: Settings)

  // ---- lookups --------------------------------------------------------------

  function ProviderByName(ps: seq<Provider>, name: string): Option<Provider> {
    if ps == [] then None
    else if ps[0].name == name then Some(ps[0])
    else ProviderByName(ps[1..], name)
  }

  function ToolByName(ts: seq<ToolProvider>, name: string): Option<ToolProvider> {
    if ts == [] then None
    else if ts[0].name == name then Some(ts[0])
    else ToolByName(ts[1..], name)
  }

  function ToolByKind(ts: seq<ToolProvider>, kind: string): Option<ToolProvider> {
    if ts == [] then None
    else if ts[0].kind == kind then Some(ts[0])
    else ToolByKind(ts[1..], kind)
  }

  lemma {:induction false} ProviderByNameFinds(ps: seq<Provider>, name: string)
    ensures ProviderByName(ps, name).Some? <==> exists i :: 0 <= i < |ps| && ps[i].name == name
    ensures ProviderByName(ps, name).Some? ==>
              ProviderByName(ps, name).value in ps && ProviderByName(ps, name).value.name == name
  {
    if ps != [] {
      ProviderByNameFinds(ps[1..], name);
      if ps[0].name != name && ProviderByName(ps, name).Some? {
        var i :| 0 <= i < |ps[1..]| && ps[1..][i].name == name;
        assert ps[i + 1].name == name;
      }
      if i :| 0 <= i < |ps| && ps[i].name == name && ps[0].name != name {
        assert ps[1..][i - 1].name == name;
      }
    }
  }

  /** Entry `i` is the first one of that name. */
  predicate FirstNamed(ps: seq<Provider>, name: string, i: nat) {
    i < |ps| && ps[i].name == name && forall j :: 0 <= j < i ==> ps[j].name != name
  }

  /** The lookup gives the first entry of that name and no other. */
  lemma {:induction false} ProviderByNameIsFirst(ps: seq<Provider>, name: string)
    ensures forall i: nat :: FirstNamed(ps, name, i) ==> ProviderByName(ps, name) == Some(ps[i])
    ensures ProviderByName(ps, name).Some? ==> exists i: nat :: FirstNamed(ps, name, i)
  {
    if ps != [] {
      ProviderByNameIsFirst(ps[1..], name);
      forall i: nat | FirstNamed(ps, name, i) ensures ProviderByName(ps, name) == Some(ps[i]) {
        if i > 0 {
          assert FirstNamed(ps[1..], name, i - 1);
        }
      }
      if ps[0].name == name {
        assert FirstNamed(ps, name, 0);
      } else if ProviderByName(ps, name).Some? {
        var i: nat :| FirstNamed(ps[1..], name, i);
        assert FirstNamed(ps, name, i + 1);
      }
    }
  }

  lemma {:induction false} ToolByNameFinds(ts: seq<ToolProvider>, name: string)
    ensures ToolByName(ts, name).Some? <==> exists i :: 0 <= i < |ts| && ts[i].name == name
    ensures ToolByName(ts, name).Some? ==>
              exists i :: 0 <= i < |ts| && ToolByName(ts, name) == Some(ts[i]) && ts[i].name == name &&
                          forall j :: 0 <= j < i ==> ts[j].name != name
  {
    if ts != [] {
      ToolByNameFinds(ts[1..], name);
      if i :| 0 <= i < |ts| && ts[i].name == name && ts[0].name != name {
        assert ts[1..][i - 1].name == name;
      }
      if i :| 0 <= i < |ts[1..]| && ts[1..][i].name == name {
        assert ts[i + 1].name == name;
      }
    }
  }

  // ---- cross-section validators ---------------------------------------------

  predicate ToolNamesUnique(ts: seq<ToolProvider>) {
    forall i, j :: 0 <= i < j < |ts| ==> ts[i].name != ts[j].name
  }

  predicate KnownProvider(ps: seq<Provider>, name: string) {
    exists i :: 0 <= i < |ps| && ps[i].name == name
  }

  predicate TargetsKnown(ps: seq<Provider>, alias: Alias) {
    && KnownProvider(ps, alias.primary.provider)
    && forall t :: t in alias.fallback ==> KnownProvider(ps, t.provider)
  }

  predicate AliasProvidersKnown(ps: seq<Provider>, a: Aliases) {
    forall i :: 0 <= i < |a| ==> TargetsKnown(ps, a[i].alias)
  }

  predicate Checked(c: Config) {
    ToolNamesUnique(c.tools) && AliasProvidersKnown(c.providers, c.aliases) && ChainsEnd(c.aliases)
  }

  /** The names that occur again, in order; none exactly when all names differ. */
  method DuplicateToolNames(ts: seq<ToolProvider>) returns (dupes: seq<string>)
    ensures dupes == [] <==> ToolNamesUnique(ts)
    ensures forall name :: name in dupes <==>
              exists i, j :: 0 <= i < j < |ts| && ts[i].name == name == ts[j].name
  {
    var seen: set<string> := {};
    dupes := [];
    for n := 0 to |ts|
      invariant forall name :: name in seen <==> exists i :: 0 <= i < n && ts[i].name == name
      invariant forall name :: name in dupes <==>
                  exists i, j :: 0 <= i < j < n && ts[i].name == name == ts[j].name
    {
      if ts[n].name in seen {
        dupes := dupes + [ts[n].name];
      } else {
        seen := seen + {ts[n].name};
      }
    }
    assert dupes != [] ==> dupes[0] in dupes;
    if !ToolNamesUnique(ts) {
      var i, j :| 0 <= i < j < |ts| && ts[i].name == ts[j].name;
      assert ts[i].name in dupes;
    }
  }

  /** The first alias, in order, with a target at an unconfigured provider. */
  method FirstUnknownTarget(ps: seq<Provider>, a: Aliases) returns (found: Option<nat>)
    ensures found.None? <==> AliasProvidersKnown(ps, a)
    ensures found.Some? ==>
              found.value < |a| && !TargetsKnown(ps, a[found.value].alias) && AliasProvidersKnown(ps, a[..found.value])
  {
    var names := set i | 0 <= i < |ps| :: ps[i].name;
    for n := 0 to |a|
      invariant forall i :: 0 <= i < n ==> TargetsKnown(ps, a[i].alias)
    {
      var targets := [a[n].alias.primary] + a[n].alias.fallback;
      for t := 0 to |targets|
        invariant forall i :: 0 <= i < t ==> KnownProvider(ps, targets[i].provider)
      {
        if targets[t].provider !in names {
          if t > 0 {
            assert targets[t] in a[n].alias.fallback;
          }
          return Some(n);
        }
      }
      assert targets[0] == a[n].alias.primary;
      assert forall x :: x in a[n].alias.fallback ==> x in targets;
    }
    found := None;
  }

  /** The three validators in the order the model runs them. */
  method RunValidators(c: Config) returns (accepted: bool)
    ensures accepted <==> Checked(c)
  {
    var dupes := DuplicateToolNames(c.tools);
    if dupes != [] {
      return false;
    }
    var unknown := FirstUnknownTarget(c.providers, c.aliases);
    if unknown.Some? {
      return false;
    }
    var chain := CheckNoCycles(c.aliases);
    return chain.None?;
  }

  // ---- the environment of the loader ----------------------------------------

  datatype Parsed = NotYaml | Document(tree: Tree)

  /** What the loader takes from the YAML library, the process environment and the
      schema library, and the gateway's own table of tool-provider entries.  The two key
      fields of an entry and the alias block are checked here, not by the schema functions. */
  datatype Schema = Schema(
    parse: string -> Parsed,
    dump: Tree -> string,
    expand: Environment,
    provider: Fields -> Option<Provider>,
    tool: Fields -> Option<ToolProvider>,
    tierPolicy: Option<Tree> -> Option<TierPolicy>,
    settings: Fields -> Option<Settings>,
    toolDefault: string -> Option<Fields>)

  /** What is assumed of them: reading back a written tree gives that tree; a string
      without a dollar sign holds no placeholder; a parsed entry has the name (and a tool
      provider the type) that its fields say; an entry of the gateway's own table holds no placeholder
      and no key, has the type it is listed under and is a tool provider, on or off. */
  ghost predicate Lawful(s: Schema) {
    && (forall t: Tree :: s.parse(s.dump(t)) == Document(t))
    && (forall x: string :: '$' !in x ==> s.expand(x) == Ok(Text(x)))
    && (forall fs: Fields :: s.provider(fs).Some? ==> Find(fs, "name") == Some(Text(s.provider(fs).value.name)))
    && (forall fs: Fields :: s.tool(fs).Some? ==> SaysOfTool(fs, s.tool(fs).value))
    && (forall kind: string :: s.toolDefault(kind).Some? ==> OwnToolEntry(s, s.toolDefault(kind).value, kind))
  }

  predicate SaysOfTool(fs: Fields, t: ToolProvider) {
    Find(fs, "name") == Some(Text(t.name)) && Find(fs, "type") == Some(Text(t.kind))
  }

  ghost predicate OwnToolEntry(s: Schema, fs: Fields, kind: string) {
    && ExpandFields(s.expand, fs) == Ok(fs) && Find(fs, "type") == Some(Text(kind))
    && Find(fs, KEY_ENV).None? && Find(fs, KEY_ENCRYPTED).None?
    && forall on: bool :: s.tool(Put(fs, "enabled", Flag(on))).Some?
  }

  // ---- parsing sections -----------------------------------------------------

  const KEY_ENV := "api_key_env"
  const KEY_ENCRYPTED := "api_key_encrypted"
  const KEY_FIELDS: set<string> := {KEY_ENV, KEY_ENCRYPTED}
  const SECTIONS: set<string> := {"providers", "tool_providers", "model_aliases", "tier_policy"}

  function ParseAll<T>(f: Tree -> Option<T>, ts: seq<Tree>): Option<seq<T>> {
    if ts == [] then Some([])
    else
      var v :- f(ts[0]);
      var rest :- ParseAll(f, ts[1..]);
      Some([v] + rest)
  }

  /** An optional string field: absent and null are the same. */
  function KeyField(fs: Fields, key: string): Option<Option<string>> {
    match Find(fs, key)
    case None => Some(None)
    case Some(Null) => Some(None)
    case Some(Text(x)) => Some(Some(x))
    case _ => None
  }

  predicate IsSet(key: Option<string>) {
    key.Some? && key.value != ""
  }

  /** At most one key source per entry. */
  function KeySources(fs: Fields): Option<(Option<string>, Option<string>)> {
    var env :- KeyField(fs, KEY_ENV);
    var encrypted :- KeyField(fs, KEY_ENCRYPTED);
    if IsSet(env) && IsSet(encrypted) then None else Some((env, encrypted))
  }

  function ParseProvider(s: Schema, t: Tree): Option<Provider> {
    if !t.Mapping? then None
    else
      var keys :- KeySources(t.fields);
      var p :- s.provider(Without(t.fields, KEY_FIELDS));
      Some(p.(apiKeyEnv := keys.0, apiKeyEncrypted := keys.1))
  }

  function ParseTool(s: Schema, t: Tree): Option<ToolProvider> {
    if !t.Mapping? then None
    else
      var keys :- KeySources(t.fields);
      var p :- s.tool(Without(t.fields, KEY_FIELDS));
      Some(p.(apiKeyEnv := keys.0, apiKeyEncrypted := keys.1))
  }

  function ParseTarget(t: Tree): Option<Target> {
    if t.Mapping? && Without(t.fields, {"provider", "model"}) == [] then
      match (Find(t.fields, "provider"), Find(t.fields, "model"))
      case (Some(Text(p)), Some(Text(m))) => if p != "" && m != "" then Some(Target(p, m)) else None
      case _ => None
    else None
  }

  function ParseAlias(t: Tree): Option<Alias> {
    if t.Mapping? && Without(t.fields, {"primary", "fallback"}) == [] && Find(t.fields, "primary").Some? then
      var primary :- ParseTarget(Find(t.fields, "primary").value);
      match Find(t.fields, "fallback")
      case None => Some(Alias(primary, []))
      case Some(Items(ts)) => var fallback :- ParseAll(ParseTarget, ts); Some(Alias(primary, fallback))
      case _ => None
    else None
  }

  function ParseAliases(fs: Fields): Option<Aliases> {
    if fs == [] then Some([])
    else
      var alias :- ParseAlias(fs[0].value);
      var rest :- ParseAliases(fs[1..]);
      Some([NamedAlias(fs[0].key, alias)] + rest)
  }

  // A section is parsed from what stands under its key, if anything does.

  function ListSection(section: Option<Tree>): Option<seq<Tree>> {
    match section
    case None => Some([])
    case Some(Items(ts)) => Some(ts)
    case _ => None
  }

  function AliasSection(section: Option<Tree>): Option<Aliases> {
    match section
    case None => Some([])
    case Some(Mapping(a)) => ParseAliases(a)
    case _ => None
  }

  function ProviderSection(s: Schema, section: Option<Tree>): Option<seq<Provider>> {
    var ts :- ListSection(section);
    ParseAll(ProviderParser(s), ts)
  }

  function ToolSection(s: Schema, section: Option<Tree>): Option<seq<ToolProvider>> {
    var ts :- ListSection(section);
    ParseAll(ToolParser(s), ts)
  }

  function ProviderParser(s: Schema): Tree -> Option<Provider> {
    t => ParseProvider(s, t)
  }

  function ToolParser(s: Schema): Tree -> Option<ToolProvider> {
    t => ParseTool(s, t)
  }

  /** The model is built only when every section parses and the validators agree. */
  function Combine(providers: Option<seq<Provider>>, tools: Option<seq<ToolProvider>>, aliases: Option<Aliases>,
                   tierPolicy: Option<TierPolicy>, settings: Option<Settings>): Option<Config> {
    var ps :- providers;
    var ts :- tools;
    var a :- aliases;
    var tp :- tierPolicy;
    var rest :- settings;
    var c := Config(ps, ts, a, tp, rest);
    if Checked(c) then Some(c) else None
  }

  /** Schema validation of an expanded document. */
  function Validate(s: Schema, fs: Fields): Option<Config> {
    Combine(ProviderSection(s, Find(fs, "providers")), ToolSection(s, Find(fs, "tool_providers")),
            AliasSection(Find(fs, "model_aliases")), s.tierPolicy(Find(fs, "tier_policy")),
            s.settings(Without(fs, SECTIONS)))
  }

  /** `load_config` on a parsed mapping: an exception from expanding a placeholder
      as YAML is not turned into a load error. */
  function LoadTree(s: Schema, fs: Fields): Outcome<Config> {
    var expanded :- ExpandFields(s.expand, fs);
    match Validate(s, expanded)
    case Some(c) => Ok(c)
    case None => Refused
  }

  /** `load_config` on the bytes of the file. */
  function Load(s: Schema, text: string): Outcome<Config> {
    match s.parse(text)
    case Document(Mapping(fs)) => LoadTree(s, fs)
    case _ => Refused
  }

  predicate OneKeySource(env: Option<string>, encrypted: Option<string>) {
    env.None? || env.value == "" || encrypted.None? || encrypted.value == ""
  }

  lemma {:induction false} ParsedFromItem<T>(f: Tree -> Option<T>, ts: seq<Tree>, i: nat)
    requires ParseAll(f, ts).Some? && i < |ParseAll(f, ts).value|
    ensures i < |ts| && f(ts[i]) == Some(ParseAll(f, ts).value[i])
  {
    if i > 0 {
      ParsedFromItem(f, ts[1..], i - 1);
    }
  }

  /** The keys of an entry are taken over as they stand, and an entry with two is refused. */
  lemma KeysTakenOver(s: Schema, fs: Fields)
    requires Find(fs, KEY_ENV) == Some(Text(TextAt(fs, KEY_ENV))) &&
             Find(fs, KEY_ENCRYPTED) == Some(Text(TextAt(fs, KEY_ENCRYPTED)))
    ensures TextAt(fs, KEY_ENV) != "" && TextAt(fs, KEY_ENCRYPTED) != "" ==>
              ParseProvider(s, Mapping(fs)).None? && ParseTool(s, Mapping(fs)).None?
    ensures ParseProvider(s, Mapping(fs)).Some? ==>
              && ParseProvider(s, Mapping(fs)).value.apiKeyEnv == Some(TextAt(fs, KEY_ENV))
              && ParseProvider(s, Mapping(fs)).value.apiKeyEncrypted == Some(TextAt(fs, KEY_ENCRYPTED))
    ensures ParseTool(s, Mapping(fs)).Some? ==>
              && ParseTool(s, Mapping(fs)).value.apiKeyEnv == Some(TextAt(fs, KEY_ENV))
              && ParseTool(s, Mapping(fs)).value.apiKeyEncrypted == Some(TextAt(fs, KEY_ENCRYPTED))
  {
  }

  /** A key that is null counts as none, and one that is no text is refused. */
  lemma NullKeyIsNone(s: Schema, fs: Fields, key: string)
    requires key in KEY_FIELDS
    ensures ParseProvider(s, Mapping(Put(fs, key, Null))) == ParseProvider(s, Mapping(Drop(fs, key)))
    ensures ParseTool(s, Mapping(Put(fs, key, Null))) == ParseTool(s, Mapping(Drop(fs, key)))
    ensures Find(fs, key).Some? && !Find(fs, key).value.Null? && !Find(fs, key).value.Text? ==>
              ParseProvider(s, Mapping(fs)).None? && ParseTool(s, Mapping(fs)).None?
  {
    FindAfterPut(fs, key, Null, KEY_ENV);
    FindAfterPut(fs, key, Null, KEY_ENCRYPTED);
    FindAfterWithout(fs, {key}, KEY_ENV);
    FindAfterWithout(fs, {key}, KEY_ENCRYPTED);
    WithoutAfterPut(fs, key, Null, KEY_FIELDS);
    WithoutAfterDrop(fs, key, KEY_FIELDS);
  }

  function TextAt(fs: Fields, key: string): string {
    match Find(fs, key) case Some(Text(x)) => x case _ => ""
  }

  predicate OnlyKeys(fs: Fields, keys: set<string>) {
    forall i :: 0 <= i < |fs| ==> fs[i].key in keys
  }

  lemma {:induction false} WithoutAll(fs: Fields, keys: set<string>)
    ensures Without(fs, keys) == [] <==> OnlyKeys(fs, keys)
  {
    if fs != [] {
      WithoutAll(fs[1..], keys);
    }
  }

  /** A target is exactly a provider and a model, both given and not empty, and nothing else. */
  lemma TargetParses(t: Tree, provider: string, model: string)
    ensures ParseTarget(t) == Some(Target(provider, model)) <==>
            && t.Mapping? && OnlyKeys(t.fields, {"provider", "model"}) && provider != "" && model != ""
            && Find(t.fields, "provider") == Some(Text(provider)) && Find(t.fields, "model") == Some(Text(model))
  {
    if t.Mapping? {
      WithoutAll(t.fields, {"provider", "model"});
    }
  }

  /** An alias is a primary target and, if it says so, a list of fallback targets. */
  lemma AliasParses(t: Tree)
    requires ParseAlias(t).Some?
    ensures t.Mapping? && OnlyKeys(t.fields, {"primary", "fallback"}) && Find(t.fields, "primary").Some?
    ensures ParseTarget(Find(t.fields, "primary").value) == Some(ParseAlias(t).value.primary)
    ensures match Find(t.fields, "fallback")
            case None => ParseAlias(t).value.fallback == []
            case Some(list) =>
              && list.Items? && |list.items| == |ParseAlias(t).value.fallback|
              && forall i :: 0 <= i < |list.items| ==>
                   ParseTarget(list.items[i]) == Some(ParseAlias(t).value.fallback[i])
  {
    WithoutAll(t.fields, {"primary", "fallback"});
    match Find(t.fields, "fallback")
    case Some(Items(ts)) =>
      forall i | 0 <= i < |ts| ensures |ParseAll(ParseTarget, ts).value| == |ts| &&
             ParseTarget(ts[i]) == Some(ParseAll(ParseTarget, ts).value[i]) {
        ParseAllAt(ParseTarget, ts, i);
      }
      if ts == [] {
        assert ParseAll(ParseTarget, ts) == Some([]);
      }
    case _ =>
  }

  // ---- list sections under edits --------------------------------------------

  lemma {:induction false} ParseAllAt<T>(f: Tree -> Option<T>, ts: seq<Tree>, i: nat)
    requires i < |ts| && ParseAll(f, ts).Some?
    ensures |ParseAll(f, ts).value| == |ts| && f(ts[i]) == Some(ParseAll(f, ts).value[i])
  {
    if i > 0 {
      ParseAllAt(f, ts[1..], i - 1);
    } else if |ts| > 1 {
      ParseAllAt(f, ts[1..], 0);
    }
  }

  lemma {:induction false} ParseAllUpdate<T>(f: Tree -> Option<T>, ts: seq<Tree>, i: nat, t: Tree)
    requires i < |ts| && ParseAll(f, ts).Some?
    ensures |ParseAll(f, ts).value| == |ts|
    ensures ParseAll(f, ts[i := t]) ==
            if f(t).Some? then Some(ParseAll(f, ts).value[i := f(t).value]) else None
  {
    ParseAllAt(f, ts, i);
    var v := ParseAll(f, ts).value;
    assert v == [v[0]] + ParseAll(f, ts[1..]).value;
    if i == 0 {
      assert ts[0 := t][1..] == ts[1..];
      if f(t).Some? {
        assert v[0 := f(t).value] == [f(t).value] + v[1..];
      }
    } else {
      ParseAllUpdate(f, ts[1..], i - 1, t);
      assert ts[i := t][1..] == ts[1..][i - 1 := t];
      if f(t).Some? {
        assert v[i := f(t).value] == [v[0]] + v[1..][i - 1 := f(t).value];
      }
    }
  }

  lemma {:induction false} ParseAllRemoval<T>(f: Tree -> Option<T>, ts: seq<Tree>, i: nat)
    requires i < |ts| && ParseAll(f, ts).Some?
    ensures |ParseAll(f, ts).value| == |ts|
    ensures ParseAll(f, RemoveAt(ts, i)) == Some(RemoveAt(ParseAll(f, ts).value, i))
  {
    ParseAllAt(f, ts, i);
    var v := ParseAll(f, ts).value;
    assert v == [v[0]] + ParseAll(f, ts[1..]).value;
    if i == 0 {
      assert RemoveAt(ts, 0) == ts[1..];
      assert RemoveAt(v, 0) == v[1..];
    } else {
      ParseAllRemoval(f, ts[1..], i - 1);
      RemoveAtTail(ts, i);
      RemoveAtTail(v, i);
    }
  }

  lemma {:induction false} ParseAfterDrop(fs: Fields, name: string)
    requires ParseAliases(fs).Some?
    ensures ParseAliases(Drop(fs, name)) == Some(RemoveAlias(ParseAliases(fs).value, name))
  {
    if fs != [] {
      ParseAfterDrop(fs[1..], name);
      var v := ParseAliases(fs).value;
      assert v[1..] == ParseAliases(fs[1..]).value;
      if fs[0].key == name {
        assert Drop(fs, name) == Drop(fs[1..], name);
        assert RemoveAlias(v, name) == RemoveAlias(v[1..], name);
      } else {
        assert Drop(fs, name)[1..] == Drop(fs[1..], name);
        assert RemoveAlias(v, name) == [v[0]] + RemoveAlias(v[1..], name);
      }
    }
  }
}
