/** Mutations that cannot be refused by the reload: from a file that validates they
    always give a file that validates. */
module ConfigValidity {
  import opened Wrappers
  import opened YamlTree
  import opened AliasGraph
  import opened GatewayConfig
  import opened ConfigWriter
  import opened ConfigSafety
  import opened ConfigCoupling

  /** The inputs of `Combine` that an assignment to one section leaves alone. */
  lemma OtherSectionsAfterPut(s: Schema, e: Fields, key: string, v: Tree, other: string)
    requires key in SECTIONS && other != key
    ensures Find(Put(e, key, v), other) == Find(e, other) && Find(Put(e, key, v), key) == Some(v)
    ensures Without(Put(e, key, v), SECTIONS) == Without(e, SECTIONS)
  {
    FindAfterPut(e, key, v, other);
    FindAfterPut(e, key, v, key);
    WithoutAfterPut(e, key, v, SECTIONS);
  }

  lemma ValidateAliases(s: Schema, e: Fields, v: Tree)
    ensures Validate(s, Put(e, "model_aliases", v)) ==
            Combine(ProviderSection(s, Find(e, "providers")), ToolSection(s, Find(e, "tool_providers")),
                    AliasSection(Some(v)), s.tierPolicy(Find(e, "tier_policy")), s.settings(Without(e, SECTIONS)))
  {
    OtherSectionsAfterPut(s, e, "model_aliases", v, "providers");
    OtherSectionsAfterPut(s, e, "model_aliases", v, "tool_providers");
    OtherSectionsAfterPut(s, e, "model_aliases", v, "tier_policy");
  }

  lemma ValidateProviders(s: Schema, e: Fields, v: Tree)
    ensures Validate(s, Put(e, "providers", v)) ==
            Combine(ProviderSection(s, Some(v)), ToolSection(s, Find(e, "tool_providers")),
                    AliasSection(Find(e, "model_aliases")), s.tierPolicy(Find(e, "tier_policy")),
                    s.settings(Without(e, SECTIONS)))
  {
    OtherSectionsAfterPut(s, e, "providers", v, "model_aliases");
    OtherSectionsAfterPut(s, e, "providers", v, "tool_providers");
    OtherSectionsAfterPut(s, e, "providers", v, "tier_policy");
  }

  lemma ValidateTools(s: Schema, e: Fields, v: Tree)
    ensures Validate(s, Put(e, "tool_providers", v)) ==
            Combine(ProviderSection(s, Find(e, "providers")), ToolSection(s, Some(v)),
                    AliasSection(Find(e, "model_aliases")), s.tierPolicy(Find(e, "tier_policy")),
                    s.settings(Without(e, SECTIONS)))
  {
    OtherSectionsAfterPut(s, e, "tool_providers", v, "model_aliases");
    OtherSectionsAfterPut(s, e, "tool_providers", v, "providers");
    OtherSectionsAfterPut(s, e, "tool_providers", v, "tier_policy");
  }

  // ---- replacing one section -------------------------------------------------

  function CheckedOrRefused(c: Config): Outcome<Config> {
    if Checked(c) then Ok(c) else Refused
  }

  function Judged(c: Option<Config>): Outcome<Config> {
    if c.Some? then Ok(c.value) else Refused
  }

  lemma CombineAliases(ps: Option<seq<Provider>>, ts: Option<seq<ToolProvider>>, a: Option<Aliases>,
                       tp: Option<TierPolicy>, rest: Option<Settings>, aliases: Aliases)
    requires Combine(ps, ts, a, tp, rest).Some?
    ensures Judged(Combine(ps, ts, Some(aliases), tp, rest)) ==
            CheckedOrRefused(Combine(ps, ts, a, tp, rest).value.(aliases := aliases))
  {
  }

  lemma CombineProviders(ps: Option<seq<Provider>>, ts: Option<seq<ToolProvider>>, a: Option<Aliases>,
                         tp: Option<TierPolicy>, rest: Option<Settings>, providers: Option<seq<Provider>>)
    requires Combine(ps, ts, a, tp, rest).Some?
    ensures Judged(Combine(providers, ts, a, tp, rest)) ==
            if providers.Some? then CheckedOrRefused(Combine(ps, ts, a, tp, rest).value.(providers := providers.value))
            else Refused
  {
  }

  lemma CombineTools(ps: Option<seq<Provider>>, ts: Option<seq<ToolProvider>>, a: Option<Aliases>,
                     tp: Option<TierPolicy>, rest: Option<Settings>, tools: seq<ToolProvider>)
    requires Combine(ps, ts, a, tp, rest).Some?
    ensures Judged(Combine(ps, Some(tools), a, tp, rest)) ==
            CheckedOrRefused(Combine(ps, ts, a, tp, rest).value.(tools := tools))
  {
  }

  lemma LoadAfterPut(s: Schema, fs: Fields, key: string, v: Tree)
    requires LoadTree(s, fs).Ok? && Expand(s.expand, v).Ok?
    ensures ExpandFields(s.expand, fs).Ok? &&
            Validate(s, ExpandFields(s.expand, fs).value) == Some(LoadTree(s, fs).value)
    ensures LoadTree(s, Put(fs, key, v)) ==
            Judged(Validate(s, Put(ExpandFields(s.expand, fs).value, key, Expand(s.expand, v).value)))
  {
    ExpandAfterPut(s.expand, fs, key, v);
  }

  lemma AliasSectionReloads(s: Schema, fs: Fields, v: Tree, aliases: Aliases)
    requires LoadTree(s, fs).Ok? && Expand(s.expand, v).Ok?
    requires AliasSection(Some(Expand(s.expand, v).value)) == Some(aliases)
    ensures LoadTree(s, Put(fs, "model_aliases", v)) == CheckedOrRefused(LoadTree(s, fs).value.(aliases := aliases))
  {
    var e := ExpandFields(s.expand, fs).value;
    LoadAfterPut(s, fs, "model_aliases", v);
    ValidateAliases(s, e, Expand(s.expand, v).value);
    CombineAliases(ProviderSection(s, Find(e, "providers")), ToolSection(s, Find(e, "tool_providers")),
                   AliasSection(Find(e, "model_aliases")), s.tierPolicy(Find(e, "tier_policy")),
                   s.settings(Without(e, SECTIONS)), aliases);
  }

  lemma ProviderSectionReloads(s: Schema, fs: Fields, v: Tree)
    requires LoadTree(s, fs).Ok? && Expand(s.expand, v).Ok?
    ensures var ps := ProviderSection(s, Some(Expand(s.expand, v).value));
            LoadTree(s, Put(fs, "providers", v)) ==
            if ps.Some? then CheckedOrRefused(LoadTree(s, fs).value.(providers := ps.value)) else Refused
  {
    var e := ExpandFields(s.expand, fs).value;
    LoadAfterPut(s, fs, "providers", v);
    ValidateProviders(s, e, Expand(s.expand, v).value);
    CombineProviders(ProviderSection(s, Find(e, "providers")), ToolSection(s, Find(e, "tool_providers")),
                     AliasSection(Find(e, "model_aliases")), s.tierPolicy(Find(e, "tier_policy")),
                     s.settings(Without(e, SECTIONS)), ProviderSection(s, Some(Expand(s.expand, v).value)));
  }

  lemma ToolSectionReloads(s: Schema, fs: Fields, v: Tree, tools: seq<ToolProvider>)
    requires LoadTree(s, fs).Ok? && Expand(s.expand, v).Ok?
    requires ToolSection(s, Some(Expand(s.expand, v).value)) == Some(tools)
    ensures LoadTree(s, Put(fs, "tool_providers", v)) == CheckedOrRefused(LoadTree(s, fs).value.(tools := tools))
  {
    var e := ExpandFields(s.expand, fs).value;
    LoadAfterPut(s, fs, "tool_providers", v);
    ValidateTools(s, e, Expand(s.expand, v).value);
    CombineTools(ProviderSection(s, Find(e, "providers")), ToolSection(s, Find(e, "tool_providers")),
                 AliasSection(Find(e, "model_aliases")), s.tierPolicy(Find(e, "tier_policy")),
                 s.settings(Without(e, SECTIONS)), tools);
  }

  // The sections of a file that loads, as they stand in the raw tree.

  lemma LoadedIsChecked(s: Schema, fs: Fields)
    requires LoadTree(s, fs).Ok?
    ensures Checked(LoadTree(s, fs).value) && ExpandFields(s.expand, fs).Ok?
  {
  }

  lemma CombineParts(ps: Option<seq<Provider>>, ts: Option<seq<ToolProvider>>, a: Option<Aliases>,
                     tp: Option<TierPolicy>, rest: Option<Settings>)
    requires Combine(ps, ts, a, tp, rest).Some?
    ensures var c := Combine(ps, ts, a, tp, rest).value;
            ps == Some(c.providers) && ts == Some(c.tools) && a == Some(c.aliases)
  {
  }

  lemma LoadedParts(s: Schema, fs: Fields)
    requires LoadTree(s, fs).Ok?
    ensures var c, e := LoadTree(s, fs).value, ExpandFields(s.expand, fs).value;
            && ProviderSection(s, Find(e, "providers")) == Some(c.providers)
            && ToolSection(s, Find(e, "tool_providers")) == Some(c.tools)
            && AliasSection(Find(e, "model_aliases")) == Some(c.aliases)
  {
    var e := ExpandFields(s.expand, fs).value;
    CombineParts(ProviderSection(s, Find(e, "providers")), ToolSection(s, Find(e, "tool_providers")),
                 AliasSection(Find(e, "model_aliases")), s.tierPolicy(Find(e, "tier_policy")),
                 s.settings(Without(e, SECTIONS)));
  }

  /** A section that is not there counts as empty; one of another shape, null included, is
      refused. */
  lemma AbsentSectionIsEmpty(s: Schema, e: Fields, list: string)
    requires list == "providers" || list == "tool_providers"
    ensures Find(e, list).None? ==> Validate(s, e) == Validate(s, Put(e, list, Items([])))
    ensures Find(e, "model_aliases").None? ==> Validate(s, e) == Validate(s, Put(e, "model_aliases", Mapping([])))
    ensures Find(e, list).Some? && !Find(e, list).value.Items? ==> Validate(s, e).None?
    ensures Find(e, "model_aliases").Some? && !Find(e, "model_aliases").value.Mapping? ==> Validate(s, e).None?
  {
    ValidateAliases(s, e, Mapping([]));
    forall other | other in SECTIONS && other != list
      ensures Find(Put(e, list, Items([])), other) == Find(e, other)
    {
      OtherSectionsAfterPut(s, e, list, Items([]), other);
    }
    FindAfterPut(e, list, Items([]), list);
    WithoutAfterPut(e, list, Items([]), SECTIONS);
  }

  /** Every entry of a configuration that loads has at most one source for its key. */
  lemma LoadedKeysExclusive(s: Schema, fs: Fields)
    requires LoadTree(s, fs).Ok?
    ensures forall p :: p in LoadTree(s, fs).value.providers ==> OneKeySource(p.apiKeyEnv, p.apiKeyEncrypted)
    ensures forall t :: t in LoadTree(s, fs).value.tools ==> OneKeySource(t.apiKeyEnv, t.apiKeyEncrypted)
  {
    LoadedParts(s, fs);
    var c, e := LoadTree(s, fs).value, ExpandFields(s.expand, fs).value;
    ProviderKeysExclusive(s, Find(e, "providers"), c.providers);
    ToolKeysExclusive(s, Find(e, "tool_providers"), c.tools);
  }

  lemma ProviderKeysExclusive(s: Schema, section: Option<Tree>, ps: seq<Provider>)
    requires ProviderSection(s, section) == Some(ps)
    ensures forall p :: p in ps ==> OneKeySource(p.apiKeyEnv, p.apiKeyEncrypted)
  {
    forall p | p in ps ensures OneKeySource(p.apiKeyEnv, p.apiKeyEncrypted) {
      var i :| 0 <= i < |ps| && ps[i] == p;
      ParsedFromItem(ProviderParser(s), ListSection(section).value, i);
    }
  }

  lemma ToolKeysExclusive(s: Schema, section: Option<Tree>, ts: seq<ToolProvider>)
    requires ToolSection(s, section) == Some(ts)
    ensures forall t :: t in ts ==> OneKeySource(t.apiKeyEnv, t.apiKeyEncrypted)
  {
    forall t | t in ts ensures OneKeySource(t.apiKeyEnv, t.apiKeyEncrypted) {
      var i :| 0 <= i < |ts| && ts[i] == t;
      ParsedFromItem(ToolParser(s), ListSection(section).value, i);
    }
  }

  lemma LoadedAliases(s: Schema, fs: Fields, a: Fields)
    requires LoadTree(s, fs).Ok? && Find(fs, "model_aliases") == Some(Mapping(a))
    ensures ExpandFields(s.expand, a).Ok?
    ensures ParseAliases(ExpandFields(s.expand, a).value) == Some(LoadTree(s, fs).value.aliases)
  {
    LoadedParts(s, fs);
    FindAfterExpand(s.expand, fs, "model_aliases");
  }

  lemma LoadedProviders(s: Schema, fs: Fields, ts: seq<Tree>)
    requires LoadTree(s, fs).Ok? && Find(fs, "providers") == Some(Items(ts))
    ensures ExpandItems(s.expand, ts).Ok?
    ensures ParseAll(ProviderParser(s), ExpandItems(s.expand, ts).value) == Some(LoadTree(s, fs).value.providers)
  {
    LoadedParts(s, fs);
    FindAfterExpand(s.expand, fs, "providers");
  }

  lemma LoadedTools(s: Schema, fs: Fields, ts: seq<Tree>)
    requires LoadTree(s, fs).Ok? && Find(fs, "tool_providers") == Some(Items(ts))
    ensures ExpandItems(s.expand, ts).Ok?
    ensures ParseAll(ToolParser(s), ExpandItems(s.expand, ts).value) == Some(LoadTree(s, fs).value.tools)
  {
    LoadedParts(s, fs);
    FindAfterExpand(s.expand, fs, "tool_providers");
  }

  // ---- deleting an alias ----------------------------------------------------

  /** The reload sees the same configuration without that alias. */
  lemma DeleteAliasLoads(s: Schema, fs: Fields, name: string)
    requires LoadTree(s, fs).Ok? && DeleteAliasEdit(fs, name).Write?
    ensures var c := LoadTree(s, fs).value;
            LoadTree(s, DeleteAliasEdit(fs, name).fields) == Ok(c.(aliases := RemoveAlias(c.aliases, name)))
  {
    AliasDropLoads(s, fs, MappingAt(fs, "model_aliases"), name);
  }

  lemma AliasDropLoads(s: Schema, fs: Fields, a: Fields, name: string)
    requires LoadTree(s, fs).Ok? && Find(fs, "model_aliases") == Some(Mapping(a))
    ensures var c := LoadTree(s, fs).value;
            LoadTree(s, Put(fs, "model_aliases", Mapping(Drop(a, name)))) ==
              Ok(c.(aliases := RemoveAlias(c.aliases, name)))
  {
    var c := LoadTree(s, fs).value;
    LoadedIsChecked(s, fs);
    DroppedAliasParses(s, fs, a, name);
    AliasSectionReloads(s, fs, Mapping(Drop(a, name)), RemoveAlias(c.aliases, name));
    RemoveStaysChecked(c, name);
  }

  lemma DroppedAliasParses(s: Schema, fs: Fields, a: Fields, name: string)
    requires LoadTree(s, fs).Ok? && Find(fs, "model_aliases") == Some(Mapping(a))
    ensures Expand(s.expand, Mapping(Drop(a, name))).Ok?
    ensures AliasSection(Some(Expand(s.expand, Mapping(Drop(a, name))).value)) ==
            Some(RemoveAlias(LoadTree(s, fs).value.aliases, name))
  {
    LoadedAliases(s, fs, a);
    ExpandAfterWithout(s.expand, a, {name});
    ParseAfterDrop(ExpandFields(s.expand, a).value, name);
  }

  lemma RemoveStaysChecked(c: Config, gone: string)
    requires Checked(c)
    ensures Checked(c.(aliases := RemoveAlias(c.aliases, gone)))
  {
    RemoveKeepsChainsEnding(c.aliases, gone);
    RemoveKeepsProvidersKnown(c.providers, c.aliases, gone);
  }

  lemma RemoveKeepsProvidersKnown(ps: seq<Provider>, a: Aliases, gone: string)
    requires AliasProvidersKnown(ps, a)
    ensures AliasProvidersKnown(ps, RemoveAlias(a, gone))
  {
    forall i | 0 <= i < |RemoveAlias(a, gone)| ensures TargetsKnown(ps, RemoveAlias(a, gone)[i].alias) {
      RemoveIsSubset(a, gone, i);
    }
  }

  // ---- provider keys --------------------------------------------------------

  /** Two provider lists that differ in key fields only. */
  predicate SameNames(ps: seq<Provider>, qs: seq<Provider>) {
    |ps| == |qs| && forall i :: 0 <= i < |ps| ==> ps[i].name == qs[i].name
  }

  lemma NamesDecideTargets(ps: seq<Provider>, qs: seq<Provider>, a: Aliases)
    requires SameNames(ps, qs) && AliasProvidersKnown(ps, a)
    ensures AliasProvidersKnown(qs, a)
  {
    forall name | KnownProvider(ps, name) ensures KnownProvider(qs, name) {
      var i :| 0 <= i < |ps| && ps[i].name == name;
      assert qs[i].name == name;
    }
    forall i | 0 <= i < |a| ensures TargetsKnown(qs, a[i].alias) {
      assert TargetsKnown(ps, a[i].alias);
    }
  }

  /** Reloading after entry `i` of the provider list was replaced by one that expands. */
  lemma ProviderEntryLoads(s: Schema, fs: Fields, i: nat, t: Tree)
    requires LoadTree(s, fs).Ok? && Find(fs, "providers") == Some(Items(ItemsAt(fs, "providers")))
    requires i < |ItemsAt(fs, "providers")| && Expand(s.expand, t).Ok?
    ensures i < |LoadTree(s, fs).value.providers|
    ensures Expand(s.expand, ItemsAt(fs, "providers")[i]).Ok?
    ensures ParseProvider(s, Expand(s.expand, ItemsAt(fs, "providers")[i]).value) ==
            Some(LoadTree(s, fs).value.providers[i])
    ensures var c := LoadTree(s, fs).value;
            var p := ParseProvider(s, Expand(s.expand, t).value);
            var fs' := Put(fs, "providers", Items(ItemsAt(fs, "providers")[i := t]));
            LoadTree(s, fs') ==
            if p.Some? then CheckedOrRefused(c.(providers := c.providers[i := p.value])) else Refused
  {
    var ts := ItemsAt(fs, "providers");
    LoadedProviders(s, fs, ts);
    var es := ExpandItems(s.expand, ts).value;
    ExpandItemAt(s.expand, ts, i);
    ExpandAfterItemUpdate(s.expand, ts, i, t);
    ParseAllAt(ProviderParser(s), es, i);
    ParseAllUpdate(ProviderParser(s), es, i, Expand(s.expand, t).value);
    ProviderSectionReloads(s, fs, Items(ts[i := t]));
  }

  /** What the loader makes of a key string in the file. */
  function KeyValue(s: Schema, token: string): Option<Option<string>> {
    match s.expand(token)
    case Ok(Text(x)) => Some(Some(x))
    case Ok(Null) => Some(None)
    case _ => None
  }

  lemma SetKeyParses(s: Schema, e: Fields, p: Provider, v: Tree)
    requires ParseProvider(s, Mapping(e)) == Some(p)
    ensures ParseProvider(s, Mapping(Put(Drop(e, KEY_ENV), KEY_ENCRYPTED, v))) ==
            match v
            case Text(x) => Some(p.(apiKeyEnv := None, apiKeyEncrypted := Some(x)))
            case Null => Some(p.(apiKeyEnv := None, apiKeyEncrypted := None))
            case _ => None
  {
    var d := Drop(e, KEY_ENV);
    var e' := Put(d, KEY_ENCRYPTED, v);
    FindAfterPut(d, KEY_ENCRYPTED, v, KEY_ENCRYPTED);
    FindAfterPut(d, KEY_ENCRYPTED, v, KEY_ENV);
    FindAfterWithout(e, {KEY_ENV}, KEY_ENV);
    WithoutAfterPut(d, KEY_ENCRYPTED, v, KEY_FIELDS);
    WithoutAfterDrop(e, KEY_ENV, KEY_FIELDS);
  }

  lemma DropKeyParses(s: Schema, e: Fields, p: Provider)
    requires ParseProvider(s, Mapping(e)) == Some(p)
    ensures ParseProvider(s, Mapping(Drop(e, KEY_ENCRYPTED))) == Some(p.(apiKeyEncrypted := None))
  {
    FindAfterWithout(e, {KEY_ENCRYPTED}, KEY_ENV);
    FindAfterWithout(e, {KEY_ENCRYPTED}, KEY_ENCRYPTED);
    WithoutAfterDrop(e, KEY_ENCRYPTED, KEY_FIELDS);
  }

  /** Setting a key: the reload accepts it exactly when the token reads back as a string
      (or as nothing), and then only the addressed provider's key source has changed. */
  lemma UpsertProviderKeyLoads(s: Schema, fs: Fields, name: string, token: string)
    requires LoadTree(s, fs).Ok? && ProviderKeyEdit(fs, name, e => SetKey(e, token), false).Write?
    ensures var c := LoadTree(s, fs).value;
            var i := EntryIndex(ItemsAt(fs, "providers"), "name", name);
            var key := KeyValue(s, token);
            && i.Some? && i.value < |c.providers|
            && LoadTree(s, ProviderKeyEdit(fs, name, e => SetKey(e, token), false).fields) ==
               if key.Some? then
                 var changed := c.providers[i.value].(apiKeyEnv := None, apiKeyEncrypted := key.value);
                 Ok(c.(providers := c.providers[i.value := changed]))
               else if s.expand(token).Crashed? then Crashed else Refused
  {
    var c, ts := LoadTree(s, fs).value, ItemsAt(fs, "providers");
    EntryIndexFinds(ts, "name", name);
    var i := EntryIndex(ts, "name", name).value;
    LoadedIsChecked(s, fs);
    LoadedProviders(s, fs, ts);
    EntryExpands(s, ts, i);
    SetKeyExpands(s, ts[i].fields, token);
    var t := Mapping(SetKey(ts[i].fields, token));
    ProviderEntryLoads(s, fs, i, ts[i]);
    if s.expand(token).Ok? {
      ProviderEntryLoads(s, fs, i, t);
      SetKeyParses(s, ExpandFields(s.expand, ts[i].fields).value, c.providers[i], s.expand(token).value);
      KeyChangeStaysChecked(c, i, None, if s.expand(token).value.Text? then Some(s.expand(token).value.text) else None);
    } else {
      ReplacedItemEndsLike(s, ts, i, t);
      PutEndsLike(s, fs, "providers", Items(ts[i := t]));
    }
  }

  lemma KeyChangeStaysChecked(c: Config, i: nat, env: Option<string>, encrypted: Option<string>)
    requires Checked(c) && i < |c.providers|
    ensures Checked(c.(providers := c.providers[i := c.providers[i].(apiKeyEnv := env, apiKeyEncrypted := encrypted)]))
  {
    NamesDecideTargets(c.providers, c.providers[i := c.providers[i].(apiKeyEnv := env, apiKeyEncrypted := encrypted)],
                       c.aliases);
  }

  lemma DeleteProviderKeyLoads(s: Schema, fs: Fields, name: string)
    requires LoadTree(s, fs).Ok? && ProviderKeyEdit(fs, name, e => Drop(e, KEY_ENCRYPTED), true).Write?
    ensures var c := LoadTree(s, fs).value;
            var i := EntryIndex(ItemsAt(fs, "providers"), "name", name);
            && i.Some? && i.value < |c.providers|
            && LoadTree(s, ProviderKeyEdit(fs, name, e => Drop(e, KEY_ENCRYPTED), true).fields) ==
               Ok(c.(providers := c.providers[i.value := c.providers[i.value].(apiKeyEncrypted := None)]))
  {
    var c, ts := LoadTree(s, fs).value, ItemsAt(fs, "providers");
    EntryIndexFinds(ts, "name", name);
    var i := EntryIndex(ts, "name", name).value;
    LoadedIsChecked(s, fs);
    LoadedProviders(s, fs, ts);
    ProviderEntryDropLoads(s, fs, i);
  }

  lemma ProviderEntryDropLoads(s: Schema, fs: Fields, i: nat)
    requires LoadTree(s, fs).Ok? && Find(fs, "providers") == Some(Items(ItemsAt(fs, "providers")))
    requires i < |ItemsAt(fs, "providers")| && ItemsAt(fs, "providers")[i].Mapping?
    ensures i < |LoadTree(s, fs).value.providers|
    ensures var c, ts := LoadTree(s, fs).value, ItemsAt(fs, "providers");
            LoadTree(s, Put(fs, "providers", Items(ts[i := Mapping(Drop(ts[i].fields, KEY_ENCRYPTED))]))) ==
            Ok(c.(providers := c.providers[i := c.providers[i].(apiKeyEncrypted := None)]))
  {
    var c, ts := LoadTree(s, fs).value, ItemsAt(fs, "providers");
    LoadedIsChecked(s, fs);
    LoadedProviders(s, fs, ts);
    EntryExpands(s, ts, i);
    ExpandAfterWithout(s.expand, ts[i].fields, {KEY_ENCRYPTED});
    ProviderEntryLoads(s, fs, i, Mapping(Drop(ts[i].fields, KEY_ENCRYPTED)));
    DropKeyParses(s, ExpandFields(s.expand, ts[i].fields).value, c.providers[i]);
    KeyChangeStaysChecked(c, i, c.providers[i].apiKeyEnv, None);
  }

  // ---- removing a tool provider ----------------------------------------------

  lemma RemoveToolLoads(s: Schema, fs: Fields, kind: string)
    requires LoadTree(s, fs).Ok? && RemoveToolEdit(fs, kind).Write?
    ensures var c := LoadTree(s, fs).value;
            var i := EntryIndex(ItemsAt(fs, "tool_providers"), "type", kind);
            && i.Some? && i.value < |c.tools|
            && LoadTree(s, RemoveToolEdit(fs, kind).fields) == Ok(c.(tools := RemoveAt(c.tools, i.value)))
  {
    var c, ts := LoadTree(s, fs).value, ItemsAt(fs, "tool_providers");
    EntryIndexFinds(ts, "type", kind);
    var i := EntryIndex(ts, "type", kind).value;
    LoadedIsChecked(s, fs);
    LoadedTools(s, fs, ts);
    ExpandAfterRemoval(s.expand, ts, i);
    ParseAllRemoval(ToolParser(s), ExpandItems(s.expand, ts).value, i);
    ToolSectionReloads(s, fs, Items(RemoveAt(ts, i)), RemoveAt(c.tools, i));
    RemoveToolStaysChecked(c, i);
  }

  lemma RemoveToolStaysChecked(c: Config, i: nat)
    requires Checked(c) && i < |c.tools|
    ensures Checked(c.(tools := RemoveAt(c.tools, i)))
  {
    RemoveKeepsNamesUnique(c.tools, i);
  }

  lemma RemoveKeepsNamesUnique(ts: seq<ToolProvider>, i: nat)
    requires i < |ts| && ToolNamesUnique(ts)
    ensures ToolNamesUnique(RemoveAt(ts, i))
  {
    var r := RemoveAt(ts, i);
    forall x, y | 0 <= x < y < |r| ensures r[x].name != r[y].name {
      assert r[x] == ts[if x < i then x else x + 1];
      assert r[y] == ts[if y < i then y else y + 1];
    }
  }

  // ---- the rollback branch is dead -------------------------------------------

  /** Deleting an alias or a key, or removing a tool provider, never meets a refused
      reload; setting a key never does when the token holds no placeholder. */
  lemma RollbackUnreachable(s: Schema, st: State, op: Op, io: Io)
    requires Lawful(s) && Coupled(s, st)
    requires || op.DeleteAlias? || op.DeleteProviderKey? || op.RemoveToolProvider?
             || (op.UpsertProviderKey? && '$' !in op.token)
    ensures var status := Step(s, st, op, io).1;
            status.Done? || status.Http? || (io.replaceFails && status.ReplaceFailed?)
  {
    CoupledFile(s, st);
    var fs := s.parse(st.file.value).tree.fields;
    if PreCheck(s, op, st.config).None? && EditOf(s, op, fs).Write? {
      match op {
        case DeleteAlias(n) => DeleteAliasLoads(s, fs, n);
        case DeleteProviderKey(n) => DeleteProviderKeyLoads(s, fs, n);
        case RemoveToolProvider(k) => RemoveToolLoads(s, fs, k);
        case UpsertProviderKey(n, token) => UpsertProviderKeyLoads(s, fs, n, token);
        case _ =>
      }
      CommitKeepsCoupling(s, st, EditOf(s, op, fs).fields, io);
    }
  }
}
