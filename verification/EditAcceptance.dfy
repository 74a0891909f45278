/** When the reload accepts a written alias or a new tool provider: the one cross-check that
    the edit's own pre-checks do not make. */
module EditAcceptance {
  import opened Wrappers
  import opened YamlTree
  import opened AliasGraph
  import opened GatewayConfig
  import opened ConfigWriter
  import opened ConfigSafety
  import opened ConfigCoupling
  import opened ConfigValidity

  // ---- writing an alias ------------------------------------------------------------------

  /** The alias table with one entry replaced in place or added at the end. */
  function PutAlias(a: Aliases, name: string, alias: Alias): Aliases {
    if a == [] then [NamedAlias(name, alias)]
    else if a[0].name == name then [NamedAlias(name, alias)] + a[1..]
    else [a[0]] + PutAlias(a[1..], name, alias)
  }

  /** The name means the new alias, every other name what it meant before. */
  lemma {:induction false} LookupAfterPut(a: Aliases, name: string, alias: Alias, other: string)
    ensures Lookup(PutAlias(a, name, alias), other) == if other == name then Some(alias) else Lookup(a, other)
  {
    if a != [] {
      LookupAfterPut(a[1..], name, alias, other);
      assert ([a[0]] + PutAlias(a[1..], name, alias))[1..] == PutAlias(a[1..], name, alias);
      assert ([NamedAlias(name, alias)] + a[1..])[1..] == a[1..];
    }
  }

  function EntryTarget(t: Tree): Target {
    if TextField(t, "provider") && TextField(t, "model") then Target(TextOf(t, "provider"), TextOf(t, "model"))
    else Target("", "")
  }

  function EntryTargets(ts: seq<Tree>): seq<Target> {
    seq(|ts|, i requires 0 <= i < |ts| => EntryTarget(ts[i]))
  }

  /** The alias that a payload describes. */
  function WrittenAlias(provider: string, model: string, fallback: Option<seq<Tree>>): Alias {
    Alias(Target(provider, model), if fallback.Some? then EntryTargets(fallback.value) else [])
  }

  predicate PlainEntry(t: Tree) {
    TextField(t, "provider") && TextField(t, "model") ==> '$' !in TextOf(t, "provider") && '$' !in TextOf(t, "model")
  }

  /** The payload holds no placeholder. */
  predicate PlainPayload(provider: string, model: string, fallback: Option<seq<Tree>>) {
    && '$' !in provider && '$' !in model
    && (fallback.Some? ==> forall i :: 0 <= i < |fallback.value| ==> PlainEntry(fallback.value[i]))
  }

  /** A mapping of two fields that hold no placeholder. */
  lemma TwoFields(env: Environment, k: string, v: Tree, m: string, w: Tree)
    requires k != m && Expand(env, v) == Ok(v) && Expand(env, w) == Ok(w)
    ensures var fs := [Field(k, v), Field(m, w)];
            && Expand(env, Mapping(fs)) == Ok(Mapping(fs))
            && Find(fs, k) == Some(v) && Find(fs, m) == Some(w) && Without(fs, {k, m}) == []
  {
    var last, fs := [Field(m, w)], [Field(k, v), Field(m, w)];
    assert last[1..] == [] && fs[1..] == last;
    assert [Field(m, w)] + [] == last && [Field(k, v)] + last == fs;
    assert ExpandFields(env, last) == Ok(last);
    assert ExpandFields(env, fs) == Ok(fs);
    assert Find(last, m) == Some(w);
    assert Without(last, {k, m}) == [];
  }

  lemma TargetBlockReads(s: Schema, provider: string, model: string)
    requires Lawful(s) && '$' !in provider && '$' !in model && provider != "" && model != ""
    ensures Expand(s.expand, TargetBlock(provider, model)) == Ok(TargetBlock(provider, model))
    ensures ParseTarget(TargetBlock(provider, model)) == Some(Target(provider, model))
  {
    TwoFields(s.expand, "provider", Text(provider), "model", Text(model));
  }

  function EntryBlocks(ts: seq<Tree>): seq<Tree> {
    seq(|ts|, i requires 0 <= i < |ts| => EntryBlock(ts[i]))
  }

  lemma EntryBlockReads(s: Schema, ps: seq<Provider>, t: Tree)
    requires Lawful(s) && EntryOk(ps, t) && PlainEntry(t)
    ensures Expand(s.expand, EntryBlock(t)) == Ok(EntryBlock(t)) && ParseTarget(EntryBlock(t)) == Some(EntryTarget(t))
  {
    TargetBlockReads(s, TextOf(t, "provider"), TextOf(t, "model"));
  }

  lemma {:induction false} FixedItems(env: Environment, ts: seq<Tree>)
    requires forall i :: 0 <= i < |ts| ==> Expand(env, ts[i]) == Ok(ts[i])
    ensures ExpandItems(env, ts) == Ok(ts)
  {
    if ts != [] {
      FixedItems(env, ts[1..]);
      assert [ts[0]] + ts[1..] == ts;
    }
  }

  lemma {:induction false} ParsedItems<T>(f: Tree -> Option<T>, ts: seq<Tree>, vs: seq<T>)
    requires |ts| == |vs| && forall i :: 0 <= i < |ts| ==> f(ts[i]) == Some(vs[i])
    ensures ParseAll(f, ts) == Some(vs)
  {
    if ts != [] {
      ParsedItems(f, ts[1..], vs[1..]);
      assert [vs[0]] + vs[1..] == vs;
    }
  }

  lemma EntryBlocksRead(s: Schema, ps: seq<Provider>, ts: seq<Tree>)
    requires Lawful(s) && forall i :: 0 <= i < |ts| ==> EntryOk(ps, ts[i]) && PlainEntry(ts[i])
    ensures ExpandItems(s.expand, EntryBlocks(ts)) == Ok(EntryBlocks(ts))
    ensures ParseAll(ParseTarget, EntryBlocks(ts)) == Some(EntryTargets(ts))
  {
    var blocks, targets := EntryBlocks(ts), EntryTargets(ts);
    forall i | 0 <= i < |blocks|
      ensures Expand(s.expand, blocks[i]) == Ok(blocks[i]) && ParseTarget(blocks[i]) == Some(targets[i])
    {
      EntryBlockReads(s, ps, ts[i]);
    }
    FixedItems(s.expand, blocks);
    ParsedItems(ParseTarget, blocks, targets);
  }

  lemma AliasBlockReads(s: Schema, ps: seq<Provider>, provider: string, model: string, fallback: Option<seq<Tree>>)
    requires Lawful(s) && PayloadOk(ps, provider, model, fallback) && PlainPayload(provider, model, fallback)
    ensures var block := AliasBlock(provider, model, fallback);
            && Expand(s.expand, block) == Ok(block)
            && ParseAlias(block) == Some(WrittenAlias(provider, model, fallback))
  {
    var ts := fallback.GetOr([]);
    var entries := EntryBlocks(ts);
    assert AliasBlock(provider, model, fallback) ==
           Mapping([Field("primary", TargetBlock(provider, model)), Field("fallback", Items(entries))]);
    assert WrittenAlias(provider, model, fallback) == Alias(Target(provider, model), EntryTargets(ts));
    TargetBlockReads(s, provider, model);
    EntryBlocksRead(s, ps, ts);
    TwoFields(s.expand, "primary", TargetBlock(provider, model), "fallback", Items(entries));
  }

  lemma {:induction false} ParseAfterPut(fs: Fields, name: string, t: Tree, alias: Alias)
    requires ParseAliases(fs).Some? && ParseAlias(t) == Some(alias)
    ensures ParseAliases(Put(fs, name, t)) == Some(PutAlias(ParseAliases(fs).value, name, alias))
  {
    var put := Put(fs, name, t);
    if fs == [] {
      assert put[1..] == [];
      assert [NamedAlias(name, alias)] + [] == [NamedAlias(name, alias)];
    } else {
      var v := ParseAliases(fs).value;
      assert v[1..] == ParseAliases(fs[1..]).value;
      if fs[0].key == name {
        assert put[1..] == fs[1..];
      } else {
        ParseAfterPut(fs[1..], name, t, alias);
        assert put[1..] == Put(fs[1..], name, t);
      }
    }
  }

  lemma {:induction false} PutKeepsProvidersKnown(ps: seq<Provider>, a: Aliases, name: string, alias: Alias)
    requires AliasProvidersKnown(ps, a) && TargetsKnown(ps, alias)
    ensures AliasProvidersKnown(ps, PutAlias(a, name, alias))
  {
    if a != [] && a[0].name != name {
      PutKeepsProvidersKnown(ps, a[1..], name, alias);
      assert TargetsKnown(ps, a[0].alias);
      forall i | 0 <= i < |PutAlias(a, name, alias)| ensures TargetsKnown(ps, PutAlias(a, name, alias)[i].alias) {
        assert i > 0 ==> PutAlias(a, name, alias)[i] == PutAlias(a[1..], name, alias)[i - 1];
      }
    }
  }

  lemma WrittenTargetsKnown(ps: seq<Provider>, provider: string, model: string, fallback: Option<seq<Tree>>)
    requires PayloadOk(ps, provider, model, fallback)
    ensures TargetsKnown(ps, WrittenAlias(provider, model, fallback))
  {
    var alias := WrittenAlias(provider, model, fallback);
    forall t | t in alias.fallback ensures KnownProvider(ps, t.provider) {
      var i :| 0 <= i < |alias.fallback| && alias.fallback[i] == t;
      assert EntryOk(ps, fallback.value[i]);
    }
  }

  /** Writing an alias that passes its pre-check: the reload accepts the file exactly when
      every chain of the table with the new alias still ends, and has then that table. */
  lemma UpsertAliasLoads(s: Schema, fs: Fields, name: string, provider: string, model: string,
                         fallback: Option<seq<Tree>>,
                         createOnly: bool, updateOnly: bool)
    requires Lawful(s) && LoadTree(s, fs).Ok?
    requires PayloadOk(LoadTree(s, fs).value.providers, provider, model, fallback) &&
             PlainPayload(provider, model, fallback)
    requires UpsertAliasEdit(fs, name, AliasBlock(provider, model, fallback), createOnly, updateOnly).Write?
    ensures var c := LoadTree(s, fs).value;
            var aliases := PutAlias(c.aliases, name, WrittenAlias(provider, model, fallback));
            LoadTree(s, UpsertAliasEdit(fs, name, AliasBlock(provider, model, fallback), createOnly,
                                        updateOnly).fields) ==
            if ChainsEnd(aliases) then Ok(c.(aliases := aliases)) else Refused
  {
    var c, block := LoadTree(s, fs).value, AliasBlock(provider, model, fallback);
    var alias := WrittenAlias(provider, model, fallback);
    AliasBlockReads(s, c.providers, provider, model, fallback);
    WrittenTargetsKnown(c.providers, provider, model, fallback);
    UpsertedBlockLoads(s, fs, name, block, alias, createOnly, updateOnly);
  }

  lemma UpsertedBlockLoads(s: Schema, fs: Fields, name: string, block: Tree, alias: Alias, createOnly: bool,
                           updateOnly: bool)
    requires LoadTree(s, fs).Ok? && Expand(s.expand, block) == Ok(block) && ParseAlias(block) == Some(alias)
    requires TargetsKnown(LoadTree(s, fs).value.providers, alias)
    requires UpsertAliasEdit(fs, name, block, createOnly, updateOnly).Write?
    ensures var c := LoadTree(s, fs).value;
            var aliases := PutAlias(c.aliases, name, alias);
            LoadTree(s, UpsertAliasEdit(fs, name, block, createOnly, updateOnly).fields) ==
            if ChainsEnd(aliases) then Ok(c.(aliases := aliases)) else Refused
  {
    WhatUpsertWrites(fs, name, block, createOnly, updateOnly);
    AliasPutLoads(s, fs, name, block, alias);
  }

  lemma WhatUpsertWrites(fs: Fields, name: string, block: Tree, createOnly: bool, updateOnly: bool)
    requires UpsertAliasEdit(fs, name, block, createOnly, updateOnly).Write?
    ensures && EditableAliases(fs)
            && UpsertAliasEdit(fs, name, block, createOnly, updateOnly) ==
               Write(Put(fs, "model_aliases", Mapping(Put(MappingAt(fs, "model_aliases"), name, block))))
  {
  }

  lemma AliasPutLoads(s: Schema, fs: Fields, name: string, block: Tree, alias: Alias)
    requires LoadTree(s, fs).Ok? && Expand(s.expand, block) == Ok(block) && ParseAlias(block) == Some(alias)
    requires TargetsKnown(LoadTree(s, fs).value.providers, alias)
    requires EditableAliases(fs)
    ensures var c := LoadTree(s, fs).value;
            var aliases := PutAlias(c.aliases, name, alias);
            LoadTree(s, Put(fs, "model_aliases", Mapping(Put(MappingAt(fs, "model_aliases"), name, block)))) ==
            if ChainsEnd(aliases) then Ok(c.(aliases := aliases)) else Refused
  {
    var c, a := LoadTree(s, fs).value, MappingAt(fs, "model_aliases");
    LoadedIsChecked(s, fs);
    PutAliasParses(s, fs, name, block, alias);
    AliasSectionReloads(s, fs, Mapping(Put(a, name, block)), PutAlias(c.aliases, name, alias));
    PutKeepsProvidersKnown(c.providers, c.aliases, name, alias);
  }

  /** The section as the writer takes it over: absent, empty, or a mapping. */
  predicate EditableAliases(fs: Fields) {
    var section := Find(fs, "model_aliases");
    section.None? || section.value.Mapping? || section.value.Null?
  }

  lemma AliasesToEdit(s: Schema, fs: Fields)
    requires LoadTree(s, fs).Ok?
    requires EditableAliases(fs)
    ensures var a := MappingAt(fs, "model_aliases");
            && ExpandFields(s.expand, a).Ok?
            && ParseAliases(ExpandFields(s.expand, a).value) == Some(LoadTree(s, fs).value.aliases)
  {
    LoadedParts(s, fs);
    FindAfterExpand(s.expand, fs, "model_aliases");
  }

  lemma PutAliasParses(s: Schema, fs: Fields, name: string, block: Tree, alias: Alias)
    requires LoadTree(s, fs).Ok? && Expand(s.expand, block) == Ok(block) && ParseAlias(block) == Some(alias)
    requires EditableAliases(fs)
    ensures var a := MappingAt(fs, "model_aliases");
            && Expand(s.expand, Mapping(Put(a, name, block))).Ok?
            && AliasSection(Some(Expand(s.expand, Mapping(Put(a, name, block))).value)) ==
               Some(PutAlias(LoadTree(s, fs).value.aliases, name, alias))
  {
    var a := MappingAt(fs, "model_aliases");
    AliasesToEdit(s, fs);
    ExpandAfterPut(s.expand, a, name, block);
    ParseAfterPut(ExpandFields(s.expand, a).value, name, block, alias);
  }

  // ---- adding a tool provider ---------------------------------------------------------------

  predicate ToolNameTaken(ts: seq<ToolProvider>, name: string) {
    exists i :: 0 <= i < |ts| && ts[i].name == name
  }

  lemma {:induction false} WithoutAbsent(fs: Fields, keys: set<string>)
    requires forall k :: k in keys ==> Find(fs, k).None?
    ensures Without(fs, keys) == fs
  {
    if fs != [] {
      assert Find(fs, fs[0].key) == Some(fs[0].value);
      forall k | k in keys ensures Find(fs[1..], k).None? {
        assert Find(fs, k).None?;
      }
      WithoutAbsent(fs[1..], keys);
    }
  }

  /** The entry that an enabled or disabled default becomes, with its key if one is given. */
  function NewTool(s: Schema, default: Fields, token: Option<string>, on: bool): ToolProvider
    requires s.tool(Put(default, "enabled", Flag(on))).Some?
  {
    s.tool(Put(default, "enabled", Flag(on))).value.(apiKeyEnv := None, apiKeyEncrypted := token)
  }

  lemma NewToolReads(s: Schema, default: Fields, kind: string, token: Option<string>, on: bool)
    requires Lawful(s) && OwnToolEntry(s, default, kind) && (token.Some? ==> '$' !in token.value)
    ensures var t := Mapping(EnableTool(default, token, on));
            && Expand(s.expand, t).Ok? && ParseTool(s, Expand(s.expand, t).value) ==
               Some(NewTool(s, default, token, on))
    ensures NewTool(s, default, token, on).kind == kind
    ensures Find(default, "name") == Some(Text(NewTool(s, default, token, on).name))
  {
    var e := Put(default, "enabled", Flag(on));
    ExpandAfterPut(s.expand, default, "enabled", Flag(on));
    FindAfterPut(default, "enabled", Flag(on), KEY_ENV);
    FindAfterPut(default, "enabled", Flag(on), KEY_ENCRYPTED);
    FindAfterPut(default, "enabled", Flag(on), "name");
    FindAfterPut(default, "enabled", Flag(on), "type");
    WithoutAbsent(e, KEY_FIELDS);
    assert SaysOfTool(e, s.tool(e).value);
    if token.Some? {
      TokenReads(s, e, token.value);
    }
  }

  lemma TokenReads(s: Schema, e: Fields, token: string)
    requires ExpandFields(s.expand, e) == Ok(e) && Find(e, KEY_ENV).None? && s.expand(token) == Ok(Text(token))
    ensures ExpandFields(s.expand, SetKey(e, token)).Ok?
    ensures var e' := ExpandFields(s.expand, SetKey(e, token)).value;
            KeySources(e') == Some((None, Some(token))) && Without(e', KEY_FIELDS) == Without(e, KEY_FIELDS)
  {
    SetKeyExpands(s, e, token);
    KeyOnly(e, token);
  }

  lemma KeyOnly(e: Fields, token: string)
    requires Find(e, KEY_ENV).None?
    ensures var e' := Put(Drop(e, KEY_ENV), KEY_ENCRYPTED, Text(token));
            KeySources(e') == Some((None, Some(token))) && Without(e', KEY_FIELDS) == Without(e, KEY_FIELDS)
  {
    var d := Drop(e, KEY_ENV);
    FindAfterPut(d, KEY_ENCRYPTED, Text(token), KEY_ENCRYPTED);
    FindAfterPut(d, KEY_ENCRYPTED, Text(token), KEY_ENV);
    FindAfterWithout(e, {KEY_ENV}, KEY_ENV);
    WithoutAfterPut(d, KEY_ENCRYPTED, Text(token), KEY_FIELDS);
    WithoutAfterDrop(e, KEY_ENV, KEY_FIELDS);
  }

  lemma {:induction false} ParseAllAppend<T>(f: Tree -> Option<T>, ts: seq<Tree>, t: Tree)
    requires ParseAll(f, ts).Some? && f(t).Some?
    ensures ParseAll(f, ts + [t]) == Some(ParseAll(f, ts).value + [f(t).value])
  {
    if ts == [] {
      assert ts + [t] == [t] && [t][1..] == [];
      assert [f(t).value] + [] == [] + [f(t).value];
    } else {
      ParseAllAppend(f, ts[1..], t);
      assert (ts + [t])[1..] == ts[1..] + [t];
      var v, rest := ParseAll(f, ts).value, ParseAll(f, ts[1..]).value;
      assert v == [v[0]] + rest;
      assert [v[0]] + (rest + [f(t).value]) == v + [f(t).value];
    }
  }

  /** Adding a tool provider of a kind the file does not have: the reload accepts it exactly
      when no tool provider has the name the gateway gives to it. */
  lemma UpsertNewToolLoads(s: Schema, fs: Fields, kind: string, token: Option<string>, on: bool)
    requires Lawful(s) && LoadTree(s, fs).Ok? && UpsertToolEdit(s, fs, kind, token, on).Write?
    requires EntryIndex(ItemsAt(fs, "tool_providers"), "type", kind).None? && (token.Some? ==> '$' !in token.value)
    ensures var c, default := LoadTree(s, fs).value, s.toolDefault(kind).value;
            && s.tool(Put(default, "enabled", Flag(on))).Some?
            && var tool := NewTool(s, default, token, on);
            && tool.kind == kind && Find(default, "name") == Some(Text(tool.name))
            && LoadTree(s, UpsertToolEdit(s, fs, kind, token, on).fields) ==
               if ToolNameTaken(c.tools, tool.name) then Refused else Ok(c.(tools := c.tools + [tool]))
  {
    var c, default := LoadTree(s, fs).value, s.toolDefault(kind).value;
    assert OwnToolEntry(s, default, kind);
    NewToolReads(s, default, kind, token, on);
    var tool := NewTool(s, default, token, on);
    ToolAppendLoads(s, fs, Mapping(EnableTool(default, token, on)), tool);
  }

  predicate EditableTools(fs: Fields) {
    var section := Find(fs, "tool_providers");
    section.None? || section.value.Items? || section.value.Null?
  }

  lemma ToolsToEdit(s: Schema, fs: Fields)
    requires LoadTree(s, fs).Ok?
    requires EditableTools(fs)
    ensures var ts := ItemsAt(fs, "tool_providers");
            && ExpandItems(s.expand, ts).Ok?
            && ParseAll(ToolParser(s), ExpandItems(s.expand, ts).value) == Some(LoadTree(s, fs).value.tools)
  {
    LoadedParts(s, fs);
    FindAfterExpand(s.expand, fs, "tool_providers");
  }

  lemma ToolAppendParses(s: Schema, ts: seq<Tree>, tools: seq<ToolProvider>, t: Tree, tool: ToolProvider)
    requires ExpandItems(s.expand, ts).Ok? && ParseAll(ToolParser(s), ExpandItems(s.expand, ts).value) == Some(tools)
    requires Expand(s.expand, t).Ok? && ParseTool(s, Expand(s.expand, t).value) == Some(tool)
    ensures Expand(s.expand, Items(ts + [t])).Ok?
    ensures ToolSection(s, Some(Expand(s.expand, Items(ts + [t])).value)) == Some(tools + [tool])
  {
    ExpandAppend(s.expand, ts, t);
    ParseAllAppend(ToolParser(s), ExpandItems(s.expand, ts).value, Expand(s.expand, t).value);
  }

  lemma ToolAppendLoads(s: Schema, fs: Fields, t: Tree, tool: ToolProvider)
    requires LoadTree(s, fs).Ok? && Expand(s.expand, t).Ok? && ParseTool(s, Expand(s.expand, t).value) == Some(tool)
    requires EditableTools(fs)
    ensures var c := LoadTree(s, fs).value;
            LoadTree(s, Put(fs, "tool_providers", Items(ItemsAt(fs, "tool_providers") + [t]))) ==
            if ToolNameTaken(c.tools, tool.name) then Refused else Ok(c.(tools := c.tools + [tool]))
  {
    var c, ts := LoadTree(s, fs).value, ItemsAt(fs, "tool_providers");
    LoadedIsChecked(s, fs);
    ToolsToEdit(s, fs);
    ToolAppendParses(s, ts, c.tools, t, tool);
    ToolSectionReloads(s, fs, Items(ts + [t]), c.tools + [tool]);
    AppendUnique(c.tools, tool);
  }

  lemma AppendUnique(ts: seq<ToolProvider>, tool: ToolProvider)
    requires ToolNamesUnique(ts)
    ensures ToolNamesUnique(ts + [tool]) <==> !ToolNameTaken(ts, tool.name)
  {
    if i :| 0 <= i < |ts| && ts[i].name == tool.name {
      assert (ts + [tool])[i].name == (ts + [tool])[|ts|].name;
    }
  }

  // ---- the same, for steps of the two copies ------------------------------------------------

  /** From agreeing copies, with a file system that works: the write ends with the new table
      in both copies, or is refused and rolled back, and the chains alone decide which. */
  lemma AliasWriteAcceptedExactly(s: Schema, st: State, op: Op)
    requires Lawful(s) && Coupled(s, st) && op.UpsertAlias? && PreCheck(s, op, st.config).None?
    requires PlainPayload(op.provider, op.model, op.fallback)
    requires EditOf(s, op, s.parse(st.file.value).tree.fields).Write?
    ensures var (st', status) := Step(s, st, op, Io(false, None));
            var aliases := PutAlias(st.config.aliases, op.name, WrittenAlias(op.provider, op.model, op.fallback));
            if ChainsEnd(aliases) then status.Done? && Coupled(s, st') && st'.config == st.config.(aliases := aliases)
            else status.ReloadRefused? && st' == st
  {
    CoupledFile(s, st);
    var fs := s.parse(st.file.value).tree.fields;
    UpsertAliasLoads(s, fs, op.name, op.provider, op.model, op.fallback, op.createOnly, op.updateOnly);
    WrittenStep(s, st, op, fs);
  }

  lemma NewToolAcceptedExactly(s: Schema, st: State, op: Op)
    requires Lawful(s) && Coupled(s, st) && op.UpsertToolProvider? &&
             (op.toolToken.Some? ==> '$' !in op.toolToken.value)
    requires EditOf(s, op, s.parse(st.file.value).tree.fields).Write?
    requires EntryIndex(ItemsAt(s.parse(st.file.value).tree.fields, "tool_providers"), "type", op.kind).None?
    ensures var (st', status) := Step(s, st, op, Io(false, None));
            && s.toolDefault(op.kind).Some? &&
               s.tool(Put(s.toolDefault(op.kind).value, "enabled", Flag(op.enabled))).Some?
            && var tool := NewTool(s, s.toolDefault(op.kind).value, op.toolToken, op.enabled);
            if ToolNameTaken(st.config.tools, tool.name) then status.ReloadRefused? && st' == st
            else status.Done? && Coupled(s, st') && st'.config == st.config.(tools := st.config.tools + [tool])
  {
    CoupledFile(s, st);
    var fs := s.parse(st.file.value).tree.fields;
    UpsertNewToolLoads(s, fs, op.kind, op.toolToken, op.enabled);
    WrittenStep(s, st, op, fs);
  }

  lemma WrittenStep(s: Schema, st: State, op: Op, fs: Fields)
    requires Lawful(s) && Coupled(s, st) && (op.UpsertAlias? || op.UpsertToolProvider?) &&
             PreCheck(s, op, st.config).None?
    requires fs == s.parse(st.file.value).tree.fields && EditOf(s, op, fs).Write?
    requires !LoadTree(s, EditOf(s, op, fs).fields).Crashed?
    ensures var (st', status) := Step(s, st, op, Io(false, None));
            match LoadTree(s, EditOf(s, op, fs).fields)
            case Ok(c) => status.Done? && Coupled(s, st') && st'.config == c
            case _ => status.ReloadRefused? && st' == st
  {
    CoupledFile(s, st);
    CommitKeepsCoupling(s, st, EditOf(s, op, fs).fields, Io(false, None));
  }
}
