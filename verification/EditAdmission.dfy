/** What a mutation answers before anything is written: from agreeing copies, which requests
    are turned away, with which status, and that nothing has changed then. */
module EditAdmission {
  import opened Wrappers
  import opened YamlTree
  import opened AliasGraph
  import opened GatewayConfig
  import opened ConfigWriter
  import opened ConfigSafety
  import opened ConfigCoupling
  import opened ConfigValidity
  import opened EditAcceptance

  /** The mapping in the file. */
  function Raw(s: Schema, st: State): Fields
    requires Coupled(s, st)
  {
    CoupledFile(s, st);
    s.parse(st.file.value).tree.fields
  }

  /** The request is turned away with this status and both copies stay. */
  predicate TurnedAway(r: (State, Status), st: State, code: int) {
    r == (st, Http(code))
  }

  lemma {:induction false} ParsedNames(fs: Fields, name: string)
    requires ParseAliases(fs).Some?
    ensures Find(fs, name).Some? <==> Lookup(ParseAliases(fs).value, name).Some?
  {
    if fs != [] {
      ParsedNames(fs[1..], name);
      assert ParseAliases(fs).value[1..] == ParseAliases(fs[1..]).value;
    }
  }

  /** File and snapshot agree on which aliases there are. */
  lemma AliasInBoth(s: Schema, st: State, name: string)
    requires Coupled(s, st) && EditableAliases(Raw(s, st))
    ensures Find(MappingAt(Raw(s, st), "model_aliases"), name).Some? <==> Lookup(st.config.aliases, name).Some?
  {
    CoupledFile(s, st);
    var a := MappingAt(Raw(s, st), "model_aliases");
    AliasesToEdit(s, Raw(s, st));
    ParsedNames(ExpandFields(s.expand, a).value, name);
    FindAfterExpand(s.expand, a, name);
  }

  lemma CommitAnswersNoStatus(s: Schema, st: State, fs: Fields, io: Io)
    ensures !CommitStep(s, st, fs, io).1.Http?
  {
  }

  /** A file that is gone, or holds something else than a mapping, turns every mutation away;
      one that is no YAML ends it with an exception; nothing has changed in any case. */
  lemma UnreadableFile(s: Schema, st: State, op: Op, io: Io)
    requires !op.Sighup? && PreCheck(s, op, st.config).None?
    ensures st.file.None? ==> TurnedAway(Step(s, st, op, io), st, 500)
    ensures st.file.Some? && s.parse(st.file.value).NotYaml? ==> Step(s, st, op, io) == (st, Crash)
    ensures st.file.Some? && s.parse(st.file.value).Document? ==>
              var t := s.parse(st.file.value).tree;
              !t.Null? && !t.Mapping? ==> TurnedAway(Step(s, st, op, io), st, 500)
  {
  }

  /** An empty file counts as an empty mapping. */
  lemma EmptyFileIsMapping(s: Schema, st: State, empty: string, op: Op, io: Io)
    requires !op.Sighup? && st.file.Some? && s.parse(st.file.value) == Document(Mapping([])) &&
             s.parse(empty) == Document(Null)
    ensures Step(s, st.(file := Some(empty)), op, io).1 == Step(s, st, op, io).1
    ensures Step(s, st, op, io).1.Done? ==> Step(s, st.(file := Some(empty)), op, io).0 == Step(s, st, op, io).0
  {
  }

  /** A fallback entry that names a configured provider and a model, both as text. */
  predicate Names(ps: seq<Provider>, t: Tree, provider: string, model: string) {
    && t.Mapping? && Find(t.fields, "provider") == Some(Text(provider)) && Find(t.fields, "model") == Some(Text(model))
    && (exists i :: 0 <= i < |ps| && ps[i].name == provider)
    && (exists i :: 0 <= i < |provider| && !IsSpace(provider[i])) &&
       (exists i :: 0 <= i < |model| && !IsSpace(model[i]))
  }

  ghost predicate NamesSome(ps: seq<Provider>, t: Tree) {
    exists p, m :: Names(ps, t, p, m)
  }

  lemma EntryNames(ps: seq<Provider>, t: Tree)
    ensures EntryOk(ps, t) <==> NamesSome(ps, t)
  {
    if EntryOk(ps, t) {
      assert Names(ps, t, TextOf(t, "provider"), TextOf(t, "model"));
    }
  }

  /** Every fallback entry given names something. */
  ghost predicate FallbackNames(ps: seq<Provider>, fallback: Option<seq<Tree>>) {
    fallback.Some? ==> forall i :: 0 <= i < |fallback.value| ==> NamesSome(ps, fallback.value[i])
  }

  lemma PayloadNames(ps: seq<Provider>, provider: string, model: string, fallback: Option<seq<Tree>>)
    ensures PayloadOk(ps, provider, model, fallback) <==>
            Names(ps, TargetBlock(provider, model), provider, model) && FallbackNames(ps, fallback)
  {
    var fs := TargetBlock(provider, model).fields;
    assert fs[1..] == [Field("model", Text(model))] && Find(fs[1..], "model") == Some(Text(model));
    assert Find(fs, "provider") == Some(Text(provider)) && Find(fs, "model") == Some(Text(model));
    assert Names(ps, TargetBlock(provider, model), provider, model) <==>
           !Blank(provider) && KnownProvider(ps, provider) && !Blank(model);
    if fallback.Some? {
      forall i | 0 <= i < |fallback.value|
        ensures EntryOk(ps, fallback.value[i]) <==> NamesSome(ps, fallback.value[i])
      {
        EntryNames(ps, fallback.value[i]);
      }
    }
  }

  /** The payload is turned away unless it and each of its fallback entries name a configured
      provider and a model that is more than white space. */
  lemma AliasPayloadChecked(s: Schema, st: State, op: Op, io: Io)
    requires op.UpsertAlias?
    ensures TurnedAway(Step(s, st, op, io), st, 422) <==>
            !(&& Names(st.config.providers, TargetBlock(op.provider, op.model), op.provider, op.model)
              && FallbackNames(st.config.providers, op.fallback))
  {
    PayloadNames(st.config.providers, op.provider, op.model, op.fallback);
    if PreCheck(s, op, st.config).None? {
      match ReadMapping(s, st.file)
      case Unreadable(_) =>
      case Mapped(fs) =>
        if EditOf(s, op, fs).Write? {
          CommitAnswersNoStatus(s, st, EditOf(s, op, fs).fields, io);
        }
    }
  }

  /** Creating an alias that is there answers 409, replacing one that is not answers 404, and
      nothing else is turned away once the payload has passed and the section is one to edit. */
  lemma AliasWriteAdmitted(s: Schema, st: State, op: Op, io: Io)
    requires Coupled(s, st) && op.UpsertAlias? && PreCheck(s, op, st.config).None?
    ensures var r, there := Step(s, st, op, io), Lookup(st.config.aliases, op.name).Some?;
            if !EditableAliases(Raw(s, st)) then TurnedAway(r, st, 500)
            else if op.createOnly && there then TurnedAway(r, st, 409)
            else if op.updateOnly && !there then TurnedAway(r, st, 404)
            else !r.1.Http?
  {
    CoupledFile(s, st);
    if EditableAliases(Raw(s, st)) {
      AliasInBoth(s, st, op.name);
    }
  }

  /** An alias can be deleted when there is one and the section is written out in the file. */
  lemma AliasDeletionAdmitted(s: Schema, st: State, name: string, io: Io)
    requires Coupled(s, st)
    ensures var r := Step(s, st, DeleteAlias(name), io);
            if EditableAliases(Raw(s, st)) && Lookup(st.config.aliases, name).Some? then !r.1.Http?
            else TurnedAway(r, st, 404)
  {
    CoupledFile(s, st);
    if EditableAliases(Raw(s, st)) {
      AliasInBoth(s, st, name);
    }
  }

  /** A tier policy is turned away only after a refused reload, which has been rolled back. */
  lemma PolicyUpdateAdmitted(s: Schema, st: State, op: Op, io: Io)
    requires Lawful(s) && Coupled(s, st) && op.UpdateTierPolicy?
    ensures var r := Step(s, st, op, io);
            && !r.1.ReloadRefused? && (r.1.Http? ==> TurnedAway(r, st, 422))
            && (r.1.Http? <==>
                  !io.replaceFails && io.restoreLeaves.None? &&
                  Load(s, s.dump(Mapping(EditOf(s, op, Raw(s, st)).fields))).Refused?)
  {
    CoupledFile(s, st);
  }

  // ---- entries of the two lists -----------------------------------------------------------

  /** Entry `i` is the first of the list that is written so. */
  predicate FirstWritten(fs: Fields, section: string, key: string, value: string, i: nat) {
    && Find(fs, section) == Some(Items(ItemsAt(fs, section))) && i < |ItemsAt(fs, section)|
    && WrittenSo(ItemsAt(fs, section)[i], key, value)
    && forall j :: 0 <= j < i ==> !WrittenSo(ItemsAt(fs, section)[j], key, value)
  }

  predicate WrittenSo(t: Tree, key: string, value: string) {
    t.Mapping? && Find(t.fields, key) == Some(Text(value))
  }

  predicate NotWritten(fs: Fields, section: string, key: string, value: string) {
    forall j :: 0 <= j < |ItemsAt(fs, section)| ==> !WrittenSo(ItemsAt(fs, section)[j], key, value)
  }

  lemma FirstWrittenIsFound(fs: Fields, section: string, key: string, value: string)
    ensures forall i: nat :: FirstWritten(fs, section, key, value, i) ==>
              EntryIndex(ItemsAt(fs, section), key, value) == Some(i)
    ensures NotWritten(fs, section, key, value) <==> EntryIndex(ItemsAt(fs, section), key, value).None?
  {
    EntryIndexFinds(ItemsAt(fs, section), key, value);
  }

  lemma KeyWriteAdmitted(s: Schema, st: State, name: string, token: string, io: Io)
    requires Coupled(s, st)
    ensures var r, fs := Step(s, st, UpsertProviderKey(name, token), io), Raw(s, st);
            if token == "" then TurnedAway(r, st, 422)
            else if Find(fs, "providers") != Some(Items(ItemsAt(fs, "providers"))) then TurnedAway(r, st, 500)
            else if NotWritten(fs, "providers", "name", name) then TurnedAway(r, st, 404)
            else !r.1.Http?
  {
    CoupledFile(s, st);
    FirstWrittenIsFound(Raw(s, st), "providers", "name", name);
  }

  /** Only an encrypted key can be deleted: without one the entry answers 409. */
  lemma KeyDeletionAdmitted(s: Schema, st: State, name: string, io: Io)
    requires Coupled(s, st)
    ensures var r, fs := Step(s, st, DeleteProviderKey(name), io), Raw(s, st);
            && (Find(fs, "providers") != Some(Items(ItemsAt(fs, "providers"))) ==> TurnedAway(r, st, 500))
            && (Find(fs, "providers") == Some(Items(ItemsAt(fs, "providers"))) &&
                NotWritten(fs, "providers", "name", name) ==>
                  TurnedAway(r, st, 404))
            && (forall i: nat :: FirstWritten(fs, "providers", "name", name, i) ==>
                  if Find(ItemsAt(fs, "providers")[i].fields, KEY_ENCRYPTED).None? then TurnedAway(r, st, 409)
                  else !r.1.Http?)
  {
    CoupledFile(s, st);
    FirstWrittenIsFound(Raw(s, st), "providers", "name", name);
  }

  lemma ToolWriteAdmitted(s: Schema, st: State, kind: string, token: Option<string>, on: bool, io: Io)
    requires Coupled(s, st)
    ensures var r := Step(s, st, UpsertToolProvider(kind, token, on), io);
            if s.toolDefault(kind).None? then TurnedAway(r, st, 404)
            else if !EditableTools(Raw(s, st)) then TurnedAway(r, st, 500)
            else !r.1.Http?
  {
    CoupledFile(s, st);
  }

  /** What Python takes for false where a name is expected. */
  predicate IsNothing(t: Option<Tree>) {
    t.None? || t.value == Null || t.value == Flag(false) || t.value == Number(0) || t.value == Text("") ||
    t.value == Items([]) || t.value == Mapping([])
  }

  /** An entry survives a removal request exactly when it is written with a key name. */
  lemma ToolRemovalAdmitted(s: Schema, st: State, kind: string, io: Io)
    requires Coupled(s, st)
    ensures var r, fs := Step(s, st, Op.RemoveToolProvider(kind), io), Raw(s, st);
            && (!EditableTools(fs) ==> TurnedAway(r, st, 500))
            && (EditableTools(fs) && NotWritten(fs, "tool_providers", "type", kind) ==> TurnedAway(r, st, 404))
            && (forall i: nat :: FirstWritten(fs, "tool_providers", "type", kind, i) ==>
                  if IsNothing(Find(ItemsAt(fs, "tool_providers")[i].fields, KEY_ENV)) then !r.1.Http?
                  else TurnedAway(r, st, 409))
  {
    CoupledFile(s, st);
    FirstWrittenIsFound(Raw(s, st), "tool_providers", "type", kind);
  }

  /** A tool provider that takes its key from the environment survives a removal request. */
  lemma EnvironmentToolSurvives(s: Schema, st: State, kind: string, i: nat, io: Io)
    requires Lawful(s) && Coupled(s, st) && FirstWritten(Raw(s, st), "tool_providers", "type", kind, i)
    ensures i < |st.config.tools|
    ensures IsSet(st.config.tools[i].apiKeyEnv) ==> TurnedAway(Step(s, st, Op.RemoveToolProvider(kind), io), st, 409)
  {
    CoupledFile(s, st);
    EnvironmentKeyIsWritten(s, Raw(s, st), i);
    ToolRemovalAdmitted(s, st, kind, io);
  }

  /** A key name that the configuration has is written in the file, perhaps as a placeholder. */
  lemma EnvironmentKeyIsWritten(s: Schema, fs: Fields, i: nat)
    requires LoadTree(s, fs).Ok? && Find(fs, "tool_providers") == Some(Items(ItemsAt(fs, "tool_providers")))
    requires i < |ItemsAt(fs, "tool_providers")| && ItemsAt(fs, "tool_providers")[i].Mapping?
    ensures i < |LoadTree(s, fs).value.tools|
    ensures IsSet(LoadTree(s, fs).value.tools[i].apiKeyEnv) && Lawful(s) ==>
              Truthy(Find(ItemsAt(fs, "tool_providers")[i].fields, KEY_ENV))
  {
    var ts := ItemsAt(fs, "tool_providers");
    LoadedTools(s, fs, ts);
    ExpandItemAt(s.expand, ts, i);
    ParseAllAt(ToolParser(s), ExpandItems(s.expand, ts).value, i);
    if Lawful(s) {
      assert s.expand("") == Ok(Text(""));
      if IsSet(LoadTree(s, fs).value.tools[i].apiKeyEnv) {
        ParsedKeyIsWritten(s, ts[i].fields, LoadTree(s, fs).value.tools[i]);
      }
    }
  }

  lemma ParsedKeyIsWritten(s: Schema, e: Fields, t: ToolProvider)
    requires ExpandFields(s.expand, e).Ok? && ParseTool(s, Mapping(ExpandFields(s.expand, e).value)) == Some(t)
    requires s.expand("") == Ok(Text("")) && IsSet(t.apiKeyEnv)
    ensures Truthy(Find(e, KEY_ENV))
  {
    FindAfterExpand(s.expand, e, KEY_ENV);
  }
}
