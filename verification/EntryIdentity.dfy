/** The entry a mutation edits and the entry that is looked up afterwards.  The writer
    matches the text of the file; lookups see the text after its placeholders are filled. */
module EntryIdentity {
  import opened Wrappers
  import opened YamlTree
  import opened GatewayConfig
  import opened ConfigWriter
  import opened ConfigSafety
  import opened ConfigCoupling
  import opened ConfigValidity

  /** Filled in, the entry says `value` under `key`. */
  predicate Reads(s: Schema, t: Tree, key: string, value: string) {
    match Expand(s.expand, t)
    case Ok(Mapping(e)) => Find(e, key) == Some(Text(value))
    case _ => false
  }

  /** The first entry that reads so. */
  function ReadIndex(s: Schema, ts: seq<Tree>, key: string, value: string): Option<nat> {
    if ts == [] then None
    else if Reads(s, ts[0], key, value) then Some(0)
    else var i :- ReadIndex(s, ts[1..], key, value); Some(i + 1)
  }

  lemma {:induction false} ReadIndexFinds(s: Schema, ts: seq<Tree>, key: string, value: string)
    ensures match ReadIndex(s, ts, key, value)
            case Some(i) =>
              i < |ts| && Reads(s, ts[i], key, value) && forall j :: 0 <= j < i ==> !Reads(s, ts[j], key, value)
            case None => forall j :: 0 <= j < |ts| ==> !Reads(s, ts[j], key, value)
  {
    if ts != [] {
      ReadIndexFinds(s, ts[1..], key, value);
    }
  }

  lemma ReadIndexIs(s: Schema, ts: seq<Tree>, key: string, value: string, i: nat)
    requires i < |ts| && Reads(s, ts[i], key, value) && forall j :: 0 <= j < i ==> !Reads(s, ts[j], key, value)
    ensures ReadIndex(s, ts, key, value) == Some(i)
  {
    ReadIndexFinds(s, ts, key, value);
  }

  /** What the writer finds is what a lookup finds. */
  predicate SameEntry(s: Schema, ts: seq<Tree>, key: string, value: string) {
    ReadIndex(s, ts, key, value) == EntryIndex(ts, key, value)
  }

  /** An entry that is written so reads so exactly when the value is no placeholder for
      something else. */
  lemma WrittenReads(s: Schema, t: Tree, key: string, value: string)
    requires EntryMatches(t, key, value) && Expand(s.expand, t).Ok?
    ensures Reads(s, t, key, value) <==> s.expand(value) == Ok(Text(value))
  {
    FindAfterExpand(s.expand, t.fields, key);
  }

  /** Writer and lookup mean one entry exactly when the value is no placeholder for
      something else and no earlier entry reads like it. */
  lemma SameEntryExactly(s: Schema, ts: seq<Tree>, key: string, value: string)
    requires ExpandItems(s.expand, ts).Ok? && EntryIndex(ts, key, value).Some?
    ensures var i := EntryIndex(ts, key, value).value;
            && i < |ts|
            && (SameEntry(s, ts, key, value) <==>
                  s.expand(value) == Ok(Text(value)) && forall j :: 0 <= j < i ==> !Reads(s, ts[j], key, value))
  {
    EntryIndexFinds(ts, key, value);
    ReadIndexFinds(s, ts, key, value);
    var i := EntryIndex(ts, key, value).value;
    ExpandItemAt(s.expand, ts, i);
    WrittenReads(s, ts[i], key, value);
  }

  // ---- lookups in the configuration, told by the file -------------------------------

  lemma ParsedProviderSays(s: Schema, t: Tree, p: Provider, name: string)
    requires Lawful(s) && Expand(s.expand, t).Ok? && ParseProvider(s, Expand(s.expand, t).value) == Some(p)
    ensures Reads(s, t, "name", name) <==> p.name == name
  {
    FindAfterWithout(Expand(s.expand, t).value.fields, KEY_FIELDS, "name");
  }

  lemma ParsedToolSays(s: Schema, t: Tree, p: ToolProvider, kind: string)
    requires Lawful(s) && Expand(s.expand, t).Ok? && ParseTool(s, Expand(s.expand, t).value) == Some(p)
    ensures Reads(s, t, "type", kind) <==> p.kind == kind
  {
    FindAfterWithout(Expand(s.expand, t).value.fields, KEY_FIELDS, "type");
  }

  ghost predicate ProvidersRead(s: Schema, ts: seq<Tree>, ps: seq<Provider>) {
    |ts| == |ps| && forall j, name :: 0 <= j < |ts| ==> (Reads(s, ts[j], "name", name) <==> ps[j].name == name)
  }

  ghost predicate ToolsRead(s: Schema, ts: seq<Tree>, ps: seq<ToolProvider>) {
    |ts| == |ps| && forall j, kind :: 0 <= j < |ts| ==> (Reads(s, ts[j], "type", kind) <==> ps[j].kind == kind)
  }

  lemma LoadedProvidersRead(s: Schema, fs: Fields, ts: seq<Tree>)
    requires Lawful(s) && LoadTree(s, fs).Ok? && Find(fs, "providers") == Some(Items(ts))
    ensures ProvidersRead(s, ts, LoadTree(s, fs).value.providers)
  {
    var ps := LoadTree(s, fs).value.providers;
    LoadedProviders(s, fs, ts);
    forall j, name | 0 <= j < |ts| ensures |ps| == |ts| && (Reads(s, ts[j], "name", name) <==> ps[j].name == name) {
      ExpandItemAt(s.expand, ts, j);
      ParseAllAt(ProviderParser(s), ExpandItems(s.expand, ts).value, j);
      ParsedProviderSays(s, ts[j], ps[j], name);
    }
    if ts == [] {
      assert ExpandItems(s.expand, ts) == Ok([]);
    } else {
      ExpandItemAt(s.expand, ts, 0);
      ParseAllAt(ProviderParser(s), ExpandItems(s.expand, ts).value, 0);
    }
  }

  /** Entry `j` of the list in the file is tool provider `j` of the configuration. */
  lemma LoadedToolAt(s: Schema, fs: Fields, ts: seq<Tree>, j: nat)
    requires LoadTree(s, fs).Ok? && Find(fs, "tool_providers") == Some(Items(ts)) && j < |ts|
    ensures |LoadTree(s, fs).value.tools| == |ts| && Expand(s.expand, ts[j]).Ok?
    ensures ParseTool(s, Expand(s.expand, ts[j]).value) == Some(LoadTree(s, fs).value.tools[j])
  {
    LoadedTools(s, fs, ts);
    ExpandItemAt(s.expand, ts, j);
    ParseAllAt(ToolParser(s), ExpandItems(s.expand, ts).value, j);
  }

  lemma LoadedToolsRead(s: Schema, fs: Fields, ts: seq<Tree>)
    requires Lawful(s) && LoadTree(s, fs).Ok? && Find(fs, "tool_providers") == Some(Items(ts))
    ensures ToolsRead(s, ts, LoadTree(s, fs).value.tools)
  {
    var ps := LoadTree(s, fs).value.tools;
    if ts == [] {
      LoadedTools(s, fs, ts);
      assert ExpandItems(s.expand, ts) == Ok([]);
    } else {
      LoadedToolAt(s, fs, ts, 0);
    }
    forall j, kind | 0 <= j < |ts| ensures Reads(s, ts[j], "type", kind) <==> ps[j].kind == kind {
      LoadedToolAt(s, fs, ts, j);
      ParsedToolSays(s, ts[j], ps[j], kind);
    }
  }

  lemma {:induction false} ProviderLookup(s: Schema, ts: seq<Tree>, ps: seq<Provider>, name: string)
    requires ProvidersRead(s, ts, ps)
    ensures match ReadIndex(s, ts, "name", name)
            case Some(i) => i < |ps| && ProviderByName(ps, name) == Some(ps[i])
            case None => ProviderByName(ps, name).None?
    decreases |ts|
  {
    if ts != [] {
      assert Reads(s, ts[0], "name", name) <==> ps[0].name == name;
      ProviderLookup(s, ts[1..], ps[1..], name);
    }
  }

  lemma {:induction false} ToolLookup(s: Schema, ts: seq<Tree>, ps: seq<ToolProvider>, kind: string)
    requires ToolsRead(s, ts, ps)
    ensures match ReadIndex(s, ts, "type", kind)
            case Some(i) => i < |ps| && ToolByKind(ps, kind) == Some(ps[i])
            case None => ToolByKind(ps, kind).None?
    decreases |ts|
  {
    if ts != [] {
      assert Reads(s, ts[0], "type", kind) <==> ps[0].kind == kind;
      ToolLookup(s, ts[1..], ps[1..], kind);
    }
  }

  // ---- provider keys ------------------------------------------------------------------

  /** Entry `i` alone has another key source; so the list still reads the same. */
  lemma KeyChangeReadsSame(s: Schema, ts: seq<Tree>, ps: seq<Provider>, i: nat, env: Option<string>,
                           encrypted: Option<string>)
    requires ProvidersRead(s, ts, ps) && i < |ps|
    ensures ProvidersRead(s, ts, ps[i := ps[i].(apiKeyEnv := env, apiKeyEncrypted := encrypted)])
  {
  }

  /** After a key was set, looking the provider up gives the entry with the new key exactly
      when writer and lookup mean one entry; otherwise it gives what it gave before. */
  lemma KeyReachesItsProvider(s: Schema, fs: Fields, name: string, token: string)
    requires Lawful(s) && LoadTree(s, fs).Ok? && ProviderKeyEdit(fs, name, e => SetKey(e, token), false).Write?
    requires LoadTree(s, ProviderKeyEdit(fs, name, e => SetKey(e, token), false).fields).Ok?
    ensures var c, c' := LoadTree(s, fs).value,
            LoadTree(s, ProviderKeyEdit(fs, name, e => SetKey(e, token), false).fields).value;
            var ts := ItemsAt(fs, "providers");
            var i := EntryIndex(ts, "name", name);
            && i.Some? && i.value < |c.providers| && KeyValue(s, token).Some?
            && ProviderByName(c'.providers, name) ==
               if SameEntry(s, ts, "name", name)
               then Some(c.providers[i.value].(apiKeyEnv := None, apiKeyEncrypted := KeyValue(s, token).value))
               else ProviderByName(c.providers, name)
  {
    var c, ts := LoadTree(s, fs).value, ItemsAt(fs, "providers");
    UpsertProviderKeyLoads(s, fs, name, token);
    LoadedProvidersRead(s, fs, ts);
    ReadIndexFinds(s, ts, "name", name);
    var i := EntryIndex(ts, "name", name).value;
    KeyChangeReadsSame(s, ts, c.providers, i, None, KeyValue(s, token).value);
    ProviderLookup(s, ts, c.providers, name);
    var changed := c.providers[i].(apiKeyEnv := None, apiKeyEncrypted := KeyValue(s, token).value);
    ProviderLookup(s, ts, c.providers[i := changed], name);
  }

  /** Likewise after a key was deleted. */
  lemma KeyLeavesItsProvider(s: Schema, fs: Fields, name: string)
    requires Lawful(s) && LoadTree(s, fs).Ok? && ProviderKeyEdit(fs, name, e => Drop(e, KEY_ENCRYPTED), true).Write?
    ensures var c, after := LoadTree(s, fs).value,
            LoadTree(s, ProviderKeyEdit(fs, name, e => Drop(e, KEY_ENCRYPTED), true).fields);
            var ts := ItemsAt(fs, "providers");
            var i := EntryIndex(ts, "name", name);
            && i.Some? && i.value < |c.providers| && after.Ok?
            && ProviderByName(after.value.providers, name) ==
               if SameEntry(s, ts, "name", name) then Some(c.providers[i.value].(apiKeyEncrypted := None))
               else ProviderByName(c.providers, name)
  {
    var c, ts := LoadTree(s, fs).value, ItemsAt(fs, "providers");
    DeleteProviderKeyLoads(s, fs, name);
    EntryIndexFinds(ts, "name", name);
    LoadedProvidersRead(s, fs, ts);
    ReadIndexFinds(s, ts, "name", name);
    var i := EntryIndex(ts, "name", name).value;
    KeyChangeReadsSame(s, ts, c.providers, i, c.providers[i].apiKeyEnv, None);
    ProviderLookup(s, ts, c.providers, name);
    ProviderLookup(s, ts, c.providers[i := c.providers[i].(apiKeyEncrypted := None)], name);
  }

  /** An input where they part: the file has "${P:-x}" and then "x", both of which read "x".
      The key for "x" goes to the second entry; the lookup gives the first, unchanged. */
  lemma KeyMissesItsProvider(s: Schema, fs: Fields, a: Fields, b: Fields, token: string)
    requires Lawful(s) && LoadTree(s, fs).Ok? && '$' !in token
    requires Find(fs, "providers") == Some(Items([Mapping(a), Mapping(b)]))
    requires Find(a, "name") == Some(Text("${P:-x}")) && Find(b, "name") == Some(Text("x"))
    requires s.expand("${P:-x}") == Ok(Text("x"))
    ensures var edit := ProviderKeyEdit(fs, "x", e => SetKey(e, token), false);
            && edit.Write? && LoadTree(s, edit.fields).Ok?
            && var c, c' := LoadTree(s, fs).value, LoadTree(s, edit.fields).value;
            && |c.providers| == |c'.providers| == 2 && c'.providers[1].apiKeyEncrypted == Some(token)
            && ProviderByName(c'.providers, "x") == Some(c.providers[0]) == Some(c'.providers[0])
  {
    var ts := [Mapping(a), Mapping(b)];
    assert ItemsAt(fs, "providers") == ts;
    SectionExpandsTo(s, fs, ts);
    SecondIsWritten(s, a, b);
    var c := LoadTree(s, fs).value;
    assert ProviderKeyEdit(fs, "x", e => SetKey(e, token), false).Write?;
    UpsertProviderKeyLoads(s, fs, "x", token);
    assert KeyValue(s, token) == Some(Some(token));
    KeyReachesItsProvider(s, fs, "x", token);
    LoadedProvidersRead(s, fs, ts);
    ProviderLookup(s, ts, c.providers, "x");
  }

  lemma SectionExpandsTo(s: Schema, fs: Fields, ts: seq<Tree>)
    requires LoadTree(s, fs).Ok? && Find(fs, "providers") == Some(Items(ts))
    ensures ExpandItems(s.expand, ts).Ok? && forall j :: 0 <= j < |ts| ==> Expand(s.expand, ts[j]).Ok?
  {
    LoadedProviders(s, fs, ts);
    forall j | 0 <= j < |ts| ensures Expand(s.expand, ts[j]).Ok? {
      ExpandItemAt(s.expand, ts, j);
    }
  }

  lemma SecondIsWritten(s: Schema, a: Fields, b: Fields)
    requires Find(a, "name") == Some(Text("${P:-x}")) && Find(b, "name") == Some(Text("x"))
    requires s.expand("${P:-x}") == Ok(Text("x")) && Expand(s.expand, Mapping(a)).Ok?
    ensures EntryIndex([Mapping(a), Mapping(b)], "name", "x") == Some(1)
    ensures ReadIndex(s, [Mapping(a), Mapping(b)], "name", "x") == Some(0)
  {
    var ts := [Mapping(a), Mapping(b)];
    assert |"${P:-x}"| != |"x"|;
    EntryIndexFinds(ts, "name", "x");
    assert EntryMatches(ts[1], "name", "x") && !EntryMatches(ts[0], "name", "x");
    FindAfterExpand(s.expand, a, "name");
    assert Reads(s, ts[0], "name", "x");
  }

  // ---- tool providers -----------------------------------------------------------------

  lemma EnabledEntryMatches(entry: Fields, token: Option<string>, on: bool, kind: string)
    requires Find(entry, "type") == Some(Text(kind))
    ensures EntryMatches(Mapping(EnableTool(entry, token, on)), "type", kind)
  {
    var e := Put(entry, "enabled", Flag(on));
    FindAfterPut(entry, "enabled", Flag(on), "type");
    if token.Some? {
      SetKeyIsLocal(e, token.value);
    }
  }

  lemma OwnKindIsLiteral(s: Schema, kind: string)
    requires Lawful(s) && s.toolDefault(kind).Some?
    ensures s.expand(kind) == Ok(Text(kind)) && Find(s.toolDefault(kind).value, "type") == Some(Text(kind))
  {
    assert OwnToolEntry(s, s.toolDefault(kind).value, kind);
    FindAfterExpand(s.expand, s.toolDefault(kind).value, "type");
  }

  /** The list of tool providers after the upsert, and the position of the entry it wrote. */
  function UpsertedTools(s: Schema, ts: seq<Tree>, kind: string, token: Option<string>, on: bool): (seq<Tree>, nat)
    requires s.toolDefault(kind).Some?
  {
    EntryIndexFinds(ts, "type", kind);
    match EntryIndex(ts, "type", kind)
    case Some(i) => (ts[i := Mapping(EnableTool(ts[i].fields, token, on))], i)
    case None => (ts + [Mapping(EnableTool(s.toolDefault(kind).value, token, on))], |ts|)
  }

  /** No entry before the one that is written reads like it. */
  predicate WrittenToolIsFirst(s: Schema, ts: seq<Tree>, kind: string) {
    EntryIndexFinds(ts, "type", kind);
    var i := if EntryIndex(ts, "type", kind).Some? then EntryIndex(ts, "type", kind).value else |ts|;
    forall j :: 0 <= j < i ==> !Reads(s, ts[j], "type", kind)
  }

  lemma UpsertedToolsMatch(s: Schema, ts: seq<Tree>, kind: string, token: Option<string>, on: bool)
    requires Lawful(s) && s.toolDefault(kind).Some?
    ensures var (ts', i) := UpsertedTools(s, ts, kind, token, on);
            && i < |ts'| && |ts| <= |ts'| <= |ts| + 1 && EntryMatches(ts'[i], "type", kind) && i <= |ts|
            && (forall j :: 0 <= j < |ts| && j != i ==> ts'[j] == ts[j])
            && (i < |ts| ==> |ts'| == |ts| && EntryMatches(ts[i], "type", kind))
  {
    var i := UpsertedTools(s, ts, kind, token, on).1;
    EntryIndexFinds(ts, "type", kind);
    OwnKindIsLiteral(s, kind);
    EnabledEntryMatches(if i < |ts| then ts[i].fields else s.toolDefault(kind).value, token, on, kind);
  }

  lemma UpsertedToolsRead(s: Schema, ts: seq<Tree>, kind: string, token: Option<string>, on: bool)
    requires Lawful(s) && s.toolDefault(kind).Some?
    requires ExpandItems(s.expand, ts).Ok? && ExpandItems(s.expand, UpsertedTools(s, ts, kind, token, on).0).Ok?
    ensures var (ts', i) := UpsertedTools(s, ts, kind, token, on);
            if WrittenToolIsFirst(s, ts, kind) then ReadIndex(s, ts', "type", kind) == Some(i)
            else && ReadIndex(s, ts, "type", kind).Some? && ReadIndex(s, ts, "type", kind).value < i
                 && ReadIndex(s, ts', "type", kind) == ReadIndex(s, ts, "type", kind)
  {
    var (ts', i) := UpsertedTools(s, ts, kind, token, on);
    UpsertedToolsMatch(s, ts, kind, token, on);
    OwnKindIsLiteral(s, kind);
    ExpandItemAt(s.expand, ts', i);
    WrittenReads(s, ts'[i], "type", kind);
    if WrittenToolIsFirst(s, ts, kind) {
      ReadIndexIs(s, ts', "type", kind, i);
    } else {
      ReadIndexFinds(s, ts, "type", kind);
      ReadIndexIs(s, ts', "type", kind, ReadIndex(s, ts, "type", kind).value);
    }
  }

  /** After a tool provider was written, looking its type up gives the entry written
      exactly when no earlier entry reads like it; otherwise what it gave before. */
  lemma ToolWrittenIsLookedUp(s: Schema, fs: Fields, kind: string, token: Option<string>, on: bool)
    requires Lawful(s) && LoadTree(s, fs).Ok? && UpsertToolEdit(s, fs, kind, token, on).Write?
    requires LoadTree(s, UpsertToolEdit(s, fs, kind, token, on).fields).Ok?
    ensures var c, c' := LoadTree(s, fs).value, LoadTree(s, UpsertToolEdit(s, fs, kind, token, on).fields).value;
            var ts := ItemsAt(fs, "tool_providers");
            var (ts', i) := UpsertedTools(s, ts, kind, token, on);
            && i < |ts'| == |c'.tools| && Expand(s.expand, ts'[i]).Ok?
            && ParseTool(s, Expand(s.expand, ts'[i]).value) == Some(c'.tools[i])
            && ToolByKind(c'.tools, kind) ==
               if WrittenToolIsFirst(s, ts, kind) then Some(c'.tools[i]) else ToolByKind(c.tools, kind)
  {
    var fs' := UpsertToolEdit(s, fs, kind, token, on).fields;
    var c, c', ts := LoadTree(s, fs).value, LoadTree(s, fs').value, ItemsAt(fs, "tool_providers");
    var (ts', i) := UpsertedTools(s, ts, kind, token, on);
    EditedToolList(s, fs, kind, token, on);
    UpsertedToolsMatch(s, ts, kind, token, on);
    LoadedTools(s, fs', ts');
    SectionExpands(s, fs, "tool_providers");
    UpsertedToolsRead(s, ts, kind, token, on);
    LoadedToolsRead(s, fs', ts');
    ToolLookup(s, ts', c'.tools, kind);
    LoadedToolAt(s, fs', ts', i);
    if !WrittenToolIsFirst(s, ts, kind) {
      EarlierToolStands(s, fs, fs', ts, ts', ReadIndex(s, ts, "type", kind).value);
      LoadedToolsRead(s, fs, ts);
      ToolLookup(s, ts, c.tools, kind);
    }
  }

  lemma EarlierToolStands(s: Schema, fs: Fields, fs': Fields, ts: seq<Tree>, ts': seq<Tree>, j: nat)
    requires LoadTree(s, fs).Ok? && Find(fs, "tool_providers") == Some(Items(ts))
    requires LoadTree(s, fs').Ok? && Find(fs', "tool_providers") == Some(Items(ts'))
    requires j < |ts| && j < |ts'| && ts[j] == ts'[j]
    ensures |LoadTree(s, fs).value.tools| == |ts| && |LoadTree(s, fs').value.tools| == |ts'|
    ensures LoadTree(s, fs').value.tools[j] == LoadTree(s, fs).value.tools[j]
  {
    LoadedToolAt(s, fs, ts, j);
    LoadedToolAt(s, fs', ts', j);
  }

  lemma EditedToolList(s: Schema, fs: Fields, kind: string, token: Option<string>, on: bool)
    requires UpsertToolEdit(s, fs, kind, token, on).Write?
    ensures var ts := ItemsAt(fs, "tool_providers");
            && s.toolDefault(kind).Some?
            && Find(UpsertToolEdit(s, fs, kind, token, on).fields, "tool_providers") ==
               Some(Items(UpsertedTools(s, ts, kind, token, on).0))
            && (ts != [] ==> Find(fs, "tool_providers") == Some(Items(ts)))
  {
    var ts := ItemsAt(fs, "tool_providers");
    FindAfterPut(fs, "tool_providers", Items(UpsertedTools(s, ts, kind, token, on).0), "tool_providers");
  }

  /** The tool provider looked up before a removal, whose adapter is then retired, is the
      one removed exactly when writer and lookup mean one entry; another one stays. */
  lemma ToolRemovedIsLookedUp(s: Schema, fs: Fields, kind: string)
    requires Lawful(s) && LoadTree(s, fs).Ok? && RemoveToolEdit(fs, kind).Write?
    ensures var c, after := LoadTree(s, fs).value, LoadTree(s, RemoveToolEdit(fs, kind).fields);
            var ts := ItemsAt(fs, "tool_providers");
            var i := EntryIndex(ts, "type", kind);
            && i.Some? && i.value < |c.tools| && after == Ok(c.(tools := RemoveAt(c.tools, i.value)))
            && (if SameEntry(s, ts, "type", kind) then ToolByKind(c.tools, kind) == Some(c.tools[i.value])
                else ToolByKind(c.tools, kind).Some? ==>
                       && ToolByKind(c.tools, kind).value.name != c.tools[i.value].name
                       && ToolByKind(c.tools, kind).value in after.value.tools)
  {
    var c, ts := LoadTree(s, fs).value, ItemsAt(fs, "tool_providers");
    RemoveToolLoads(s, fs, kind);
    EntryIndexFinds(ts, "type", kind);
    LoadedIsChecked(s, fs);
    LoadedToolsRead(s, fs, ts);
    ReadIndexFinds(s, ts, "type", kind);
    ToolLookup(s, ts, c.tools, kind);
    var i := EntryIndex(ts, "type", kind).value;
    if !SameEntry(s, ts, "type", kind) && ToolByKind(c.tools, kind).Some? {
      OtherStays(c.tools, i, ReadIndex(s, ts, "type", kind).value);
    }
  }

  lemma OtherStays(ts: seq<ToolProvider>, i: nat, j: nat)
    requires i < |ts| && j < |ts| && i != j && ToolNamesUnique(ts)
    ensures ts[j].name != ts[i].name && ts[j] in RemoveAt(ts, i)
  {
    assert RemoveAt(ts, i)[if j < i then j else j - 1] == ts[j];
  }

  // ---- the same, for steps of the two copies ------------------------------------------

  /** A list section of the file as it is written. */
  function RawItems(s: Schema, st: State, key: string): seq<Tree> {
    match ReadMapping(s, st.file)
    case Mapped(fs) => ItemsAt(fs, key)
    case Unreadable(_) => []
  }

  predicate KeyReached(s: Schema, before: State, after: State, name: string, token: string) {
    var ts := RawItems(s, before, "providers");
    var i := EntryIndex(ts, "name", name);
    && i.Some? && i.value < |before.config.providers| && KeyValue(s, token).Some?
    && ProviderByName(after.config.providers, name) ==
       if SameEntry(s, ts, "name", name)
       then Some(before.config.providers[i.value].(apiKeyEnv := None, apiKeyEncrypted := KeyValue(s, token).value))
       else ProviderByName(before.config.providers, name)
  }

  lemma UpsertKeyReaches(s: Schema, st: State, name: string, token: string, io: Io)
    requires Lawful(s) && Coupled(s, st) && Step(s, st, UpsertProviderKey(name, token), io).1.Done?
    ensures KeyReached(s, st, Step(s, st, UpsertProviderKey(name, token), io).0, name, token)
  {
    CoupledFile(s, st);
    var fs := s.parse(st.file.value).tree.fields;
    CommitKeepsCoupling(s, st, EditOf(s, UpsertProviderKey(name, token), fs).fields, io);
    KeyReachesItsProvider(s, fs, name, token);
  }

  predicate KeyLeft(s: Schema, before: State, after: State, name: string) {
    var ts := RawItems(s, before, "providers");
    var i := EntryIndex(ts, "name", name);
    && i.Some? && i.value < |before.config.providers|
    && ProviderByName(after.config.providers, name) ==
       if SameEntry(s, ts, "name", name) then Some(before.config.providers[i.value].(apiKeyEncrypted := None))
       else ProviderByName(before.config.providers, name)
  }

  lemma DeleteKeyLeaves(s: Schema, st: State, name: string, io: Io)
    requires Lawful(s) && Coupled(s, st) && Step(s, st, DeleteProviderKey(name), io).1.Done?
    ensures KeyLeft(s, st, Step(s, st, DeleteProviderKey(name), io).0, name)
  {
    CoupledFile(s, st);
    var fs := s.parse(st.file.value).tree.fields;
    CommitKeepsCoupling(s, st, EditOf(s, DeleteProviderKey(name), fs).fields, io);
    KeyLeavesItsProvider(s, fs, name);
  }

  predicate ToolReached(s: Schema, before: State, after: State, kind: string, token: Option<string>, on: bool) {
    var ts := RawItems(s, before, "tool_providers");
    && s.toolDefault(kind).Some?
    && var (ts', i) := UpsertedTools(s, ts, kind, token, on);
    && i < |ts'| == |after.config.tools| && Expand(s.expand, ts'[i]).Ok?
    && ParseTool(s, Expand(s.expand, ts'[i]).value) == Some(after.config.tools[i])
    && ToolByKind(after.config.tools, kind) ==
       if WrittenToolIsFirst(s, ts, kind) then Some(after.config.tools[i]) else ToolByKind(before.config.tools, kind)
  }

  lemma UpsertToolReaches(s: Schema, st: State, kind: string, token: Option<string>, on: bool, io: Io)
    requires Lawful(s) && Coupled(s, st) && Step(s, st, UpsertToolProvider(kind, token, on), io).1.Done?
    ensures ToolReached(s, st, Step(s, st, UpsertToolProvider(kind, token, on), io).0, kind, token, on)
  {
    CoupledFile(s, st);
    var fs := s.parse(st.file.value).tree.fields;
    CommitKeepsCoupling(s, st, EditOf(s, UpsertToolProvider(kind, token, on), fs).fields, io);
    ToolWrittenIsLookedUp(s, fs, kind, token, on);
  }

  /** `retired` is what a lookup gave before the removal. */
  predicate ToolGone(s: Schema, before: State, after: State, kind: string) {
    var ts, retired := RawItems(s, before, "tool_providers"), ToolByKind(before.config.tools, kind);
    var i := EntryIndex(ts, "type", kind);
    && i.Some? && i.value < |before.config.tools|
    && after.config == before.config.(tools := RemoveAt(before.config.tools, i.value))
    && if SameEntry(s, ts, "type", kind) then retired == Some(before.config.tools[i.value])
       else retired.Some? ==>
              retired.value.name != before.config.tools[i.value].name && retired.value in after.config.tools
  }

  lemma RemoveToolReaches(s: Schema, st: State, kind: string, io: Io)
    requires Lawful(s) && Coupled(s, st) && Step(s, st, RemoveToolProvider(kind), io).1.Done?
    ensures ToolGone(s, st, Step(s, st, RemoveToolProvider(kind), io).0, kind)
  {
    CoupledFile(s, st);
    var fs := s.parse(st.file.value).tree.fields;
    CommitKeepsCoupling(s, st, EditOf(s, RemoveToolProvider(kind), fs).fields, io);
    ToolRemovedIsLookedUp(s, fs, kind);
  }
}
