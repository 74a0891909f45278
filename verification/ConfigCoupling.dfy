/** The file and the in-memory snapshot are one configuration, over every run. */
module ConfigCoupling {
  import opened Wrappers
  import opened YamlTree
  import opened GatewayConfig
  import opened ConfigWriter
  import opened ConfigSafety

  // ---- which edits can make the reload fail ----------------------------------

  /** The strings a mutation writes; everything else in the file was there before. */
  function NewText(op: Op): Tree {
    match op
    case UpsertAlias(_, p, m, fb, _, _) => AliasBlock(p, m, fb)
    case UpsertProviderKey(_, token) => Text(token)
    case UpsertToolProvider(_, token, _) => if token.Some? then Text(token.value) else Null
    case _ => Null
  }

  /** The mutation's own text brings down the reload with an exception the loader does
      not translate: a placeholder whose value or default is not YAML. */
  predicate TextCrashes(s: Schema, op: Op) {
    Expand(s.expand, NewText(op)).Crashed?
  }

  predicate SameEnd<A, B>(a: Outcome<A>, b: Outcome<B>) {
    a.Ok? == b.Ok? && a.Refused? == b.Refused?
  }

  lemma SectionExpands(s: Schema, fs: Fields, key: string)
    requires ExpandFields(s.expand, fs).Ok?
    ensures ExpandFields(s.expand, MappingAt(fs, key)).Ok? && ExpandItems(s.expand, ItemsAt(fs, key)).Ok?
  {
    FindAfterExpand(s.expand, fs, key);
  }

  lemma SetKeyExpands(s: Schema, entry: Fields, token: string)
    requires ExpandFields(s.expand, entry).Ok?
    ensures var e := ExpandFields(s.expand, entry).value;
            ExpandFields(s.expand, SetKey(entry, token)) ==
            s.expand(token).Map(t => Put(Drop(e, KEY_ENV), KEY_ENCRYPTED, t))
  {
    DropPutCommute(entry, KEY_ENCRYPTED, Text(token), KEY_ENV);
    ExpandAfterWithout(s.expand, entry, {KEY_ENV});
    ExpandAfterPut(s.expand, Drop(entry, KEY_ENV), KEY_ENCRYPTED, Text(token));
  }

  lemma PutEndsLike(s: Schema, fs: Fields, key: string, v: Tree)
    requires ExpandFields(s.expand, fs).Ok?
    ensures SameEnd(ExpandFields(s.expand, Put(fs, key, v)), Expand(s.expand, v))
  {
    ExpandAfterPut(s.expand, fs, key, v);
  }

  lemma NumbersExpand(s: Schema, ns: seq<int>)
    ensures Expand(s.expand, Numbers(ns)).Ok?
  {
    PlainItemsExpand(s, Numbers(ns).items);
  }

  lemma {:induction false} PlainItemsExpand(s: Schema, ts: seq<Tree>)
    requires forall i :: 0 <= i < |ts| ==> ts[i].Number?
    ensures ExpandItems(s.expand, ts).Ok?
  {
    if ts != [] {
      PlainItemsExpand(s, ts[1..]);
    }
  }

  lemma PutIfExpands(s: Schema, fs: Fields, key: string, v: Option<Tree>)
    requires ExpandFields(s.expand, fs).Ok? && (v.Some? ==> Expand(s.expand, v.value).Ok?)
    ensures ExpandFields(s.expand, PutIf(fs, key, v)).Ok?
  {
    if v.Some? {
      ExpandAfterPut(s.expand, fs, key, v.value);
    }
  }

  lemma MergedPolicyExpands(s: Schema, t: Fields, a: Option<seq<int>>, d: Option<int>, p: Option<int>,
                            w: Option<seq<int>>)
    requires ExpandFields(s.expand, t).Ok?
    ensures ExpandFields(s.expand, MergedPolicy(t, a, d, p, w)).Ok?
  {
    if a.Some? { NumbersExpand(s, a.value); }
    if w.Some? { NumbersExpand(s, w.value); }
    var p1 := PutIf(t, "allowed_tiers_global", SomeNumbers(a));
    var p2 := PutIf(p1, "default_minimum_tier", SomeNumber(d));
    var p3 := PutIf(p2, "privileged_minimum_tier", SomeNumber(p));
    PutIfExpands(s, t, "allowed_tiers_global", SomeNumbers(a));
    PutIfExpands(s, p1, "default_minimum_tier", SomeNumber(d));
    PutIfExpands(s, p2, "privileged_minimum_tier", SomeNumber(p));
    PutIfExpands(s, p3, "warn_on_tiers", SomeNumbers(w));
  }

  lemma EnableToolEndsLike(s: Schema, entry: Fields, token: Option<string>, on: bool)
    requires ExpandFields(s.expand, entry).Ok?
    ensures SameEnd(ExpandFields(s.expand, EnableTool(entry, token, on)),
                    Expand(s.expand, if token.Some? then Text(token.value) else Null))
  {
    var e := Put(entry, "enabled", Flag(on));
    ExpandAfterPut(s.expand, entry, "enabled", Flag(on));
    if token.Some? {
      SetKeyExpands(s, e, token.value);
    }
  }

  lemma ReplacedItemEndsLike(s: Schema, ts: seq<Tree>, i: nat, t: Tree)
    requires i < |ts| && ExpandItems(s.expand, ts).Ok?
    ensures SameEnd(Expand(s.expand, Items(ts[i := t])), Expand(s.expand, t))
  {
    ExpandAfterItemUpdate(s.expand, ts, i, t);
  }

  lemma EntryExpands(s: Schema, ts: seq<Tree>, i: nat)
    requires i < |ts| && ts[i].Mapping? && ExpandItems(s.expand, ts).Ok?
    ensures ExpandFields(s.expand, ts[i].fields).Ok?
  {
    ExpandItemAt(s.expand, ts, i);
  }

  lemma UpsertKnownToolEndsLike(s: Schema, fs: Fields, ts: seq<Tree>, i: nat, token: Option<string>, on: bool)
    requires ExpandFields(s.expand, fs).Ok? && ExpandItems(s.expand, ts).Ok? && i < |ts| && ts[i].Mapping?
    ensures var t := Mapping(EnableTool(ts[i].fields, token, on));
            SameEnd(ExpandFields(s.expand, Put(fs, "tool_providers", Items(ts[i := t]))),
                    Expand(s.expand, if token.Some? then Text(token.value) else Null))
  {
    var t := Mapping(EnableTool(ts[i].fields, token, on));
    EntryExpands(s, ts, i);
    EnableToolEndsLike(s, ts[i].fields, token, on);
    ReplacedItemEndsLike(s, ts, i, t);
    PutEndsLike(s, fs, "tool_providers", Items(ts[i := t]));
  }

  lemma UpsertNewToolEndsLike(s: Schema, fs: Fields, ts: seq<Tree>, kind: string, token: Option<string>, on: bool)
    requires Lawful(s) && ExpandFields(s.expand, fs).Ok? && ExpandItems(s.expand, ts).Ok? && s.toolDefault(kind).Some?
    ensures var t := Mapping(EnableTool(s.toolDefault(kind).value, token, on));
            SameEnd(ExpandFields(s.expand, Put(fs, "tool_providers", Items(ts + [t]))),
                    Expand(s.expand, if token.Some? then Text(token.value) else Null))
  {
    var t := Mapping(EnableTool(s.toolDefault(kind).value, token, on));
    EnableToolEndsLike(s, s.toolDefault(kind).value, token, on);
    ExpandAppend(s.expand, ts, t);
    PutEndsLike(s, fs, "tool_providers", Items(ts + [t]));
  }

  lemma UpsertToolEndsLike(s: Schema, op: Op, fs: Fields)
    requires op.UpsertToolProvider? && Lawful(s) && ExpandFields(s.expand, fs).Ok? && EditOf(s, op, fs).Write?
    ensures SameEnd(ExpandFields(s.expand, EditOf(s, op, fs).fields), Expand(s.expand, NewText(op)))
  {
    SectionExpands(s, fs, "tool_providers");
    var ts := ItemsAt(fs, "tool_providers");
    EntryIndexFinds(ts, "type", op.kind);
    var found := EntryIndex(ts, "type", op.kind);
    if found.Some? {
      UpsertKnownToolEndsLike(s, fs, ts, found.value, op.toolToken, op.enabled);
    } else {
      UpsertNewToolEndsLike(s, fs, ts, op.kind, op.toolToken, op.enabled);
    }
  }

  lemma ProviderKeyEndsLike(s: Schema, op: Op, fs: Fields)
    requires (op.UpsertProviderKey? || op.DeleteProviderKey?) && ExpandFields(s.expand, fs).Ok? &&
             EditOf(s, op, fs).Write?
    ensures SameEnd(ExpandFields(s.expand, EditOf(s, op, fs).fields), Expand(s.expand, NewText(op)))
  {
    SectionExpands(s, fs, "providers");
    var ts := ItemsAt(fs, "providers");
    EntryIndexFinds(ts, "name", op.providerName);
    var i := EntryIndex(ts, "name", op.providerName).value;
    EntryExpands(s, ts, i);
    var t := Mapping(if op.UpsertProviderKey? then SetKey(ts[i].fields, op.token)
                     else Drop(ts[i].fields, KEY_ENCRYPTED));
    if op.UpsertProviderKey? {
      SetKeyExpands(s, ts[i].fields, op.token);
    } else {
      ExpandAfterWithout(s.expand, ts[i].fields, {KEY_ENCRYPTED});
    }
    ReplacedItemEndsLike(s, ts, i, t);
    PutEndsLike(s, fs, "providers", Items(ts[i := t]));
  }

  lemma AliasEndsLike(s: Schema, op: Op, fs: Fields)
    requires (op.UpsertAlias? || op.DeleteAlias?) && ExpandFields(s.expand, fs).Ok? && EditOf(s, op, fs).Write?
    ensures SameEnd(ExpandFields(s.expand, EditOf(s, op, fs).fields), Expand(s.expand, NewText(op)))
  {
    SectionExpands(s, fs, "model_aliases");
    var a := MappingAt(fs, "model_aliases");
    if op.UpsertAlias? {
      var block := AliasBlock(op.provider, op.model, op.fallback);
      PutEndsLike(s, a, op.name, block);
      PutEndsLike(s, fs, "model_aliases", Mapping(Put(a, op.name, block)));
    } else {
      ExpandAfterWithout(s.expand, a, {op.name});
      PutEndsLike(s, fs, "model_aliases", Mapping(Drop(a, op.name)));
    }
  }

  /** Against a file that expands, the edited file expands exactly when the new text does. */
  lemma EditEndsLikeItsText(s: Schema, op: Op, fs: Fields)
    requires Lawful(s) && ExpandFields(s.expand, fs).Ok? && EditOf(s, op, fs).Write?
    ensures SameEnd(ExpandFields(s.expand, EditOf(s, op, fs).fields), Expand(s.expand, NewText(op)))
  {
    match op {
      case UpsertAlias(_, _, _, _, _, _) =>
        AliasEndsLike(s, op, fs);
      case DeleteAlias(_) =>
        AliasEndsLike(s, op, fs);
      case UpdateTierPolicy(a, d, p, w) =>
        var t := MappingAt(fs, "tier_policy");
        SectionExpands(s, fs, "tier_policy");
        MergedPolicyExpands(s, t, a, d, p, w);
        PutEndsLike(s, fs, "tier_policy", Mapping(MergedPolicy(t, a, d, p, w)));
      case UpsertToolProvider(_, _, _) =>
        UpsertToolEndsLike(s, op, fs);
      case RemoveToolProvider(k) =>
        var ts := ItemsAt(fs, "tool_providers");
        SectionExpands(s, fs, "tool_providers");
        EntryIndexFinds(ts, "type", k);
        ExpandAfterRemoval(s.expand, ts, EntryIndex(ts, "type", k).value);
        PutEndsLike(s, fs, "tool_providers", Items(RemoveAt(ts, EntryIndex(ts, "type", k).value)));
      case Sighup =>
      case _ =>
        ProviderKeyEndsLike(s, op, fs);
    }
  }

  // ---- the two copies -------------------------------------------------------

  lemma CoupledFile(s: Schema, st: State)
    requires Coupled(s, st)
    ensures s.parse(st.file.value).Document? && s.parse(st.file.value).tree.Mapping?
    ensures ReadMapping(s, st.file) == Mapped(s.parse(st.file.value).tree.fields)
    ensures LoadTree(s, s.parse(st.file.value).tree.fields) == Ok(st.config)
    ensures ExpandFields(s.expand, s.parse(st.file.value).tree.fields).Ok?
  {
  }

  lemma CommitKeepsCoupling(s: Schema, st: State, fs: Fields, io: Io)
    requires Lawful(s) && Coupled(s, st)
    ensures var (st', status) := CommitStep(s, st, fs, io);
            && (status.Done? ==> Coupled(s, st') && s.parse(st'.file.value) == Document(Mapping(fs)))
            && (!status.Done? && !status.Crash? && !status.RestoreFailed? ==> st' == st)
            && (status.Crash? ==> !Coupled(s, st') && st'.config == st.config)
            && (status.RestoreFailed? ==> st'.config == st.config && st'.file == io.restoreLeaves)
            && (status.Crash? <==> !io.replaceFails && LoadTree(s, fs).Crashed?)
            && (status.Done? <==> !io.replaceFails && LoadTree(s, fs).Ok?)
  {
  }

  /** One step from a coupled state: success moves both copies to the edited
      configuration, a caught error moves neither, and only an untranslated exception
      (or a rollback that itself fails) separates them. */
  lemma StepKeepsCoupling(s: Schema, st: State, op: Op, io: Io)
    requires Lawful(s) && Coupled(s, st)
    ensures var (st', status) := Step(s, st, op, io);
            && (status.Done? ==> Coupled(s, st'))
            && (status.Done? && !op.Sighup? ==>
                  EditOf(s, op, s.parse(st.file.value).tree.fields).Write? &&
                  s.parse(st'.file.value) ==
                    Document(Mapping(EditOf(s, op, s.parse(st.file.value).tree.fields).fields)))
            && (!status.Done? && !status.Crash? && !status.RestoreFailed? ==> st' == st)
            && (status.Crash? ==> !Coupled(s, st') && st'.config == st.config)
            && (status.RestoreFailed? ==> st'.config == st.config && st'.file == io.restoreLeaves)
  {
    CoupledFile(s, st);
    var fs := s.parse(st.file.value).tree.fields;
    if PreCheck(s, op, st.config).None? && EditOf(s, op, fs).Write? {
      CommitKeepsCoupling(s, st, EditOf(s, op, fs).fields, io);
    }
  }

  /** When the copies separate: exactly when the file is replaced by an edit whose own
      text makes the loader raise something other than its load error. */
  lemma CrashExactly(s: Schema, st: State, op: Op, io: Io)
    requires Lawful(s) && Coupled(s, st)
    ensures Step(s, st, op, io).1.Crash? <==>
              && !io.replaceFails && PreCheck(s, op, st.config).None?
              && EditOf(s, op, s.parse(st.file.value).tree.fields).Write?
              && TextCrashes(s, op)
  {
    CoupledFile(s, st);
    var fs := s.parse(st.file.value).tree.fields;
    if EditOf(s, op, fs).Write? {
      EditEndsLikeItsText(s, op, fs);
      CommitKeepsCoupling(s, st, EditOf(s, op, fs).fields, io);
    }
  }

  /** A snapshot that startup merged further tool providers into: the first reload agrees
      with the file again, and has none of them. */
  lemma FirstReloadDropsMerged(s: Schema, st: State, merged: seq<ToolProvider>)
    requires st.file.Some? && Load(s, st.file.value).Ok?
    requires st.config == Load(s, st.file.value).value.(tools := Load(s, st.file.value).value.tools + merged)
    requires Checked(st.config)
    ensures SighupStep(s, st).1.Done? && Coupled(s, SighupStep(s, st).0)
    ensures forall t :: t in merged ==>
              ToolByName(st.config.tools, t.name).Some? && ToolByName(SighupStep(s, st).0.config.tools, t.name).None?
  {
    var tools := Load(s, st.file.value).value.tools;
    forall t | t in merged ensures ToolByName(st.config.tools, t.name).Some? && ToolByName(tools, t.name).None? {
      var i :| 0 <= i < |merged| && merged[i] == t;
      ToolByNameFinds(st.config.tools, t.name);
      ToolByNameFinds(tools, t.name);
      assert st.config.tools[|tools| + i] == t;
      assert forall j :: 0 <= j < |tools| ==> st.config.tools[j] == tools[j];
    }
  }

  /** A run is its steps one after the other. */
  lemma {:induction false} RunStepByStep(s: Schema, st: State, events: seq<Event>, e: Event)
    ensures Run(s, st, events + [e]) == Step(s, Run(s, st, events), e.op, e.io).0
    decreases |events|
  {
    if events == [] {
      assert [] + [e] == [e] && [e][1..] == [];
      assert Run(s, st, [e]) == Run(s, Step(s, st, e.op, e.io).0, []);
    } else {
      assert (events + [e])[1..] == events[1..] + [e];
      RunStepByStep(s, Step(s, st, events[0].op, events[0].io).0, events[1..], e);
    }
  }

  /** Over any run of mutations and reloads, each with any file-system failure short of
      a failing rollback, the snapshot is the validated load of the file. */
  lemma {:induction false} RunKeepsCoupling(s: Schema, st: State, events: seq<Event>)
    requires Lawful(s) && Coupled(s, st)
    requires forall i :: 0 <= i < |events| ==> events[i].io.restoreLeaves.None? && !TextCrashes(s, events[i].op)
    ensures Coupled(s, Run(s, st, events))
    decreases |events|
  {
    if events != [] {
      var e := events[0];
      StepKeepsCoupling(s, st, e.op, e.io);
      CrashExactly(s, st, e.op, e.io);
      RunKeepsCoupling(s, Step(s, st, e.op, e.io).0, events[1..]);
    }
  }

  /** The condition is needed: one alias whose model is such a placeholder separates the
      copies, although the caller only sees an error. */
  lemma CrashSeparates(s: Schema, st: State, name: string, p: string, m: string)
    requires Lawful(s) && Coupled(s, st)
    requires st.config.providers != [] && st.config.providers[0].name == p && !Blank(p) && '$' !in p
    requires !Blank(m) && s.expand(m).Crashed?
    requires EditOf(s, UpsertAlias(name, p, m, None, false, false), s.parse(st.file.value).tree.fields).Write?
    ensures var r := Step(s, st, UpsertAlias(name, p, m, None, false, false), Io(false, None));
            r.1.Crash? && !Coupled(s, r.0) && r.0.config == st.config
  {
    var op := UpsertAlias(name, p, m, None, false, false);
    CoupledFile(s, st);
    BlockCrashes(s, p, m);
    assert st.config.providers[0].name == p;
    CrashExactly(s, st, op, Io(false, None));
    StepKeepsCoupling(s, st, op, Io(false, None));
  }

  lemma BlockCrashes(s: Schema, p: string, m: string)
    requires Lawful(s) && '$' !in p && s.expand(m).Crashed?
    ensures Expand(s.expand, AliasBlock(p, m, None)).Crashed?
  {
    var target := TargetBlock(p, m);
    assert target.fields[1..] == [Field("model", Text(m))];
    assert ExpandFields(s.expand, target.fields[1..]).Crashed?;
    assert Expand(s.expand, target.fields[0].value).Ok?;
    assert ExpandFields(s.expand, target.fields).Crashed?;
    var block := AliasBlock(p, m, None).fields;
    assert Expand(s.expand, block[0].value).Crashed?;
    assert ExpandFields(s.expand, block).Crashed?;
  }
}
