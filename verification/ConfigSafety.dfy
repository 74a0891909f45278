/** What the mutators promise over every run: the file and the snapshot stay the same
    configuration, an error changes neither, and an edit touches only its own block. */
module ConfigSafety {
  import opened Wrappers
  import opened YamlTree
  import opened GatewayConfig
  import opened ConfigWriter

  // ---- locality -------------------------------------------------------------

  function SectionOf(op: Op): string {
    match op
    case UpsertAlias(_, _, _, _, _, _) => "model_aliases"
    case DeleteAlias(_) => "model_aliases"
    case UpdateTierPolicy(_, _, _, _) => "tier_policy"
    case UpsertProviderKey(_, _) => "providers"
    case DeleteProviderKey(_) => "providers"
    case UpsertToolProvider(_, _, _) => "tool_providers"
    case RemoveToolProvider(_) => "tool_providers"
    case Sighup => ""
  }

  function MappingAt(fs: Fields, key: string): Fields {
    match Find(fs, key) case Some(Mapping(m)) => m case _ => []
  }

  function ItemsAt(fs: Fields, key: string): seq<Tree> {
    match Find(fs, key) case Some(Items(ts)) => ts case _ => []
  }

  /** `a` and `b` agree, in content and order, on everything but the keys in `keys`. */
  predicate SameOutside(a: Fields, b: Fields, keys: set<string>) {
    Without(a, keys) == Without(b, keys)
  }

  /** Entry `i` alone differs, and only in `keys`. */
  predicate OneEntryChanged(a: seq<Tree>, b: seq<Tree>, i: nat, keys: set<string>) {
    && i < |a| == |b|
    && (forall j :: 0 <= j < |a| && j != i ==> a[j] == b[j])
    && a[i].Mapping? && b[i].Mapping? && SameOutside(a[i].fields, b[i].fields, keys)
  }

  predicate FirstMatch(ts: seq<Tree>, i: nat, key: string, value: string) {
    i < |ts| && EntryMatches(ts[i], key, value) && forall j :: 0 <= j < i ==> !EntryMatches(ts[j], key, value)
  }

  const POLICY_FIELDS: set<string> :=
    {"allowed_tiers_global", "default_minimum_tier", "privileged_minimum_tier", "warn_on_tiers"}

  /** The change a mutation is asked to make, and nothing else inside its section. */
  predicate SectionChange(s: Schema, op: Op, fs: Fields, fs': Fields) {
    match op
    case UpsertAlias(n, p, m, fb, _, _) =>
      var a, a' := MappingAt(fs, "model_aliases"), MappingAt(fs', "model_aliases");
      && SameOutside(a, a', {n})
      && Find(a', n) == Some(AliasBlock(p, m, fb))
      && Keys(a') == (if Find(a, n).Some? then Keys(a) else Keys(a) + [n])
    case DeleteAlias(n) =>
      var a, a' := MappingAt(fs, "model_aliases"), MappingAt(fs', "model_aliases");
      Find(a, n).Some? && Find(a', n).None? && SameOutside(a, a', {n})
    case UpdateTierPolicy(a, d, p, w) =>
      var t, t' := MappingAt(fs, "tier_policy"), MappingAt(fs', "tier_policy");
      && SameOutside(t, t', POLICY_FIELDS)
      && Find(t', "allowed_tiers_global") == (if a.Some? then SomeNumbers(a) else Find(t, "allowed_tiers_global"))
      && Find(t', "default_minimum_tier") == (if d.Some? then SomeNumber(d) else Find(t, "default_minimum_tier"))
      && Find(t', "privileged_minimum_tier") == (if p.Some? then SomeNumber(p) else Find(t, "privileged_minimum_tier"))
      && Find(t', "warn_on_tiers") == (if w.Some? then SomeNumbers(w) else Find(t, "warn_on_tiers"))
    case UpsertProviderKey(n, token) =>
      var ts, ts' := ItemsAt(fs, "providers"), ItemsAt(fs', "providers");
      exists i :: 0 <= i < |ts| && FirstMatch(ts, i, "name", n) && OneEntryChanged(ts, ts', i, KEY_FIELDS) &&
        HasOnlyKey(ts'[i].fields, Some(token))
    case DeleteProviderKey(n) =>
      var ts, ts' := ItemsAt(fs, "providers"), ItemsAt(fs', "providers");
      exists i :: 0 <= i < |ts| && FirstMatch(ts, i, "name", n) && OneEntryChanged(ts, ts', i, {KEY_ENCRYPTED}) &&
        Find(ts'[i].fields, KEY_ENCRYPTED).None? && Find(ts[i].fields, KEY_ENCRYPTED).Some?
    case UpsertToolProvider(k, token, on) =>
      var ts, ts' := ItemsAt(fs, "tool_providers"), ItemsAt(fs', "tool_providers");
      exists i :: 0 <= i < |ts'| && ToolEntryEnabled(s, ts, ts', i, k, token, on)
    case RemoveToolProvider(k) =>
      var ts, ts' := ItemsAt(fs, "tool_providers"), ItemsAt(fs', "tool_providers");
      exists i :: 0 <= i < |ts| && FirstMatch(ts, i, "type", k) && ts' == RemoveAt(ts, i)
    case Sighup => fs' == fs
  }

  predicate HasOnlyKey(entry: Fields, token: Option<string>) {
    token.Some? ==> Find(entry, KEY_ENCRYPTED) == Some(Text(token.value)) && Find(entry, KEY_ENV).None?
  }

  predicate ToolEntryEnabled(s: Schema, ts: seq<Tree>, ts': seq<Tree>, i: nat, kind: string, token: Option<string>,
                             on: bool) {
    var keys := if token.Some? then KEY_FIELDS + {"enabled"} else {"enabled"};
    && i < |ts'| && ts'[i].Mapping?
    && Find(ts'[i].fields, "enabled") == Some(Flag(on)) && HasOnlyKey(ts'[i].fields, token)
    && (if i < |ts| then FirstMatch(ts, i, "type", kind) && OneEntryChanged(ts, ts', i, keys)
        else |ts'| == |ts| + 1 && ts'[..|ts|] == ts && s.toolDefault(kind).Some? &&
             SameOutside(s.toolDefault(kind).value, ts'[i].fields, keys))
  }

  predicate TopLevelChange(fs: Fields, fs': Fields, key: string) {
    && SameOutside(fs, fs', {key})
    && (Keys(fs') == Keys(fs) || (Find(fs, key).None? && Keys(fs') == Keys(fs) + [key]))
  }

  /** Every mutation changes one top-level section, and in it only the addressed block;
      all other keys, entries and their order stay. */
  lemma EditIsLocal(s: Schema, op: Op, fs: Fields)
    requires EditOf(s, op, fs).Write?
    ensures TopLevelChange(fs, EditOf(s, op, fs).fields, SectionOf(op))
    ensures SectionChange(s, op, fs, EditOf(s, op, fs).fields)
  {
    match op {
      case UpsertAlias(_, _, _, _, _, _) => UpsertAliasIsLocal(s, op, fs);
      case DeleteAlias(_) => DeleteAliasIsLocal(s, op, fs);
      case UpdateTierPolicy(_, _, _, _) => TierPolicyIsLocal(s, op, fs);
      case UpsertProviderKey(_, _) => UpsertProviderKeyIsLocal(s, op, fs);
      case DeleteProviderKey(_) => DeleteProviderKeyIsLocal(s, op, fs);
      case UpsertToolProvider(_, _, _) => UpsertToolIsLocal(s, op, fs);
      case RemoveToolProvider(_) => RemoveToolIsLocal(s, op, fs);
      case Sighup =>
    }
  }

  lemma PutIsLocal(fs: Fields, key: string, v: Tree)
    ensures TopLevelChange(fs, Put(fs, key, v), key) && Find(Put(fs, key, v), key) == Some(v)
  {
    WithoutAfterPut(fs, key, v, {key});
    KeysAfterPut(fs, key, v);
    FindAfterPut(fs, key, v, key);
  }

  lemma UpsertAliasIsLocal(s: Schema, op: Op, fs: Fields)
    requires op.UpsertAlias? && EditOf(s, op, fs).Write?
    ensures TopLevelChange(fs, EditOf(s, op, fs).fields, SectionOf(op)) &&
            SectionChange(s, op, fs, EditOf(s, op, fs).fields)
  {
    var a, block := MappingAt(fs, "model_aliases"), AliasBlock(op.provider, op.model, op.fallback);
    PutIsLocal(fs, "model_aliases", Mapping(Put(a, op.name, block)));
    WithoutAfterPut(a, op.name, block, {op.name});
    FindAfterPut(a, op.name, block, op.name);
    KeysAfterPut(a, op.name, block);
  }

  lemma DeleteAliasIsLocal(s: Schema, op: Op, fs: Fields)
    requires op.DeleteAlias? && EditOf(s, op, fs).Write?
    ensures TopLevelChange(fs, EditOf(s, op, fs).fields, SectionOf(op)) &&
            SectionChange(s, op, fs, EditOf(s, op, fs).fields)
  {
    var a := MappingAt(fs, "model_aliases");
    PutIsLocal(fs, "model_aliases", Mapping(Drop(a, op.name)));
    FindAfterWithout(a, {op.name}, op.name);
    WithoutAfterDrop(a, op.name, {op.name});
  }

  lemma TierPolicyIsLocal(s: Schema, op: Op, fs: Fields)
    requires op.UpdateTierPolicy? && EditOf(s, op, fs).Write?
    ensures TopLevelChange(fs, EditOf(s, op, fs).fields, SectionOf(op)) &&
            SectionChange(s, op, fs, EditOf(s, op, fs).fields)
  {
    var t := MappingAt(fs, "tier_policy");
    var t' := MergedPolicy(t, op.allowed, op.defaultMinimum, op.privilegedMinimum, op.warnOn);
    PutIsLocal(fs, "tier_policy", Mapping(t'));
    MergedPolicyIsLocal(t, op.allowed, op.defaultMinimum, op.privilegedMinimum, op.warnOn);
  }

  lemma UpsertProviderKeyIsLocal(s: Schema, op: Op, fs: Fields)
    requires op.UpsertProviderKey? && EditOf(s, op, fs).Write?
    ensures TopLevelChange(fs, EditOf(s, op, fs).fields, SectionOf(op)) &&
            SectionChange(s, op, fs, EditOf(s, op, fs).fields)
  {
    var ts := ItemsAt(fs, "providers");
    EntryIndexFinds(ts, "name", op.providerName);
    var i := EntryIndex(ts, "name", op.providerName).value;
    SetKeyIsLocal(ts[i].fields, op.token);
    PutIsLocal(fs, "providers", Items(ts[i := Mapping(SetKey(ts[i].fields, op.token))]));
    assert FirstMatch(ts, i, "name", op.providerName);
  }

  lemma DeleteProviderKeyIsLocal(s: Schema, op: Op, fs: Fields)
    requires op.DeleteProviderKey? && EditOf(s, op, fs).Write?
    ensures TopLevelChange(fs, EditOf(s, op, fs).fields, SectionOf(op)) &&
            SectionChange(s, op, fs, EditOf(s, op, fs).fields)
  {
    var ts := ItemsAt(fs, "providers");
    EntryIndexFinds(ts, "name", op.providerName);
    var i := EntryIndex(ts, "name", op.providerName).value;
    FindAfterWithout(ts[i].fields, {KEY_ENCRYPTED}, KEY_ENCRYPTED);
    WithoutAfterDrop(ts[i].fields, KEY_ENCRYPTED, {KEY_ENCRYPTED});
    PutIsLocal(fs, "providers", Items(ts[i := Mapping(Drop(ts[i].fields, KEY_ENCRYPTED))]));
    assert FirstMatch(ts, i, "name", op.providerName);
  }

  lemma UpsertToolIsLocal(s: Schema, op: Op, fs: Fields)
    requires op.UpsertToolProvider? && EditOf(s, op, fs).Write?
    ensures TopLevelChange(fs, EditOf(s, op, fs).fields, SectionOf(op)) &&
            SectionChange(s, op, fs, EditOf(s, op, fs).fields)
  {
    var ts := ItemsAt(fs, "tool_providers");
    EntryIndexFinds(ts, "type", op.kind);
    var found := EntryIndex(ts, "type", op.kind);
    var entry := if found.Some? then ts[found.value].fields else s.toolDefault(op.kind).value;
    var on := Mapping(EnableTool(entry, op.toolToken, op.enabled));
    var ts' := if found.Some? then ts[found.value := on] else ts + [on];
    EnableToolIsLocal(entry, op.toolToken, op.enabled);
    PutIsLocal(fs, "tool_providers", Items(ts'));
    assert EditOf(s, op, fs).fields == Put(fs, "tool_providers", Items(ts'));
    assert ItemsAt(EditOf(s, op, fs).fields, "tool_providers") == ts';
    var i := if found.Some? then found.value else |ts|;
    assert ToolEntryEnabled(s, ts, ts', i, op.kind, op.toolToken, op.enabled);
  }

  lemma RemoveToolIsLocal(s: Schema, op: Op, fs: Fields)
    requires op.RemoveToolProvider? && EditOf(s, op, fs).Write?
    ensures TopLevelChange(fs, EditOf(s, op, fs).fields, SectionOf(op)) &&
            SectionChange(s, op, fs, EditOf(s, op, fs).fields)
  {
    var ts := ItemsAt(fs, "tool_providers");
    EntryIndexFinds(ts, "type", op.kind);
    var i := EntryIndex(ts, "type", op.kind).value;
    PutIsLocal(fs, "tool_providers", Items(RemoveAt(ts, i)));
    assert FirstMatch(ts, i, "type", op.kind);
  }

  lemma SetKeyIsLocal(entry: Fields, token: string)
    ensures SameOutside(entry, SetKey(entry, token), KEY_FIELDS)
    ensures HasOnlyKey(SetKey(entry, token), Some(token))
    ensures forall k :: k !in KEY_FIELDS ==> Find(SetKey(entry, token), k) == Find(entry, k)
  {
    var put := Put(entry, KEY_ENCRYPTED, Text(token));
    WithoutAfterPut(entry, KEY_ENCRYPTED, Text(token), KEY_FIELDS);
    WithoutAfterDrop(put, KEY_ENV, KEY_FIELDS);
    FindAfterPut(entry, KEY_ENCRYPTED, Text(token), KEY_ENCRYPTED);
    FindAfterWithout(put, {KEY_ENV}, KEY_ENV);
    FindAfterWithout(put, {KEY_ENV}, KEY_ENCRYPTED);
    forall k | k !in KEY_FIELDS ensures Find(SetKey(entry, token), k) == Find(entry, k) {
      FindAfterPut(entry, KEY_ENCRYPTED, Text(token), k);
      FindAfterWithout(put, {KEY_ENV}, k);
    }
  }

  lemma EnableToolIsLocal(entry: Fields, token: Option<string>, on: bool)
    ensures SameOutside(entry, EnableTool(entry, token, on), if token.Some? then KEY_FIELDS + {"enabled"}
                        else {"enabled"})
    ensures Find(EnableTool(entry, token, on), "enabled") == Some(Flag(on))
    ensures HasOnlyKey(EnableTool(entry, token, on), token)
  {
    var e := Put(entry, "enabled", Flag(on));
    FindAfterPut(entry, "enabled", Flag(on), "enabled");
    if token.Some? {
      SetKeyIsLocal(e, token.value);
      var put := Put(e, KEY_ENCRYPTED, Text(token.value));
      var keys := KEY_FIELDS + {"enabled"};
      WithoutAfterPut(entry, "enabled", Flag(on), keys);
      WithoutAfterPut(e, KEY_ENCRYPTED, Text(token.value), keys);
      WithoutAfterDrop(put, KEY_ENV, keys);
    } else {
      WithoutAfterPut(entry, "enabled", Flag(on), {"enabled"});
    }
  }

  lemma PutIfIsLocal(fs: Fields, key: string, value: Option<Tree>, keys: set<string>)
    requires key in keys
    ensures SameOutside(fs, PutIf(fs, key, value), keys)
    ensures forall k :: Find(PutIf(fs, key, value), k) == if k == key && value.Some? then value else Find(fs, k)
  {
    if value.Some? {
      WithoutAfterPut(fs, key, value.value, keys);
      forall k {
        FindAfterPut(fs, key, value.value, k);
      }
    }
  }

  lemma MergedPolicyIsLocal(t: Fields, a: Option<seq<int>>, d: Option<int>, p: Option<int>, w: Option<seq<int>>)
    ensures var t' := MergedPolicy(t, a, d, p, w);
            && SameOutside(t, t', POLICY_FIELDS)
            && Find(t', "allowed_tiers_global") == (if a.Some? then SomeNumbers(a) else Find(t, "allowed_tiers_global"))
            && Find(t', "default_minimum_tier") == (if d.Some? then SomeNumber(d) else Find(t, "default_minimum_tier"))
            && Find(t', "privileged_minimum_tier") ==
               (if p.Some? then SomeNumber(p) else Find(t, "privileged_minimum_tier"))
            && Find(t', "warn_on_tiers") == (if w.Some? then SomeNumbers(w) else Find(t, "warn_on_tiers"))
  {
    var p1 := PutIf(t, "allowed_tiers_global", SomeNumbers(a));
    var p2 := PutIf(p1, "default_minimum_tier", SomeNumber(d));
    var p3 := PutIf(p2, "privileged_minimum_tier", SomeNumber(p));
    PutIfIsLocal(t, "allowed_tiers_global", SomeNumbers(a), POLICY_FIELDS);
    PutIfIsLocal(p1, "default_minimum_tier", SomeNumber(d), POLICY_FIELDS);
    PutIfIsLocal(p2, "privileged_minimum_tier", SomeNumber(p), POLICY_FIELDS);
    PutIfIsLocal(p3, "warn_on_tiers", SomeNumbers(w), POLICY_FIELDS);
  }
}
