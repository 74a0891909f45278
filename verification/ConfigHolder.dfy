/** The live configuration beside its file, and the mutators as the gateway runs them. */
module ConfigHolding {
  import opened Wrappers
  import opened YamlTree
  import opened GatewayConfig
  import opened ConfigWriter

  /** A raw mapping while a mutator edits it in place. */
  class Draft {
    var fields: Fields

    constructor (fields: Fields)
      ensures this.fields == fields
    {
      this.fields := fields;
    }

    method Assign(key: string, value: Tree)
      modifies this
      ensures fields == Put(old(fields), key, value)
    {
      fields := Put(fields, key, value);
    }

    method Pop(key: string)
      modifies this
      ensures fields == Drop(old(fields), key)
    {
      fields := Drop(fields, key);
    }
  }

  class MutableConfigHolder {
    const schema: Schema
    var file: Option<string>
    var config: Config

    /** Startup merges the servers of `mcp.yaml` into the loaded file; the reload does not.
        A startup whose file or merged configuration is invalid makes no holder. */
    constructor (schema: Schema, text: string, mcpTools: seq<ToolProvider>)
      requires Load(schema, text).Ok?
      requires Checked(Load(schema, text).value.(tools := Load(schema, text).value.tools + mcpTools))
      ensures this.schema == schema && file == Some(text)
      ensures config == Load(schema, text).value.(tools := Load(schema, text).value.tools + mcpTools)
      ensures Coupled(schema, View()) <==> mcpTools == []
    {
      var loaded := Load(schema, text).value;
      this.schema := schema;
      file := Some(text);
      config := loaded.(tools := loaded.tools + mcpTools);
      assert |(loaded.tools + mcpTools)| == |loaded.tools| + |mcpTools|;
      assert mcpTools == [] ==> loaded.tools + mcpTools == loaded.tools;
    }

    ghost function View(): State
      reads this
    {
      State(file, config)
    }

    /** Swap in a configuration the caller has validated; the old one is returned. */
    method Replace(newConfig: Config) returns (prior: Config)
      modifies this`config
      ensures prior == old(config) && config == newConfig
    {
      prior := config;
      config := newConfig;
    }

    /** Re-read the file; the snapshot moves only when the load succeeds. */
    method ReloadFromDisk() returns (status: Status)
      modifies this`config
      ensures (View(), status) == SighupStep(schema, old(View()))
    {
      if file.None? {
        return ReloadRefused;
      }
      match Load(schema, file.value)
      case Ok(c) =>
        config := c;
        status := Done;
      case Refused =>
        status := ReloadRefused;
      case Crashed =>
        status := Crash;
    }

    method Commit(raw: Fields, io: Io) returns (status: Status)
      requires file.Some?
      modifies this
      ensures (View(), status) == CommitStep(schema, old(View()), raw, io)
    {
      var priorBytes := file;
      if io.replaceFails {
        return ReplaceFailed;
      }
      file := Some(schema.dump(Mapping(raw)));
      status := ReloadFromDisk();
      if status.ReloadRefused? {
        if io.restoreLeaves.Some? {
          file := io.restoreLeaves;
          status := RestoreFailed;
        } else {
          file := priorBytes;
        }
      }
    }

    method CheckPayload(provider: string, model: string, fallback: Option<seq<Tree>>) returns (ok: bool)
      ensures ok <==> PayloadOk(config.providers, provider, model, fallback)
    {
      if Blank(provider) || !KnownProvider(config.providers, provider) || Blank(model) {
        return false;
      }
      if fallback.None? {
        return true;
      }
      for i := 0 to |fallback.value|
        invariant forall j :: 0 <= j < i ==> EntryOk(config.providers, fallback.value[j])
      {
        var entry := fallback.value[i];
        if !TextField(entry, "provider") || Blank(TextOf(entry, "provider")) {
          return false;
        }
        if !KnownProvider(config.providers, TextOf(entry, "provider")) {
          return false;
        }
        if !TextField(entry, "model") || Blank(TextOf(entry, "model")) {
          return false;
        }
      }
      ok := true;
    }

    method UpsertAlias(name: string, provider: string, model: string, fallback: Option<seq<Tree>>,
                       createOnly: bool, updateOnly: bool, io: Io) returns (status: Status)
      modifies this
      ensures (View(), status) ==
              Step(schema, old(View()), Op.UpsertAlias(name, provider, model, fallback, createOnly, updateOnly), io)
    {
      var ok := CheckPayload(provider, model, fallback);
      if !ok {
        return Http(422);
      }
      var read := ReadMapping(schema, file);
      if read.Unreadable? {
        return read.status;
      }
      var raw := new Draft(read.fields);
      var section := Find(raw.fields, "model_aliases");
      if section.Some? && !section.value.Null? && !section.value.Mapping? {
        return Http(500);
      }
      var aliases := new Draft(if section.Some? && section.value.Mapping? then section.value.fields else []);
      var exists_ := Find(aliases.fields, name).Some?;
      if createOnly && exists_ {
        return Http(409);
      }
      if updateOnly && !exists_ {
        return Http(404);
      }
      aliases.Assign(name, AliasBlock(provider, model, fallback));
      raw.Assign("model_aliases", Mapping(aliases.fields));
      status := Commit(raw.fields, io);
    }

    method DeleteAlias(name: string, io: Io) returns (status: Status)
      modifies this
      ensures (View(), status) == Step(schema, old(View()), Op.DeleteAlias(name), io)
    {
      var read := ReadMapping(schema, file);
      if read.Unreadable? {
        return read.status;
      }
      var raw := new Draft(read.fields);
      var section := Find(raw.fields, "model_aliases");
      if section.None? || !section.value.Mapping? || Find(section.value.fields, name).None? {
        return Http(404);
      }
      var aliases := new Draft(section.value.fields);
      aliases.Pop(name);
      raw.Assign("model_aliases", Mapping(aliases.fields));
      status := Commit(raw.fields, io);
    }

    static method MergeTierPolicy(policy: Draft, allowed: Option<seq<int>>, defaultMinimum: Option<int>,
                                  privilegedMinimum: Option<int>, warnOn: Option<seq<int>>)
      modifies policy
      ensures policy.fields == MergedPolicy(old(policy.fields), allowed, defaultMinimum, privilegedMinimum, warnOn)
    {
      if allowed.Some? {
        policy.Assign("allowed_tiers_global", Numbers(allowed.value));
      }
      if defaultMinimum.Some? {
        policy.Assign("default_minimum_tier", Number(defaultMinimum.value));
      }
      if privilegedMinimum.Some? {
        policy.Assign("privileged_minimum_tier", Number(privilegedMinimum.value));
      }
      if warnOn.Some? {
        policy.Assign("warn_on_tiers", Numbers(warnOn.value));
      }
    }

    static method EditTierPolicy(fields: Fields, allowed: Option<seq<int>>, defaultMinimum: Option<int>,
                                 privilegedMinimum: Option<int>, warnOn: Option<seq<int>>)
      returns (raw: Draft)
      ensures fresh(raw) && TierPolicyEdit(fields, allowed, defaultMinimum, privilegedMinimum, warnOn) ==
              Write(raw.fields)
    {
      raw := new Draft(fields);
      var section := Find(raw.fields, "tier_policy");
      var tierPolicy := new Draft(if section.Some? && section.value.Mapping? then section.value.fields else []);
      MergeTierPolicy(tierPolicy, allowed, defaultMinimum, privilegedMinimum, warnOn);
      raw.Assign("tier_policy", Mapping(tierPolicy.fields));
    }

    method UpdateTierPolicy(allowed: Option<seq<int>>, defaultMinimum: Option<int>,
                            privilegedMinimum: Option<int>, warnOn: Option<seq<int>>, io: Io)
      returns (status: Status, policy: Option<TierPolicy>)
      modifies this
      ensures (View(), status) ==
              Step(schema, old(View()), Op.UpdateTierPolicy(allowed, defaultMinimum, privilegedMinimum, warnOn), io)
      ensures policy == if status.Done? then Some(config.tierPolicy) else None
    {
      policy := None;
      var read := ReadMapping(schema, file);
      if read.Unreadable? {
        return read.status, None;
      }
      var raw := EditTierPolicy(read.fields, allowed, defaultMinimum, privilegedMinimum, warnOn);
      status := Commit(raw.fields, io);
      if status.ReloadRefused? {
        status := Http(422);
      } else if status.Done? {
        policy := Some(config.tierPolicy);
      }
    }

    method UpsertProviderKey(providerName: string, token: string, io: Io) returns (status: Status)
      modifies this
      ensures (View(), status) == Step(schema, old(View()), Op.UpsertProviderKey(providerName, token), io)
    {
      if token == "" {
        return Http(422);
      }
      var read := ReadMapping(schema, file);
      if read.Unreadable? {
        return read.status;
      }
      var section := Find(read.fields, "providers");
      if section.None? || !section.value.Items? {
        return Http(500);
      }
      var found := EntryIndex(section.value.items, "name", providerName);
      if found.None? {
        return Http(404);
      }
      EntryIndexFinds(section.value.items, "name", providerName);
      var entry := new Draft(section.value.items[found.value].fields);
      entry.Assign(KEY_ENCRYPTED, Text(token));
      entry.Pop(KEY_ENV);
      var items := section.value.items[found.value := Mapping(entry.fields)];
      status := Commit(Put(read.fields, "providers", Items(items)), io);
    }

    method DeleteProviderKey(providerName: string, io: Io) returns (status: Status)
      modifies this
      ensures (View(), status) == Step(schema, old(View()), Op.DeleteProviderKey(providerName), io)
    {
      var read := ReadMapping(schema, file);
      if read.Unreadable? {
        return read.status;
      }
      var section := Find(read.fields, "providers");
      if section.None? || !section.value.Items? {
        return Http(500);
      }
      var found := EntryIndex(section.value.items, "name", providerName);
      if found.None? {
        return Http(404);
      }
      EntryIndexFinds(section.value.items, "name", providerName);
      var entry := new Draft(section.value.items[found.value].fields);
      if Find(entry.fields, KEY_ENCRYPTED).None? {
        return Http(409);
      }
      entry.Pop(KEY_ENCRYPTED);
      var items := section.value.items[found.value := Mapping(entry.fields)];
      status := Commit(Put(read.fields, "providers", Items(items)), io);
    }

    method UpsertToolProvider(kind: string, token: Option<string>, enabled: bool, io: Io) returns (status: Status)
      modifies this
      ensures (View(), status) == Step(schema, old(View()), Op.UpsertToolProvider(kind, token, enabled), io)
    {
      var default := schema.toolDefault(kind);
      if default.None? {
        return Http(404);
      }
      var read := ReadMapping(schema, file);
      if read.Unreadable? {
        return read.status;
      }
      var section := Find(read.fields, "tool_providers");
      if section.Some? && !section.value.Null? && !section.value.Items? {
        return Http(500);
      }
      var tools := if section.Some? && section.value.Items? then section.value.items else [];
      var found := EntryIndex(tools, "type", kind);
      EntryIndexFinds(tools, "type", kind);
      var entry := new Draft(if found.Some? then tools[found.value].fields else default.value);
      entry.Assign("enabled", Flag(enabled));
      if token.Some? {
        entry.Assign(KEY_ENCRYPTED, Text(token.value));
        entry.Pop(KEY_ENV);
      }
      tools := if found.Some? then tools[found.value := Mapping(entry.fields)] else tools + [Mapping(entry.fields)];
      status := Commit(Put(read.fields, "tool_providers", Items(tools)), io);
    }

    method RemoveToolProvider(kind: string, io: Io) returns (status: Status)
      modifies this
      ensures (View(), status) == Step(schema, old(View()), Op.RemoveToolProvider(kind), io)
    {
      var read := ReadMapping(schema, file);
      if read.Unreadable? {
        return read.status;
      }
      var section := Find(read.fields, "tool_providers");
      if section.None? || section.value.Null? {
        return Http(404);
      }
      if !section.value.Items? {
        return Http(500);
      }
      var found := EntryIndex(section.value.items, "type", kind);
      if found.None? {
        return Http(404);
      }
      EntryIndexFinds(section.value.items, "type", kind);
      if Truthy(Find(section.value.items[found.value].fields, KEY_ENV)) {
        return Http(409);
      }
      status := Commit(Put(read.fields, "tool_providers", Items(RemoveAt(section.value.items, found.value))), io);
    }

    /** The signal handler swallows every error of the reload. */
    method OnSighup() returns (status: Status)
      modifies this`config
      ensures (View(), status) == Step(schema, old(View()), Op.Sighup, Io(false, None))
    {
      status := ReloadFromDisk();
    }
  }
}
