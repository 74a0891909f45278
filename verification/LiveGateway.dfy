/** The running gateway: hot changes of the adapters, pinned routers, shutdown. */
module LiveGateway {
  import opened Wrappers
  import opened YamlTree
  import opened GatewayConfig
  import opened ConfigWriter
  import opened ConfigHolding
  import opened AliasGraph
  import opened EntryIdentity
  import opened ModelRouting
  import opened AdapterTables

  /** The opaque revisions: a digest of the whole configuration or of one entry. */
  datatype Digests = Digests(ofConfig: Config -> string, ofEntry: Entry -> string)

  /** Entries with one digest are one entry.  (Of configurations this is not asked.) */
  ghost predicate Injective(d: Digests) {
    forall a: Entry, b: Entry :: d.ofEntry(a) == d.ofEntry(b) ==> a == b
  }

  /** What building an enabled entry comes to: the type may have no adapter, egress policy
      may refuse its base URL, its key may not resolve. */
  datatype Verdict = Builds | NoImplementation | EgressRefused | KeyUnresolved

  datatype Built = Adapter(adapter: Adapter) | Nothing | Refusal | Failure

  predicate Stamped(d: Digests, a: Adapter) {
    a.revision == d.ofEntry(a.builtFrom)
  }

  method BuildAdapter(d: Digests, entry: Entry, verdict: Verdict) returns (r: Built)
    ensures r.Adapter? <==> entry.Enabled() && verdict.Builds?
    ensures r.Adapter? ==>
              fresh(r.adapter) && r.adapter.builtFrom == entry && Stamped(d, r.adapter) && r.adapter.closes == 0
    ensures r.Nothing? <==> !entry.Enabled() || verdict.NoImplementation?
    ensures r.Refusal? <==> entry.Enabled() && verdict.EgressRefused?
  {
    if !entry.Enabled() {
      return Nothing;
    }
    match verdict
    case Builds =>
      var a := new AdapterTables.Adapter(entry, d.ofEntry(entry));
      r := Adapter(a);
    case NoImplementation =>
      r := Nothing;
    case EgressRefused =>
      r := Refusal;
    case KeyUnresolved =>
      r := Failure;
  }

  /** The name-keyed dictionary that the registry and the live router share by reference. */
  class AdapterDict {
    var live: map<string, AdapterTables.Adapter>

    constructor (live: map<string, AdapterTables.Adapter>)
      ensures this.live == live
    {
      this.live := live;
    }
  }

  class Registry {
    const dict: AdapterDict
    var retired: seq<AdapterTables.Adapter>

    constructor (dict: AdapterDict)
      ensures this.dict == dict && retired == []
    {
      this.dict := dict;
      retired := [];
    }

    ghost function View(): Table
      reads this, dict
    {
      Table(dict.live, retired)
    }

    /** Pop, retire, then set: nothing is closed here. */
    method SwapIn(name: string, newAdapter: Option<AdapterTables.Adapter>)
      modifies this, dict
      ensures View() == Swap(old(View()), name, newAdapter)
    {
      if name in dict.live {
        var prior := dict.live[name];
        dict.live := dict.live - {name};
        if newAdapter.None? || prior != newAdapter.value {
          retired := retired + [prior];
        }
      }
      assert old(dict.live) - {name} == dict.live;
      if newAdapter.Some? {
        dict.live := dict.live[name := newAdapter.value];
      }
    }

    /** Shutdown: the live adapters, then the retired ones. */
    method CloseAll(ghost installed: set<AdapterTables.Adapter>)
      requires Conserved(View(), installed)
      modifies installed
      ensures forall a :: a in installed ==> a.closes == old(a.closes) + 1
    {
      var names := dict.live.Keys;
      ghost var closed: set<AdapterTables.Adapter> := {};
      while names != {}
        invariant names <= dict.live.Keys
        invariant closed == set n | n in dict.live && n !in names :: dict.live[n]
        invariant forall a :: a in installed ==> a.closes == old(a.closes) + if a in closed then 1 else 0
        decreases names
      {
        var n :| n in names;
        assert dict.live[n] in dict.live.Values;
        dict.live[n].Aclose();
        names := names - {n};
        closed := closed + {dict.live[n]};
      }
      assert closed == dict.live.Values;
      for i := 0 to |retired|
        invariant closed == dict.live.Values + set j | 0 <= j < i :: retired[j]
        invariant forall a :: a in installed ==> a.closes == old(a.closes) + if a in closed then 1 else 0
      {
        assert retired[i] in retired;
        assert retired[i] !in dict.live.Values by {
          assert forall n :: n in dict.live ==> dict.live[n] != retired[i];
        }
        retired[i].Aclose();
        closed := closed + {retired[i]};
      }
    }
  }

  // ---- startup --------------------------------------------------------------

  /** Each adapter made is from an entry of its own, in the order of the entries. */
  ghost predicate MadeFrom(made: seq<AdapterTables.Adapter>, from: seq<nat>, entries: seq<Entry>) {
    && |from| == |made|
    && (forall k :: 0 <= k < |from| ==> from[k] < |entries| && made[k].builtFrom == entries[from[k]])
    && (forall k, m :: 0 <= k < m < |from| ==> from[k] < from[m])
  }

  /** The first `i` entries are done. */
  ghost predicate Building(d: Digests, dict: AdapterDict, entries: seq<Entry>, verdicts: nat -> Verdict, i: nat,
                           made: seq<AdapterTables.Adapter>, from: seq<nat>)
    requires i <= |entries|
    reads dict, made
  {
    && dict.live == Fill(made) && AllDifferent(made)
    && MadeFrom(made, from, entries[..i]) && BuiltExactly(from, entries, verdicts, i)
    && forall a :: a in made ==> Stamped(d, a) && a.closes == 0
  }

  method BuildNext(d: Digests, dict: AdapterDict, entries: seq<Entry>, verdicts: nat -> Verdict, i: nat,
                   ghost made: seq<AdapterTables.Adapter>, ghost from: seq<nat>)
    returns (refused: bool, ghost made': seq<AdapterTables.Adapter>, ghost from': seq<nat>)
    requires i < |entries| && Building(d, dict, entries, verdicts, i, made, from)
    modifies dict
    ensures refused <==> Refused(entries, verdicts, i)
    ensures Building(d, dict, entries, verdicts, i + 1, made', from')
    ensures forall a :: a in made' ==> a in made || fresh(a)
  {
    var built := BuildAdapter(d, entries[i], verdicts(i));
    refused := built.Refusal?;
    MadeOneMore(made, from, entries, verdicts, i, if built.Adapter? then Some(built.adapter) else None);
    made', from' := made, from;
    if built.Adapter? {
      dict.live := dict.live[entries[i].Name() := built.adapter];
      made', from' := made + [built.adapter], from + [i];
    }
  }

  /** One pass over the entries.  An egress refusal ends the startup for inference
      providers and skips the entry for tool providers. */
  method BuildAll(d: Digests, entries: seq<Entry>, verdicts: nat -> Verdict, refusalIsFatal: bool)
    returns (dict: AdapterDict, started: bool, ghost made: seq<AdapterTables.Adapter>, ghost from: seq<nat>)
    ensures started <==> !refusalIsFatal || forall i :: 0 <= i < |entries| ==> !Refused(entries, verdicts, i)
    ensures started ==>
              && fresh(dict) && Building(d, dict, entries, verdicts, |entries|, made, from)
              && forall a :: a in made ==> fresh(a)
  {
    dict := new AdapterDict(map[]);
    made, from := [], [];
    for i := 0 to |entries|
      invariant fresh(dict) && Building(d, dict, entries, verdicts, i, made, from)
      invariant forall a :: a in made ==> fresh(a)
      invariant refusalIsFatal ==> forall k :: 0 <= k < i ==> !Refused(entries, verdicts, k)
    {
      var refused;
      refused, made, from := BuildNext(d, dict, entries, verdicts, i, made, from);
      if refused && refusalIsFatal {
        started := false;
        return;
      }
    }
    started := true;
  }

  predicate Refused(entries: seq<Entry>, verdicts: nat -> Verdict, i: nat)
    requires i < |entries|
  {
    entries[i].Enabled() && verdicts(i).EgressRefused?
  }

  /** Of the entries before `n` those that are enabled and build have been built, and no others. */
  ghost predicate BuiltExactly(from: seq<nat>, entries: seq<Entry>, verdicts: nat -> Verdict, n: nat)
    requires n <= |entries|
  {
    forall k :: 0 <= k < n ==> (k in from <==> entries[k].Enabled() && verdicts(k).Builds?)
  }

  lemma MadeOneMore(made: seq<AdapterTables.Adapter>, from: seq<nat>, entries: seq<Entry>, verdicts: nat -> Verdict,
                    i: nat,
                    a: Option<AdapterTables.Adapter>)
    requires i < |entries| && MadeFrom(made, from, entries[..i]) && BuiltExactly(from, entries, verdicts, i) &&
             AllDifferent(made)
    requires a.Some? <==> entries[i].Enabled() && verdicts(i).Builds?
    requires a.Some? ==> a.value !in made && a.value.builtFrom == entries[i]
    ensures a.None? ==> MadeFrom(made, from, entries[..i + 1]) && BuiltExactly(from, entries, verdicts, i + 1)
    ensures a.Some? ==>
              && MadeFrom(made + [a.value], from + [i], entries[..i + 1]) &&
                 BuiltExactly(from + [i], entries, verdicts, i + 1)
              && AllDifferent(made + [a.value]) && Fill(made + [a.value]) == Fill(made)[entries[i].Name() := a.value]
  {
    BuiltOneMore(from, entries, verdicts, i);
    if a.Some? {
      MadeFromOneMore(made, from, entries, i, a.value);
      assert (made + [a.value])[..|made|] == made;
    }
  }

  lemma MadeFromOneMore(made: seq<AdapterTables.Adapter>, from: seq<nat>, entries: seq<Entry>, i: nat,
                        a: AdapterTables.Adapter)
    requires i < |entries| && MadeFrom(made, from, entries[..i]) && a.builtFrom == entries[i]
    ensures MadeFrom(made + [a], from + [i], entries[..i + 1])
  {
    forall k | 0 <= k <= |made| ensures (made + [a])[k].builtFrom == entries[..i + 1][(from + [i])[k]] {
    }
  }

  lemma BuiltOneMore(from: seq<nat>, entries: seq<Entry>, verdicts: nat -> Verdict, i: nat)
    requires i < |entries| && BuiltExactly(from, entries, verdicts, i) && forall k :: 0 <= k < |from| ==> from[k] < i
    ensures BuiltExactly(if entries[i].Enabled() && verdicts(i).Builds? then from + [i] else from, entries, verdicts,
                         i + 1)
  {
    assert i in from + [i];
  }

  /** Tool-provider names are unique in a validated configuration, so the startup of
      the tool adapters conserves without a further condition. */
  lemma ToolStartupConserves(c: Config, made: seq<AdapterTables.Adapter>, from: seq<nat>)
    requires Checked(c) && AllDifferent(made)
    requires MadeFrom(made, from, seq(|c.tools|, i requires 0 <= i < |c.tools| => Tool(c.tools[i])))
    ensures Conserved(Table(Fill(made), []), set a | a in made)
  {
    forall i, j | 0 <= i < j < |made| ensures made[i].builtFrom.Name() != made[j].builtFrom.Name() {
      assert c.tools[from[i]].name != c.tools[from[j]].name;
    }
    StartupConserves(made);
  }

  // ---- pinned routers -------------------------------------------------------

  /** A router over its own copies of the configuration and of both dictionaries. */
  class PinnedRouter {
    const config: Config
    const adapters: AdapterDict
    const toolAdapters: AdapterDict

    constructor (config: Config, adapters: AdapterDict, toolAdapters: AdapterDict)
      ensures this.config == config && this.adapters == adapters && this.toolAdapters == toolAdapters
    {
      this.config := config;
      this.adapters := adapters;
      this.toolAdapters := toolAdapters;
    }

    /** The adapter a request for this provider goes to. */
    function Dispatch(name: string, tool: bool): Option<AdapterTables.Adapter>
      reads adapters, toolAdapters
    {
      var live := if tool then toolAdapters.live else adapters.live;
      if name in live then Some(live[name]) else None
    }
  }

  function EntryByName(c: Config, name: string, tool: bool): Option<Entry> {
    if tool then var t :- ToolByName(c.tools, name); Some(Tool(t))
    else var p :- ProviderByName(c.providers, name); Some(Llm(p))
  }

  datatype Reply = Applied(configured: bool) | MasterKeyMissing | Egress409 | Failed(status: Status)

  datatype Event =
    | KeyApplied(name: string, token: string, masterKeySet: bool, io: Io, verdict: Verdict)
    | KeyRevoked(name: string, io: Io)
    | ToolApplied(kind: string, toolToken: Option<string>, enabled: bool, io: Io, verdict: Verdict)
    | ToolRemoved(kind: string, io: Io)
    | AliasWritten(name: string, target: string, model: string, fallback: Option<seq<Tree>>,
                   createOnly: bool, updateOnly: bool, io: Io)
    | AliasDeleted(name: string, io: Io)
    | PolicyUpdated(allowed: Option<seq<int>>, defaultMinimum: Option<int>,
                    privilegedMinimum: Option<int>, warnOn: Option<seq<int>>, io: Io)
    | Edited(text: Option<string>)
    | Reloaded

  ghost predicate AllStamped(d: Digests, live: map<string, AdapterTables.Adapter>) {
    forall n :: n in live ==> Stamped(d, live[n])
  }

  /** What an event does to file and snapshot. */
  function AfterEvent(s: Schema, st: State, e: Event): State {
    match e
    case KeyApplied(name, token, masterKeySet, io, _) =>
      if masterKeySet then Step(s, st, UpsertProviderKey(name, token), io).0 else st
    case KeyRevoked(name, io) => Step(s, st, DeleteProviderKey(name), io).0
    case ToolApplied(kind, token, enabled, io, _) => Step(s, st, UpsertToolProvider(kind, token, enabled), io).0
    case ToolRemoved(kind, io) => Step(s, st, Op.RemoveToolProvider(kind), io).0
    case AliasWritten(name, target, model, fallback, createOnly, updateOnly, io) =>
      Step(s, st, UpsertAlias(name, target, model, fallback, createOnly, updateOnly), io).0
    case AliasDeleted(name, io) => Step(s, st, DeleteAlias(name), io).0
    case PolicyUpdated(allowed, default, privileged, warnOn, io) =>
      Step(s, st, UpdateTierPolicy(allowed, default, privileged, warnOn), io).0
    case Edited(text) => st.(file := text)
    case Reloaded => SighupStep(s, st).0
  }

  function AfterEvents(s: Schema, st: State, schedule: seq<Event>): State
    decreases |schedule|
  {
    if schedule == [] then st else AfterEvents(s, AfterEvent(s, st, schedule[0]), schedule[1..])
  }

  /** File and snapshot, and what each registry holds. */
  datatype Moment = Moment(state: State, llm: Table, tools: Table)

  /** What becomes of a name whose adapter is rebuilt from `entry`: a new one takes the place
      of the old one, or nothing does; a refusal may leave the old one where it is. */
  ghost predicate Rebuilt(t: Table, name: string, entry: Option<Entry>, verdict: Verdict, keepsOnRefusal: bool,
                          t': Table) {
    if entry.Some? && entry.value.Enabled() && verdict.Builds? then
      && name in t'.live && t'.live[name].builtFrom == entry.value && t'.live[name] !in t.live.Values
      && t' == Swap(t, name, Some(t'.live[name]))
    else if entry.Some? && entry.value.Enabled() && verdict.EgressRefused? && keepsOnRefusal then t' == t
    else t' == Swap(t, name, None)
  }

  /** How one event moves the gateway. */
  ghost predicate Moved(s: Schema, m: Moment, e: Event, m': Moment) {
    match e
    case KeyApplied(name, token, masterKeySet, io, verdict) =>
      var (st, status) := Step(s, m.state, UpsertProviderKey(name, token), io);
      if !masterKeySet then m' == m
      else if !status.Done? then m' == m.(state := st)
      else
        && m'.state == st && m'.tools == m.tools
        && Rebuilt(m.llm, name, EntryByName(st.config, name, false), verdict, true, m'.llm)
    case KeyRevoked(name, io) =>
      var (st, status) := Step(s, m.state, DeleteProviderKey(name), io);
      m' == Moment(st, if status.Done? then Swap(m.llm, name, None) else m.llm, m.tools)
    case ToolApplied(kind, token, enabled, io, verdict) =>
      var (st, status) := Step(s, m.state, UpsertToolProvider(kind, token, enabled), io);
      var entry := ToolByKind(st.config.tools, kind);
      if !status.Done? || entry.None? then m' == m.(state := st)
      else
        && m'.state == st && m'.llm == m.llm
        && Rebuilt(m.tools, entry.value.name, Some(Tool(entry.value)), verdict, false, m'.tools)
    case ToolRemoved(kind, io) =>
      var (st, status) := Step(s, m.state, Op.RemoveToolProvider(kind), io);
      var entry := ToolByKind(m.state.config.tools, kind);
      m' == Moment(st, m.llm,
                   if status.Done? && entry.Some? then Swap(m.tools, entry.value.name, None) else m.tools)
    case AliasWritten(name, target, model, fallback, createOnly, updateOnly, io) =>
      m' == m.(state := Step(s, m.state, UpsertAlias(name, target, model, fallback, createOnly, updateOnly), io).0)
    case AliasDeleted(name, io) => m' == m.(state := Step(s, m.state, DeleteAlias(name), io).0)
    case PolicyUpdated(allowed, default, privileged, warnOn, io) =>
      m' == m.(state := Step(s, m.state, UpdateTierPolicy(allowed, default, privileged, warnOn), io).0)
    case Edited(text) => m' == m.(state := m.state.(file := text))
    case Reloaded => m' == m.(state := SighupStep(s, m.state).0)
  }

  /** A gateway's way through a schedule: every event moves it, in order. */
  ghost predicate Traced(s: Schema, schedule: seq<Event>, trace: seq<Moment>) {
    && |trace| == |schedule| + 1
    && forall n :: 0 <= n < |schedule| ==> Moved(s, trace[n], schedule[n], trace[n + 1])
  }

  lemma TraceFrom(s: Schema, schedule: seq<Event>, m: Moment, rest: seq<Moment>)
    requires schedule != [] && Traced(s, schedule[1..], rest) && Moved(s, m, schedule[0], rest[0])
    ensures Traced(s, schedule, [m] + rest)
  {
    forall n | 0 <= n < |schedule| ensures Moved(s, ([m] + rest)[n], schedule[n], ([m] + rest)[n + 1]) {
      if n > 0 {
        assert Moved(s, rest[n - 1], schedule[1..][n - 1], rest[n]);
      }
    }
  }

  /** The dictionary of tool adapters holds tool adapters. */
  ghost predicate ToolsOnly(live: map<string, AdapterTables.Adapter>) {
    forall n :: n in live ==> live[n].builtFrom.Tool?
  }

  class Gateway {
    const digests: Digests
    const holder: MutableConfigHolder
    const llm: Registry
    const tools: Registry

    constructor (digests: Digests, holder: MutableConfigHolder, llmDict: AdapterDict, toolDict: AdapterDict)
      requires llmDict != toolDict
      requires AllStamped(digests, llmDict.live) && AllStamped(digests, toolDict.live)
      requires ToolsOnly(toolDict.live)
      ensures Valid() && fresh(llm) && fresh(tools) && llm.dict == llmDict && tools.dict == toolDict &&
              this.digests == digests && this.holder == holder
      ensures llm.View() == Table(llmDict.live, []) && tools.View() == Table(toolDict.live, [])
    {
      this.digests := digests;
      this.holder := holder;
      llm := new Registry(llmDict);
      tools := new Registry(toolDict);
    }

    ghost predicate Valid()
      reads this, llm, llm.dict, tools, tools.dict
    {
      && llm != tools && llm.dict != tools.dict
      && AllStamped(digests, llm.dict.live) && AllStamped(digests, tools.dict.live)
      && ToolsOnly(tools.dict.live)
    }

    ghost function Now(): Moment
      reads this, holder, llm, llm.dict, tools, tools.dict
    {
      Moment(holder.View(), llm.View(), tools.View())
    }

    /** Persist a key, reload, rebuild the provider's adapter from the reloaded entry and
        swap it in.  When egress policy refuses the entry the old adapter stays live. */
    method ApplyProviderKey(name: string, token: string, masterKeySet: bool, io: Io, verdict: Verdict)
      returns (r: Reply, ghost change: Option<Change>)
      requires Valid()
      modifies holder, llm, llm.dict
      ensures Valid()
      ensures change.None? ==> llm.View() == old(llm.View()) && (r.MasterKeyMissing? || r.Egress409? || r.Failed?)
      ensures change.Some? ==>
                && llm.View() == Apply(old(llm.View()), change.value) && change.value.name == name
                && r == Applied(name in llm.dict.live)
                && (change.value.Install? ==>
                      && fresh(change.value.adapter) && change.value.adapter.closes == 0
                      && EntryByName(holder.config, name, false) == Some(change.value.adapter.builtFrom))
      ensures r.MasterKeyMissing? <==> !masterKeySet
      ensures r.MasterKeyMissing? ==> holder.View() == old(holder.View())
      ensures !r.MasterKeyMissing? ==>
                var s := Step(holder.schema, old(holder.View()), UpsertProviderKey(name, token), io);
                holder.View() == s.0 && (r.Failed? <==> !s.1.Done?) && (r.Failed? ==> r.status == s.1)
      ensures r.Applied? || r.Egress409? ==>
                var p := ProviderByName(holder.config.providers, name);
                var enabled := p.Some? && p.value.enabled;
                && (r.Egress409? <==> enabled && verdict.EgressRefused?)
                && (change.Some? <==> r.Applied?)
                && (change.Some? && change.value.Install? <==> enabled && verdict.Builds?)
      ensures (r.Applied? || r.Egress409?) && Lawful(holder.schema) && old(Coupled(holder.schema, holder.View())) ==>
                KeyReached(holder.schema, old(holder.View()), holder.View(), name, token)
    {
      change := None;
      if !masterKeySet {
        return MasterKeyMissing, None;
      }
      ghost var before := holder.View();
      var status := holder.UpsertProviderKey(name, token, io);
      if !status.Done? {
        return Failed(status), None;
      }
      KeyReachedIfCoupled(holder, before, name, token, io);
      var p := ProviderByName(holder.config.providers, name);
      var newAdapter: Option<AdapterTables.Adapter> := None;
      if p.Some? {
        var built := BuildAdapter(digests, Llm(p.value), verdict);
        if built.Refusal? {
          return Egress409, None;
        }
        if built.Adapter? {
          newAdapter := Some(built.adapter);
        }
      }
      llm.SwapIn(name, newAdapter);
      change := Some(if newAdapter.Some? then Install(name, newAdapter.value) else Uninstall(name));
      r := Applied(name in llm.dict.live);
    }

    method RevokeProviderKey(name: string, io: Io) returns (r: Reply, ghost change: Option<Change>)
      requires Valid()
      modifies holder, llm, llm.dict
      ensures Valid()
      ensures var s := Step(holder.schema, old(holder.View()), DeleteProviderKey(name), io);
              && holder.View() == s.0
              && (if s.1.Done? then r == Applied(false) && change == Some(Uninstall(name))
                  else r == Failed(s.1) && change == None)
      ensures llm.View() == if change.Some? then Apply(old(llm.View()), change.value) else old(llm.View())
      ensures r.Applied? ==> name !in llm.dict.live
      ensures r.Applied? && Lawful(holder.schema) && old(Coupled(holder.schema, holder.View())) ==>
                KeyLeft(holder.schema, old(holder.View()), holder.View(), name)
    {
      ghost var before := holder.View();
      var status := holder.DeleteProviderKey(name, io);
      if !status.Done? {
        return Failed(status), None;
      }
      if Lawful(holder.schema) && Coupled(holder.schema, before) {
        DeleteKeyLeaves(holder.schema, before, name, io);
      }
      llm.SwapIn(name, None);
      change := Some(Uninstall(name));
      r := Applied(false);
    }

    /** As for keys, except that every build failure leaves the provider without an adapter. */
    method ApplyToolProvider(kind: string, token: Option<string>, enabled: bool, io: Io, verdict: Verdict)
      returns (r: Reply, ghost change: Option<Change>)
      requires Valid()
      modifies holder, tools, tools.dict
      ensures Valid()
      ensures change.None? ==> tools.View() == old(tools.View())
      ensures change.Some? ==> r.Applied?
      ensures change.Some? ==>
                && tools.View() == Apply(old(tools.View()), change.value)
                && ToolByKind(holder.config.tools, kind).Some?
                && change.value.name == ToolByKind(holder.config.tools, kind).value.name
                && (change.value.Install? ==>
                      && fresh(change.value.adapter) && change.value.adapter.closes == 0
                      && change.value.adapter.builtFrom == Tool(ToolByKind(holder.config.tools, kind).value))
      ensures var s := Step(holder.schema, old(holder.View()), UpsertToolProvider(kind, token, enabled), io);
              holder.View() == s.0 && (if s.1.Done? then r.Applied? else r == Failed(s.1))
      ensures r.Applied? ==>
                var entry := ToolByKind(holder.config.tools, kind);
                && (change.Some? <==> entry.Some?)
                && (change.Some? && change.value.Install? <==> entry.Some? && entry.value.enabled && verdict.Builds?)
                && (r.configured <==> change.Some? && change.value.Install?)
      ensures r.Applied? && Lawful(holder.schema) && old(Coupled(holder.schema, holder.View())) ==>
                ToolReached(holder.schema, old(holder.View()), holder.View(), kind, token, enabled)
    {
      change := None;
      ghost var before := holder.View();
      var status := holder.UpsertToolProvider(kind, token, enabled, io);
      if !status.Done? {
        return Failed(status), None;
      }
      ToolReachedIfCoupled(holder, before, kind, token, enabled, io);
      var entry := ToolByKind(holder.config.tools, kind);
      if entry.None? {
        return Applied(false), None;
      }
      var built := BuildAdapter(digests, Tool(entry.value), verdict);
      var newAdapter := if built.Adapter? then Some(built.adapter) else None;
      tools.SwapIn(entry.value.name, newAdapter);
      change := Some(if newAdapter.Some? then Install(entry.value.name, newAdapter.value)
                     else Uninstall(entry.value.name));
      r := Applied(entry.value.name in tools.dict.live);
    }

    method RemoveToolProvider(kind: string, io: Io) returns (r: Reply, ghost change: Option<Change>)
      requires Valid()
      modifies holder, tools, tools.dict
      ensures Valid()
      ensures var s := Step(holder.schema, old(holder.View()), Op.RemoveToolProvider(kind), io);
              var entry := ToolByKind(old(holder.config).tools, kind);
              && holder.View() == s.0
              && (if s.1.Done? then r == Applied(false) else r == Failed(s.1))
              && change == (if s.1.Done? && entry.Some? then Some(Uninstall(entry.value.name)) else None)
      ensures tools.View() == if change.Some? then Apply(old(tools.View()), change.value) else old(tools.View())
      ensures r.Applied? && Lawful(holder.schema) && old(Coupled(holder.schema, holder.View())) ==>
                ToolGone(holder.schema, old(holder.View()), holder.View(), kind)
    {
      change := None;
      ghost var before := holder.View();
      var entry := ToolByKind(holder.config.tools, kind);
      var status := holder.RemoveToolProvider(kind, io);
      if !status.Done? {
        return Failed(status), None;
      }
      if Lawful(holder.schema) && Coupled(holder.schema, before) {
        RemoveToolReaches(holder.schema, before, kind, io);
      }
      if entry.Some? {
        tools.SwapIn(entry.value.name, None);
        change := Some(Uninstall(entry.value.name));
      }
      r := Applied(false);
    }

    /** Capture the configuration and both dictionaries if the expected revision is the
        current one and the named provider's adapter was built from its current entry. */
    method Pin(expected: string, name: string, tool: bool) returns (router: Option<PinnedRouter>)
      requires Valid()
      ensures var live := if tool then tools.dict.live else llm.dict.live;
              var entry := EntryByName(holder.config, name, tool);
              router.Some? <==>
                && expected == digests.ofConfig(holder.config)
                && entry.Some? && entry.value.Enabled()
                && name in live && live[name].revision == digests.ofEntry(entry.value)
      ensures router.Some? ==>
                && fresh(router.value) && fresh(router.value.adapters) && fresh(router.value.toolAdapters)
                && router.value.config == holder.config
                && router.value.adapters.live == llm.dict.live && router.value.toolAdapters.live == tools.dict.live
    {
      var config := holder.config;
      if expected != digests.ofConfig(config) {
        return None;
      }
      var adapters := new AdapterDict(llm.dict.live);
      var toolAdapters := new AdapterDict(tools.dict.live);
      var entry := EntryByName(config, name, tool);
      var live := if tool then toolAdapters.live else adapters.live;
      if entry.None? || !entry.value.Enabled() || name !in live || live[name].revision != digests.ofEntry(entry.value) {
        return None;
      }
      var pinned := new PinnedRouter(config, adapters, toolAdapters);
      router := Some(pinned);
    }

    // ---- any schedule of administrative calls ---------------------------------

    method HandleKeyApplied(e: Event, ghost held: set<AdapterTables.Adapter>)
      returns (ghost held': set<AdapterTables.Adapter>)
      requires e.KeyApplied? && Valid() && Conserved(llm.View(), held)
      modifies holder, llm, llm.dict
      ensures Moved(holder.schema, old(Now()), e, Now())
      ensures holder.View() == AfterEvent(holder.schema, old(holder.View()), e)
      ensures Valid() && Conserved(llm.View(), held')
      ensures held <= held' && fresh(held' - held) && forall a :: a in held' - held ==> a.closes == 0
    {
      var r, change := ApplyProviderKey(e.name, e.token, e.masterKeySet, e.io, e.verdict);
      held' := NoteChange(old(llm.View()), held, change);
    }

    method HandleKeyRevoked(e: Event, ghost held: set<AdapterTables.Adapter>)
      requires e.KeyRevoked? && Valid() && Conserved(llm.View(), held)
      modifies holder, llm, llm.dict
      ensures Moved(holder.schema, old(Now()), e, Now())
      ensures holder.View() == AfterEvent(holder.schema, old(holder.View()), e)
      ensures Valid() && Conserved(llm.View(), held)
    {
      var r, change := RevokeProviderKey(e.name, e.io);
      ghost var held' := NoteChange(old(llm.View()), held, change);
    }

    method ApplyToolEvent(e: Event) returns (ghost change: Option<Change>)
      requires e.ToolApplied? && Valid()
      modifies holder, tools, tools.dict
      ensures Valid() && Moved(holder.schema, old(Now()), e, Now())
      ensures tools.View() == if change.Some? then Apply(old(tools.View()), change.value) else old(tools.View())
      ensures change.Some? && change.value.Install? ==>
                fresh(change.value.adapter) && change.value.adapter.closes == 0
    {
      var r;
      r, change := ApplyToolProvider(e.kind, e.toolToken, e.enabled, e.io, e.verdict);
    }

    method HandleToolApplied(e: Event, ghost held: set<AdapterTables.Adapter>)
      returns (ghost held': set<AdapterTables.Adapter>)
      requires e.ToolApplied? && Valid() && Conserved(tools.View(), held)
      modifies holder, tools, tools.dict
      ensures Moved(holder.schema, old(Now()), e, Now())
      ensures holder.View() == AfterEvent(holder.schema, old(holder.View()), e)
      ensures Valid() && Conserved(tools.View(), held')
      ensures held <= held' && fresh(held' - held) && forall a :: a in held' - held ==> a.closes == 0
    {
      ghost var change := ApplyToolEvent(e);
      held' := NoteChange(old(tools.View()), held, change);
    }

    method HandleToolRemoved(e: Event, ghost held: set<AdapterTables.Adapter>)
      requires e.ToolRemoved? && Valid() && Conserved(tools.View(), held)
      modifies holder, tools, tools.dict
      ensures Moved(holder.schema, old(Now()), e, Now())
      ensures holder.View() == AfterEvent(holder.schema, old(holder.View()), e)
      ensures Valid() && Conserved(tools.View(), held)
    {
      var r, change := RemoveToolProvider(e.kind, e.io);
      ghost var held' := NoteChange(old(tools.View()), held, change);
    }

    /** The events that touch the file and the configuration only: no adapter is rebuilt, so
        the live registry may lag the configuration.  An operator may edit the file by hand,
        which shows at the next reload. */
    method HandleConfig(e: Event)
      requires e.AliasWritten? || e.AliasDeleted? || e.PolicyUpdated? || e.Edited? || e.Reloaded?
      modifies holder
      ensures holder.View() == AfterEvent(holder.schema, old(holder.View()), e)
    {
      match e
      case AliasWritten(name, target, model, fallback, createOnly, updateOnly, io) =>
        var status := holder.UpsertAlias(name, target, model, fallback, createOnly, updateOnly, io);
      case AliasDeleted(name, io) =>
        var status := holder.DeleteAlias(name, io);
      case PolicyUpdated(allowed, default, privileged, warnOn, io) =>
        var status, policy := holder.UpdateTierPolicy(allowed, default, privileged, warnOn, io);
      case Edited(text) =>
        holder.file := text;
      case Reloaded =>
        var status := holder.OnSighup();
    }

    method Handle(e: Event, ghost llmHeld: set<AdapterTables.Adapter>, ghost toolHeld: set<AdapterTables.Adapter>)
      returns (ghost llmHeld': set<AdapterTables.Adapter>, ghost toolHeld': set<AdapterTables.Adapter>)
      requires Valid() && Conserved(llm.View(), llmHeld) && Conserved(tools.View(), toolHeld) && llmHeld !! toolHeld
      modifies holder, llm, llm.dict, tools, tools.dict
      ensures Moved(holder.schema, old(Now()), e, Now())
      ensures holder.View() == AfterEvent(holder.schema, old(holder.View()), e)
      ensures Valid() && Conserved(llm.View(), llmHeld') && Conserved(tools.View(), toolHeld') && llmHeld' !! toolHeld'
      ensures llmHeld <= llmHeld' && forall a :: a in llmHeld' && a !in llmHeld ==> fresh(a) && a.closes == 0
      ensures toolHeld <= toolHeld' && forall a :: a in toolHeld' && a !in toolHeld ==> fresh(a) && a.closes == 0
    {
      llmHeld', toolHeld' := llmHeld, toolHeld;
      match e
      case KeyApplied(_, _, _, _, _) => llmHeld' := HandleKeyApplied(e, llmHeld);
      case KeyRevoked(_, _) => HandleKeyRevoked(e, llmHeld);
      case ToolApplied(_, _, _, _, _) => toolHeld' := HandleToolApplied(e, toolHeld);
      case ToolRemoved(_, _) => HandleToolRemoved(e, toolHeld);
      case _ => HandleConfig(e);
    }

    /** The events one after the other. */
    method HandleAll(schedule: seq<Event>, ghost llmHeld: set<AdapterTables.Adapter>,
                     ghost toolHeld: set<AdapterTables.Adapter>)
      returns (ghost l: set<AdapterTables.Adapter>, ghost t: set<AdapterTables.Adapter>, ghost trace: seq<Moment>)
      requires Valid() && Conserved(llm.View(), llmHeld) && Conserved(tools.View(), toolHeld) && llmHeld !! toolHeld
      modifies holder, llm, llm.dict, tools, tools.dict
      ensures Traced(holder.schema, schedule, trace) && trace[0] == old(Now()) && trace[|schedule|] == Now()
      ensures holder.View() == AfterEvents(holder.schema, old(holder.View()), schedule)
      ensures Valid() && Conserved(llm.View(), l) && Conserved(tools.View(), t) && l !! t
      ensures llmHeld <= l && forall a :: a in l && a !in llmHeld ==> fresh(a) && a.closes == 0
      ensures toolHeld <= t && forall a :: a in t && a !in toolHeld ==> fresh(a) && a.closes == 0
      decreases |schedule|
    {
      l, t, trace := llmHeld, toolHeld, [Now()];
      if schedule != [] {
        ghost var l', t' := Handle(schedule[0], llmHeld, toolHeld);
        ghost var rest;
        l, t, rest := HandleAll(schedule[1..], l', t');
        TraceFrom(holder.schema, schedule, old(Now()), rest);
        trace := [old(Now())] + rest;
      }
    }

    method Shutdown(ghost llmHeld: set<AdapterTables.Adapter>, ghost toolHeld: set<AdapterTables.Adapter>)
      requires Conserved(llm.View(), llmHeld) && Conserved(tools.View(), toolHeld) && llmHeld !! toolHeld
      modifies llmHeld, toolHeld
      ensures forall a :: a in llmHeld + toolHeld ==> a.closes == old(a.closes) + 1
    {
      llm.CloseAll(llmHeld);
      tools.CloseAll(toolHeld);
    }

    method RunOpen(schedule: seq<Event>, ghost llmHeld: set<AdapterTables.Adapter>,
                   ghost toolHeld: set<AdapterTables.Adapter>)
      returns (ghost l: set<AdapterTables.Adapter>, ghost t: set<AdapterTables.Adapter>)
      requires Valid() && llmHeld !! toolHeld
      requires Conserved(llm.View(), llmHeld) && Conserved(tools.View(), toolHeld)
      requires forall a :: a in llmHeld || a in toolHeld ==> a.closes == 0
      modifies holder, llm, llm.dict, tools, tools.dict
      ensures holder.View() == AfterEvents(holder.schema, old(holder.View()), schedule)
      ensures Conserved(llm.View(), l) && Conserved(tools.View(), t) && l !! t
      ensures llmHeld <= l && forall a :: a in l ==> a.closes == 0 && (a in llmHeld || fresh(a))
      ensures toolHeld <= t && forall a :: a in t ==> a.closes == 0 && (a in toolHeld || fresh(a))
    {
      ghost var trace;
      l, t, trace := HandleAll(schedule, llmHeld, toolHeld);
    }

    /** No adapter is lost or duplicated under any schedule, and shutdown closes each one
        that was ever live exactly once. */
    method RunThenShutdown(schedule: seq<Event>, ghost llmHeld: set<AdapterTables.Adapter>,
                           ghost toolHeld: set<AdapterTables.Adapter>)
      returns (ghost everHeld: set<AdapterTables.Adapter>)
      requires Valid() && llmHeld !! toolHeld
      requires Conserved(llm.View(), llmHeld) && Conserved(tools.View(), toolHeld)
      requires forall a :: a in llmHeld + toolHeld ==> a.closes == 0
      modifies holder, llm, llm.dict, tools, tools.dict, llmHeld, toolHeld
      ensures holder.View() == AfterEvents(holder.schema, old(holder.View()), schedule)
      ensures llmHeld + toolHeld <= everHeld
      ensures everHeld == llm.dict.live.Values + tools.dict.live.Values + (set a | a in llm.retired) +
              (set a | a in tools.retired)
      ensures forall a :: a in everHeld ==> a.closes == 1
    {
      assert forall a :: a in llmHeld || a in toolHeld ==> a in llmHeld + toolHeld;
      ghost var l, t := RunOpen(schedule, llmHeld, toolHeld);
      Shutdown(l, t);
      everHeld := l + t;
    }

    /** A pinned router under any schedule: under every name it keeps dispatching to the
        adapter that was live when it was pinned, none of which is closed, and the adapter of
        the named provider was built from the entry of the pinned configuration. */
    method PinThenRun(expected: string, name: string, tool: bool, schedule: seq<Event>,
                      ghost llmHeld: set<AdapterTables.Adapter>, ghost toolHeld: set<AdapterTables.Adapter>)
      returns (pinned: Option<PinnedRouter>)
      requires Valid() && Injective(digests) && llmHeld !! toolHeld
      requires Conserved(llm.View(), llmHeld) && Conserved(tools.View(), toolHeld)
      modifies holder, llm, llm.dict, tools, tools.dict
      ensures holder.View() == AfterEvents(holder.schema, old(holder.View()), schedule)
      ensures pinned.Some? <==>
                old(var entry := EntryByName(holder.config, name, tool);
                    var live := if tool then tools.dict.live else llm.dict.live;
                    && expected == digests.ofConfig(holder.config) && entry.Some? && entry.value.Enabled()
                    && name in live && live[name].revision == digests.ofEntry(entry.value))
      ensures pinned.Some? ==>
                && digests.ofConfig(pinned.value.config) == expected && pinned.value.config == old(holder.config)
                && (forall n :: pinned.value.Dispatch(n, false) == At(old(llm.dict.live), n))
                && (forall n :: pinned.value.Dispatch(n, true) == At(old(tools.dict.live), n))
                && pinned.value.Dispatch(name, tool).Some?
                && EntryByName(pinned.value.config, name, tool) ==
                   Some(pinned.value.Dispatch(name, tool).value.builtFrom)
      ensures forall a :: a in llmHeld + toolHeld ==> a.closes == old(a.closes)
    {
      pinned := Pin(expected, name, tool);
      ghost var l, t, trace := HandleAll(schedule, llmHeld, toolHeld);
    }

    /** What a completion request that names the revision it expects must meet: it is the
        current one, the request names a provider and is no alias and does not stream, and the
        first entry of that name is enabled and what the live adapter was built from. */
    ghost predicate MeetsDirect(expected: string, requested: string, streams: bool)
      reads this, holder, llm, llm.dict
    {
      && !streams && expected == digests.ofConfig(holder.config) && Lookup(holder.config.aliases, requested).None?
      && exists slash: nat, i: nat :: SlashFirst(requested, slash) && ServedBy(requested[..slash], i)
    }

    /** Provider `i` is the first of that name, and the live adapter was built from it. */
    ghost predicate ServedBy(name: string, i: nat)
      reads this, holder, llm, llm.dict
    {
      && FirstNamed(holder.config.providers, name, i) && holder.config.providers[i].enabled
      && name in llm.dict.live && llm.dict.live[name].revision == digests.ofEntry(Llm(holder.config.providers[i]))
    }

    lemma PinnedMeetsDirect(expected: string, requested: string, slash: nat)
      requires SlashFirst(requested, slash)
      ensures var entry := EntryByName(holder.config, requested[..slash], false);
              MeetsDirect(expected, requested, false) <==>
                && expected == digests.ofConfig(holder.config) && Lookup(holder.config.aliases, requested).None?
                && entry.Some? && entry.value.Enabled() && requested[..slash] in llm.dict.live
                && llm.dict.live[requested[..slash]].revision == digests.ofEntry(entry.value)
    {
      var name := requested[..slash];
      ProviderByNameIsFirst(holder.config.providers, name);
      if MeetsDirect(expected, requested, false) {
        var other: nat, i: nat :| SlashFirst(requested, other) && ServedBy(requested[..other], i);
        assert other == slash;
      }
      if EntryByName(holder.config, name, false).Some? {
        var i: nat :| FirstNamed(holder.config.providers, name, i);
        assert ServedBy(name, i) <==>
               && holder.config.providers[i].enabled && name in llm.dict.live
               && llm.dict.live[name].revision == digests.ofEntry(Llm(holder.config.providers[i]));
      }
    }

    /** The request is accepted exactly when it meets that. */
    method PinDirect(expected: string, requested: string, streams: bool) returns (router: Option<PinnedRouter>)
      requires Valid() && Injective(digests)
      ensures router.Some? <==> MeetsDirect(expected, requested, streams)
      ensures router.Some? ==>
                && fresh(router.value) && fresh(router.value.adapters) && fresh(router.value.toolAdapters)
                && router.value.config == holder.config && digests.ofConfig(holder.config) == expected
                && router.value.adapters.live == llm.dict.live
                && !streams && DirectTo(router.value.config, router.value.adapters.live, requested)
    {
      FirstSlashFinds(requested);
      var slash := FirstSlash(requested);
      if streams || slash.None? {
        assert slash.None? ==> forall i: nat :: !SlashFirst(requested, i);
        return None;
      }
      router := Pin(expected, requested[..slash.value], false);
      PinnedMeetsDirect(expected, requested, slash.value);
      ProviderByNameFinds(holder.config.providers, requested[..slash.value]);
      if router.Some? && Lookup(router.value.config.aliases, requested).Some? {
        router := None;
      }
    }

    /** Such a request under any schedule still goes to that one adapter. */
    method DirectThenRun(expected: string, requested: string, streams: bool, schedule: seq<Event>,
                         ghost llmHeld: set<AdapterTables.Adapter>, ghost toolHeld: set<AdapterTables.Adapter>)
      returns (router: Option<PinnedRouter>)
      requires Valid() && Injective(digests) && llmHeld !! toolHeld
      requires Conserved(llm.View(), llmHeld) && Conserved(tools.View(), toolHeld)
      modifies holder, llm, llm.dict, tools, tools.dict
      ensures holder.View() == AfterEvents(holder.schema, old(holder.View()), schedule)
      ensures router.Some? <==> old(MeetsDirect(expected, requested, streams))
      ensures router.Some? ==>
                && digests.ofConfig(router.value.config) == expected && !streams
                && router.value.adapters.live == old(llm.dict.live)
                && DirectTo(router.value.config, router.value.adapters.live, requested)
    {
      router := PinDirect(expected, requested, streams);
      ghost var l, t, trace := HandleAll(schedule, llmHeld, toolHeld);
    }
  }

  /** The first slash of a requested id. */
  predicate SlashFirst(x: string, i: nat) {
    i < |x| && x[i] == '/' && forall j :: 0 <= j < i ==> x[j] != '/'
  }

  function At(live: map<string, AdapterTables.Adapter>, name: string): Option<AdapterTables.Adapter> {
    if name in live then Some(live[name]) else None
  }

  /** The request names a provider and a model.  It has that one candidate, whose adapter
      was built from exactly the candidate's provider entry, or no model and no candidate. */
  predicate DirectTo(c: Config, live: map<string, AdapterTables.Adapter>, requested: string) {
    FirstSlashFinds(requested);
    match FirstSlash(requested)
    case None => false
    case Some(i) =>
      var name, model := requested[..i], requested[i + 1..];
      && name in live && live[name].builtFrom.Llm? && live[name].builtFrom.provider.name == name
      && Resolve(c, requested) ==
         if model == "" then Unresolved else Resolved([MakeTarget(c, live[name].builtFrom.provider, model, Primary)])
  }

  lemma KeyReachedIfCoupled(holder: MutableConfigHolder, before: State, name: string, token: string, io: Io)
    requires (holder.View(), Done) == Step(holder.schema, before, UpsertProviderKey(name, token), io)
    ensures Lawful(holder.schema) && Coupled(holder.schema, before) ==>
              KeyReached(holder.schema, before, holder.View(), name, token)
  {
    if Lawful(holder.schema) && Coupled(holder.schema, before) {
      UpsertKeyReaches(holder.schema, before, name, token, io);
    }
  }

  lemma ToolReachedIfCoupled(holder: MutableConfigHolder, before: State, kind: string, token: Option<string>, on: bool,
                             io: Io)
    requires (holder.View(), Done) == Step(holder.schema, before, UpsertToolProvider(kind, token, on), io)
    ensures Lawful(holder.schema) && Coupled(holder.schema, before) ==>
              ToolReached(holder.schema, before, holder.View(), kind, token, on)
  {
    if Lawful(holder.schema) && Coupled(holder.schema, before) {
      UpsertToolReaches(holder.schema, before, kind, token, on, io);
    }
  }

  lemma NoteChange(t: Table, held: set<AdapterTables.Adapter>, change: Option<Change>)
    returns (held': set<AdapterTables.Adapter>)
    requires Conserved(t, held)
    requires change.Some? && change.value.Install? ==> change.value.adapter !in held
    ensures held' == held + if change.Some? && change.value.Install? then {change.value.adapter} else {}
    ensures Conserved(if change.Some? then Apply(t, change.value) else t, held')
  {
    held' := held + if change.Some? && change.value.Install? then {change.value.adapter} else {};
    if change.Some? {
      SwapConserves(t, held, change.value.name, if change.value.Install? then Some(change.value.adapter) else None);
    }
  }
}
