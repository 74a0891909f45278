/** Edits of `gateway.yaml`: read, change one block, replace the file, reload, and
    put the old bytes back when the reload is refused. */
module ConfigWriter {
  import opened Wrappers
  import opened YamlTree
  import opened GatewayConfig

  /** Status codes are those of the HTTP hint on the raised error. */
  datatype Status = Done | Http(code: int) | ReloadRefused | ReplaceFailed | RestoreFailed | Crash

  /** What the file system does to one mutation: the rename may fail and leave the
      file alone; the plain write of the rollback may fail and leave other bytes. */
  datatype Io = Io(replaceFails: bool, restoreLeaves: Option<string>)

  /** The two copies of the configuration. */
  datatype State = State(file: Option<string>, config: Config)

  predicate Coupled(s: Schema, st: State) {
    st.file.Some? && Load(s, st.file.value) == Ok(st.config)
  }

  // ---- mutations ------------------------------------------------------------

  datatype Op =
    | UpsertAlias(name: string, provider: string, model: string, fallback: Option<seq<Tree>>,
                  createOnly: bool, updateOnly: bool)
    | DeleteAlias(name: string)
    | UpdateTierPolicy(allowed: Option<seq<int>>, defaultMinimum: Option<int>,
                       privilegedMinimum: Option<int>, warnOn: Option<seq<int>>)
    | UpsertProviderKey(providerName: string, token: string)
    | DeleteProviderKey(providerName: string)
    | UpsertToolProvider(kind: string, toolToken: Option<string>, enabled: bool)
    | RemoveToolProvider(kind: string)
    | Sighup

  datatype Edit = Write(fields: Fields) | Reject(code: int)

  /** Unicode whitespace, as `str.strip` removes it. */
  predicate IsSpace(c: char) {
    var n := c as int;
    9 <= n <= 13 || 28 <= n <= 32 || n == 0x85 || n == 0xA0 || n == 0x1680 || 0x2000 <= n <= 0x200A ||
    n == 0x2028 || n == 0x2029 || n == 0x202F || n == 0x205F || n == 0x3000
  }

  /** Of the ASCII characters: tab to carriage return, the four separators, and the space. */
  lemma SpaceInAscii(c: char)
    requires c as int < 128
    ensures IsSpace(c) <==> '\t' <= c <= '\r' || 28 <= c as int <= 31 || c == ' '
  {
  }

  predicate Blank(x: string) {
    forall i :: 0 <= i < |x| ==> IsSpace(x[i])
  }

  predicate TextField(t: Tree, key: string) {
    t.Mapping? && Find(t.fields, key).Some? && Find(t.fields, key).value.Text?
  }

  function TextOf(t: Tree, key: string): string
    requires TextField(t, key)
  {
    Find(t.fields, key).value.text
  }

  predicate EntryOk(ps: seq<Provider>, t: Tree) {
    && TextField(t, "provider") && !Blank(TextOf(t, "provider")) && KnownProvider(ps, TextOf(t, "provider"))
    && TextField(t, "model") && !Blank(TextOf(t, "model"))
  }

  /** The pre-check of an alias payload against the providers in memory. */
  predicate PayloadOk(ps: seq<Provider>, provider: string, model: string, fallback: Option<seq<Tree>>) {
    && !Blank(provider) && KnownProvider(ps, provider) && !Blank(model)
    && (fallback.Some? ==> forall i :: 0 <= i < |fallback.value| ==> EntryOk(ps, fallback.value[i]))
  }

  function TargetBlock(provider: string, model: string): Tree {
    Mapping([Field("provider", Text(provider)), Field("model", Text(model))])
  }

  function EntryBlock(t: Tree): Tree {
    if TextField(t, "provider") && TextField(t, "model") then TargetBlock(TextOf(t, "provider"), TextOf(t, "model"))
    else Null
  }

  function AliasBlock(provider: string, model: string, fallback: Option<seq<Tree>>): Tree {
    var entries :=
      if fallback.Some?
      then seq(|fallback.value|, i requires 0 <= i < |fallback.value| => EntryBlock(fallback.value[i]))
      else [];
    Mapping([Field("primary", TargetBlock(provider, model)), Field("fallback", Items(entries))])
  }

  function UpsertAliasEdit(fs: Fields, name: string, block: Tree, createOnly: bool, updateOnly: bool): Edit {
    var aliases := match Find(fs, "model_aliases")
      case None => Some([])
      case Some(Null) => Some([])
      case Some(Mapping(a)) => Some(a)
      case _ => None;
    if aliases.None? then Reject(500)
    else if createOnly && Find(aliases.value, name).Some? then Reject(409)
    else if updateOnly && Find(aliases.value, name).None? then Reject(404)
    else Write(Put(fs, "model_aliases", Mapping(Put(aliases.value, name, block))))
  }

  function DeleteAliasEdit(fs: Fields, name: string): Edit {
    match Find(fs, "model_aliases")
    case Some(Mapping(a)) =>
      if Find(a, name).Some? then Write(Put(fs, "model_aliases", Mapping(Drop(a, name)))) else Reject(404)
    case _ => Reject(404)
  }

  function Numbers(ns: seq<int>): Tree {
    Items(seq(|ns|, i requires 0 <= i < |ns| => Number(ns[i])))
  }

  function PutIf(fs: Fields, key: string, value: Option<Tree>): Fields {
    if value.Some? then Put(fs, key, value.value) else fs
  }

  function SomeNumbers(ns: Option<seq<int>>): Option<Tree> {
    if ns.Some? then Some(Numbers(ns.value)) else None
  }

  function SomeNumber(n: Option<int>): Option<Tree> {
    if n.Some? then Some(Number(n.value)) else None
  }

  /** The tier policy with the given fields replaced; the others stay. */
  function MergedPolicy(policy: Fields, allowed: Option<seq<int>>, defaultMinimum: Option<int>,
                        privilegedMinimum: Option<int>, warnOn: Option<seq<int>>): Fields {
    var p1 := PutIf(policy, "allowed_tiers_global", SomeNumbers(allowed));
    var p2 := PutIf(p1, "default_minimum_tier", SomeNumber(defaultMinimum));
    var p3 := PutIf(p2, "privileged_minimum_tier", SomeNumber(privilegedMinimum));
    PutIf(p3, "warn_on_tiers", SomeNumbers(warnOn))
  }

  function TierPolicyEdit(fs: Fields, allowed: Option<seq<int>>, defaultMinimum: Option<int>,
                          privilegedMinimum: Option<int>, warnOn: Option<seq<int>>): Edit {
    var policy := match Find(fs, "tier_policy") case Some(Mapping(p)) => p case _ => [];
    Write(Put(fs, "tier_policy", Mapping(MergedPolicy(policy, allowed, defaultMinimum, privilegedMinimum, warnOn))))
  }

  /** The position of the first mapping in the list whose `key` is the string `value`. */
  function EntryIndex(ts: seq<Tree>, key: string, value: string): Option<nat> {
    if ts == [] then None
    else if EntryMatches(ts[0], key, value) then Some(0)
    else var i :- EntryIndex(ts[1..], key, value); Some(i + 1)
  }

  predicate EntryMatches(t: Tree, key: string, value: string) {
    t.Mapping? && Find(t.fields, key) == Some(Text(value))
  }

  lemma {:induction false} EntryIndexFinds(ts: seq<Tree>, key: string, value: string)
    ensures match EntryIndex(ts, key, value)
            case Some(i) =>
              i < |ts| && EntryMatches(ts[i], key, value) && forall j :: 0 <= j < i ==> !EntryMatches(ts[j], key, value)
            case None =>
              forall j :: 0 <= j < |ts| ==> !EntryMatches(ts[j], key, value)
  {
    if ts != [] {
      EntryIndexFinds(ts[1..], key, value);
    }
  }

  function SetKey(entry: Fields, token: string): Fields {
    Drop(Put(entry, KEY_ENCRYPTED, Text(token)), KEY_ENV)
  }

  function ProviderKeyEdit(fs: Fields, providerName: string, change: Fields -> Fields, mustHaveKey: bool): Edit {
    match Find(fs, "providers")
    case Some(Items(ts)) =>
      var found := EntryIndex(ts, "name", providerName);
      EntryIndexFinds(ts, "name", providerName);
      if found.None? then Reject(404)
      else
        var entry := ts[found.value].fields;
        if mustHaveKey && Find(entry, KEY_ENCRYPTED).None? then Reject(409)
        else Write(Put(fs, "providers", Items(ts[found.value := Mapping(change(entry))])))
    case _ => Reject(500)
  }

  function EnableTool(entry: Fields, token: Option<string>, enabled: bool): Fields {
    var e := Put(entry, "enabled", Flag(enabled));
    if token.Some? then SetKey(e, token.value) else e
  }

  function UpsertToolEdit(s: Schema, fs: Fields, kind: string, token: Option<string>, enabled: bool): Edit {
    var section := match Find(fs, "tool_providers")
      case None => Some([])
      case Some(Null) => Some([])
      case Some(Items(ts)) => Some(ts)
      case _ => None;
    if s.toolDefault(kind).None? then Reject(404)
    else if section.None? then Reject(500)
    else
      var ts := section.value;
      var found := EntryIndex(ts, "type", kind);
      EntryIndexFinds(ts, "type", kind);
      var ts' := if found.Some?
        then ts[found.value := Mapping(EnableTool(ts[found.value].fields, token, enabled))]
        else ts + [Mapping(EnableTool(s.toolDefault(kind).value, token, enabled))];
      Write(Put(fs, "tool_providers", Items(ts')))
  }

  /** Python truth of an optional field. */
  predicate Truthy(t: Option<Tree>) {
    match t
    case None => false
    case Some(Null) => false
    case Some(Flag(b)) => b
    case Some(Number(n)) => n != 0
    case Some(Text(x)) => x != ""
    case Some(Items(ts)) => ts != []
    case Some(Mapping(fs)) => fs != []
  }

  function RemoveToolEdit(fs: Fields, kind: string): Edit {
    match Find(fs, "tool_providers")
    case None => Reject(404)
    case Some(Null) => Reject(404)
    case Some(Items(ts)) =>
      var found := EntryIndex(ts, "type", kind);
      EntryIndexFinds(ts, "type", kind);
      if found.None? then Reject(404)
      else if Truthy(Find(ts[found.value].fields, KEY_ENV)) then Reject(409)
      else Write(Put(fs, "tool_providers", Items(RemoveAt(ts, found.value))))
    case _ => Reject(500)
  }

  // ---- one step of the two-copy state machine --------------------------------

  datatype Read = Mapped(fields: Fields) | Unreadable(status: Status)

  function ReadMapping(s: Schema, file: Option<string>): Read {
    if file.None? then Unreadable(Http(500))
    else
      match s.parse(file.value)
      case NotYaml => Unreadable(Crash)
      case Document(Null) => Mapped([])
      case Document(Mapping(fs)) => Mapped(fs)
      case Document(_) => Unreadable(Http(500))
  }

  /** Replace the file, reload it, and restore the old bytes if the reload is refused. */
  function CommitStep(s: Schema, st: State, fs: Fields, io: Io): (State, Status) {
    if io.replaceFails then (st, ReplaceFailed)
    else
      var text := s.dump(Mapping(fs));
      match Load(s, text)
      case Ok(c) => (State(Some(text), c), Done)
      case Crashed => (State(Some(text), st.config), Crash)
      case Refused =>
        if io.restoreLeaves.Some? then (State(io.restoreLeaves, st.config), RestoreFailed)
        else (st, ReloadRefused)
  }

  /** A check on the arguments alone, made before the file is read. */
  function PreCheck(s: Schema, op: Op, c: Config): Option<int> {
    match op
    case UpsertAlias(_, p, m, fb, _, _) => if PayloadOk(c.providers, p, m, fb) then None else Some(422)
    case UpsertProviderKey(_, token) => if token == "" then Some(422) else None
    case UpsertToolProvider(kind, _, _) => if s.toolDefault(kind).None? then Some(404) else None
    case _ => None
  }

  function EditOf(s: Schema, op: Op, fs: Fields): Edit {
    match op
    case UpsertAlias(n, p, m, fb, co, uo) => UpsertAliasEdit(fs, n, AliasBlock(p, m, fb), co, uo)
    case DeleteAlias(n) => DeleteAliasEdit(fs, n)
    case UpdateTierPolicy(a, d, p, w) => TierPolicyEdit(fs, a, d, p, w)
    case UpsertProviderKey(n, token) => ProviderKeyEdit(fs, n, e => SetKey(e, token), false)
    case DeleteProviderKey(n) => ProviderKeyEdit(fs, n, e => Drop(e, KEY_ENCRYPTED), true)
    case UpsertToolProvider(k, token, on) => UpsertToolEdit(s, fs, k, token, on)
    case RemoveToolProvider(k) => RemoveToolEdit(fs, k)
    case Sighup => Write(fs)
  }

  function SighupStep(s: Schema, st: State): (State, Status) {
    if st.file.None? then (st, ReloadRefused)
    else
      match Load(s, st.file.value)
      case Ok(c) => (st.(config := c), Done)
      case Refused => (st, ReloadRefused)
      case Crashed => (st, Crash)
  }

  /** The tier-policy mutator turns a refused reload into its own 422. */
  function Report(op: Op, status: Status): Status {
    if op.UpdateTierPolicy? && status.ReloadRefused? then Http(422) else status
  }

  function Step(s: Schema, st: State, op: Op, io: Io): (State, Status) {
    if op.Sighup? then SighupStep(s, st)
    else if PreCheck(s, op, st.config).Some? then (st, Http(PreCheck(s, op, st.config).value))
    else
      match ReadMapping(s, st.file)
      case Unreadable(status) => (st, status)
      case Mapped(fs) =>
        match EditOf(s, op, fs)
        case Reject(code) => (st, Http(code))
        case Write(fs') => var r := CommitStep(s, st, fs', io); (r.0, Report(op, r.1))
  }

  datatype Event = Event(op: Op, io: Io)

  function Run(s: Schema, st: State, events: seq<Event>): State
    decreases |events|
  {
    if events == [] then st else Run(s, Step(s, st, events[0].op, events[0].io).0, events[1..])
  }
}
