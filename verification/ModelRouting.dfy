/** From a requested model to the ordered candidates, and the walk over them. */
module ModelRouting {
  import opened Wrappers
  import opened AliasGraph
  import opened GatewayConfig

  datatype Role = Primary | Backup

  datatype ResolvedTarget = ResolvedTarget(provider: Provider, model: string, tier: InferenceTier, role: Role)

  /** `Unresolved` is the model-resolution error. */
  datatype Resolution = Resolved(targets: seq<ResolvedTarget>) | Unresolved

  // ---- tiers ----------------------------------------------------------------

  /** Four layers, the most specific first. */
  function DeriveTier(p: Provider, model: string, t: TierTable): InferenceTier {
    if p.name + "/" + model in t.overrides then t.overrides[p.name + "/" + model]
    else if p.name in t.overrides then t.overrides[p.name]
    else if p.kind in t.defaults then t.defaults[p.kind]
    else p.tier
  }

  function MakeTarget(c: Config, p: Provider, model: string, role: Role): ResolvedTarget {
    ResolvedTarget(p, model, DeriveTier(p, model, c.settings.tiers), role)
  }

  /** What an operator's setting does, whatever the table says besides: an override for the
      pair decides; one for the provider decides where the pair has none; a default for the kind
      where neither has one; and without any of them the provider's own tier stands. */
  lemma TierPrecedence(p: Provider, model: string, t: TierTable, tier: InferenceTier)
    ensures DeriveTier(p, model, t.(overrides := t.overrides[p.name + "/" + model := tier])) == tier
    ensures p.name + "/" + model !in t.overrides ==>
              DeriveTier(p, model, t.(overrides := t.overrides[p.name := tier])) == tier
    ensures p.name + "/" + model !in t.overrides && p.name !in t.overrides ==>
              && DeriveTier(p, model, t.(defaults := t.defaults[p.kind := tier])) == tier
              && DeriveTier(p, model, t.(defaults := t.defaults - {p.kind})) == p.tier
  {
    assert |p.name + "/" + model| > |p.name|;
  }

  /** Settings for other pairs, providers and kinds do nothing. */
  lemma OtherTiersDoNothing(p: Provider, model: string, t: TierTable, key: string, kind: string, tier: InferenceTier)
    requires key != p.name + "/" + model && key != p.name && kind != p.kind
    ensures DeriveTier(p, model, t.(overrides := t.overrides[key := tier])) == DeriveTier(p, model, t)
    ensures DeriveTier(p, model, t.(defaults := t.defaults[kind := tier])) == DeriveTier(p, model, t)
  {
  }

  // ---- resolution -----------------------------------------------------------

  function FirstSlash(x: string): Option<nat> {
    if x == "" then None
    else if x[0] == '/' then Some(0)
    else var i :- FirstSlash(x[1..]); Some(i + 1)
  }

  lemma {:induction false} FirstSlashFinds(x: string)
    ensures match FirstSlash(x)
            case Some(i) => i < |x| && x[i] == '/' && forall j :: 0 <= j < i ==> x[j] != '/'
            case None => '/' !in x
  {
    if x != "" {
      FirstSlashFinds(x[1..]);
      assert forall j :: 1 <= j < |x| ==> x[j] == x[1..][j - 1];
    }
  }

  lemma {:induction false} SlashAfterPrefix(prefix: string, rest: string)
    requires '/' !in prefix
    ensures FirstSlash(prefix + "/" + rest) == Some(|prefix|)
  {
    if prefix == "" {
      assert prefix + "/" + rest == "/" + rest;
    } else {
      SlashAfterPrefix(prefix[1..], rest);
      assert (prefix + "/" + rest)[1..] == prefix[1..] + "/" + rest;
    }
  }

  function ResolveRaw(c: Config, requested: string, slash: nat): Resolution
    requires slash < |requested|
  {
    var p := ProviderByName(c.providers, requested[..slash]);
    if p.None? || requested[slash + 1..] == "" then Unresolved
    else Resolved([MakeTarget(c, p.value, requested[slash + 1..], Primary)])
  }

  predicate SamePair(a: ResolvedTarget, b: ResolvedTarget) {
    a.provider.name == b.provider.name && a.model == b.model
  }

  predicate IsDuplicate(t: ResolvedTarget, existing: seq<ResolvedTarget>) {
    exists i :: 0 <= i < |existing| && SamePair(existing[i], t)
  }

  function NativeOf(a: Aliases, model: string): Option<string> {
    if IsNative(a, model) then Some(model)
    else var t :- Walk(a, model, MAX_ALIAS_DEPTH + 1); Some(t.model)
  }

  function AddBackups(c: Config, fallback: seq<Target>, candidates: seq<ResolvedTarget>): Resolution
    decreases |fallback|
  {
    if fallback == [] then Resolved(candidates)
    else
      var p := ProviderByName(c.providers, fallback[0].provider);
      var model := NativeOf(c.aliases, fallback[0].model);
      if p.None? then AddBackups(c, fallback[1..], candidates)
      else if model.None? then Unresolved
      else
        var t := MakeTarget(c, p.value, model.value, Backup);
        AddBackups(c, fallback[1..], if IsDuplicate(t, candidates) then candidates else candidates + [t])
  }

  /** A fallback whose provider is not configured is passed over. */
  lemma {:induction false} UnknownBackupSkipped(c: Config, before: seq<Target>, fb: Target, rest: seq<Target>,
                                                candidates: seq<ResolvedTarget>)
    requires !KnownProvider(c.providers, fb.provider)
    ensures AddBackups(c, before + [fb] + rest, candidates) == AddBackups(c, before + rest, candidates)
    decreases |before|
  {
    if before == [] {
      ProviderByNameFinds(c.providers, fb.provider);
      assert before + rest == rest && (before + [fb] + rest)[1..] == rest;
    } else {
      assert (before + [fb] + rest)[1..] == before[1..] + [fb] + rest && (before + rest)[1..] == before[1..] + rest;
      UnknownBackupSkipped(c, before[1..], fb, rest, candidates);
      var p, model := ProviderByName(c.providers, before[0].provider), NativeOf(c.aliases, before[0].model);
      if p.Some? && model.Some? {
        UnknownBackupSkipped(c, before[1..], fb, rest, candidates + [MakeTarget(c, p.value, model.value, Backup)]);
      }
    }
  }

  function ResolveAlias(c: Config, requested: string, alias: Alias): Resolution {
    match Walk(c.aliases, requested, MAX_ALIAS_DEPTH + 1)
    case None => Unresolved
    case Some(t) =>
      match ProviderByName(c.providers, t.provider)
      case None => Unresolved
      case Some(p) => AddBackups(c, alias.fallback, [MakeTarget(c, p, t.model, Primary)])
  }

  function FirstLister(ps: seq<Provider>, model: string): Option<Provider> {
    if ps == [] then None
    else if model in ps[0].models then Some(ps[0])
    else FirstLister(ps[1..], model)
  }

  function Resolve(c: Config, requested: string): Resolution {
    FirstSlashFinds(requested);
    match Lookup(c.aliases, requested)
    case Some(alias) => ResolveAlias(c, requested, alias)
    case None =>
      if FirstSlash(requested).Some? then ResolveRaw(c, requested, FirstSlash(requested).value)
      else
        match FirstLister(c.providers, requested)
        case Some(p) => Resolved([MakeTarget(c, p, requested, Primary)])
        case None => Unresolved
  }

  method ResolveAliasChain(c: Config, requested: string) returns (r: Resolution)
    ensures r == Resolve(c, requested)
  {
    var alias := Lookup(c.aliases, requested);
    var slash := FirstSlash(requested);
    FirstSlashFinds(requested);
    if alias.None? && slash.Some? {
      return ResolveRaw(c, requested, slash.value);
    }
    if alias.Some? {
      var end := WalkAliasChain(c.aliases, requested);
      if end.None? {
        return Unresolved;
      }
      var primary := ProviderByName(c.providers, end.value.provider);
      if primary.None? {
        return Unresolved;
      }
      var candidates := [MakeTarget(c, primary.value, end.value.model, Primary)];
      var fallback := alias.value.fallback;
      assert fallback[0..] == fallback;
      for i := 0 to |fallback|
        invariant Resolve(c, requested) == AddBackups(c, fallback[i..], candidates)
      {
        var p := ProviderByName(c.providers, fallback[i].provider);
        assert fallback[i..][1..] == fallback[i + 1..];
        if p.Some? {
          var model := Some(fallback[i].model);
          if !IsNative(c.aliases, fallback[i].model) {
            var inner := WalkAliasChain(c.aliases, fallback[i].model);
            model := if inner.Some? then Some(inner.value.model) else None;
          }
          if model.None? {
            return Unresolved;
          }
          var t := MakeTarget(c, p.value, model.value, Backup);
          if !IsDuplicate(t, candidates) {
            candidates := candidates + [t];
          }
        }
      }
      return Resolved(candidates);
    }
    assert c.providers[0..] == c.providers;
    for i := 0 to |c.providers|
      invariant FirstLister(c.providers, requested) == FirstLister(c.providers[i..], requested)
    {
      if requested in c.providers[i].models {
        return Resolved([MakeTarget(c, c.providers[i], requested, Primary)]);
      }
      assert c.providers[i..][1..] == c.providers[i + 1..];
    }
    r := Unresolved;
  }

  // ---- what a resolution looks like ------------------------------------------

  /** A bare model name goes to the first provider that lists it, and to it alone. */
  lemma BareNameGoesToFirstLister(c: Config, requested: string, j: nat)
    requires IsNative(c.aliases, requested) && '/' !in requested
    requires j < |c.providers| && requested in c.providers[j].models
    requires forall i :: 0 <= i < j ==> requested !in c.providers[i].models
    ensures Resolve(c, requested).Resolved? && |Resolve(c, requested).targets| == 1
    ensures var t := Resolve(c, requested).targets[0];
            && t.provider == c.providers[j] && t.model == requested && t.role == Primary
            && t.tier == DeriveTier(c.providers[j], requested, c.settings.tiers)
  {
    FirstSlashFinds(requested);
    FirstListerIs(c.providers, requested, j);
  }

  lemma {:induction false} FirstListerIs(ps: seq<Provider>, model: string, j: nat)
    requires j < |ps| && model in ps[j].models && forall i :: 0 <= i < j ==> model !in ps[i].models
    ensures FirstLister(ps, model) == Some(ps[j])
  {
    if j > 0 {
      assert model !in ps[0].models;
      FirstListerIs(ps[1..], model, j - 1);
    }
  }

  predicate Apart(a: ResolvedTarget, b: ResolvedTarget) {
    a.provider.name != b.provider.name || a.model != b.model
  }

  predicate NoPairTwice(ts: seq<ResolvedTarget>) {
    forall i, j :: 0 <= i < j < |ts| ==> Apart(ts[i], ts[j])
  }

  /** `t` is what the fallback entry `fb` stands for: the entry's own provider, with
      the native model its chain ends in. */
  predicate BackupOf(c: Config, fb: Target, t: ResolvedTarget) {
    && ProviderByName(c.providers, fb.provider) == Some(t.provider)
    && NativeOf(c.aliases, fb.model) == Some(t.model)
    && t.tier == DeriveTier(t.provider, t.model, c.settings.tiers) && t.role == Backup
  }

  predicate Increasing(idx: seq<nat>, bound: nat) {
    && (forall i :: 0 <= i < |idx| ==> idx[i] < bound)
    && (forall i, j :: 0 <= i < j < |idx| ==> idx[i] < idx[j])
  }

  /** `backups` is the subsequence of `fallback` picked out by `idx`. */
  predicate PicksOut(c: Config, fallback: seq<Target>, backups: seq<ResolvedTarget>, idx: seq<nat>) {
    && |idx| == |backups| && Increasing(idx, |fallback|)
    && forall k :: 0 <= k < |idx| ==> BackupOf(c, fallback[idx[k]], backups[k])
  }

  /** Every fallback entry's pair is among the candidates. */
  predicate Covers(c: Config, fallback: seq<Target>, ts: seq<ResolvedTarget>) {
    forall j :: 0 <= j < |fallback| ==>
      exists k :: 0 <= k < |ts| && Stands(c, fallback[j], ts[k])
  }

  predicate Stands(c: Config, fb: Target, t: ResolvedTarget) {
    && ProviderByName(c.providers, fb.provider).Some?
    && t.provider.name == fb.provider && NativeOf(c.aliases, fb.model) == Some(t.model)
  }

  predicate Resolvable(c: Config, fallback: seq<Target>) {
    forall j :: 0 <= j < |fallback| ==>
      ProviderByName(c.providers, fallback[j].provider).Some? && NativeOf(c.aliases, fallback[j].model).Some?
  }

  function WithBackup(c: Config, fb: Target, cs: seq<ResolvedTarget>): seq<ResolvedTarget>
    requires ProviderByName(c.providers, fb.provider).Some? && NativeOf(c.aliases, fb.model).Some?
  {
    var t := MakeTarget(c, ProviderByName(c.providers, fb.provider).value, NativeOf(c.aliases, fb.model).value, Backup);
    if IsDuplicate(t, cs) then cs else cs + [t]
  }

  lemma {:induction false} BackupsExtend(c: Config, fallback: seq<Target>, cs: seq<ResolvedTarget>)
    requires Resolvable(c, fallback) && NoPairTwice(cs)
    ensures AddBackups(c, fallback, cs).Resolved?
    ensures cs <= AddBackups(c, fallback, cs).targets && NoPairTwice(AddBackups(c, fallback, cs).targets)
    decreases |fallback|
  {
    if fallback != [] {
      BackupsExtend(c, fallback[1..], WithBackup(c, fallback[0], cs));
    }
  }

  lemma {:induction false} BackupsCover(c: Config, fallback: seq<Target>, cs: seq<ResolvedTarget>)
    requires Resolvable(c, fallback) && NoPairTwice(cs)
    ensures AddBackups(c, fallback, cs).Resolved? && Covers(c, fallback, AddBackups(c, fallback, cs).targets)
    decreases |fallback|
  {
    BackupsExtend(c, fallback, cs);
    if fallback != [] {
      var fb, cs' := fallback[0], WithBackup(c, fallback[0], cs);
      BackupsCover(c, fallback[1..], cs');
      BackupsExtend(c, fallback[1..], cs');
      var ts := AddBackups(c, fallback, cs).targets;
      var k := WithBackupStands(c, fb, cs);
      assert ts[k] == cs'[k];
      forall j | 0 <= j < |fallback| ensures exists k :: 0 <= k < |ts| && Stands(c, fallback[j], ts[k]) {
        if j > 0 {
          assert fallback[1..][j - 1] == fallback[j];
        }
      }
    }
  }

  lemma WithBackupStands(c: Config, fb: Target, cs: seq<ResolvedTarget>) returns (k: nat)
    requires ProviderByName(c.providers, fb.provider).Some? && NativeOf(c.aliases, fb.model).Some?
    ensures k < |WithBackup(c, fb, cs)| && Stands(c, fb, WithBackup(c, fb, cs)[k])
  {
    ProviderByNameFinds(c.providers, fb.provider);
    var t := MakeTarget(c, ProviderByName(c.providers, fb.provider).value, NativeOf(c.aliases, fb.model).value, Backup);
    if IsDuplicate(t, cs) {
      k :| 0 <= k < |cs| && SamePair(cs[k], t);
    } else {
      k := |cs|;
    }
  }

  lemma {:induction false} BackupsShape(c: Config, fallback: seq<Target>, cs: seq<ResolvedTarget>)
    returns (idx: seq<nat>)
    requires Resolvable(c, fallback) && NoPairTwice(cs)
    ensures AddBackups(c, fallback, cs).Resolved? && cs <= AddBackups(c, fallback, cs).targets
    ensures PicksOut(c, fallback, AddBackups(c, fallback, cs).targets[|cs|..], idx)
    decreases |fallback|
  {
    BackupsExtend(c, fallback, cs);
    if fallback == [] {
      idx := [];
    } else {
      var cs' := WithBackup(c, fallback[0], cs);
      var tail := BackupsShape(c, fallback[1..], cs');
      var ts := AddBackups(c, fallback, cs).targets;
      var shifted := seq(|tail|, k requires 0 <= k < |tail| => tail[k] + 1);
      PickOneMore(c, fallback, ts[|cs'|..], tail);
      if cs' == cs {
        idx := shifted;
      } else {
        idx := [0] + shifted;
        assert ts[|cs|] == cs'[|cs|];
        assert ts[|cs|..] == [cs'[|cs|]] + ts[|cs'|..];
        PickFirst(c, fallback, cs'[|cs|], ts[|cs'|..], shifted);
      }
    }
  }

  lemma PickFirst(c: Config, fallback: seq<Target>, t: ResolvedTarget, backups: seq<ResolvedTarget>, idx: seq<nat>)
    requires fallback != [] && BackupOf(c, fallback[0], t) && PicksOut(c, fallback, backups, idx)
    requires forall k :: 0 <= k < |idx| ==> idx[k] > 0
    ensures PicksOut(c, fallback, [t] + backups, [0] + idx)
  {
  }

  lemma PickOneMore(c: Config, fallback: seq<Target>, backups: seq<ResolvedTarget>, idx: seq<nat>)
    requires fallback != [] && PicksOut(c, fallback[1..], backups, idx)
    ensures PicksOut(c, fallback, backups, seq(|idx|, k requires 0 <= k < |idx| => idx[k] + 1))
  {
  }

  /** Requests that name nothing: the condition a caller could check beforehand. */
  predicate NamesNothing(c: Config, requested: string) {
    FirstSlashFinds(requested);
    && IsNative(c.aliases, requested)
    && (match FirstSlash(requested)
        case Some(i) => !KnownProvider(c.providers, requested[..i]) || requested[i + 1..] == ""
        case None => forall j :: 0 <= j < |c.providers| ==> requested !in c.providers[j].models)
  }

  lemma ResolvableFallbacks(c: Config, alias: NamedAlias)
    requires Checked(c) && alias in c.aliases
    ensures Resolvable(c, alias.alias.fallback)
  {
    var i :| 0 <= i < |c.aliases| && c.aliases[i] == alias;
    var fallback := alias.alias.fallback;
    forall j | 0 <= j < |fallback|
      ensures ProviderByName(c.providers, fallback[j].provider).Some? && NativeOf(c.aliases, fallback[j].model).Some?
    {
      assert TargetsKnown(c.providers, c.aliases[i].alias) && fallback[j] in fallback;
      ProviderByNameFinds(c.providers, fallback[j].provider);
      if !IsNative(c.aliases, fallback[j].model) {
        ValidatedWalkSucceeds(c.aliases, fallback[j].model);
      }
    }
  }

  lemma {:induction false} ListerFinds(ps: seq<Provider>, model: string)
    ensures FirstLister(ps, model).None? <==> forall j :: 0 <= j < |ps| ==> model !in ps[j].models
    ensures FirstLister(ps, model).Some? ==>
              FirstLister(ps, model).value in ps && model in FirstLister(ps, model).value.models
  {
    if ps != [] {
      ListerFinds(ps[1..], model);
      if FirstLister(ps, model).None? {
        forall j | 0 <= j < |ps| ensures model !in ps[j].models {
          if j > 0 {
            assert ps[j] == ps[1..][j - 1];
          }
        }
      }
    }
  }

  /** On a validated configuration an alias always resolves, to the native model at the
      end of its chain followed by its own fallbacks, each pair once, in order. */
  lemma AliasCandidates(c: Config, requested: string)
    requires Checked(c) && Lookup(c.aliases, requested).Some?
    ensures Resolve(c, requested).Resolved?
    ensures var ts, fallback := Resolve(c, requested).targets, Lookup(c.aliases, requested).value.fallback;
            && |ts| >= 1 && ts[0].role == Primary && NoPairTwice(ts)
            && (exists k ::
                  && 1 <= k <= MAX_ALIAS_DEPTH
                  && EndsAt(c.aliases, requested, k, Target(ts[0].provider.name, ts[0].model)))
            && (exists idx :: PicksOut(c, fallback, ts[1..], idx))
            && Covers(c, fallback, ts)
  {
    var i := LookupIndex(c.aliases, requested);
    var alias := c.aliases[i];
    ValidatedWalkSucceeds(c.aliases, requested);
    var t := Walk(c.aliases, requested, MAX_ALIAS_DEPTH + 1).value;
    var k :| 1 <= k <= MAX_ALIAS_DEPTH && EndsAt(c.aliases, requested, k, t);
    var last := LookupIndex(c.aliases, Hops(c.aliases, requested, k - 1));
    assert TargetsKnown(c.providers, c.aliases[last].alias);
    ProviderByNameFinds(c.providers, t.provider);
    var p := ProviderByName(c.providers, t.provider).value;
    ResolvableFallbacks(c, alias);
    var start := [MakeTarget(c, p, t.model, Primary)];
    BackupsExtend(c, alias.alias.fallback, start);
    BackupsCover(c, alias.alias.fallback, start);
    var idx := BackupsShape(c, alias.alias.fallback, start);
    assert Target(p.name, t.model) == t;
  }

  /** Resolution fails exactly for the requests that name nothing; otherwise the list has
      one primary, first, and every target is a configured provider at its derived tier. */
  lemma ResolutionShape(c: Config, requested: string)
    requires Checked(c)
    ensures Resolve(c, requested).Unresolved? <==> NamesNothing(c, requested)
    ensures Resolve(c, requested).Resolved? ==>
              var ts := Resolve(c, requested).targets;
              && |ts| >= 1 && NoPairTwice(ts)
              && (forall k :: 0 <= k < |ts| ==> (ts[k].role == Primary <==> k == 0))
              && (forall k :: 0 <= k < |ts| ==> ts[k].provider in c.providers)
              && (forall k :: 0 <= k < |ts| ==> ts[k].tier == DeriveTier(ts[k].provider, ts[k].model, c.settings.tiers))
  {
    FirstSlashFinds(requested);
    if Lookup(c.aliases, requested).Some? {
      AliasShape(c, requested);
    } else if FirstSlash(requested).Some? {
      ProviderByNameFinds(c.providers, requested[..FirstSlash(requested).value]);
    } else {
      ListerFinds(c.providers, requested);
    }
  }

  lemma AliasShape(c: Config, requested: string)
    requires Checked(c) && Lookup(c.aliases, requested).Some?
    ensures Resolve(c, requested).Resolved?
    ensures var ts := Resolve(c, requested).targets;
            && |ts| >= 1 && NoPairTwice(ts)
            && (forall k :: 0 <= k < |ts| ==> (ts[k].role == Primary <==> k == 0))
            && (forall k :: 0 <= k < |ts| ==> ts[k].provider in c.providers)
            && (forall k :: 0 <= k < |ts| ==> ts[k].tier == DeriveTier(ts[k].provider, ts[k].model, c.settings.tiers))
            && (forall k :: 0 <= k < |ts| ==> IsNative(c.aliases, ts[k].model))
  {
    AliasCandidates(c, requested);
    var ts, fallback := Resolve(c, requested).targets, Lookup(c.aliases, requested).value.fallback;
    var idx :| PicksOut(c, fallback, ts[1..], idx);
    PrimaryShape(c, requested);
    forall k | 1 <= k < |ts|
      ensures ts[k].role == Backup && ts[k].provider in c.providers && IsNative(c.aliases, ts[k].model)
      ensures ts[k].tier == DeriveTier(ts[k].provider, ts[k].model, c.settings.tiers)
    {
      assert BackupOf(c, fallback[idx[k - 1]], ts[1..][k - 1]);
      ProviderByNameFinds(c.providers, fallback[idx[k - 1]].provider);
      WalkEndsNative(c.aliases, fallback[idx[k - 1]].model);
    }
  }

  lemma WalkEndsNative(a: Aliases, model: string)
    ensures NativeOf(a, model).Some? ==> IsNative(a, NativeOf(a, model).value)
  {
    WalkExact(a, model, MAX_ALIAS_DEPTH + 1);
  }

  lemma PrimaryShape(c: Config, requested: string)
    requires Checked(c) && Lookup(c.aliases, requested).Some? && Resolve(c, requested).Resolved?
    ensures var ts := Resolve(c, requested).targets;
            && |ts| >= 1 && ts[0].provider in c.providers && IsNative(c.aliases, ts[0].model)
            && ts[0].tier == DeriveTier(ts[0].provider, ts[0].model, c.settings.tiers)
  {
    ValidatedWalkSucceeds(c.aliases, requested);
    var i := LookupIndex(c.aliases, requested);
    ResolvableFallbacks(c, c.aliases[i]);
    var t := Walk(c.aliases, requested, MAX_ALIAS_DEPTH + 1).value;
    WalkExact(c.aliases, requested, MAX_ALIAS_DEPTH + 1);
    ProviderByNameFinds(c.providers, t.provider);
    var idx := BackupsShape(c, c.aliases[i].alias.fallback,
                            [MakeTarget(c, ProviderByName(c.providers, t.provider).value, t.model, Primary)]);
  }

  /** A fallback that names an alias takes the model at the end of that alias's chain but
      keeps the provider written in the entry, although of the providers along a chain only
      the last one is said to mean anything.  So the candidate it becomes is the target of
      the chain exactly when the entry names the provider at the chain's end. */
  lemma BackupIsChainTargetExactly(c: Config, requested: string, j: nat)
    requires Checked(c) && Lookup(c.aliases, requested).Some?
    requires j < |Lookup(c.aliases, requested).value.fallback|
    requires !IsNative(c.aliases, Lookup(c.aliases, requested).value.fallback[j].model)
    ensures Resolve(c, requested).Resolved?
    ensures var fb := Lookup(c.aliases, requested).value.fallback[j];
            var ts, end := Resolve(c, requested).targets, Walk(c.aliases, fb.model, MAX_ALIAS_DEPTH + 1);
            && end.Some?
            && (exists k :: 0 <= k < |ts| && Stands(c, fb, ts[k]))
            && (forall k :: 0 <= k < |ts| && Stands(c, fb, ts[k]) ==>
                  (Target(ts[k].provider.name, ts[k].model) == end.value <==> fb.provider == end.value.provider))
  {
    AliasCandidates(c, requested);
    var ts, fallback := Resolve(c, requested).targets, Lookup(c.aliases, requested).value.fallback;
    ValidatedWalkSucceeds(c.aliases, fallback[j].model);
    assert exists k :: 0 <= k < |ts| && Stands(c, fallback[j], ts[k]);
  }

  /** An input where it is not: the chain of "inner" ends at "far", but the fallback
      through it is sent to "near". */
  lemma BackupLeavesChainTarget(c: Config, near: Provider, far: Provider)
    requires c.providers == [near, far] && c.tools == [] && near.name == "near" && far.name == "far"
    requires c.aliases == [NamedAlias("outer", Alias(Target("far", "first"), [Target("near", "inner")])),
                           NamedAlias("inner", Alias(Target("far", "big"), []))]
    ensures Checked(c)
    ensures Walk(c.aliases, "inner", MAX_ALIAS_DEPTH + 1) == Some(Target("far", "big"))
    ensures Resolve(c, "outer") == Resolved([MakeTarget(c, far, "first", Primary), MakeTarget(c, near, "big", Backup)])
  {
    var a := c.aliases;
    NestedBackupChecked(c, near, far);
    assert a[1..] == [NamedAlias("inner", Alias(Target("far", "big"), []))];
    assert a[1..][1..] == [] && c.providers[1..] == [far];
    assert Lookup(a, "outer") == Some(a[0].alias) && Lookup(a, "inner") == Some(a[1].alias);
    assert Lookup(a[1..][1..], "big").None? && Lookup(a[1..][1..], "first").None?;
    assert IsNative(a, "big") && IsNative(a, "first");
    assert Walk(a, "inner", MAX_ALIAS_DEPTH + 1) == Some(Target("far", "big"));
    assert Walk(a, "outer", MAX_ALIAS_DEPTH + 1) == Some(Target("far", "first"));
    assert ProviderByName(c.providers, "near") == Some(near) && ProviderByName(c.providers, "far") == Some(far);
    assert NativeOf(a, "inner") == Some("big");
    var first, second := MakeTarget(c, far, "first", Primary), MakeTarget(c, near, "big", Backup);
    assert !IsDuplicate(second, [first]);
    assert AddBackups(c, [], [first, second]) == Resolved([first, second]);
    assert [first] + [second] == [first, second];
    assert AddBackups(c, [Target("near", "inner")], [first]) == Resolved([first, second]);
    assert Resolve(c, "outer") == ResolveAlias(c, "outer", a[0].alias);
  }

  lemma NestedBackupChecked(c: Config, near: Provider, far: Provider)
    requires c.providers == [near, far] && c.tools == [] && near.name == "near" && far.name == "far"
    requires c.aliases == [NamedAlias("outer", Alias(Target("far", "first"), [Target("near", "inner")])),
                           NamedAlias("inner", Alias(Target("far", "big"), []))]
    ensures Checked(c)
  {
    var a := c.aliases;
    assert a[1..] == [NamedAlias("inner", Alias(Target("far", "big"), []))] && a[1..][1..] == [];
    assert Lookup(a[1..][1..], "big").None? && Lookup(a[1..][1..], "first").None?;
    assert IsNative(a, "big") && IsNative(a, "first");
    assert Lookup(a, "outer") == Some(a[0].alias) && Lookup(a, "inner") == Some(a[1].alias);
    assert Hops(a, "inner", 1) == "big" && Hops(a, "outer", 1) == "first";
    assert ReachesNative(a, a[0].name, MAX_ALIAS_DEPTH) && ReachesNative(a, a[1].name, MAX_ALIAS_DEPTH);
    assert KnownProvider(c.providers, "near") && KnownProvider(c.providers, "far") by {
      assert c.providers[0].name == "near" && c.providers[1].name == "far";
    }
  }
}
