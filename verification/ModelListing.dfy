/** The ids and tiers published by `GET /v1/models`, against what the router does with them. */
module ModelListing {
  import opened Wrappers
  import opened AliasGraph
  import opened GatewayConfig
  import opened ModelRouting

  datatype Row = Row(id: string, tier: Option<InferenceTier>)

  /** The badge of an alias looks one level down and not along the chain. */
  function Badge(c: Config, alias: Alias): Option<InferenceTier> {
    if alias.primary.model == "" then None
    else var p :- ProviderByName(c.providers, alias.primary.provider);
         Some(DeriveTier(p, alias.primary.model, c.settings.tiers))
  }

  /** The payload lists the aliases in order; the lookup chain is written out in it. */
  method ToModelsPayload(c: Config) returns (rows: seq<Row>)
    ensures |rows| == |c.aliases|
    ensures forall i :: 0 <= i < |rows| ==> rows[i] == Row(c.aliases[i].name, Badge(c, c.aliases[i].alias))
  {
    rows := [];
    for n := 0 to |c.aliases|
      invariant |rows| == n
      invariant forall i :: 0 <= i < n ==> rows[i] == Row(c.aliases[i].name, Badge(c, c.aliases[i].alias))
    {
      var target := c.aliases[n].alias.primary;
      var tier: Option<InferenceTier> := None;
      var p := ProviderByName(c.providers, target.provider);
      if p.Some? && target.model != "" {
        var pair := p.value.name + "/" + target.model;
        var tiers := c.settings.tiers;
        if pair in tiers.overrides {
          tier := Some(tiers.overrides[pair]);
        } else if p.value.name in tiers.overrides {
          tier := Some(tiers.overrides[p.value.name]);
        } else if p.value.kind in tiers.defaults {
          tier := Some(tiers.defaults[p.value.kind]);
        } else {
          tier := Some(p.value.tier);
        }
      }
      rows := rows + [Row(c.aliases[n].name, tier)];
    }
  }

  /** For an alias whose target is a native model, the badge is the tier of the
      candidate the router would try first. */
  lemma OneLevelBadgeAgrees(c: Config, name: string)
    requires Checked(c) && Lookup(c.aliases, name).Some?
    requires IsNative(c.aliases, Lookup(c.aliases, name).value.primary.model)
    requires Lookup(c.aliases, name).value.primary.model != ""
    ensures Resolve(c, name).Resolved? && |Resolve(c, name).targets| >= 1
    ensures Badge(c, Lookup(c.aliases, name).value) == Some(Resolve(c, name).targets[0].tier)
  {
    AliasCandidates(c, name);
    var i := LookupIndex(c.aliases, name);
    ResolvableFallbacks(c, c.aliases[i]);
    var t := Lookup(c.aliases, name).value.primary;
    assert TargetsKnown(c.providers, c.aliases[i].alias);
    ProviderByNameFinds(c.providers, t.provider);
    BackupsExtend(c, c.aliases[i].alias.fallback,
                  [MakeTarget(c, ProviderByName(c.providers, t.provider).value, t.model, Primary)]);
  }

  /** The badge is the tier of the candidate tried first exactly when the lookup gives one
      tier for the first hop of the chain and for its end. */
  lemma BadgeAgreesExactly(c: Config, name: string)
    requires Checked(c) && Lookup(c.aliases, name).Some?
    ensures Resolve(c, name).Resolved? && |Resolve(c, name).targets| >= 1
    ensures Badge(c, Lookup(c.aliases, name).value) == Some(Resolve(c, name).targets[0].tier) <==>
            Lookup(c.aliases, name).value.primary.model != "" &&
            TargetTier(c, Lookup(c.aliases, name).value.primary) == TargetTier(c, ChainEnd(c.aliases, name))
  {
    FirstCandidateIsChainEnd(c, name);
    var i := LookupIndex(c.aliases, name);
    assert TargetsKnown(c.providers, c.aliases[i].alias);
    ProviderByNameFinds(c.providers, c.aliases[i].alias.primary.provider);
  }

  /** The target at the end of an alias chain; the walker's result where it has one. */
  function ChainEnd(a: Aliases, name: string): Target {
    match Walk(a, name, MAX_ALIAS_DEPTH + 1)
    case Some(t) => t
    case None => Target("", name)
  }

  function TargetTier(c: Config, t: Target): Option<InferenceTier> {
    var p :- ProviderByName(c.providers, t.provider);
    Some(DeriveTier(p, t.model, c.settings.tiers))
  }

  lemma FirstCandidateIsChainEnd(c: Config, name: string)
    requires Checked(c) && Lookup(c.aliases, name).Some?
    ensures Resolve(c, name).Resolved? && |Resolve(c, name).targets| >= 1
    ensures Some(Resolve(c, name).targets[0].tier) == TargetTier(c, ChainEnd(c.aliases, name))
  {
    AliasCandidates(c, name);
    ValidatedWalkSucceeds(c.aliases, name);
    var i := LookupIndex(c.aliases, name);
    var t := ChainEnd(c.aliases, name);
    ResolvableFallbacks(c, c.aliases[i]);
    EndProviderKnown(c, name);
    BackupsExtend(c, c.aliases[i].alias.fallback,
                  [MakeTarget(c, ProviderByName(c.providers, t.provider).value, t.model, Primary)]);
  }

  lemma EndProviderKnown(c: Config, name: string)
    requires Checked(c) && Walk(c.aliases, name, MAX_ALIAS_DEPTH + 1).Some?
    ensures ProviderByName(c.providers, ChainEnd(c.aliases, name).provider).Some?
  {
    WalkExact(c.aliases, name, MAX_ALIAS_DEPTH + 1);
    var t := Walk(c.aliases, name, MAX_ALIAS_DEPTH + 1).value;
    var k :| 1 <= k <= MAX_ALIAS_DEPTH + 1 && EndsAt(c.aliases, name, k, t);
    var i := LookupIndex(c.aliases, Hops(c.aliases, name, k - 1));
    assert TargetsKnown(c.providers, c.aliases[i].alias);
    ProviderByNameFinds(c.providers, c.aliases[i].alias.primary.provider);
  }

  /** Over two levels it need not be: an alias shown at tier 1 that the router sends,
      as its first choice, to a tier-5 provider. */
  lemma TwoLevelBadgeDiffers(c: Config, near: Provider, far: Provider)
    requires c.providers == [near, far] && c.tools == [] && near.name == "near" && far.name == "far"
    requires c.aliases == [NamedAlias("outer", Alias(Target("near", "inner"), [])),
                           NamedAlias("inner", Alias(Target("far", "big"), []))]
    requires near.tier == 1 && far.tier == 5 && c.settings.tiers == TierTable(map[], map[])
    ensures Checked(c)
    ensures Badge(c, c.aliases[0].alias) == Some(1)
    ensures Resolve(c, "outer") == Resolved([ResolvedTarget(far, "big", 5, Primary)])
  {
    var a := c.aliases;
    assert a[1..] == [NamedAlias("inner", Alias(Target("far", "big"), []))];
    assert c.providers[1..] == [far];
    assert Lookup(a, "outer") == Some(a[0].alias) && Lookup(a, "inner") == Some(a[1].alias);
    assert a[1..][1..] == [] && Lookup(a[1..][1..], "big").None?;
    assert IsNative(a, "big");
    assert Hops(a, "inner", 1) == "big" && Hops(a, "outer", 2) == Hops(a, "inner", 1);
    assert ReachesNative(a, a[0].name, MAX_ALIAS_DEPTH) && ReachesNative(a, a[1].name, MAX_ALIAS_DEPTH);
    assert KnownProvider(c.providers, "near") && KnownProvider(c.providers, "far") by {
      assert c.providers[0].name == "near" && c.providers[1].name == "far";
    }
    assert ProviderByName(c.providers, "far") == Some(far);
    assert Walk(a, "outer", MAX_ALIAS_DEPTH + 1) == Walk(a, "inner", MAX_ALIAS_DEPTH) == Some(Target("far", "big"));
    assert Resolve(c, "outer") == ResolveAlias(c, "outer", a[0].alias);
    assert DeriveTier(far, "big", c.settings.tiers) == 5;
  }

  // ---- ids of provider-native rows ------------------------------------------

  function NativeId(p: Provider, model: string): string {
    p.name + "/" + model
  }

  /** Asking for a published id gives back that provider, model and tier, and nothing
      else, exactly when the provider's name has no slash and is the first of its name
      and the model is not empty (the id itself not being an alias). */
  lemma NativeIdRoundTrip(c: Config, p: Provider, model: string)
    requires IsNative(c.aliases, NativeId(p, model))
    ensures Resolve(c, NativeId(p, model)) == Resolved([MakeTarget(c, p, model, Primary)]) <==>
            '/' !in p.name && ProviderByName(c.providers, p.name) == Some(p) && model != ""
  {
    var id := NativeId(p, model);
    FirstSlashFinds(id);
    if '/' !in p.name {
      SlashAfterPrefix(p.name, model);
      assert id[..|p.name|] == p.name && id[|p.name| + 1..] == model;
    } else {
      var k :| 0 <= k < |p.name| && p.name[k] == '/';
      assert id[|p.name|] == '/';
      assert id[k] == '/';
      var i := FirstSlash(id).value;
      assert i <= k;
      ProviderByNameFinds(c.providers, id[..i]);
      assert |id[..i]| < |p.name|;
    }
  }
}
