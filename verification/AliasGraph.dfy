/** Model aliases, the load-time check that their chains end, and the walk that
    trusts it.  The check and the walk are different loops with different bounds. */
module AliasGraph {
  import opened Wrappers

  const MAX_ALIAS_DEPTH: nat := 8

  datatype Target = Target(provider: string, model: string)
  datatype Alias = Alias(primary: Target, fallback: seq<Target>)
  datatype NamedAlias = NamedAlias(name: string, alias: Alias)

  /** `model_aliases` in declaration order. */
  type Aliases = seq<NamedAlias>

  function Lookup(a: Aliases, name: string): Option<Alias> {
    if a == [] then None
    else if a[0].name == name then Some(a[0].alias)
    else Lookup(a[1..], name)
  }

  predicate IsNative(a: Aliases, name: string) {
    Lookup(a, name).None?
  }

  /** The name one alias hop further; a native model stays where it is. */
  function Hop(a: Aliases, name: string): string {
    match Lookup(a, name)
    case None => name
    case Some(alias) => alias.primary.model
  }

  function Hops(a: Aliases, name: string, k: nat): string
    decreases k
  {
    if k == 0 then name else Hops(a, Hop(a, name), k - 1)
  }

  predicate ReachesNative(a: Aliases, name: string, bound: nat) {
    exists k :: 0 <= k <= bound && IsNative(a, Hops(a, name, k))
  }

  /** What the load-time check is for. */
  predicate ChainsEnd(a: Aliases) {
    forall i :: 0 <= i < |a| ==> ReachesNative(a, a[i].name, MAX_ALIAS_DEPTH)
  }

  // ---- facts about chains ---------------------------------------------------

  lemma {:induction false} HopsSnoc(a: Aliases, name: string, k: nat)
    ensures Hops(a, name, k + 1) == Hop(a, Hops(a, name, k))
    decreases k
  {
    if k > 0 {
      HopsSnoc(a, Hop(a, name), k - 1);
    }
  }

  /** Past a native model the chain no longer moves. */
  lemma {:induction false} NativeIsFixed(a: Aliases, name: string, k: nat)
    requires IsNative(a, name)
    ensures Hops(a, name, k) == name
  {
    if k > 0 {
      NativeIsFixed(a, name, k - 1);
    }
  }

  lemma {:induction false} LookupHit(a: Aliases, i: nat)
    requires i < |a|
    ensures Lookup(a, a[i].name).Some?
  {
    if i > 0 {
      LookupHit(a[1..], i - 1);
    }
  }

  lemma {:induction false} LookupIndex(a: Aliases, name: string) returns (i: nat)
    requires Lookup(a, name).Some?
    ensures i < |a| && a[i] == NamedAlias(name, Lookup(a, name).value)
  {
    if a[0].name == name {
      i := 0;
    } else {
      var j := LookupIndex(a[1..], name);
      i := j + 1;
    }
  }

  /** A chain that comes back to a name it has passed never reaches a native model. */
  lemma {:induction false} RevisitNeverEnds(a: Aliases, name: string, j: nat, i: nat, k: nat)
    requires j < i && Hops(a, name, j) == Hops(a, name, i)
    requires forall m :: 0 <= m < i ==> !IsNative(a, Hops(a, name, m))
    ensures !IsNative(a, Hops(a, name, k))
  {
    if k >= i {
      var back := k - (i - j);
      RevisitNeverEnds(a, name, j, i, back);
      SameTail(a, name, j, i, k - i);
    }
  }

  lemma {:induction false} SameTail(a: Aliases, name: string, j: nat, i: nat, d: nat)
    requires Hops(a, name, j) == Hops(a, name, i)
    ensures Hops(a, name, j + d) == Hops(a, name, i + d)
  {
    if d > 0 {
      SameTail(a, name, j, i, d - 1);
      HopsSnoc(a, name, j + d - 1);
      HopsSnoc(a, name, i + d - 1);
    }
  }

  // ---- the load-time validator ----------------------------------------------

  datatype ChainError = Cycle(chain: seq<string>) | TooDeep(chain: seq<string>)

  /** `chain` is what the error message shows: a walk through aliases. */
  predicate IsAliasPath(a: Aliases, chain: seq<string>) {
    forall m :: 0 <= m < |chain| ==> !IsNative(a, chain[m]) && chain[m] == Hops(a, chain[0], m)
  }

  predicate Explains(a: Aliases, e: ChainError) {
    match e
    case Cycle(chain) =>
      |chain| >= 2 && IsAliasPath(a, chain) && exists m :: 0 <= m < |chain| - 1 && chain[m] == chain[|chain| - 1]
    case TooDeep(chain) =>
      |chain| == MAX_ALIAS_DEPTH + 1 && IsAliasPath(a, chain)
  }

  /** Walks every alias separately; the first chain that loops or is too long is reported. */
  method CheckNoCycles(a: Aliases) returns (error: Option<ChainError>)
    ensures error.None? <==> ChainsEnd(a)
    ensures error.Some? ==> Explains(a, error.value)
  {
    for n := 0 to |a|
      invariant forall m :: 0 <= m < n ==> ReachesNative(a, a[m].name, MAX_ALIAS_DEPTH)
    {
      var start := a[n].name;
      var seen: seq<string> := [];
      var current := start;
      var i := 0;
      var ended := false;
      while i < MAX_ALIAS_DEPTH + 1 && !ended
        invariant 0 <= i <= MAX_ALIAS_DEPTH + 1
        invariant !ended ==> |seen| == i && current == Hops(a, start, i)
        invariant !ended ==> forall m :: 0 <= m < i ==> seen[m] == Hops(a, start, m) && !IsNative(a, seen[m])
        invariant ended ==> ReachesNative(a, start, MAX_ALIAS_DEPTH)
        decreases MAX_ALIAS_DEPTH + 1 - i, if ended then 0 else 1
      {
        if current in seen {
          var j :| 0 <= j < |seen| && seen[j] == current;
          forall k | 0 <= k <= MAX_ALIAS_DEPTH ensures !IsNative(a, Hops(a, start, k)) {
            RevisitNeverEnds(a, start, j, i, k);
          }
          var chain := seen + [current];
          assert chain[j] == chain[|chain| - 1];
          return Some(Cycle(chain));
        }
        seen := seen + [current];
        match Lookup(a, current)
        case None =>
          ended := true;
        case Some(alias) =>
          HopsSnoc(a, start, i);
          current := alias.primary.model;
          i := i + 1;
      }
      if !ended {
        assert !ReachesNative(a, start, MAX_ALIAS_DEPTH);
        return Some(TooDeep(seen));
      }
    }
    error := None;
  }

  // ---- the request-time walk ------------------------------------------------

  /** The primary target at the end of the chain, looking through at most `fuel` aliases. */
  function Walk(a: Aliases, name: string, fuel: nat): Option<Target>
    decreases fuel
  {
    if fuel == 0 then None
    else
      match Lookup(a, name)
      case None => None
      case Some(alias) =>
        if IsNative(a, alias.primary.model) then Some(alias.primary)
        else Walk(a, alias.primary.model, fuel - 1)
  }

  method WalkAliasChain(a: Aliases, start: string) returns (target: Option<Target>)
    ensures target == Walk(a, start, MAX_ALIAS_DEPTH + 1)
  {
    var current := start;
    for i := 0 to MAX_ALIAS_DEPTH + 1
      invariant Walk(a, start, MAX_ALIAS_DEPTH + 1) == Walk(a, current, MAX_ALIAS_DEPTH + 1 - i)
    {
      match Lookup(a, current)
      case None =>
        return None;
      case Some(alias) =>
        var next := alias.primary.model;
        if IsNative(a, next) {
          return Some(alias.primary);
        }
        current := next;
    }
    target := None;
  }

  /** The walk ends within `fuel` aliases exactly when the chain reaches a native
      model within `fuel` hops, and then it returns the last alias's own target. */
  lemma {:induction false} WalkExact(a: Aliases, name: string, fuel: nat)
    ensures Walk(a, name, fuel).Some? <==> !IsNative(a, name) && ReachesNative(a, name, fuel)
    ensures Walk(a, name, fuel).Some? ==>
              exists k :: 1 <= k <= fuel && EndsAt(a, name, k, Walk(a, name, fuel).value)
    decreases fuel
  {
    if IsNative(a, name) || fuel == 0 {
    } else {
      var next := Hop(a, name);
      WalkExact(a, next, fuel - 1);
      if IsNative(a, next) {
        assert IsNative(a, Hops(a, name, 1));
        assert EndsAt(a, name, 1, Walk(a, name, fuel).value);
      } else {
        if Walk(a, next, fuel - 1).Some? {
          var k :| 1 <= k <= fuel - 1 && EndsAt(a, next, k, Walk(a, next, fuel - 1).value);
          assert IsNative(a, Hops(a, name, k + 1));
          assert EndsAt(a, name, k + 1, Walk(a, name, fuel).value);
        }
        if ReachesNative(a, name, fuel) {
          var k :| 0 <= k <= fuel && IsNative(a, Hops(a, name, k));
          assert IsNative(a, Hops(a, next, k - 1));
        }
      }
    }
  }

  /** `t` is the primary target of the alias at hop `k - 1`, and its model is native. */
  predicate EndsAt(a: Aliases, name: string, k: nat, t: Target)
    requires k >= 1
  {
    && Lookup(a, Hops(a, name, k - 1)).Some?
    && t == Lookup(a, Hops(a, name, k - 1)).value.primary
    && t.model == Hops(a, name, k)
    && IsNative(a, t.model)
  }

  /** On aliases that passed the load-time check the walk never raises: it finds the
      one native model the chain reaches, within the validator's smaller bound. */
  lemma ValidatedWalkSucceeds(a: Aliases, name: string)
    requires ChainsEnd(a) && !IsNative(a, name)
    ensures Walk(a, name, MAX_ALIAS_DEPTH + 1).Some?
    ensures var t := Walk(a, name, MAX_ALIAS_DEPTH + 1).value;
            exists k :: 1 <= k <= MAX_ALIAS_DEPTH && EndsAt(a, name, k, t)
    ensures forall k :: k >= 0 && IsNative(a, Hops(a, name, k)) ==>
              Hops(a, name, k) == Walk(a, name, MAX_ALIAS_DEPTH + 1).value.model
  {
    var i := LookupIndex(a, name);
    var k :| 0 <= k <= MAX_ALIAS_DEPTH && IsNative(a, Hops(a, a[i].name, k));
    WalkExact(a, name, MAX_ALIAS_DEPTH + 1);
    var t := Walk(a, name, MAX_ALIAS_DEPTH + 1).value;
    var e :| 1 <= e <= MAX_ALIAS_DEPTH + 1 && EndsAt(a, name, e, t);
    forall m | m >= 0 && IsNative(a, Hops(a, name, m)) ensures Hops(a, name, m) == t.model && e <= m {
      FirstNative(a, name, e, m);
    }
  }

  /** A chain meets only one native model, and every hop before the end is an alias. */
  lemma FirstNative(a: Aliases, name: string, e: nat, m: nat)
    requires e >= 1 && !IsNative(a, Hops(a, name, e - 1)) && IsNative(a, Hops(a, name, e))
    requires IsNative(a, Hops(a, name, m))
    ensures e <= m && Hops(a, name, m) == Hops(a, name, e)
  {
    if m < e {
      Stays(a, name, m, e - 1 - m);
    } else {
      Stays(a, name, e, m - e);
    }
  }

  lemma {:induction false} Stays(a: Aliases, name: string, m: nat, d: nat)
    requires IsNative(a, Hops(a, name, m))
    ensures Hops(a, name, m + d) == Hops(a, name, m)
  {
    if d > 0 {
      Stays(a, name, m, d - 1);
      HopsSnoc(a, name, m + d - 1);
    }
  }

  /** The walk alone is one hop more generous than the check: a chain of exactly nine
      aliases is refused at load time although it could be walked. */
  lemma WalkerIsOneHopLaxer(a: Aliases, name: string)
    requires forall k :: 0 <= k <= 8 ==> !IsNative(a, Hops(a, name, k))
    requires IsNative(a, Hops(a, name, 9))
    ensures Walk(a, name, MAX_ALIAS_DEPTH + 1).Some? && !ChainsEnd(a)
  {
    assert !IsNative(a, Hops(a, name, 0));
    WalkExact(a, name, MAX_ALIAS_DEPTH + 1);
    var i := LookupIndex(a, name);
    assert !ReachesNative(a, a[i].name, MAX_ALIAS_DEPTH);
  }

  // ---- deleting an alias ----------------------------------------------------

  function RemoveAlias(a: Aliases, name: string): Aliases {
    if a == [] then []
    else (if a[0].name == name then [] else [a[0]]) + RemoveAlias(a[1..], name)
  }

  lemma {:induction false} LookupAfterRemove(a: Aliases, gone: string, name: string)
    ensures Lookup(RemoveAlias(a, gone), name) == if name == gone then None else Lookup(a, name)
  {
    if a != [] {
      LookupAfterRemove(a[1..], gone, name);
      if a[0].name == gone {
        assert RemoveAlias(a, gone) == RemoveAlias(a[1..], gone);
      } else {
        assert RemoveAlias(a, gone)[1..] == RemoveAlias(a[1..], gone);
      }
    }
  }

  lemma {:induction false} RemoveShortens(a: Aliases, gone: string, name: string, k: nat)
    requires IsNative(a, Hops(a, name, k))
    ensures ReachesNative(RemoveAlias(a, gone), name, k)
    decreases k
  {
    var b := RemoveAlias(a, gone);
    LookupAfterRemove(a, gone, name);
    if k == 0 || IsNative(b, name) {
      assert IsNative(b, Hops(b, name, 0));
    } else {
      RemoveShortens(a, gone, Hop(a, name), k - 1);
      var j :| 0 <= j <= k - 1 && IsNative(b, Hops(b, Hop(a, name), j));
      assert Hops(b, name, j + 1) == Hops(b, Hop(a, name), j);
    }
  }

  lemma {:induction false} RemoveIsSubset(a: Aliases, gone: string, i: nat)
    requires i < |RemoveAlias(a, gone)|
    ensures RemoveAlias(a, gone)[i] in a
  {
    if a[0].name == gone {
      assert RemoveAlias(a, gone) == RemoveAlias(a[1..], gone);
      RemoveIsSubset(a[1..], gone, i);
    } else if i > 0 {
      RemoveIsSubset(a[1..], gone, i - 1);
    }
  }

  /** Deleting an alias only shortens chains, so it can never make the check fail. */
  lemma RemoveKeepsChainsEnding(a: Aliases, gone: string)
    requires ChainsEnd(a)
    ensures ChainsEnd(RemoveAlias(a, gone))
  {
    var b := RemoveAlias(a, gone);
    forall i | 0 <= i < |b| ensures ReachesNative(b, b[i].name, MAX_ALIAS_DEPTH) {
      RemoveIsSubset(a, gone, i);
      var j :| 0 <= j < |a| && a[j] == b[i];
      var k :| 0 <= k <= MAX_ALIAS_DEPTH && IsNative(a, Hops(a, a[j].name, k));
      RemoveShortens(a, gone, a[j].name, k);
    }
  }
}
