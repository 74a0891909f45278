/** Live and retired adapters: a displaced adapter is moved, never copied or dropped. */
module AdapterTables {
  import opened Wrappers
  import opened GatewayConfig

  /** A configuration entry an adapter can be built from. */
  datatype Entry = Llm(provider: Provider) | Tool(tool: ToolProvider) {
    function Name(): string {
      if Llm? then provider.name else tool.name
    }

    predicate Enabled() {
      if Llm? then provider.enabled else tool.enabled
    }
  }

  class Adapter {
    const builtFrom: Entry
    const revision: string
    var closes: nat

    constructor (builtFrom: Entry, revision: string)
      ensures this.builtFrom == builtFrom && this.revision == revision && closes == 0
    {
      this.builtFrom := builtFrom;
      this.revision := revision;
      closes := 0;
    }

    /** The close may fail inside; the shutdown loop ignores that. */
    method Aclose()
      modifies this
      ensures closes == old(closes) + 1
    {
      closes := closes + 1;
    }
  }

  // ---- the two collections as values -----------------------------------------

  datatype Table = Table(live: map<string, Adapter>, retired: seq<Adapter>)

  function Swap(t: Table, name: string, newAdapter: Option<Adapter>): Table {
    var rest := t.live - {name};
    Table(if newAdapter.Some? then rest[name := newAdapter.value] else rest,
          if name in t.live && (newAdapter.None? || t.live[name] != newAdapter.value)
          then t.retired + [t.live[name]] else t.retired)
  }

  /** Every adapter ever installed is in exactly one place, once. */
  ghost predicate Conserved(t: Table, installed: set<Adapter>) {
    && (forall m, n :: m in t.live && n in t.live && t.live[m] == t.live[n] ==> m == n)
    && (forall i, j :: 0 <= i < j < |t.retired| ==> t.retired[i] != t.retired[j])
    && (forall n, i :: n in t.live && 0 <= i < |t.retired| ==> t.live[n] != t.retired[i])
    && installed == t.live.Values + set a | a in t.retired
  }

  datatype Change = Install(name: string, adapter: Adapter) | Uninstall(name: string)

  function Apply(t: Table, c: Change): Table {
    match c
    case Install(name, a) => Swap(t, name, Some(a))
    case Uninstall(name) => Swap(t, name, None)
  }

  function Run(t: Table, cs: seq<Change>): Table
    decreases |cs|
  {
    if cs == [] then t else Run(Apply(t, cs[0]), cs[1..])
  }

  function Installed(cs: seq<Change>): set<Adapter> {
    set i | 0 <= i < |cs| && cs[i].Install? :: cs[i].adapter
  }

  /** Adapters are built anew for every installation. */
  ghost predicate EachNew(installed: set<Adapter>, cs: seq<Change>) {
    && (forall i :: 0 <= i < |cs| && cs[i].Install? ==> cs[i].adapter !in installed)
    && (forall i, j :: 0 <= i < j < |cs| && cs[i].Install? && cs[j].Install? ==> cs[i].adapter != cs[j].adapter)
  }

  lemma SwapConserves(t: Table, installed: set<Adapter>, name: string, a: Option<Adapter>)
    requires Conserved(t, installed) && (a.Some? ==> a.value !in installed)
    ensures Conserved(Swap(t, name, a), installed + if a.Some? then {a.value} else {})
  {
    var t' := Swap(t, name, a);
    forall n | n in t.live ensures t.live[n] in installed {
      assert t.live[n] in t.live.Values;
    }
    forall x | x in installed ensures x in t'.live.Values || x in t'.retired {
      SwapLosesNothing(t, installed, name, a, x);
    }
    if a.Some? {
      assert t'.live[name] == a.value;
    }
  }

  lemma SwapLosesNothing(t: Table, installed: set<Adapter>, name: string, a: Option<Adapter>, x: Adapter)
    requires Conserved(t, installed) && x in installed && (a.Some? ==> a.value !in installed)
    ensures x in Swap(t, name, a).live.Values || x in Swap(t, name, a).retired
  {
    var t' := Swap(t, name, a);
    if x in t.retired {
      var i :| 0 <= i < |t.retired| && t.retired[i] == x;
      assert t'.retired[i] == x;
    } else {
      var n :| n in t.live && t.live[n] == x;
      assert x in t.live.Values;
      if n == name {
        assert t'.retired[|t.retired|] == x;
      } else {
        assert t'.live[n] == x;
      }
    }
  }

  /** Swapping in the adapter that is live already changes nothing: it is not retired. */
  lemma SwapSame(t: Table, name: string)
    requires name in t.live
    ensures Swap(t, name, Some(t.live[name])) == t
  {
    assert (t.live - {name})[name := t.live[name]] == t.live;
  }

  lemma {:induction false} RunStepByStep(t: Table, cs: seq<Change>, c: Change)
    ensures Run(t, cs + [c]) == Apply(Run(t, cs), c)
    decreases |cs|
  {
    if cs == [] {
      assert [] + [c] == [c] && [c][1..] == [];
      assert Run(t, [c]) == Run(Apply(t, c), []);
    } else {
      assert (cs + [c])[1..] == cs[1..] + [c];
      RunStepByStep(Apply(t, cs[0]), cs[1..], c);
    }
  }

  /** Conservation over every sequence of installs and removals. */
  lemma {:induction false} RunConserves(t: Table, installed: set<Adapter>, cs: seq<Change>)
    requires Conserved(t, installed) && EachNew(installed, cs)
    ensures Conserved(Run(t, cs), installed + Installed(cs))
    decreases |cs|
  {
    if cs == [] {
      assert installed + Installed(cs) == installed;
    } else {
      var a := if cs[0].Install? then Some(cs[0].adapter) else None;
      SwapConserves(t, installed, cs[0].name, a);
      var installed' := installed + if a.Some? then {a.value} else {};
      forall i | 0 <= i < |cs[1..]| && cs[1..][i].Install? ensures cs[1..][i].adapter !in installed' {
        assert cs[1..][i] == cs[i + 1];
      }
      RunConserves(Apply(t, cs[0]), installed', cs[1..]);
      assert installed' + Installed(cs[1..]) == installed + Installed(cs) by {
        forall x | x in Installed(cs) ensures x in installed' + Installed(cs[1..]) {
          var i :| 0 <= i < |cs| && cs[i].Install? && cs[i].adapter == x;
          if i > 0 {
            assert cs[1..][i - 1] == cs[i];
          }
        }
        forall x | x in Installed(cs[1..]) ensures x in Installed(cs) {
          var i :| 0 <= i < |cs[1..]| && cs[1..][i].Install? && cs[1..][i].adapter == x;
          assert cs[i + 1] == cs[1..][i];
        }
      }
    }
  }

  /** A retired adapter stays where it is, and only the named slot changes hands. */
  lemma {:induction false} RunKeepsRetired(t: Table, cs: seq<Change>)
    ensures t.retired <= Run(t, cs).retired
    ensures forall n :: n in t.live && (forall i :: 0 <= i < |cs| ==> cs[i].name != n) ==>
              n in Run(t, cs).live && Run(t, cs).live[n] == t.live[n]
    decreases |cs|
  {
    if cs != [] {
      RunKeepsRetired(Apply(t, cs[0]), cs[1..]);
      forall n | n in t.live && (forall i :: 0 <= i < |cs| ==> cs[i].name != n)
        ensures n in Run(t, cs).live && Run(t, cs).live[n] == t.live[n]
      {
        assert cs[0].name != n;
        forall i | 0 <= i < |cs[1..]| ensures cs[1..][i].name != n {
          assert cs[1..][i] == cs[i + 1];
        }
      }
    }
  }

  // ---- startup --------------------------------------------------------------

  /** `adapters[provider.name] = adapter`, entry after entry. */
  function Fill(made: seq<Adapter>): map<string, Adapter> {
    if made == [] then map[]
    else Fill(made[..|made| - 1])[made[|made| - 1].builtFrom.Name() := made[|made| - 1]]
  }

  predicate NamesDistinct(made: seq<Adapter>) {
    forall i, j :: 0 <= i < j < |made| ==> made[i].builtFrom.Name() != made[j].builtFrom.Name()
  }

  predicate AllDifferent(made: seq<Adapter>) {
    forall i, j :: 0 <= i < j < |made| ==> made[i] != made[j]
  }

  lemma {:induction false} FillHolds(made: seq<Adapter>)
    ensures forall n :: n in Fill(made) ==> Fill(made)[n] in made && Fill(made)[n].builtFrom.Name() == n
    decreases |made|
  {
    if made != [] {
      var init := made[..|made| - 1];
      FillHolds(init);
      forall n | n in Fill(made) ensures Fill(made)[n] in made && Fill(made)[n].builtFrom.Name() == n {
        if n != made[|made| - 1].builtFrom.Name() {
          assert n in Fill(init) && Fill(init)[n] in init;
        }
      }
    }
  }

  /** An adapter that no later one shares the name with is live. */
  lemma {:induction false} LastOfItsNameIsLive(made: seq<Adapter>, i: nat)
    requires i < |made| && forall j :: i < j < |made| ==> made[j].builtFrom.Name() != made[i].builtFrom.Name()
    ensures made[i].builtFrom.Name() in Fill(made) && Fill(made)[made[i].builtFrom.Name()] == made[i]
    decreases |made|
  {
    var init := made[..|made| - 1];
    if i < |init| {
      assert init[i] == made[i];
      assert made[|made| - 1].builtFrom.Name() != made[i].builtFrom.Name();
      LastOfItsNameIsLive(init, i);
    }
  }

  /** Startup keeps hold of every adapter it built exactly when no two of the entries
      that got one share a name; otherwise the earlier one is in neither collection. */
  lemma StartupConserves(made: seq<Adapter>)
    requires AllDifferent(made)
    ensures Conserved(Table(Fill(made), []), set a | a in made) <==> NamesDistinct(made)
  {
    if NamesDistinct(made) {
      DistinctNamesKept(made);
    } else {
      var i, j :| 0 <= i < j < |made| && made[i].builtFrom.Name() == made[j].builtFrom.Name();
      EarlierOneLost(made, i, j);
      assert made[i] in set a | a in made;
    }
  }

  lemma DistinctNamesKept(made: seq<Adapter>)
    requires AllDifferent(made) && NamesDistinct(made)
    ensures Conserved(Table(Fill(made), []), set a | a in made)
  {
    FillHolds(made);
    forall a | a in made ensures a in Fill(made).Values {
      var i :| 0 <= i < |made| && made[i] == a;
      LastOfItsNameIsLive(made, i);
    }
    forall a | a in Fill(made).Values ensures a in made {
      var n :| n in Fill(made) && Fill(made)[n] == a;
    }
  }

  lemma EarlierOneLost(made: seq<Adapter>, i: nat, j: nat)
    requires AllDifferent(made) && i < j < |made| && made[i].builtFrom.Name() == made[j].builtFrom.Name()
    ensures made[i] !in Fill(made).Values
  {
    FillHolds(made);
    Overwritten(made, i, j);
    forall n | n in Fill(made) ensures Fill(made)[n] != made[i] {
      assert Fill(made)[n].builtFrom.Name() == n;
    }
  }

  lemma {:induction false} Overwritten(made: seq<Adapter>, i: nat, j: nat)
    requires AllDifferent(made) && i < j < |made| && made[i].builtFrom.Name() == made[j].builtFrom.Name()
    ensures made[j].builtFrom.Name() in Fill(made) && Fill(made)[made[j].builtFrom.Name()] != made[i]
  {
    var init := made[..|made| - 1];
    if j < |made| - 1 {
      Overwritten(init, i, j);
    }
  }
}
