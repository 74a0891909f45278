/** The gateway from startup to shutdown: which adapters end up closed. */
module GatewayLifetime {
  import opened Wrappers
  import opened GatewayConfig
  import opened ConfigHolding
  import opened AdapterTables
  import opened LiveGateway

  /** What startup built for each list of entries, in order. */
  ghost predicate BuiltFrom(made: seq<AdapterTables.Adapter>, from: seq<nat>, entries: seq<Entry>,
                            verdicts: nat -> Verdict)
    reads made
  {
    && AllDifferent(made) && MadeFrom(made, from, entries) && BuiltExactly(from, entries, verdicts, |entries|)
    && forall a :: a in made ==> a.closes == 0
  }

  function LlmEntries(c: Config): seq<Entry> {
    seq(|c.providers|, i requires 0 <= i < |c.providers| => Llm(c.providers[i]))
  }

  function ToolEntries(c: Config): seq<Entry> {
    seq(|c.tools|, i requires 0 <= i < |c.tools| => Tool(c.tools[i]))
  }

  /** One adapter for each enabled provider that builds, from its entry, in their order. */
  ghost predicate LlmMade(c: Config, verdicts: nat -> Verdict, made: seq<AdapterTables.Adapter>, from: seq<nat>) {
    && |from| == |made| && (forall k, m :: 0 <= k < m < |from| ==> from[k] < from[m])
    && (forall k :: 0 <= k < |from| ==> from[k] < |c.providers| && made[k].builtFrom == Llm(c.providers[from[k]]))
    && (forall i :: 0 <= i < |c.providers| ==> (i in from <==> c.providers[i].enabled && verdicts(i).Builds?))
  }

  /** Egress policy lets every enabled inference provider through. */
  ghost predicate NoneRefused(c: Config, verdicts: nat -> Verdict) {
    forall i :: 0 <= i < |c.providers| && c.providers[i].enabled ==> !verdicts(i).EgressRefused?
  }

  lemma AskedOfEntries(c: Config, verdicts: nat -> Verdict)
    ensures NoneRefused(c, verdicts) <==>
            forall i :: 0 <= i < |LlmEntries(c)| ==> !LiveGateway.Refused(LlmEntries(c), verdicts, i)
  {
    forall i | 0 <= i < |LlmEntries(c)|
      ensures LiveGateway.Refused(LlmEntries(c), verdicts, i) <==> c.providers[i].enabled && verdicts(i).EgressRefused?
    {
      assert LlmEntries(c)[i] == Llm(c.providers[i]);
    }
  }

  ghost predicate ToolsMade(c: Config, verdicts: nat -> Verdict, made: seq<AdapterTables.Adapter>, from: seq<nat>) {
    && |from| == |made| && (forall k, m :: 0 <= k < m < |from| ==> from[k] < from[m])
    && (forall k :: 0 <= k < |from| ==> from[k] < |c.tools| && made[k].builtFrom == Tool(c.tools[from[k]]))
    && (forall i :: 0 <= i < |c.tools| ==> (i in from <==> c.tools[i].enabled && verdicts(i).Builds?))
  }

  lemma MadeForConfig(c: Config, verdicts: nat -> Verdict, made: seq<AdapterTables.Adapter>, from: seq<nat>)
    ensures MadeFrom(made, from, LlmEntries(c)) && BuiltExactly(from, LlmEntries(c), verdicts, |LlmEntries(c)|) ==>
              LlmMade(c, verdicts, made, from)
    ensures MadeFrom(made, from, ToolEntries(c)) && BuiltExactly(from, ToolEntries(c), verdicts, |ToolEntries(c)|) ==>
              ToolsMade(c, verdicts, made, from)
  {
    forall i | 0 <= i < |c.providers| ensures LlmEntries(c)[i] == Llm(c.providers[i]) {
    }
    forall i | 0 <= i < |c.tools| ensures ToolEntries(c)[i] == Tool(c.tools[i]) {
    }
  }

  /** No adapter made later has its name. */
  predicate LastOfItsName(made: seq<AdapterTables.Adapter>, i: nat)
    requires i < |made|
  {
    forall j :: i < j < |made| ==> made[j].builtFrom.Name() != made[i].builtFrom.Name()
  }

  /** The adapters startup still holds when it is done. */
  lemma FilledTable(made: seq<AdapterTables.Adapter>)
    requires AllDifferent(made)
    ensures Conserved(Table(Fill(made), []), Fill(made).Values)
    ensures Fill(made).Values <= set a | a in made
    ensures forall i :: 0 <= i < |made| ==> (made[i] in Fill(made).Values <==> LastOfItsName(made, i))
  {
    FillHolds(made);
    forall i | 0 <= i < |made| ensures made[i] in Fill(made).Values <==> LastOfItsName(made, i) {
      if LastOfItsName(made, i) {
        LastOfItsNameIsLive(made, i);
      } else {
        var j :| i < j < |made| && made[j].builtFrom.Name() == made[i].builtFrom.Name();
        EarlierOneLost(made, i, j);
      }
    }
  }

  lemma HeldApart(llmMade: seq<AdapterTables.Adapter>, toolMade: seq<AdapterTables.Adapter>)
    requires forall a :: a in llmMade ==> a.builtFrom.Llm?
    requires forall a :: a in toolMade ==> a.builtFrom.Tool?
    ensures Fill(llmMade).Values !! Fill(toolMade).Values && ToolsOnly(Fill(toolMade))
  {
    FillHolds(llmMade);
    FillHolds(toolMade);
    forall a | a in Fill(llmMade).Values ensures a.builtFrom.Llm? {
      var n :| n in Fill(llmMade) && Fill(llmMade)[n] == a;
    }
    forall a | a in Fill(toolMade).Values ensures a.builtFrom.Tool? {
      var n :| n in Fill(toolMade) && Fill(toolMade)[n] == a;
    }
  }

  lemma MadeOfKind(made: seq<AdapterTables.Adapter>, from: seq<nat>, c: Config, tools: bool)
    requires MadeFrom(made, from, if tools then ToolEntries(c) else LlmEntries(c))
    ensures forall a :: a in made ==> (a.builtFrom.Tool? <==> tools)
  {
    forall a | a in made ensures a.builtFrom.Tool? <==> tools {
      var k :| 0 <= k < |made| && made[k] == a;
      assert made[k].builtFrom == (if tools then ToolEntries(c) else LlmEntries(c))[from[k]];
    }
  }

  /** Startup: the adapters of the inference providers, then those of the tool providers.
      It fails exactly when egress policy refuses an inference provider. */
  method StartGateway(d: Digests, holder: MutableConfigHolder, llmVerdicts: nat -> Verdict,
                      toolVerdicts: nat -> Verdict)
    returns (g: Option<Gateway>, ghost llmMade: seq<AdapterTables.Adapter>, ghost toolMade: seq<AdapterTables.Adapter>,
             ghost llmFrom: seq<nat>, ghost toolFrom: seq<nat>)
    ensures g.Some? <==> NoneRefused(holder.config, llmVerdicts)
    ensures g.Some? ==>
              && BuiltFrom(llmMade, llmFrom, LlmEntries(holder.config), llmVerdicts)
              && BuiltFrom(toolMade, toolFrom, ToolEntries(holder.config), toolVerdicts)
              && (forall i :: 0 <= i < |llmMade| ==> fresh(llmMade[i]))
              && (forall i :: 0 <= i < |toolMade| ==> fresh(toolMade[i]))
              && g.value.Valid() && g.value.holder == holder && g.value.digests == d
              && fresh(g.value) && fresh(g.value.llm) && fresh(g.value.tools)
              && fresh(g.value.llm.dict) && fresh(g.value.tools.dict)
              && g.value.llm.View() == Table(Fill(llmMade), []) && g.value.tools.View() == Table(Fill(toolMade), [])
  {
    var llmDict, started;
    llmDict, started, llmMade, llmFrom := BuildAll(d, LlmEntries(holder.config), llmVerdicts, true);
    toolMade, toolFrom := [], [];
    if !started {
      AskedOfEntries(holder.config, llmVerdicts);
      return None, llmMade, toolMade, llmFrom, toolFrom;
    }
    AskedOfEntries(holder.config, llmVerdicts);
    var toolDict, skipped;
    toolDict, skipped, toolMade, toolFrom := BuildAll(d, ToolEntries(holder.config), toolVerdicts, false);
    assert LlmEntries(holder.config)[..|LlmEntries(holder.config)|] == LlmEntries(holder.config);
    assert ToolEntries(holder.config)[..|ToolEntries(holder.config)|] == ToolEntries(holder.config);
    MadeOfKind(llmMade, llmFrom, holder.config, false);
    MadeOfKind(toolMade, toolFrom, holder.config, true);
    HeldApart(llmMade, toolMade);
    FillHolds(llmMade);
    FillHolds(toolMade);
    assert forall i :: 0 <= i < |llmMade| ==> llmMade[i] in llmMade;
    assert forall i :: 0 <= i < |toolMade| ==> toolMade[i] in toolMade;
    var gateway := new Gateway(d, holder, llmDict, toolDict);
    g := Some(gateway);
  }

  /** Closed once if no adapter made later has its name, and never otherwise: such an adapter
      was overwritten at startup and nothing holds it any more. */
  ghost predicate ClosedUnlessOverwritten(made: seq<AdapterTables.Adapter>)
    reads made
  {
    forall i :: 0 <= i < |made| ==> made[i].closes == if LastOfItsName(made, i) then 1 else 0
  }

  /** A running gateway whose adapters are those startup made. */
  ghost predicate Started(g: Gateway, llmMade: seq<AdapterTables.Adapter>, toolMade: seq<AdapterTables.Adapter>)
    reads g, g.llm, g.llm.dict, g.tools, g.tools.dict, llmMade, toolMade
  {
    && g.Valid() && AllDifferent(llmMade) && AllDifferent(toolMade)
    && g.llm.View() == Table(Fill(llmMade), []) && g.tools.View() == Table(Fill(toolMade), [])
    && (forall a :: a in llmMade ==> a.builtFrom.Llm? && a.closes == 0)
    && (forall a :: a in toolMade ==> a.builtFrom.Tool? && a.closes == 0)
  }

  /** An adapter made is held from the start exactly when it is the last of its name. */
  ghost predicate HeldIfLast(made: seq<AdapterTables.Adapter>, held: set<AdapterTables.Adapter>) {
    forall i :: 0 <= i < |made| ==> (made[i] in held <==> LastOfItsName(made, i))
  }

  lemma HeldFromTheStart(llmMade: seq<AdapterTables.Adapter>, toolMade: seq<AdapterTables.Adapter>)
    requires AllDifferent(llmMade) && AllDifferent(toolMade)
    requires forall a :: a in llmMade ==> a.builtFrom.Llm?
    requires forall a :: a in toolMade ==> a.builtFrom.Tool?
    ensures var l, t := Fill(llmMade).Values, Fill(toolMade).Values;
            && Conserved(Table(Fill(llmMade), []), l) && Conserved(Table(Fill(toolMade), []), t) && l !! t
            && HeldIfLast(llmMade, l + t) && HeldIfLast(toolMade, l + t)
            && (forall a :: a in l ==> a in llmMade) && (forall a :: a in t ==> a in toolMade)
  {
    FilledTable(llmMade);
    FilledTable(toolMade);
    HeldApart(llmMade, toolMade);
    var l, t := Fill(llmMade).Values, Fill(toolMade).Values;
    forall i | 0 <= i < |llmMade| ensures llmMade[i] !in t {
      assert llmMade[i] in llmMade;
    }
    forall i | 0 <= i < |toolMade| ensures toolMade[i] !in l {
      assert toolMade[i] in toolMade;
    }
  }

  ghost predicate ClosedIfHeld(made: seq<AdapterTables.Adapter>, first: set<AdapterTables.Adapter>)
    reads made
  {
    forall i :: 0 <= i < |made| ==> made[i].closes == if made[i] in first then 1 else 0
  }

  method CloseWhatIsHeld(g: Gateway, ghost llmMade: seq<AdapterTables.Adapter>,
                         ghost toolMade: seq<AdapterTables.Adapter>,
                         ghost l: set<AdapterTables.Adapter>, ghost t: set<AdapterTables.Adapter>, schedule: seq<Event>)
    returns (ghost held: set<AdapterTables.Adapter>)
    requires Started(g, llmMade, toolMade) && Conserved(g.llm.View(), l) && Conserved(g.tools.View(), t) && l !! t
    requires (forall a :: a in l ==> a in llmMade) && (forall a :: a in t ==> a in toolMade)
    modifies g.holder, g.llm, g.llm.dict, g.tools, g.tools.dict, l, t
    ensures g.holder.View() == AfterEvents(g.holder.schema, old(g.holder.View()), schedule)
    ensures ClosedIfHeld(llmMade, l + t) && ClosedIfHeld(toolMade, l + t)
    ensures held == g.llm.dict.live.Values + g.tools.dict.live.Values +
                    (set a | a in g.llm.retired) + (set a | a in g.tools.retired)
    ensures forall a :: a in held ==> a.closes == 1
  {
    held := g.RunThenShutdown(schedule, l, t);
    assert forall a :: a in l + t ==> a in held;
  }

  /** Whatever happens between startup and shutdown. */
  method RunToTheEnd(g: Gateway, ghost llmMade: seq<AdapterTables.Adapter>, ghost toolMade: seq<AdapterTables.Adapter>,
                     schedule: seq<Event>)
    returns (ghost held: set<AdapterTables.Adapter>)
    requires Started(g, llmMade, toolMade)
    modifies g.holder, g.llm, g.llm.dict, g.tools, g.tools.dict, llmMade, toolMade
    ensures g.holder.View() == AfterEvents(g.holder.schema, old(g.holder.View()), schedule)
    ensures ClosedUnlessOverwritten(llmMade) && ClosedUnlessOverwritten(toolMade)
    ensures held == g.llm.dict.live.Values + g.tools.dict.live.Values +
                    (set a | a in g.llm.retired) + (set a | a in g.tools.retired)
    ensures forall a :: a in held ==> a.closes == 1
  {
    HeldFromTheStart(llmMade, toolMade);
    ghost var l, t := Fill(llmMade).Values, Fill(toolMade).Values;
    held := CloseWhatIsHeld(g, llmMade, toolMade, l, t, schedule);
    assert HeldIfLast(llmMade, l + t) && HeldIfLast(toolMade, l + t);
  }

  /** From the entries of the configuration to the end: startup fails exactly when egress
      policy refuses an inference provider; otherwise each adapter it made is closed exactly
      once at the end, unless a later one took its name, and so is each one made meanwhile. */
  method FromStartToShutdown(d: Digests, holder: MutableConfigHolder, llmVerdicts: nat -> Verdict,
                             toolVerdicts: nat -> Verdict, schedule: seq<Event>)
    returns (g: Option<Gateway>, ghost llmMade: seq<AdapterTables.Adapter>, ghost toolMade: seq<AdapterTables.Adapter>,
             ghost llmFrom: seq<nat>, ghost toolFrom: seq<nat>, ghost held: set<AdapterTables.Adapter>)
    modifies holder
    ensures g.Some? ==> holder.View() == AfterEvents(holder.schema, old(holder.View()), schedule)
    ensures var c := old(holder.config);
            && (g.Some? <==> NoneRefused(c, llmVerdicts))
            && (g.Some? ==> LlmMade(c, llmVerdicts, llmMade, llmFrom) && ToolsMade(c, toolVerdicts, toolMade, toolFrom))
    ensures g.Some? ==> ClosedUnlessOverwritten(llmMade) && ClosedUnlessOverwritten(toolMade)
    ensures g.Some? ==>
              && held == g.value.llm.dict.live.Values + g.value.tools.dict.live.Values +
                         (set a | a in g.value.llm.retired) + (set a | a in g.value.tools.retired)
              && forall a :: a in held ==> a.closes == 1
  {
    g, llmMade, toolMade, llmFrom, toolFrom := StartGateway(d, holder, llmVerdicts, toolVerdicts);
    held := {};
    if g.Some? {
      MadeOfKind(llmMade, llmFrom, holder.config, false);
      MadeOfKind(toolMade, toolFrom, holder.config, true);
      MadeForConfig(holder.config, llmVerdicts, llmMade, llmFrom);
      MadeForConfig(holder.config, toolVerdicts, toolMade, toolFrom);
      held := RunToTheEnd(g.value, llmMade, toolMade, schedule);
    }
  }
}
