/** Tool calls on the running gateway: requests, their steps and administrative calls in any
    order.  A checked call goes to an adapter built from the very entry its gates read. */
module GovernedCalls {
  import opened Wrappers
  import opened GatewayConfig
  import opened AdapterTables
  import opened LiveGateway
  import opened ToolEgress
  import opened ToolRuns
  import opened ToolRouting

  type Anonymizer = (string, string, Args) -> Option<Args>

  /** What a router over this configuration and this dictionary reads. */
  function PolicyOf(c: Config, live: map<string, AdapterTables.Adapter>, anonymizer: Anonymizer): Policy {
    Policy(c, map n | n in live && live[n].builtFrom.Tool? :: live[n].builtFrom.tool, anonymizer)
  }

  /** The live router's gates keep every adapter under every ceiling exactly when its own
      entry has at most the configured tier. */
  lemma LiveAdapterWithinEveryCeiling(c: Config, live: map<string, AdapterTables.Adapter>, anonymizer: Anonymizer,
                                      name: string)
    requires name in live && live[name].builtFrom.Tool? && ToolByName(c.tools, name).Some?
    ensures var p := PolicyOf(c, live, anonymizer);
            (forall call: Call, limited: bool ::
               call.ToolCall? && call.provider == name && Permitted(p, call, limited) ==>
                 AdapterWithinCeiling(p, call)) <==>
            live[name].builtFrom.tool.egressTier <= ToolByName(c.tools, name).value.egressTier
  {
    AdapterWithinEveryCeiling(PolicyOf(c, live, anonymizer), name);
  }

  /** The test of a checked request: the configuration is the expected one, and the named
      provider's adapter was built from its current entry. */
  ghost predicate Matches(g: Gateway, revision: string, name: string)
    reads g, g.holder, g.tools, g.tools.dict
  {
    var entry := EntryByName(g.holder.config, name, true);
    && revision == g.digests.ofConfig(g.holder.config)
    && entry.Some? && entry.value.Enabled()
    && name in g.tools.dict.live && g.tools.dict.live[name].revision == g.digests.ofEntry(entry.value)
  }

  /** The request handler: anonymization needs a revision, and a revision pins the router. */
  method CallTool(g: Gateway, call: Call, revision: Option<string>)
    returns (accepted: bool, pinned: Option<PinnedRouter>)
    requires g.Valid() && call.ToolCall?
    ensures accepted <==> if revision.Some? then Matches(g, revision.value, call.provider) else !call.anonymize
    ensures pinned.Some? <==> accepted && revision.Some?
    ensures pinned.Some? ==>
              && fresh(pinned.value) && fresh(pinned.value.adapters) && fresh(pinned.value.toolAdapters)
              && pinned.value.config == g.holder.config && pinned.value.toolAdapters.live == g.tools.dict.live
  {
    if call.anonymize && revision.None? {
      return false, None;
    }
    if revision.None? {
      return true, None;
    }
    pinned := g.Pin(revision.value, call.provider, true);
    accepted := pinned.Some?;
  }

  lemma MatchingIsAligned(g: Gateway, revision: string, name: string, anonymizer: Anonymizer)
    requires g.Valid() && Injective(g.digests) && Matches(g, revision, name)
    ensures Aligned(PolicyOf(g.holder.config, g.tools.dict.live, anonymizer), name)
  {
    assert g.tools.dict.live[name].builtFrom == EntryByName(g.holder.config, name, true).value;
  }

  /** The pinned router dispatches the call to this adapter, built from the very entry whose
      tier and anonymization the gates test; so they hold of the adapter. */
  ghost predicate CheckedTo(pinned: PinnedRouter, anonymizer: Anonymizer, call: Call, to: AdapterTables.Adapter)
    reads pinned.adapters, pinned.toolAdapters
  {
    && pinned.Dispatch(call.provider, true) == Some(to)
    && EntryByName(pinned.config, call.provider, true) == Some(to.builtFrom)
    && var p := PolicyOf(pinned.config, pinned.toolAdapters.live, anonymizer);
    forall limited :: Permitted(p, call, limited) ==>
      HandedTo(p, call, limited, to.builtFrom) && GatesHoldOf(p, call, HandedOver(p, call))
  }

  method PinChecked(g: Gateway, ghost anonymizer: Anonymizer, call: Call, revision: string)
    returns (pinned: Option<PinnedRouter>)
    requires g.Valid() && Injective(g.digests) && call.ToolCall?
    ensures pinned.Some? <==> Matches(g, revision, call.provider)
    ensures pinned.Some? ==>
              && fresh(pinned.value) && fresh(pinned.value.adapters) && fresh(pinned.value.toolAdapters)
              && pinned.value.config == g.holder.config && call.provider in g.tools.dict.live
              && CheckedTo(pinned.value, anonymizer, call, g.tools.dict.live[call.provider])
  {
    var accepted;
    accepted, pinned := CallTool(g, call, Some(revision));
    if pinned.Some? {
      MatchingIsAligned(g, revision, call.provider, anonymizer);
      ghost var p := PolicyOf(pinned.value.config, pinned.value.toolAdapters.live, anonymizer);
      forall limited | Permitted(p, call, limited)
        ensures GatesHoldOf(p, call, HandedOver(p, call))
      {
        AlignedGatesHold(p, call, limited);
      }
    }
  }

  /** A checked call under any later schedule: the adapter it is dispatched to is the one that
      was live, it is not closed, it was built from the entry whose tier and anonymization the
      gates test, and so the gates a permitted call passed hold of that adapter. */
  method CheckedCallThenRun(g: Gateway, ghost anonymizer: Anonymizer, call: Call, revision: string,
                            schedule: seq<LiveGateway.Event>,
                            ghost llmHeld: set<AdapterTables.Adapter>, ghost toolHeld: set<AdapterTables.Adapter>)
    returns (pinned: Option<PinnedRouter>)
    requires g.Valid() && Injective(g.digests) && llmHeld !! toolHeld && call.ToolCall?
    requires Conserved(g.llm.View(), llmHeld) && Conserved(g.tools.View(), toolHeld)
    modifies g.holder, g.llm, g.llm.dict, g.tools, g.tools.dict
    ensures g.holder.View() == AfterEvents(g.holder.schema, old(g.holder.View()), schedule)
    ensures pinned.Some? <==> old(Matches(g, revision, call.provider))
    ensures pinned.Some? ==>
              && pinned.value.config == old(g.holder.config) && call.provider in old(g.tools.dict.live)
              && CheckedTo(pinned.value, anonymizer, call, old(g.tools.dict.live)[call.provider])
    ensures forall a :: a in llmHeld + toolHeld ==> a.closes == old(a.closes)
  {
    pinned := PinChecked(g, anonymizer, call, revision);
    ghost var l, t, trace := g.HandleAll(schedule, llmHeld, toolHeld);
  }

  ghost predicate HandedTo(p: Policy, call: Call, limited: bool, entry: Entry)
    requires Permitted(p, call, limited)
  {
    HandedOver(p, call).ToolHandOver? && Tool(HandedOver(p, call).adapter) == entry
  }

  // ---- joint runs -----------------------------------------------------------------------------

  datatype Joint =
    | Administered(event: LiveGateway.Event)
    | Asked(call: Call, revision: Option<string>, world: World)
    | Steps(who: nat)

  /** The same test at some moment of a run. */
  predicate MatchesThen(d: Digests, m: Moment, revision: string, name: string) {
    var entry := EntryByName(m.state.config, name, true);
    && revision == d.ofConfig(m.state.config)
    && entry.Some? && entry.value.Enabled()
    && name in m.tools.live && m.tools.live[name].revision == d.ofEntry(entry.value)
  }

  predicate Admitted(d: Digests, m: Moment, call: Call, revision: Option<string>) {
    !call.ToolCall? || if revision.Some? then MatchesThen(d, m, revision.value, call.provider) else !call.anonymize
  }

  /** What an event adds to the run of the router's machine: a request turned away nothing; a
      request that names a revision arrives with the policy of this moment. */
  function Added(d: Digests, anonymizer: Anonymizer, m: Moment, e: Joint, m': Moment): seq<ToolRuns.Event> {
    match e
    case Administered(_) => [PolicyChanges(PolicyOf(m'.state.config, m'.tools.live, anonymizer))]
    case Asked(call, revision, world) =>
      if Admitted(d, m, call, revision) then
        [Arrives(call, world, if call.ToolCall? && revision.Some?
                              then Some(PolicyOf(m.state.config, m.tools.live, anonymizer)) else None)]
      else []
    case Steps(i) => [Moves(i)]
  }

  function AllAdded(d: Digests, anonymizer: Anonymizer, schedule: seq<Joint>, trace: seq<Moment>): seq<ToolRuns.Event>
    requires |trace| == |schedule| + 1
    decreases |schedule|
  {
    if schedule == [] then []
    else
      Added(d, anonymizer, trace[0], schedule[0], trace[1]) + AllAdded(d, anonymizer, schedule[1..], trace[1..])
  }

  /** Requests and steps of calls leave file, snapshot and registries as they are. */
  ghost predicate JointMoved(s: Schema, m: Moment, e: Joint, m': Moment) {
    if e.Administered? then Moved(s, m, e.event, m') else m' == m
  }

  ghost predicate JointTraced(s: Schema, schedule: seq<Joint>, trace: seq<Moment>) {
    && |trace| == |schedule| + 1
    && forall n :: 0 <= n < |schedule| ==> JointMoved(s, trace[n], schedule[n], trace[n + 1])
  }

  /** What the request handler saw to. */
  ghost predicate CheckedCall(job: Job) {
    && (MustAnonymize(job.call) ==> job.pinned.Some?)
    && (job.pinned.Some? ==> job.call.ToolCall? && Aligned(job.pinned.value, job.call.provider))
  }

  /** The router reads the gateway's configuration and dictionary as they are now. */
  ghost predicate Linked(g: Gateway, router: ToolRouter, anonymizer: Anonymizer)
    reads g, g.holder, g.llm, g.llm.dict, g.tools, g.tools.dict, router
  {
    && g.Valid() && router.Valid()
    && router.policy == PolicyOf(g.holder.config, g.tools.dict.live, anonymizer)
    && forall i :: 0 <= i < |router.jobs| ==> CheckedCall(router.jobs[i])
  }

  /** A hand-over of a checked call: its gates hold of the adapter it went to.  A call that
      must be anonymized is a checked one. */
  ghost predicate HandOverChecked(s: Sys, k: nat)
    requires k < |s.handed|
  {
    var i := s.handed[k].who;
    && i < |s.jobs| && Governed(s.jobs[i], s.handed[k].item)
    && (MustAnonymize(s.jobs[i].call) ==> s.jobs[i].pinned.Some?)
    && (s.jobs[i].pinned.Some? ==> GatesHoldOf(s.jobs[i].pinned.value, s.jobs[i].call, s.handed[k].item))
  }

  lemma LinkedHandOver(s: Sys, k: nat)
    requires Sound(s) && k < |s.handed| && forall i :: 0 <= i < |s.jobs| ==> CheckedCall(s.jobs[i])
    ensures HandOverChecked(s, k)
  {
    HandOverGoverned(s, k);
    var job := s.jobs[s.handed[k].who];
    assert CheckedCall(job);
    if job.pinned.Some? {
      AlignedGatesHold(job.pinned.value, job.call, job.world.limited);
    }
  }

  lemma NextKeepsChecked(s: Sys, e: ToolRuns.Event)
    requires forall i :: 0 <= i < |s.jobs| ==> CheckedCall(s.jobs[i])
    requires e.Arrives? ==> CheckedCall(Job(e.call, e.world, e.pinned, None, Arrived))
    ensures forall i :: 0 <= i < |Next(s, e).jobs| ==> CheckedCall(Next(s, e).jobs[i])
  {
    forall i | 0 <= i < |Next(s, e).jobs| ensures CheckedCall(Next(s, e).jobs[i]) {
      if i < |s.jobs| {
        CallsStay(s, e, i);
        assert CheckedCall(s.jobs[i]);
      } else {
        assert e.Arrives?;
      }
    }
  }

  /** One step of the router's machine appended to a run. */
  lemma OneStep(s0: Sys, before: seq<ToolRuns.Event>, e: ToolRuns.Event)
    requires Sound(ToolRuns.Run(s0, before))
    ensures ToolRuns.Run(s0, before + [e]) == Next(ToolRuns.Run(s0, before), e)
    ensures Sound(Next(ToolRuns.Run(s0, before), e))
  {
    RunOn(s0, before, [e]);
    NextKeeps(ToolRuns.Run(s0, before), e);
    assert ToolRuns.Run(ToolRuns.Run(s0, before), [e]) == ToolRuns.Run(Next(ToolRuns.Run(s0, before), e), []);
  }

  method Administer(g: Gateway, router: ToolRouter, anonymizer: Anonymizer, e: LiveGateway.Event,
                    ghost l: set<AdapterTables.Adapter>, ghost t: set<AdapterTables.Adapter>,
                    ghost s0: Sys, ghost before: seq<ToolRuns.Event>)
    returns (ghost l': set<AdapterTables.Adapter>, ghost t': set<AdapterTables.Adapter>,
             ghost done: seq<ToolRuns.Event>)
    requires Linked(g, router, anonymizer) && router.View() == ToolRuns.Run(s0, before)
    requires Conserved(g.llm.View(), l) && Conserved(g.tools.View(), t) && l !! t
    modifies g.holder, g.llm, g.llm.dict, g.tools, g.tools.dict, router
    ensures Linked(g, router, anonymizer) && router.View() == ToolRuns.Run(s0, done)
    ensures done == before + [PolicyChanges(PolicyOf(g.holder.config, g.tools.dict.live, anonymizer))]
    ensures Moved(g.holder.schema, old(g.Now()), e, g.Now())
    ensures Conserved(g.llm.View(), l') && Conserved(g.tools.View(), t') && l' !! t'
    ensures router.jobs == old(router.jobs) && router.handed == old(router.handed)
  {
    l', t' := g.Handle(e, l, t);
    ghost var change := PolicyChanges(PolicyOf(g.holder.config, g.tools.dict.live, anonymizer));
    OneStep(s0, before, change);
    done := before + [change];
    router.policy := PolicyOf(g.holder.config, g.tools.dict.live, anonymizer);
  }

  method Ask(g: Gateway, router: ToolRouter, anonymizer: Anonymizer, call: Call, revision: Option<string>, world: World,
             ghost s0: Sys, ghost before: seq<ToolRuns.Event>)
    returns (accepted: bool, ghost done: seq<ToolRuns.Event>)
    requires Linked(g, router, anonymizer) && Injective(g.digests) && router.View() == ToolRuns.Run(s0, before)
    modifies router
    ensures Linked(g, router, anonymizer) && router.View() == ToolRuns.Run(s0, done)
    ensures accepted <==>
            !call.ToolCall? || if revision.Some? then Matches(g, revision.value, call.provider) else !call.anonymize
    ensures !accepted ==> router.View() == old(router.View()) && done == before
    ensures accepted ==>
              done == before +
                [Arrives(call, world, if call.ToolCall? && revision.Some? then Some(router.policy) else None)]
    ensures accepted ==>
              && |router.jobs| == |old(router.jobs)| + 1 && router.jobs[..|old(router.jobs)|] == old(router.jobs)
              && var job := router.jobs[|old(router.jobs)|];
                 && job.call == call && job.stage.Arrived? && (job.pinned.Some? <==> call.ToolCall? && revision.Some?)
                 && (job.pinned.Some? ==> job.pinned.value == router.policy)
  {
    done, accepted := before, true;
    var pinned: Option<PinnedRouter> := None;
    if call.ToolCall? {
      accepted, pinned := CallTool(g, call, revision);
    }
    if accepted {
      var policy: Option<Policy> := None;
      if pinned.Some? {
        MatchingIsAligned(g, revision.value, call.provider, anonymizer);
        policy := Some(PolicyOf(pinned.value.config, pinned.value.toolAdapters.live, anonymizer));
      }
      NextKeepsChecked(router.View(), Arrives(call, world, policy));
      OneStep(s0, before, Arrives(call, world, policy));
      done := before + [Arrives(call, world, policy)];
      var i := router.Accept(call, world, policy);
    }
  }

  method Step(g: Gateway, router: ToolRouter, anonymizer: Anonymizer, i: nat, ghost s0: Sys,
              ghost before: seq<ToolRuns.Event>)
    returns (ghost done: seq<ToolRuns.Event>)
    requires Linked(g, router, anonymizer) && router.View() == ToolRuns.Run(s0, before)
    modifies router
    ensures Linked(g, router, anonymizer) && router.View() == ToolRuns.Run(s0, done)
    ensures router.View() == Next(old(router.View()), Moves(i)) && done == before + [Moves(i)]
  {
    OneStep(s0, before, Moves(i));
    NextKeepsChecked(router.View(), Moves(i));
    done := before + [Moves(i)];
    if i < |router.jobs| {
      var next := Move(router.View(), i);
      router.jobs, router.log, router.handed, router.contacted := next.jobs, next.log, next.handed, next.contacted;
    }
  }

  /** The next event, whatever it is. */
  method TakeUp(g: Gateway, router: ToolRouter, anonymizer: Anonymizer, e: Joint,
                ghost l: set<AdapterTables.Adapter>, ghost t: set<AdapterTables.Adapter>)
    returns (ghost l': set<AdapterTables.Adapter>, ghost t': set<AdapterTables.Adapter>,
             ghost added: seq<ToolRuns.Event>)
    requires Linked(g, router, anonymizer) && Injective(g.digests)
    requires Conserved(g.llm.View(), l) && Conserved(g.tools.View(), t) && l !! t
    modifies g.holder, g.llm, g.llm.dict, g.tools, g.tools.dict, router
    ensures Linked(g, router, anonymizer) && router.View() == ToolRuns.Run(old(router.View()), added)
    ensures Conserved(g.llm.View(), l') && Conserved(g.tools.View(), t') && l' !! t'
    ensures JointMoved(g.holder.schema, old(g.Now()), e, g.Now())
    ensures added == Added(g.digests, anonymizer, old(g.Now()), e, g.Now())
  {
    l', t' := l, t;
    ghost var s0 := router.View();
    match e {
      case Administered(event) =>
        l', t', added := Administer(g, router, anonymizer, event, l, t, s0, []);
      case Asked(call, revision, world) =>
        var accepted;
        accepted, added := Ask(g, router, anonymizer, call, revision, world, s0, []);
      case Steps(i) =>
        added := Step(g, router, anonymizer, i, s0, []);
    }
  }

  method ServeOn(g: Gateway, router: ToolRouter, anonymizer: Anonymizer, schedule: seq<Joint>,
                 ghost l: set<AdapterTables.Adapter>, ghost t: set<AdapterTables.Adapter>)
    returns (ghost l': set<AdapterTables.Adapter>, ghost t': set<AdapterTables.Adapter>,
             ghost trace: seq<Moment>, ghost added: seq<ToolRuns.Event>)
    requires Linked(g, router, anonymizer) && Injective(g.digests)
    requires Conserved(g.llm.View(), l) && Conserved(g.tools.View(), t) && l !! t
    modifies g.holder, g.llm, g.llm.dict, g.tools, g.tools.dict, router
    ensures Linked(g, router, anonymizer) && router.View() == ToolRuns.Run(old(router.View()), added)
    ensures Conserved(g.llm.View(), l') && Conserved(g.tools.View(), t') && l' !! t'
    ensures JointTraced(g.holder.schema, schedule, trace) && trace[0] == old(g.Now()) && trace[|schedule|] == g.Now()
    ensures added == AllAdded(g.digests, anonymizer, schedule, trace)
    decreases |schedule|
  {
    l', t', trace, added := l, t, [g.Now()], [];
    if schedule != [] {
      ghost var path, first, rest;
      l', t', first := TakeUp(g, router, anonymizer, schedule[0], l, t);
      l', t', path, rest := ServeOn(g, router, anonymizer, schedule[1..], l', t');
      RunOn(old(router.View()), first, rest);
      JointTraceFrom(g.holder.schema, schedule, old(g.Now()), path);
      trace, added := [old(g.Now())] + path, first + rest;
      assert trace[1..] == path;
    }
  }

  lemma JointTraceFrom(s: Schema, schedule: seq<Joint>, m: Moment, rest: seq<Moment>)
    requires schedule != [] && JointTraced(s, schedule[1..], rest) && JointMoved(s, m, schedule[0], rest[0])
    ensures JointTraced(s, schedule, [m] + rest)
  {
    forall n | 0 <= n < |schedule| ensures JointMoved(s, ([m] + rest)[n], schedule[n], ([m] + rest)[n + 1]) {
      if n > 0 {
        assert JointMoved(s, rest[n - 1], schedule[1..][n - 1], rest[n]);
      }
    }
  }

  /** Requests, steps of the calls in flight and administrative calls in any order, from an
      idle router on.  It is a run of the router's machine, both registries are conserved, and
      whatever was handed over for a checked call went to an adapter for which its gates hold. */
  method ServeAll(g: Gateway, anonymizer: Anonymizer, schedule: seq<Joint>,
                  ghost l: set<AdapterTables.Adapter>, ghost t: set<AdapterTables.Adapter>)
    returns (router: ToolRouter, ghost l': set<AdapterTables.Adapter>, ghost t': set<AdapterTables.Adapter>,
             ghost trace: seq<Moment>, ghost done: seq<ToolRuns.Event>)
    requires g.Valid() && Injective(g.digests)
    requires Conserved(g.llm.View(), l) && Conserved(g.tools.View(), t) && l !! t
    modifies g.holder, g.llm, g.llm.dict, g.tools, g.tools.dict
    ensures fresh(router) && Linked(g, router, anonymizer)
    ensures router.View() == ToolRuns.Run(Start(PolicyOf(old(g.holder.config), old(g.tools.dict.live), anonymizer)),
                                          done)
    ensures JointTraced(g.holder.schema, schedule, trace) && trace[0] == old(g.Now()) && trace[|schedule|] == g.Now()
    ensures done == AllAdded(g.digests, anonymizer, schedule, trace)
    ensures Conserved(g.llm.View(), l') && Conserved(g.tools.View(), t')
    ensures forall k :: 0 <= k < |router.handed| ==> HandOverChecked(router.View(), k)
  {
    router := new ToolRouter(PolicyOf(g.holder.config, g.tools.dict.live, anonymizer));
    l', t', trace, done := ServeOn(g, router, anonymizer, schedule, l, t);
    forall k | 0 <= k < |router.handed| ensures HandOverChecked(router.View(), k) {
      LinkedHandOver(router.View(), k);
    }
  }
}
