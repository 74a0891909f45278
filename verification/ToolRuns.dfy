/** Tool calls in flight together: their steps interleave with one another and with changes
    of the configuration and of the adapters. */
module ToolRuns {
  import opened Wrappers
  import opened GatewayConfig
  import opened ToolEgress

  /** An entry of a log that all calls share; whose it is, is history only. */
  datatype Tagged<T> = Tagged(who: nat, item: T)

  datatype Stage = Arrived | Reaching(next: nat) | Writing(row: Row, ending: Ending) | Finished(ending: Ending)

  /** A call: the policy it was pinned to, if it was; the policy its gates were checked
      against, once they have been. */
  datatype Job = Job(call: Call, world: World, pinned: Option<Policy>, read: Option<Policy>, stage: Stage)

  /** The live policy and everything that has been asked, logged, handed over, contacted. */
  datatype Sys = Sys(policy: Policy, jobs: seq<Job>, log: seq<Tagged<Row>>, handed: seq<Tagged<HandOver>>,
                     contacted: seq<Tagged<Contact>>)

  datatype Event =
    | Arrives(call: Call, world: World, pinned: Option<Policy>)
    | Moves(who: nat)
    | PolicyChanges(policy: Policy)

  // ---- one step of one call: what it does without awaiting anything ---------------------

  function InForce(s: Sys, i: nat): Policy
    requires i < |s.jobs|
  {
    s.jobs[i].pinned.GetOr(s.policy)
  }

  /** All gates are checked at once, and a permitted call is handed over. */
  function CheckGates(s: Sys, i: nat): Sys
    requires i < |s.jobs|
  {
    var p := InForce(s, i);
    var job := s.jobs[i].(read := Some(p));
    if Permitted(p, job.call, job.world.limited) then
      s.(jobs := s.jobs[i := job.(stage := Reaching(0))], handed := s.handed + [Tagged(i, HandedOver(p, job.call))])
    else
      s.(jobs := s.jobs[i := job.(stage := Writing(GateRefusal(p, job.call, job.world.limited), EgressRefused))])
  }

  function GateRefusal(p: Policy, call: Call, limited: bool): Row
    requires !Permitted(p, call, limited)
  {
    Refusal(call, TierOf(p, call), GateReason(p, call, limited))
  }

  /** The guard is asked about the next address; behind the last one is the answer. */
  function TryHop(s: Sys, i: nat, k: nat): Sys
    requires i < |s.jobs|
  {
    var job := s.jobs[i];
    var hops, p := job.world.hops, job.read.GetOr(s.policy);
    if k < |hops| && hops[k].refusal.None? then
      s.(jobs := s.jobs[i := job.(stage := Reaching(k + 1))],
         contacted := s.contacted + [Tagged(i, Contact(job.call.provider, hops[k].url))])
    else
      s.(jobs := s.jobs[i := job.(stage := Landing(p, job.call, job.world, k))])
  }

  function Landing(p: Policy, call: Call, w: World, k: nat): Stage
    requires k < |w.hops| ==> w.hops[k].refusal.Some?
  {
    var tier := TierOf(p, call);
    if k < |w.hops| then Writing(Refusal(call, tier, SSRF + w.hops[k].refusal.value), EgressRefused)
    else if w.end.Broken? then Finished(Propagated)
    else Writing(Acceptance(call, tier, w.end), Returned(tier, MustAnonymize(call)))
  }

  function Write(s: Sys, i: nat, row: Row, ending: Ending): Sys
    requires i < |s.jobs|
  {
    s.(jobs := s.jobs[i := s.jobs[i].(stage := Finished(ending))], log := s.log + [Tagged(i, row)])
  }

  function Move(s: Sys, i: nat): Sys
    requires i < |s.jobs|
  {
    match s.jobs[i].stage
    case Arrived => CheckGates(s, i)
    case Reaching(k) => TryHop(s, i, k)
    case Writing(row, ending) => Write(s, i, row, ending)
    case Finished(_) => s
  }

  function Next(s: Sys, e: Event): Sys {
    match e
    case Arrives(call, world, pinned) => s.(jobs := s.jobs + [Job(call, world, pinned, None, Arrived)])
    case Moves(i) => if i < |s.jobs| then Move(s, i) else s
    case PolicyChanges(policy) => s.(policy := policy)
  }

  function Run(s: Sys, schedule: seq<Event>): Sys
    decreases |schedule|
  {
    if schedule == [] then s else Run(Next(s, schedule[0]), schedule[1..])
  }

  function Start(policy: Policy): Sys {
    Sys(policy, [], [], [], [])
  }

  // ---- a call's own part of a shared log --------------------------------------------------

  function Of<T>(log: seq<Tagged<T>>, i: nat): seq<T> {
    if |log| == 0 then []
    else Of(log[..|log| - 1], i) + if log[|log| - 1].who == i then [log[|log| - 1].item] else []
  }

  lemma OfSnoc<T>(log: seq<Tagged<T>>, x: Tagged<T>, i: nat)
    ensures Of(log + [x], i) == Of(log, i) + if x.who == i then [x.item] else []
  {
    assert (log + [x])[..|log|] == log;
  }

  /** No entry belongs to a call yet to come. */
  predicate Known<T>(log: seq<Tagged<T>>, n: nat) {
    forall k :: 0 <= k < |log| ==> log[k].who < n
  }

  lemma {:induction false} NoneOfLater<T>(log: seq<Tagged<T>>, n: nat, i: nat)
    requires Known(log, n) && i >= n
    ensures |Of(log, i)| == 0
  {
    if |log| != 0 {
      NoneOfLater(log[..|log| - 1], n, i);
    }
  }

  /** An entry is found among those of its call, behind its call's earlier ones. */
  lemma {:induction false} OfAt<T>(log: seq<Tagged<T>>, k: nat)
    requires k < |log|
    ensures var i := log[k].who; |Of(log[..k], i)| < |Of(log, i)| && Of(log, i)[|Of(log[..k], i)|] == log[k].item
  {
    var n := |log| - 1;
    if k < n {
      OfAt(log[..n], k);
      assert log[..n][..k] == log[..k];
    }
  }

  lemma {:induction false} OfGrows<T>(log: seq<Tagged<T>>, k: nat, i: nat)
    requires k <= |log|
    ensures Of(log[..k], i) <= Of(log, i)
  {
    if k == |log| {
      assert log[..k] == log;
    } else {
      OfGrows(log[..|log| - 1], k, i);
      assert log[..|log| - 1][..k] == log[..k];
    }
  }

  // ---- the invariant ------------------------------------------------------------------------

  predicate NoRefusalBefore(hops: seq<Hop>, k: nat) {
    k <= |hops| && forall j :: 0 <= j < k ==> hops[j].refusal.None?
  }

  /** A call against its own part of the logs.  Everything it does follows the one policy
      it read, which is the one it was pinned to, if it was. */
  ghost predicate Kept(job: Job, rows: seq<Row>, handOvers: seq<HandOver>, contacts: seq<Contact>) {
    if job.stage.Arrived? then job.read.None? && rows == [] && handOvers == [] && contacts == []
    else
      && job.read.Some? && (job.pinned.Some? ==> job.read == job.pinned)
      && handOvers == Listed(HandOverOf(job.read.value, job.call, job.world))
      && contacts == (if job.stage.Reaching? then ContactsUpTo(job)
                      else ContactsOf(job.read.value, job.call, job.world))
      && rows == (if job.stage.Finished? then Listed(RowOf(job.read.value, job.call, job.world)) else [])
      && StageKept(job.read.value, job.call, job.world, job.stage)
  }

  function ContactsUpTo(job: Job): seq<Contact>
    requires job.stage.Reaching?
  {
    var k := job.stage.next;
    Contacts(job.call.provider, if k <= |job.world.hops| then job.world.hops[..k] else [])
  }

  ghost predicate StageKept(p: Policy, call: Call, w: World, stage: Stage) {
    match stage
    case Arrived => true
    case Reaching(k) => Permitted(p, call, w.limited) && NoRefusalBefore(w.hops, k)
    case Writing(row, ending) => ending == EndingOf(p, call, w) && RowOf(p, call, w) == Some(row)
    case Finished(ending) => ending == EndingOf(p, call, w)
  }

  ghost predicate JobSound(s: Sys, i: nat)
    requires i < |s.jobs|
  {
    Kept(s.jobs[i], Of(s.log, i), Of(s.handed, i), Of(s.contacted, i))
  }

  ghost predicate Sound(s: Sys) {
    && (forall i :: 0 <= i < |s.jobs| ==> JobSound(s, i))
    && Known(s.log, |s.jobs|) && Known(s.handed, |s.jobs|) && Known(s.contacted, |s.jobs|)
  }

  lemma CheckGatesKeeps(s: Sys, i: nat)
    requires i < |s.jobs| && s.jobs[i].stage.Arrived? && JobSound(s, i)
    ensures JobSound(CheckGates(s, i), i)
  {
    var p, job := InForce(s, i), s.jobs[i];
    if Permitted(p, job.call, job.world.limited) {
      OfSnoc(s.handed, Tagged(i, HandedOver(p, job.call)), i);
    }
  }

  /** At the next address of a permitted call: one more contact, or the end of the contacts. */
  lemma AtHop(p: Policy, call: Call, w: World, k: nat)
    requires Permitted(p, call, w.limited) && NoRefusalBefore(w.hops, k)
    ensures k < |w.hops| && w.hops[k].refusal.None? ==>
              Contacts(call.provider, w.hops[..k + 1]) ==
              Contacts(call.provider, w.hops[..k]) + [Contact(call.provider, w.hops[k].url)]
    ensures k < |w.hops| && w.hops[k].refusal.Some? ==>
              RefusedAt(w.hops) == Some(k) && ContactsOf(p, call, w) == Contacts(call.provider, w.hops[..k])
    ensures k == |w.hops| ==> RefusedAt(w.hops).None? && ContactsOf(p, call, w) == Contacts(call.provider, w.hops[..k])
  {
    RefusedAtFinds(w.hops);
    if k == |w.hops| {
      assert w.hops[..k] == w.hops;
    }
  }

  lemma LandingKept(p: Policy, call: Call, w: World, k: nat)
    requires Permitted(p, call, w.limited) && NoRefusalBefore(w.hops, k)
    requires k < |w.hops| ==> w.hops[k].refusal.Some?
    ensures StageKept(p, call, w, Landing(p, call, w, k))
    ensures Landing(p, call, w, k).Finished? ==> RowOf(p, call, w).None?
  {
    AtHop(p, call, w, k);
  }

  lemma ContactKept(job: Job, rows: seq<Row>, handOvers: seq<HandOver>, contacts: seq<Contact>, k: nat)
    requires job.stage == Reaching(k) && k < |job.world.hops| && job.world.hops[k].refusal.None?
    requires Kept(job, rows, handOvers, contacts)
    ensures Kept(job.(stage := Reaching(k + 1)), rows, handOvers,
                 contacts + [Contact(job.call.provider, job.world.hops[k].url)])
  {
    AtHop(job.read.value, job.call, job.world, k);
  }

  lemma LandedKept(job: Job, rows: seq<Row>, handOvers: seq<HandOver>, contacts: seq<Contact>, k: nat)
    requires job.stage == Reaching(k) && (k < |job.world.hops| ==> job.world.hops[k].refusal.Some?)
    requires Kept(job, rows, handOvers, contacts)
    ensures Kept(job.(stage := Landing(job.read.value, job.call, job.world, k)), rows, handOvers, contacts)
  {
    AtHop(job.read.value, job.call, job.world, k);
    LandingKept(job.read.value, job.call, job.world, k);
  }

  lemma TryHopKeeps(s: Sys, i: nat, k: nat)
    requires i < |s.jobs| && s.jobs[i].stage == Reaching(k) && JobSound(s, i)
    ensures JobSound(TryHop(s, i, k), i)
  {
    var job := s.jobs[i];
    if k < |job.world.hops| && job.world.hops[k].refusal.None? {
      ContactKept(job, Of(s.log, i), Of(s.handed, i), Of(s.contacted, i), k);
      OfSnoc(s.contacted, Tagged(i, Contact(job.call.provider, job.world.hops[k].url)), i);
    } else {
      LandedKept(job, Of(s.log, i), Of(s.handed, i), Of(s.contacted, i), k);
    }
  }

  lemma WriteKeeps(s: Sys, i: nat, row: Row, ending: Ending)
    requires i < |s.jobs| && s.jobs[i].stage == Writing(row, ending) && JobSound(s, i)
    ensures JobSound(Write(s, i, row, ending), i)
  {
    OfSnoc(s.log, Tagged(i, row), i);
  }

  lemma MoveKeepsOwn(s: Sys, i: nat)
    requires i < |s.jobs| && JobSound(s, i)
    ensures JobSound(Move(s, i), i)
  {
    match s.jobs[i].stage
    case Arrived => CheckGatesKeeps(s, i);
    case Reaching(k) => TryHopKeeps(s, i, k);
    case Writing(row, ending) => WriteKeeps(s, i, row, ending);
    case Finished(_) =>
  }

  /** At most one entry more, of call `i`. */
  ghost predicate Appends<T>(log: seq<Tagged<T>>, log': seq<Tagged<T>>, i: nat) {
    log' == log || (|log'| > |log| && log'[|log|].who == i && log' == log + [log'[|log|]])
  }

  lemma AppendsLeaves<T>(log: seq<Tagged<T>>, log': seq<Tagged<T>>, i: nat, k: nat)
    requires Appends(log, log', i) && i != k
    ensures Of(log', k) == Of(log, k)
  {
    if log' != log {
      OfSnoc(log, log'[|log|], k);
    }
  }

  lemma MoveAppends(s: Sys, i: nat)
    requires i < |s.jobs|
    ensures var s' := Move(s, i);
            && |s'.jobs| == |s.jobs| && (forall k :: 0 <= k < |s.jobs| && k != i ==> s'.jobs[k] == s.jobs[k])
            && Appends(s.log, s'.log, i) && Appends(s.handed, s'.handed, i) && Appends(s.contacted, s'.contacted, i)
  {
  }

  lemma MoveKeepsOthers(s: Sys, i: nat, k: nat)
    requires i < |s.jobs| && k < |s.jobs| && i != k && JobSound(s, k)
    ensures k < |Move(s, i).jobs| && JobSound(Move(s, i), k)
  {
    MoveAppends(s, i);
    var s' := Move(s, i);
    AppendsLeaves(s.log, s'.log, i, k);
    AppendsLeaves(s.handed, s'.handed, i, k);
    AppendsLeaves(s.contacted, s'.contacted, i, k);
  }

  lemma MoveKeepsKnown(s: Sys, i: nat)
    requires Sound(s) && i < |s.jobs|
    ensures var s' := Move(s, i);
            && |s'.jobs| == |s.jobs|
            && Known(s'.log, |s.jobs|) && Known(s'.handed, |s.jobs|) && Known(s'.contacted, |s.jobs|)
  {
    MoveAppends(s, i);
  }

  lemma MoveKeepsJob(s: Sys, i: nat, k: nat)
    requires Sound(s) && i < |s.jobs| && k < |s.jobs| && k < |Move(s, i).jobs|
    ensures JobSound(Move(s, i), k)
  {
    assert JobSound(s, k);
    if k == i {
      MoveKeepsOwn(s, i);
    } else {
      MoveKeepsOthers(s, i, k);
    }
  }

  lemma MoveKeeps(s: Sys, i: nat)
    requires Sound(s) && i < |s.jobs|
    ensures Sound(Move(s, i))
  {
    MoveKeepsKnown(s, i);
    var s' := Move(s, i);
    forall k | 0 <= k < |s'.jobs| ensures JobSound(s', k) {
      MoveKeepsJob(s, i, k);
    }
  }

  lemma ArrivalKeeps(s: Sys, call: Call, world: World, pinned: Option<Policy>)
    requires Sound(s)
    ensures Sound(Next(s, Arrives(call, world, pinned)))
  {
    var s' := Next(s, Arrives(call, world, pinned));
    NoneOfLater(s.log, |s.jobs|, |s.jobs|);
    NoneOfLater(s.handed, |s.jobs|, |s.jobs|);
    NoneOfLater(s.contacted, |s.jobs|, |s.jobs|);
    forall k | 0 <= k < |s'.jobs| ensures JobSound(s', k) {
      assert k < |s.jobs| ==> JobSound(s, k);
    }
  }

  lemma NextKeeps(s: Sys, e: Event)
    requires Sound(s)
    ensures Sound(Next(s, e))
  {
    match e
    case Arrives(call, world, pinned) => ArrivalKeeps(s, call, world, pinned);
    case Moves(i) => if i < |s.jobs| { MoveKeeps(s, i); }
    case PolicyChanges(_) =>
      forall k | 0 <= k < |s.jobs| ensures JobSound(Next(s, e), k) {
        assert JobSound(s, k);
      }
  }

  /** Under every schedule of arrivals, steps and policy changes. */
  lemma {:induction false} RunSound(s: Sys, schedule: seq<Event>)
    requires Sound(s)
    ensures Sound(Run(s, schedule))
    decreases |schedule|
  {
    if schedule != [] {
      NextKeeps(s, schedule[0]);
      RunSound(Next(s, schedule[0]), schedule[1..]);
    }
  }

  lemma StartSound(policy: Policy)
    ensures Sound(Start(policy))
  {
  }

  lemma {:induction false} RunOn(s: Sys, first: seq<Event>, second: seq<Event>)
    ensures Run(s, first + second) == Run(Run(s, first), second)
    decreases |first|
  {
    if first == [] {
      assert first + second == second;
    } else {
      RunOn(Next(s, first[0]), first[1..], second);
      assert (first + second)[1..] == first[1..] + second;
    }
  }

  lemma RunLast(s: Sys, schedule: seq<Event>)
    requires schedule != []
    ensures var n := |schedule| - 1; Run(s, schedule) == Next(Run(s, schedule[..n]), schedule[n])
  {
    var n := |schedule| - 1;
    RunOn(s, schedule[..n], [schedule[n]]);
    assert schedule[..n] + [schedule[n]] == schedule;
    assert Run(Run(s, schedule[..n]), [schedule[n]]) == Run(Next(Run(s, schedule[..n]), schedule[n]), []);
  }

  // ---- what holds of every call in every run ----------------------------------------------

  /** The rows of a call: one of its kind once it has ended, none before; none at all for a
      call that was handed over, met no refusal and ended in an unclassified error. */
  lemma RowsOfEachCall(policy: Policy, schedule: seq<Event>, i: nat)
    requires i < |Run(Start(policy), schedule).jobs|
    ensures RowsTold(Run(Start(policy), schedule).jobs[i], Of(Run(Start(policy), schedule).log, i))
  {
    var s := SoundRun(policy, schedule);
    assert JobSound(s, i);
    RefusedAtFinds(s.jobs[i].world.hops);
  }

  ghost predicate RowsTold(job: Job, rows: seq<Row>) {
    if !job.stage.Finished? then rows == []
    else
      && job.read.Some?
      && (match job.stage.ending
          case Returned(tier, anonymized) =>
            job.world.end.Answered? && anonymized == MustAnonymize(job.call) &&
              rows == [Acceptance(job.call, tier, job.world.end)]
          case EgressRefused =>
            |rows| == 1 && rows[0].refused && RowOf(job.read.value, job.call, job.world) == Some(rows[0])
          case Propagated => rows == [])
      && (job.stage.ending.Propagated? <==>
          && Permitted(job.read.value, job.call, job.world.limited) && job.world.end.Broken?
          && NoRefusalBefore(job.world.hops, |job.world.hops|))
  }

  lemma SoundRun(policy: Policy, schedule: seq<Event>) returns (s: Sys)
    ensures s == Run(Start(policy), schedule) && Sound(s)
  {
    StartSound(policy);
    RunSound(Start(policy), schedule);
    s := Run(Start(policy), schedule);
  }

  lemma Twice<T>(log: seq<Tagged<T>>, a: nat, b: nat)
    requires a < b < |log| && log[a].who == log[b].who
    ensures |Of(log, log[a].who)| >= 2
  {
    OfAt(log, b);
    OfAt(log[..b], a);
    assert log[..b][..a] == log[..a];
  }

  lemma HandOverGoverned(s: Sys, k: nat)
    requires Sound(s) && k < |s.handed|
    ensures var i := s.handed[k].who;
            && i < |s.jobs| && Governed(s.jobs[i], s.handed[k].item)
            && forall m :: 0 <= m < |s.handed| && s.handed[m].who == i ==> m == k
  {
    var i := s.handed[k].who;
    assert JobSound(s, i);
    OfAt(s.handed, k);
    forall m | 0 <= m < |s.handed| && s.handed[m].who == i ensures m == k {
      if m < k {
        Twice(s.handed, m, k);
      } else if k < m {
        Twice(s.handed, k, m);
      }
    }
  }

  /** Whatever has been handed over belongs to one call, once, and every gate held for that
      call under the policy it read. */
  lemma EveryHandOverGoverned(policy: Policy, schedule: seq<Event>, k: nat)
    requires k < |Run(Start(policy), schedule).handed|
    ensures var s := Run(Start(policy), schedule);
            var i := s.handed[k].who;
            && i < |s.jobs| && Governed(s.jobs[i], s.handed[k].item)
            && forall m :: 0 <= m < |s.handed| && s.handed[m].who == i ==> m == k
  {
    var s := SoundRun(policy, schedule);
    HandOverGoverned(s, k);
  }

  /** A tool call is under its ceiling with the configured tier, goes to the adapter that was
      live, and when anonymization is required hands over what the anonymizer returned. */
  ghost predicate Governed(job: Job, h: HandOver) {
    && job.read.Some? && (job.pinned.Some? ==> job.read == job.pinned)
    && var p, call := job.read.value, job.call;
    && Permitted(p, call, job.world.limited) && h == HandedOver(p, call)
    && (call.ToolCall? ==>
          var tool := ToolByName(p.config.tools, call.provider);
          && tool.Some? && h.ToolHandOver? && h.provider == call.provider && call.provider in p.adapters
          && h.adapter == p.adapters[call.provider]
          && (call.ceiling.Some? ==> tool.value.egressTier <= call.ceiling.value)
          && (call.anonymize ==>
                AnonymizationOn(p, tool.value) && p.anonymizer(tool.value.kind, call.tool, call.args) == Some(h.args)))
  }

  /** Every contact belongs to a call that has been handed over, and is its next address:
      the guard let that one and all addresses of the call before it through. */
  lemma EveryContactGuarded(policy: Policy, schedule: seq<Event>, k: nat)
    requires k < |Run(Start(policy), schedule).contacted|
    ensures var s := Run(Start(policy), schedule);
            var i := s.contacted[k].who;
            var n := |Of(s.contacted[..k], i)|;
            && i < |s.jobs| && s.jobs[i].read.Some?
            && Permitted(s.jobs[i].read.value, s.jobs[i].call, s.jobs[i].world.limited)
            && Of(s.handed, i) == [HandedOver(s.jobs[i].read.value, s.jobs[i].call)]
            && n < |s.jobs[i].world.hops| && NoRefusalBefore(s.jobs[i].world.hops, n + 1)
            && s.contacted[k].item == Contact(s.jobs[i].call.provider, s.jobs[i].world.hops[n].url)
  {
    var s := SoundRun(policy, schedule);
    assert JobSound(s, s.contacted[k].who);
    OfAt(s.contacted, k);
    RefusedAtFinds(s.jobs[s.contacted[k].who].world.hops);
  }

  // ---- what the audit log says -------------------------------------------------------------

  /** The name under which a call is logged. */
  predicate LoggedAs(call: Call, tool: string) {
    match call
    case ToolCall(_, name, _, _, _, _) => tool == name
    case OAuthDiscover(_, _) => tool == "oauth.discover"
    case OAuthToken(_, _, _) => tool == "oauth.token"
  }

  /** The provider is not configured, or has no live adapter, or is no OAuth server. */
  predicate Unknown(p: Policy, call: Call) {
    var tool := ToolByName(p.config.tools, call.provider);
    || tool.None?
    || (call.ToolCall? && call.provider !in p.adapters)
    || (!call.ToolCall? && (tool.value.kind != "mcp" || !tool.value.oauth))
  }

  predicate AboveCeiling(p: Policy, call: Call) {
    var tool := ToolByName(p.config.tools, call.provider);
    call.ToolCall? && call.ceiling.Some? && tool.Some? && tool.value.egressTier > call.ceiling.value
  }

  /** The arguments an anonymized call sends, if anonymization is on everywhere and succeeds. */
  function Anonymized(p: Policy, call: Call): Option<Args>
    requires call.ToolCall?
  {
    var tool :- ToolByName(p.config.tools, call.provider);
    if tool.anonymizeOutbound && p.config.settings.anonymization.enabled &&
       tool.egressTier in p.config.settings.anonymization.applyAtTiers
    then p.anonymizer(tool.kind, call.tool, call.args)
    else None
  }

  /** An accepted row: whose call it is, the configured tier, the sizes of what went out and
      came in, and whether the arguments were anonymized. */
  ghost predicate AcceptedRowTold(job: Job, row: Row, handed: Option<HandOver>) {
    && job.read.Some? && job.world.end.Answered?
    && var p, call := job.read.value, job.call;
    var tool := ToolByName(p.config.tools, call.provider);
    && row.provider == call.provider && LoggedAs(call, row.tool) && row.requestId == call.requestId
    && !row.refused && row.reason == None
    && !Unknown(p, call) && !job.world.limited && !AboveCeiling(p, call)
    && tool.Some? && row.tier == tool.value.egressTier
    && row.bytesIn == Some(job.world.end.bytesIn)
    && row.bytesOut == (match call
                        case ToolCall(_, _, _, _, _, _) => Some(job.world.end.bytesOut)
                        case OAuthDiscover(_, _) => Some(0)
                        case OAuthToken(_, _, size) => Some(size))
    && (row.anonymized <==> call.ToolCall? && call.anonymize)
    && (call.ToolCall? ==>
          && handed.Some? && handed.value.ToolHandOver?
          && (if call.anonymize then Anonymized(p, call) == Some(handed.value.args)
              else handed.value.args == call.args))
    && job.stage == Finished(Returned(row.tier, row.anonymized))
  }

  /** A refused row: the reason is that of the first gate that fails, or the egress guard's. */
  ghost predicate RefusedRowTold(job: Job, row: Row) {
    && job.read.Some? && job.stage == Finished(EgressRefused)
    && var p, call := job.read.value, job.call;
    var tool := ToolByName(p.config.tools, call.provider);
    && row.provider == call.provider && LoggedAs(call, row.tool) && row.requestId == call.requestId
    && row.refused && !row.anonymized && row.bytesOut == None && row.bytesIn == None
    && (if Unknown(p, call) then row.tier == 0 else tool.Some? && row.tier == tool.value.egressTier)
    && if Unknown(p, call) then
         row.reason == Some(if call.ToolCall? then "unknown tool provider" else "unknown oauth provider")
       else if job.world.limited then row.reason == Some("rate limit exceeded")
       else if AboveCeiling(p, call) then row.reason == Some("egress_tier exceeds policy ceiling")
       else if call.ToolCall? && call.anonymize && Anonymized(p, call).None? then
         row.reason == Some("required authority anonymization unavailable")
       else exists k: nat :: GuardRefuses(job.world.hops, k, row.reason)
  }

  /** The guard let the first `k` addresses through and refuses the next one for this reason. */
  predicate GuardRefuses(hops: seq<Hop>, k: nat, reason: Option<string>) {
    RefusedFirst(hops, k) && reason == Some("ssrf: " + hops[k].refusal.value)
  }

  lemma RowTold(job: Job, row: Row, handed: Option<HandOver>)
    requires job.stage.Finished? && job.read.Some? && RowOf(job.read.value, job.call, job.world) == Some(row)
    requires StageKept(job.read.value, job.call, job.world, job.stage)
    requires handed == HandOverOf(job.read.value, job.call, job.world)
    ensures if row.refused then RefusedRowTold(job, row) else AcceptedRowTold(job, row, handed)
  {
    RefusedAtFinds(job.world.hops);
    if row.refused && Permitted(job.read.value, job.call, job.world.limited) {
      assert GuardRefuses(job.world.hops, RefusedAt(job.world.hops).value, row.reason);
    }
  }

  /** What an ended call has contacted: every address up to the first refused one, in order;
      none at all when a gate stopped it. */
  lemma ContactsTold(policy: Policy, schedule: seq<Event>, i: nat)
    requires i < |Run(Start(policy), schedule).jobs| && Run(Start(policy), schedule).jobs[i].stage.Finished?
    ensures var s := Run(Start(policy), schedule);
            var job, contacts := s.jobs[i], Of(s.contacted, i);
            && (Of(s.handed, i) == [] ==> contacts == [])
            && |contacts| <= |job.world.hops|
            && (forall n :: 0 <= n < |contacts| ==>
                  contacts[n].provider == job.call.provider && contacts[n].url == job.world.hops[n].url)
            && (Of(s.handed, i) != [] ==>
                  NoRefusalBefore(job.world.hops, |contacts|) &&
                  (|contacts| < |job.world.hops| ==> job.world.hops[|contacts|].refusal.Some?))
  {
    var s := SoundRun(policy, schedule);
    assert JobSound(s, i);
    RefusedAtFinds(s.jobs[i].world.hops);
  }

  /** Every row of the log, at every moment of every run. */
  lemma EveryRowTold(policy: Policy, schedule: seq<Event>, k: nat)
    requires k < |Run(Start(policy), schedule).log|
    ensures var s := Run(Start(policy), schedule);
            var i, row := s.log[k].who, s.log[k].item;
            && i < |s.jobs| && |Of(s.handed, i)| <= 1
            && if row.refused then RefusedRowTold(s.jobs[i], row)
               else AcceptedRowTold(s.jobs[i], row, if Of(s.handed, i) == [] then None else Some(Of(s.handed, i)[0]))
  {
    var s := SoundRun(policy, schedule);
    var i := s.log[k].who;
    assert JobSound(s, i);
    OfAt(s.log, k);
    var job := s.jobs[i];
    RowTold(job, s.log[k].item, HandOverOf(job.read.value, job.call, job.world));
  }

  /** A call has read a policy after a step: it had before, or it read it in that step. */
  lemma ReadInStep(s: Sys, e: Event, i: nat)
    requires i < |Next(s, e).jobs| && Next(s, e).jobs[i].read.Some?
    requires i < |s.jobs| ==> (s.jobs[i].stage.Arrived? <==> s.jobs[i].read.None?)
    ensures i < |s.jobs|
    ensures s.jobs[i].stage.Arrived? ==> e == Moves(i) && Next(s, e).jobs[i].read == Some(InForce(s, i))
    ensures !s.jobs[i].stage.Arrived? ==> s.jobs[i].read.Some? && Next(s, e).jobs[i].read == s.jobs[i].read
  {
  }

  lemma ReadOnceChecked(policy: Policy, schedule: seq<Event>, i: nat)
    ensures var s := Run(Start(policy), schedule);
            i < |s.jobs| ==> (s.jobs[i].stage.Arrived? <==> s.jobs[i].read.None?)
  {
    var s := SoundRun(policy, schedule);
    assert i < |s.jobs| ==> JobSound(s, i);
  }

  /** The policy a call read is the one it was pinned to, or the live one at the moment its
      gates were checked: later changes do not reach it. */
  lemma {:induction false} ReadWasInForce(policy: Policy, schedule: seq<Event>, i: nat) returns (n: nat)
    requires i < |Run(Start(policy), schedule).jobs| && Run(Start(policy), schedule).jobs[i].read.Some?
    ensures n < |schedule| && schedule[n] == Moves(i)
    ensures var s := Run(Start(policy), schedule[..n]);
            && i < |s.jobs| && s.jobs[i].stage.Arrived?
            && Run(Start(policy), schedule).jobs[i].read == Some(InForce(s, i))
    decreases |schedule|
  {
    n := |schedule| - 1;
    RunLast(Start(policy), schedule);
    var s := Run(Start(policy), schedule[..n]);
    ReadOnceChecked(policy, schedule[..n], i);
    ReadInStep(s, schedule[n], i);
    if !s.jobs[i].stage.Arrived? {
      var m := ReadWasInForce(policy, schedule[..n], i);
      assert schedule[..n][..m] == schedule[..m];
      n := m;
    }
  }

  /** A call keeps what it asked for and what it was pinned to. */
  lemma CallsStay(s: Sys, e: Event, i: nat)
    requires i < |s.jobs|
    ensures i < |Next(s, e).jobs|
    ensures Next(s, e).jobs[i].call == s.jobs[i].call && Next(s, e).jobs[i].pinned == s.jobs[i].pinned
  {
    if e.Moves? && e.who < |s.jobs| && e.who != i {
      MoveAppends(s, e.who);
    }
  }

  // ---- what holds of all calls together -----------------------------------------------------

  function Count(jobs: seq<Job>, f: Job -> bool): nat {
    if jobs == [] then 0
    else Count(jobs[..|jobs| - 1], f) + if f(jobs[|jobs| - 1]) then 1 else 0
  }

  function One(b: bool): nat {
    if b then 1 else 0
  }

  lemma CountSnoc(jobs: seq<Job>, job: Job, f: Job -> bool)
    ensures Count(jobs + [job], f) == Count(jobs, f) + One(f(job))
  {
    assert (jobs + [job])[..|jobs|] == jobs;
  }

  lemma {:induction false} CountUpdate(jobs: seq<Job>, i: nat, job: Job, f: Job -> bool)
    requires i < |jobs|
    ensures Count(jobs[i := job], f) + One(f(jobs[i])) == Count(jobs, f) + One(f(job))
  {
    var n := |jobs| - 1;
    if i == n {
      assert jobs[i := job][..n] == jobs[..n];
    } else {
      CountUpdate(jobs[..n], i, job, f);
      assert jobs[i := job][..n] == jobs[..n][i := job];
    }
  }

  function CountRows(log: seq<Tagged<Row>>, refused: bool): nat {
    if log == [] then 0
    else CountRows(log[..|log| - 1], refused) + if log[|log| - 1].item.refused == refused then 1 else 0
  }

  lemma CountRowsSnoc(log: seq<Tagged<Row>>, x: Tagged<Row>, refused: bool)
    ensures CountRows(log + [x], refused) == CountRows(log, refused) + One(x.item.refused == refused)
  {
    assert (log + [x])[..|log|] == log;
  }

  predicate HasReturned(job: Job) {
    job.stage.Finished? && job.stage.ending.Returned?
  }

  predicate WasRefused(job: Job) {
    job.stage.Finished? && job.stage.ending.EgressRefused?
  }

  predicate Lost(job: Job) {
    job.stage.Finished? && job.stage.ending.Propagated?
  }

  predicate InFlight(job: Job) {
    !job.stage.Finished?
  }

  predicate HandedOn(job: Job) {
    job.read.Some? && Permitted(job.read.value, job.call, job.world.limited)
  }

  ghost predicate Balanced(s: Sys) {
    && CountRows(s.log, false) == Count(s.jobs, HasReturned)
    && CountRows(s.log, true) == Count(s.jobs, WasRefused)
    && |s.log| + Count(s.jobs, Lost) + Count(s.jobs, InFlight) == |s.jobs|
    && |s.handed| == Count(s.jobs, HandedOn)
  }

  lemma TallyUpdate(jobs: seq<Job>, i: nat, job: Job)
    requires i < |jobs|
    ensures Count(jobs[i := job], HasReturned) + One(HasReturned(jobs[i])) ==
            Count(jobs, HasReturned) + One(HasReturned(job))
    ensures Count(jobs[i := job], WasRefused) + One(WasRefused(jobs[i])) ==
            Count(jobs, WasRefused) + One(WasRefused(job))
    ensures Count(jobs[i := job], Lost) + One(Lost(jobs[i])) == Count(jobs, Lost) + One(Lost(job))
    ensures Count(jobs[i := job], InFlight) + One(InFlight(jobs[i])) == Count(jobs, InFlight) + One(InFlight(job))
    ensures Count(jobs[i := job], HandedOn) + One(HandedOn(jobs[i])) == Count(jobs, HandedOn) + One(HandedOn(job))
  {
    CountUpdate(jobs, i, job, HasReturned);
    CountUpdate(jobs, i, job, WasRefused);
    CountUpdate(jobs, i, job, Lost);
    CountUpdate(jobs, i, job, InFlight);
    CountUpdate(jobs, i, job, HandedOn);
  }

  lemma CheckGatesBalances(s: Sys, i: nat)
    requires i < |s.jobs| && s.jobs[i].stage.Arrived? && JobSound(s, i) && Balanced(s)
    ensures Balanced(CheckGates(s, i))
  {
    TallyUpdate(s.jobs, i, CheckGates(s, i).jobs[i]);
  }

  /** A call in flight goes on, or is lost. */
  lemma TallyGoesOn(jobs: seq<Job>, i: nat, stage: Stage)
    requires i < |jobs| && !jobs[i].stage.Finished? && (stage.Finished? ==> stage.ending.Propagated?)
    ensures var jobs' := jobs[i := jobs[i].(stage := stage)];
            && Count(jobs', HasReturned) == Count(jobs, HasReturned) &&
               Count(jobs', WasRefused) == Count(jobs, WasRefused)
            && Count(jobs', HandedOn) == Count(jobs, HandedOn)
            && Count(jobs', Lost) + Count(jobs', InFlight) == Count(jobs, Lost) + Count(jobs, InFlight)
  {
    TallyUpdate(jobs, i, jobs[i].(stage := stage));
  }

  lemma TryHopBalances(s: Sys, i: nat, k: nat)
    requires i < |s.jobs| && s.jobs[i].stage == Reaching(k) && Balanced(s)
    ensures Balanced(TryHop(s, i, k))
  {
    TallyGoesOn(s.jobs, i, TryHop(s, i, k).jobs[i].stage);
  }

  lemma WriteBalances(s: Sys, i: nat, row: Row, ending: Ending)
    requires i < |s.jobs| && s.jobs[i].stage == Writing(row, ending) && Balanced(s)
    requires !ending.Propagated? && (row.refused <==> ending.EgressRefused?)
    ensures Balanced(Write(s, i, row, ending))
  {
    TallyUpdate(s.jobs, i, Write(s, i, row, ending).jobs[i]);
    CountRowsSnoc(s.log, Tagged(i, row), true);
    CountRowsSnoc(s.log, Tagged(i, row), false);
  }

  lemma NextBalances(s: Sys, e: Event)
    requires Sound(s) && Balanced(s)
    ensures Balanced(Next(s, e))
  {
    match e
    case Arrives(call, world, pinned) =>
      var job := Job(call, world, pinned, None, Arrived);
      CountSnoc(s.jobs, job, HasReturned);
      CountSnoc(s.jobs, job, WasRefused);
      CountSnoc(s.jobs, job, Lost);
      CountSnoc(s.jobs, job, InFlight);
      CountSnoc(s.jobs, job, HandedOn);
    case PolicyChanges(_) =>
    case Moves(i) =>
      if i < |s.jobs| {
        assert JobSound(s, i);
        match s.jobs[i].stage
        case Arrived => CheckGatesBalances(s, i);
        case Reaching(k) => TryHopBalances(s, i, k);
        case Writing(row, ending) => WriteBalances(s, i, row, ending);
        case Finished(_) =>
      }
  }

  lemma {:induction false} RunBalances(s: Sys, schedule: seq<Event>)
    requires Sound(s) && Balanced(s)
    ensures Balanced(Run(s, schedule))
    decreases |schedule|
  {
    if schedule != [] {
      NextKeeps(s, schedule[0]);
      NextBalances(s, schedule[0]);
      RunBalances(Next(s, schedule[0]), schedule[1..]);
    }
  }

  /** At every moment: as many accepted rows as returned calls and refused rows as refused
      ones; rows, calls lost to an unclassified error and calls in flight make all calls; and
      the lost ones are among those handed over. */
  lemma EveryCallAccounted(policy: Policy, schedule: seq<Event>)
    ensures var s := Run(Start(policy), schedule);
            && CountRows(s.log, false) == Count(s.jobs, HasReturned)
            && CountRows(s.log, true) == Count(s.jobs, WasRefused)
            && |s.log| + Count(s.jobs, Lost) + Count(s.jobs, InFlight) == |s.jobs|
            && Count(s.jobs, Lost) <= Count(s.jobs, HandedOn) == |s.handed| <= |s.jobs|
  {
    StartSound(policy);
    RunBalances(Start(policy), schedule);
    var s := SoundRun(policy, schedule);
    forall i | 0 <= i < |s.jobs| && Lost(s.jobs[i]) ensures HandedOn(s.jobs[i]) {
      assert JobSound(s, i);
    }
    CountWithin(s.jobs, Lost, HandedOn);
    CountAtMost(s.jobs, HandedOn);
  }

  lemma {:induction false} CountWithin(jobs: seq<Job>, f: Job -> bool, g: Job -> bool)
    requires forall i :: 0 <= i < |jobs| && f(jobs[i]) ==> g(jobs[i])
    ensures Count(jobs, f) <= Count(jobs, g)
  {
    if jobs != [] {
      CountWithin(jobs[..|jobs| - 1], f, g);
    }
  }

  lemma {:induction false} CountAtMost(jobs: seq<Job>, f: Job -> bool)
    ensures Count(jobs, f) <= |jobs|
  {
    if jobs != [] {
      CountAtMost(jobs[..|jobs| - 1], f);
    }
  }

  // ---- order --------------------------------------------------------------------------------

  lemma {:induction false} LogsGrow(s: Sys, schedule: seq<Event>)
    ensures s.log <= Run(s, schedule).log && |s.jobs| <= |Run(s, schedule).jobs|
    decreases |schedule|
  {
    if schedule != [] {
      LogsGrow(Next(s, schedule[0]), schedule[1..]);
    }
  }

  /** The rows stand in the order in which the calls ended: when one call has ended and
      another has not, the row of the first is and stays before the row of the second. */
  lemma RowsInOrderOfEnding(policy: Policy, schedule: seq<Event>, later: seq<Event>, i: nat, j: nat)
    requires i < |Run(Start(policy), schedule).jobs| && Run(Start(policy), schedule).jobs[i].stage.Finished?
    requires j < |Run(Start(policy), schedule).jobs| ==> !Run(Start(policy), schedule).jobs[j].stage.Finished?
    ensures var log := Run(Start(policy), schedule + later).log;
            forall a, b :: 0 <= a < |log| && 0 <= b < |log| && log[a].who == i && log[b].who == j ==> a < b
  {
    var s, t := Run(Start(policy), schedule), Run(Start(policy), schedule + later);
    SameRowsLater(policy, schedule, later, i);
    NoRowYet(policy, schedule, j);
    forall a, b | 0 <= a < |t.log| && 0 <= b < |t.log| && t.log[a].who == i && t.log[b].who == j ensures a < b {
      EarlierThanNew(s.log, t.log, a, b);
    }
  }

  lemma SameRowsLater(policy: Policy, schedule: seq<Event>, later: seq<Event>, i: nat)
    requires i < |Run(Start(policy), schedule).jobs| && Run(Start(policy), schedule).jobs[i].stage.Finished?
    ensures Run(Start(policy), schedule).log <= Run(Start(policy), schedule + later).log
    ensures Of(Run(Start(policy), schedule).log, i) == Of(Run(Start(policy), schedule + later).log, i)
  {
    var s := SoundRun(policy, schedule);
    var t := SoundRun(policy, schedule + later);
    RunOn(Start(policy), schedule, later);
    LogsGrow(s, later);
    FinishedStays(s, later, i);
    assert JobSound(s, i) && JobSound(t, i);
  }

  lemma NoRowYet(policy: Policy, schedule: seq<Event>, j: nat)
    requires var s := Run(Start(policy), schedule); j < |s.jobs| ==> !s.jobs[j].stage.Finished?
    ensures |Of(Run(Start(policy), schedule).log, j)| == 0
  {
    var s := SoundRun(policy, schedule);
    if j < |s.jobs| {
      assert JobSound(s, j);
    } else {
      NoneOfLater(s.log, |s.jobs|, j);
    }
  }

  lemma EarlierThanNew<T>(before: seq<Tagged<T>>, log: seq<Tagged<T>>, a: nat, b: nat)
    requires before <= log && a < |log| && b < |log|
    requires |Of(before, log[a].who)| == |Of(log, log[a].who)| && |Of(before, log[b].who)| == 0
    ensures a < b
  {
    if a >= |before| {
      AllEarlier(before, log, a);
    }
    if b < |before| {
      OfAt(before, b);
    }
  }

  /** An entry behind a prefix is one more of its call. */
  lemma AllEarlier<T>(before: seq<Tagged<T>>, log: seq<Tagged<T>>, a: nat)
    requires before <= log && |before| <= a < |log|
    ensures |Of(before, log[a].who)| < |Of(log, log[a].who)|
  {
    OfAt(log, a);
    OfGrows(log[..a], |before|, log[a].who);
    assert log[..a][..|before|] == before;
  }

  lemma {:induction false} FinishedStays(s: Sys, schedule: seq<Event>, i: nat)
    requires i < |s.jobs| && s.jobs[i].stage.Finished?
    ensures i < |Run(s, schedule).jobs| && Run(s, schedule).jobs[i] == s.jobs[i]
    decreases |schedule|
  {
    if schedule != [] {
      FinishedStays(Next(s, schedule[0]), schedule[1..], i);
    }
  }

  /** Two calls arrive and are handed over in turn; then the second is written first. */
  function Overtaking(a: Call, b: Call, w: World): seq<Event> {
    [Arrives(a, w, None), Arrives(b, w, None)] +
      ([Moves(0), Moves(1)] + ([Moves(1), Moves(1)] + ([Moves(0), Moves(0)] + [])))
  }

  /** It need not be the order of the hand-overs: of any two permitted calls that are
      answered at once the first handed over may get the second row. */
  lemma OvertakenRow(p: Policy, a: Call, b: Call, w: World)
    requires Permitted(p, a, w.limited) && Permitted(p, b, w.limited) && w.hops == [] && w.end.Answered?
    ensures var s := Run(Start(p), Overtaking(a, b, w));
            && s.handed == [Tagged(0, HandedOver(p, a)), Tagged(1, HandedOver(p, b))]
            && RowOf(p, a, w).Some? && RowOf(p, b, w).Some?
            && s.log == [Tagged(1, RowOf(p, b, w).value), Tagged(0, RowOf(p, a, w).value)]
  {
    OvertakingRun(p, a, b, w);
    BothHandedOver(p, a, b, w);
    var s1 := HandedBoth(p, a, b, w);
    AnsweredAtOnce(s1, p, 1);
    AnsweredAtOnce(Move(Move(s1, 1), 1), p, 0);
  }

  lemma OvertakingRun(p: Policy, a: Call, b: Call, w: World)
    ensures var s0 := Sys(p, [Job(a, w, None, None, Arrived), Job(b, w, None, None, Arrived)], [], [], []);
            var s1 := Next(Next(s0, Moves(0)), Moves(1));
            var s2 := Next(Next(s1, Moves(1)), Moves(1));
            Run(Start(p), Overtaking(a, b, w)) == Next(Next(s2, Moves(0)), Moves(0))
  {
    var s0 := Sys(p, [Job(a, w, None, None, Arrived), Job(b, w, None, None, Arrived)], [], [], []);
    var s1 := Next(Next(s0, Moves(0)), Moves(1));
    var s2 := Next(Next(s1, Moves(1)), Moves(1));
    var last := [Moves(0), Moves(0)] + [];
    assert Next(Next(Start(p), Arrives(a, w, None)), Arrives(b, w, None)) == s0;
    RunTwo(Start(p), Arrives(a, w, None), Arrives(b, w, None), [Moves(0), Moves(1)] + ([Moves(1), Moves(1)] + last));
    RunTwo(s0, Moves(0), Moves(1), [Moves(1), Moves(1)] + last);
    RunTwo(s1, Moves(1), Moves(1), last);
    RunTwo(s2, Moves(0), Moves(0), []);
  }

  function HandedBoth(p: Policy, a: Call, b: Call, w: World): Sys
    requires Permitted(p, a, w.limited) && Permitted(p, b, w.limited)
  {
    Sys(p, [Job(a, w, None, Some(p), Reaching(0)), Job(b, w, None, Some(p), Reaching(0))], [],
        [Tagged(0, HandedOver(p, a)), Tagged(1, HandedOver(p, b))], [])
  }

  lemma BothHandedOver(p: Policy, a: Call, b: Call, w: World)
    requires Permitted(p, a, w.limited) && Permitted(p, b, w.limited)
    ensures var s0 := Sys(p, [Job(a, w, None, None, Arrived), Job(b, w, None, None, Arrived)], [], [], []);
            Next(Next(s0, Moves(0)), Moves(1)) == HandedBoth(p, a, b, w)
  {
  }

  lemma AnsweredAtOnce(s: Sys, p: Policy, i: nat)
    requires i < |s.jobs| && s.jobs[i].stage == Reaching(0) && s.jobs[i].read == Some(p)
    requires Permitted(p, s.jobs[i].call, s.jobs[i].world.limited)
    requires s.jobs[i].world.hops == [] && s.jobs[i].world.end.Answered?
    ensures var s', row := Move(Move(s, i), i), RowOf(p, s.jobs[i].call, s.jobs[i].world);
            && row.Some? && s'.log == s.log + [Tagged(i, row.value)] && s'.handed == s.handed && |s'.jobs| == |s.jobs|
            && forall k :: 0 <= k < |s.jobs| && k != i ==> s'.jobs[k] == s.jobs[k]
  {
  }

  lemma RunTwo(s: Sys, e: Event, f: Event, rest: seq<Event>)
    ensures Run(s, [e, f] + rest) == Run(Next(Next(s, e), f), rest)
  {
    assert ([e, f] + rest)[1..] == [f] + rest;
    assert ([f] + rest)[1..] == rest;
  }

  // ---- every call ends ------------------------------------------------------------------------

  function Remaining(job: Job): nat {
    match job.stage
    case Arrived => |job.world.hops| + 3
    case Reaching(k) => if k <= |job.world.hops| then |job.world.hops| - k + 2 else 2
    case Writing(_, _) => 1
    case Finished(_) => 0
  }

  /** The turns a schedule gives to one call. */
  function Turns(schedule: seq<Event>, i: nat): nat {
    if schedule == [] then 0
    else Turns(schedule[1..], i) + if schedule[0].Moves? && schedule[0].who == i then 1 else 0
  }

  lemma StepShortens(s: Sys, e: Event, i: nat)
    requires i < |s.jobs|
    ensures i < |Next(s, e).jobs|
    ensures Remaining(Next(s, e).jobs[i]) <=
            if e == Moves(i) && Remaining(s.jobs[i]) > 0 then Remaining(s.jobs[i]) - 1 else Remaining(s.jobs[i])
  {
  }

  /** A call ends within as many turns of its own as it has addresses and three more,
      whatever happens between them. */
  lemma {:induction false} EndsWithinItsTurns(s: Sys, schedule: seq<Event>, i: nat)
    requires i < |s.jobs| && Turns(schedule, i) >= Remaining(s.jobs[i])
    ensures i < |Run(s, schedule).jobs| && Run(s, schedule).jobs[i].stage.Finished?
    decreases |schedule|
  {
    if schedule != [] {
      StepShortens(s, schedule[0], i);
      EndsWithinItsTurns(Next(s, schedule[0]), schedule[1..], i);
    }
  }
}
