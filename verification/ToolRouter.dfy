/** The router's three guarded routes as the code runs them, any other steps in between. */
module ToolRouting {
  import opened Wrappers
  import opened GatewayConfig
  import opened ToolEgress
  import opened ToolRuns

  /** Steps that are not the call's own. */
  ghost predicate Elsewhere(schedule: seq<Event>, i: nat) {
    forall k :: 0 <= k < |schedule| ==> schedule[k] != Moves(i)
  }

  lemma {:induction false} ElsewhereLeaves(s: Sys, schedule: seq<Event>, i: nat)
    requires i < |s.jobs| && Elsewhere(schedule, i)
    ensures i < |Run(s, schedule).jobs| && Run(s, schedule).jobs[i] == s.jobs[i]
    decreases |schedule|
  {
    if schedule != [] {
      if schedule[0].Moves? && schedule[0].who < |s.jobs| {
        MoveAppends(s, schedule[0].who);
      }
      ElsewhereLeaves(Next(s, schedule[0]), schedule[1..], i);
    }
  }

  /** Call `i` contacts `k` addresses and yields to the others after each. */
  function Contacting(i: nat, others: nat -> seq<Event>, k: nat): seq<Event> {
    if k == 0 then [] else Contacting(i, others, k - 1) + [Moves(i)] + others(k - 1)
  }

  /** The steps of call `i` and, wherever it yields, those of the others: after each contact
      and before its row is written. */
  function Woven(i: nat, others: nat -> seq<Event>, p: Policy, call: Call, w: World): seq<Event> {
    if !Permitted(p, call, w.limited) then [Moves(i)] + others(0) + [Moves(i)]
    else
      var k := |ContactsOf(p, call, w)|;
      [Moves(i)] + Contacting(i, others, k) + [Moves(i)] +
      if k == |w.hops| && w.end.Broken? then [] else others(k) + [Moves(i)]
  }

  /** The router with its live configuration and adapters, and the calls in flight on it. */
  class ToolRouter {
    var policy: Policy
    var jobs: seq<Job>
    var log: seq<Tagged<Row>>
    var handed: seq<Tagged<HandOver>>
    var contacted: seq<Tagged<Contact>>

    constructor (policy: Policy)
      ensures Valid() && View() == Start(policy)
    {
      this.policy, jobs, log, handed, contacted := policy, [], [], [], [];
    }

    function View(): Sys
      reads this
    {
      Sys(policy, jobs, log, handed, contacted)
    }

    ghost predicate Valid()
      reads this
    {
      Sound(View())
    }

    /** A request reaches the router, or the router pinned for it. */
    method Accept(call: Call, world: World, pinned: Option<Policy>) returns (i: nat)
      requires Valid()
      modifies this`jobs
      ensures Valid() && View() == Next(old(View()), Arrives(call, world, pinned))
      ensures i == |old(jobs)| && i < |jobs| && jobs[i] == Job(call, world, pinned, None, Arrived)
    {
      NextKeeps(View(), Arrives(call, world, pinned));
      i := |jobs|;
      jobs := jobs + [Job(call, world, pinned, None, Arrived)];
    }

    /** What happens elsewhere while call `i` awaits. */
    method Await(i: nat, schedule: seq<Event>, ghost s0: Sys, ghost before: seq<Event>)
      returns (ghost done: seq<Event>)
      requires Valid() && i < |jobs| && Elsewhere(schedule, i) && View() == Run(s0, before)
      modifies this
      ensures done == before + schedule
      ensures Valid() && View() == Run(s0, done) && i < |jobs| && jobs[i] == old(jobs)[i]
    {
      RunSound(View(), schedule);
      ElsewhereLeaves(View(), schedule, i);
      RunOn(s0, before, schedule);
      done := before + schedule;
      var next := Run(View(), schedule);
      policy, jobs, log, handed, contacted := next.policy, next.jobs, next.log, next.handed, next.contacted;
    }

    /** The next step of call `i` appended to the schedule. */
    ghost method Advance(i: nat, s0: Sys, before: seq<Event>) returns (done: seq<Event>)
      requires Valid() && i < |jobs| && View() == Run(s0, before)
      ensures done == before + [Moves(i)]
      ensures Run(s0, done) == Move(View(), i) && Sound(Move(View(), i))
    {
      RunOn(s0, before, [Moves(i)]);
      MoveKeeps(View(), i);
      done := before + [Moves(i)];
      assert Run(View(), [Moves(i)]) == Run(Next(View(), Moves(i)), []);
    }

    method WriteRow(i: nat, row: Row, ending: Ending, meanwhile: seq<Event>, ghost s0: Sys, ghost before: seq<Event>)
      returns (ghost done: seq<Event>)
      requires Valid() && i < |jobs| && jobs[i].stage == Writing(row, ending) && Elsewhere(meanwhile, i)
      requires View() == Run(s0, before)
      modifies this
      ensures done == before + meanwhile + [Moves(i)]
      ensures Valid() && View() == Run(s0, done)
      ensures i < |jobs| && jobs[i] == old(jobs)[i].(stage := Finished(ending))
    {
      done := Await(i, meanwhile, s0, before);
      done := Advance(i, s0, done);
      jobs, log := jobs[i := jobs[i].(stage := Finished(ending))], log + [Tagged(i, row)];
    }

    /** A gate that does not hold: the row first, then the error. */
    method Refuse(i: nat, p: Policy, tier: int, reason: string, meanwhile: seq<Event>)
      returns (end: Ending, ghost done: seq<Event>)
      requires Valid() && i < |jobs| && jobs[i].stage.Arrived? && p == InForce(View(), i) && Elsewhere(meanwhile, i)
      requires !Permitted(p, jobs[i].call, jobs[i].world.limited)
      requires tier == TierOf(p, jobs[i].call) && reason == GateReason(p, jobs[i].call, jobs[i].world.limited)
      modifies this
      ensures Valid() && View() == Run(old(View()), done) && done == [Moves(i)] + meanwhile + [Moves(i)]
      ensures i < |jobs| && jobs[i] == old(jobs)[i].(read := Some(p), stage := Finished(end))
    {
      ghost var s0 := View();
      end := EgressRefused;
      var row := Refusal(jobs[i].call, tier, reason);
      done := Advance(i, s0, []);
      jobs := jobs[i := jobs[i].(read := Some(p), stage := Writing(row, end))];
      done := WriteRow(i, row, end, meanwhile, s0, done);
    }

    /** What an adapter does with a hand-over: ask the guard about each address before
        contacting it, and stop at the first refusal. */
    method Reach(i: nat, others: nat -> seq<Event>, ghost s0: Sys, ghost before: seq<Event>)
      returns (k: nat, refusal: Option<string>, ghost done: seq<Event>)
      requires Valid() && i < |jobs| && jobs[i].stage == Reaching(0) && View() == Run(s0, before)
      requires forall n :: Elsewhere(others(n), i)
      modifies this
      ensures Valid() && View() == Run(s0, done) && i < |jobs| && jobs[i] == old(jobs)[i].(stage := Reaching(k))
      ensures refusal == if k < |jobs[i].world.hops| then jobs[i].world.hops[k].refusal else None
      ensures k < |jobs[i].world.hops| ==> refusal.Some?
      ensures k <= |jobs[i].world.hops| && forall j :: 0 <= j < k ==> jobs[i].world.hops[j].refusal.None?
      ensures done == before + Contacting(i, others, k)
    {
      var job := jobs[i];
      done, k := before, 0;
      while k < |job.world.hops|
        invariant Valid() && View() == Run(s0, done) && i < |jobs| && jobs[i] == job.(stage := Reaching(k))
        invariant k <= |job.world.hops| && forall j :: 0 <= j < k ==> job.world.hops[j].refusal.None?
        invariant done == before + Contacting(i, others, k)
      {
        if job.world.hops[k].refusal.Some? {
          return k, job.world.hops[k].refusal, done;
        }
        done := ContactNext(i, k, others, s0, before, done);
        k := k + 1;
      }
      refusal := None;
    }

    method ContactNext(i: nat, k: nat, others: nat -> seq<Event>, ghost s0: Sys, ghost start: seq<Event>,
                       ghost before: seq<Event>)
      returns (ghost done: seq<Event>)
      requires Valid() && i < |jobs| && jobs[i].stage == Reaching(k) && View() == Run(s0, before)
      requires k < |jobs[i].world.hops| && jobs[i].world.hops[k].refusal.None? && Elsewhere(others(k), i)
      requires before == start + Contacting(i, others, k)
      modifies this
      ensures Valid() && View() == Run(s0, done) && done == start + Contacting(i, others, k + 1)
      ensures i < |jobs| && jobs[i] == old(jobs)[i].(stage := Reaching(k + 1))
    {
      var job := jobs[i];
      done := Advance(i, s0, before);
      contacted := contacted + [Tagged(i, Contact(job.call.provider, job.world.hops[k].url))];
      jobs := jobs[i := job.(stage := Reaching(k + 1))];
      done := Await(i, others(k), s0, done);
      assert Contacting(i, others, k + 1) == Contacting(i, others, k) + [Moves(i)] + others(k);
    }

    /** Hand a permitted call over, and write what came of it; an unclassified error writes
        nothing. */
    method Perform(i: nat, p: Policy, tier: int, h: HandOver, others: nat -> seq<Event>)
      returns (end: Ending, ghost done: seq<Event>)
      requires Valid() && i < |jobs| && jobs[i].stage.Arrived? && p == InForce(View(), i)
      requires forall n :: Elsewhere(others(n), i)
      requires Permitted(p, jobs[i].call, jobs[i].world.limited) && h == HandedOver(p, jobs[i].call)
      requires tier == TierOf(p, jobs[i].call)
      modifies this
      ensures Valid() && View() == Run(old(View()), done)
      ensures done == Woven(i, others, p, old(jobs)[i].call, old(jobs)[i].world)
      ensures i < |jobs| && jobs[i] == old(jobs)[i].(read := Some(p), stage := Finished(end))
    {
      ghost var s0 := View();
      done := Advance(i, s0, []);
      handed, jobs := handed + [Tagged(i, h)], jobs[i := jobs[i].(read := Some(p), stage := Reaching(0))];
      var k, refusal;
      k, refusal, done := Reach(i, others, s0, done);
      end, done := Conclude(i, p, tier, k, refusal, others(k), s0, done);
      RefusedAtFinds(jobs[i].world.hops);
      assert k == |ContactsOf(p, jobs[i].call, jobs[i].world)|;
    }

    method Conclude(i: nat, p: Policy, tier: int, k: nat, refusal: Option<string>, meanwhile: seq<Event>,
                    ghost s0: Sys, ghost before: seq<Event>)
      returns (end: Ending, ghost done: seq<Event>)
      requires Valid() && i < |jobs| && jobs[i].stage == Reaching(k) && View() == Run(s0, before) &&
               Elsewhere(meanwhile, i)
      requires jobs[i].read == Some(p) && tier == TierOf(p, jobs[i].call)
      requires refusal == if k < |jobs[i].world.hops| then jobs[i].world.hops[k].refusal else None
      requires k < |jobs[i].world.hops| ==> refusal.Some?
      modifies this
      ensures Valid() && View() == Run(s0, done)
      ensures done == before + [Moves(i)] +
                      if refusal.None? && old(jobs)[i].world.end.Broken? then [] else meanwhile + [Moves(i)]
      ensures i < |jobs| && jobs[i] == old(jobs)[i].(stage := Finished(end))
    {
      var job := jobs[i];
      done := Advance(i, s0, before);
      if refusal.Some? {
        var row := Refusal(job.call, tier, SSRF + refusal.value);
        end := EgressRefused;
        jobs := jobs[i := job.(stage := Writing(row, end))];
        done := WriteRow(i, row, end, meanwhile, s0, done);
        return;
      }
      match job.world.end
      case Broken =>
        end := Propagated;
        jobs := jobs[i := job.(stage := Finished(end))];
      case Answered(_, _) =>
        var row := Acceptance(job.call, tier, job.world.end);
        end := Returned(tier, MustAnonymize(job.call));
        jobs := jobs[i := job.(stage := Writing(row, end))];
        done := WriteRow(i, row, end, meanwhile, s0, done);
    }

    method RouteToolCall(i: nat, others: nat -> seq<Event>) returns (end: Ending, ghost done: seq<Event>)
      requires Valid() && i < |jobs| && jobs[i].call.ToolCall? && jobs[i].stage.Arrived?
      requires forall n :: Elsewhere(others(n), i)
      modifies this
      ensures Valid() && View() == Run(old(View()), done)
      ensures i < |jobs| && jobs[i] == old(jobs)[i].(read := Some(old(InForce(View(), i))), stage := Finished(end))
      ensures end == EndingOf(old(InForce(View(), i)), old(jobs)[i].call, old(jobs)[i].world)
      ensures done == Woven(i, others, old(InForce(View(), i)), old(jobs)[i].call, old(jobs)[i].world)
    {
      var p, call := InForce(View(), i), jobs[i].call;
      var provider := ToolByName(p.config.tools, call.provider);
      if provider.None? || call.provider !in p.adapters {
        end, done := Refuse(i, p, 0, UNKNOWN_TOOL, others(0));
      } else {
        var tool := provider.value;
        if jobs[i].world.limited {
          end, done := Refuse(i, p, tool.egressTier, LIMITED, others(0));
        } else if call.ceiling.Some? && tool.egressTier > call.ceiling.value {
          end, done := Refuse(i, p, tool.egressTier, CEILING, others(0));
        } else {
          var args := if call.anonymize then Transform(p, tool, call) else Some(call.args);
          if args.None? {
            end, done := Refuse(i, p, tool.egressTier, ANONYMIZATION, others(0));
          } else {
            var h := ToolHandOver(call.provider, p.adapters[call.provider], call.tool, args.value);
            end, done := Perform(i, p, tool.egressTier, h, others);
          }
        }
      }
      assert JobSound(View(), i);
    }

    /** The arguments to send, unless anonymization is off somewhere or refuses. */
    static function Transform(p: Policy, tool: ToolProvider, call: Call): Option<Args>
      requires call.ToolCall?
    {
      if !tool.anonymizeOutbound || !p.config.settings.anonymization.enabled
         || tool.egressTier !in p.config.settings.anonymization.applyAtTiers
      then None
      else p.anonymizer(tool.kind, call.tool, call.args)
    }

    /** The configured OAuth server of this name, or a refusal. */
    method ResolveOAuthProvider(i: nat, p: Policy, meanwhile: seq<Event>)
      returns (provider: Option<ToolProvider>, end: Ending, ghost done: seq<Event>)
      requires Valid() && i < |jobs| && !jobs[i].call.ToolCall? && jobs[i].stage.Arrived? && p == InForce(View(), i)
      requires Elsewhere(meanwhile, i)
      modifies this
      ensures Valid() && View() == Run(old(View()), done) && i < |jobs|
      ensures provider.Some? <==> ProviderKnown(p, old(jobs)[i].call)
      ensures provider.Some? ==> provider == ToolByName(p.config.tools, jobs[i].call.provider) && View() == old(View())
      ensures provider.None? ==> jobs[i] == old(jobs)[i].(read := Some(p), stage := Finished(end))
      ensures provider.None? ==> done == [Moves(i)] + meanwhile + [Moves(i)]
    {
      done, end := [], EgressRefused;
      provider := ToolByName(p.config.tools, jobs[i].call.provider);
      if provider.None? || provider.value.kind != "mcp" || !provider.value.oauth {
        end, done := Refuse(i, p, 0, UNKNOWN_OAUTH, meanwhile);
        provider := None;
      }
    }

    method RouteOAuthDiscover(i: nat, others: nat -> seq<Event>) returns (end: Ending, ghost done: seq<Event>)
      requires Valid() && i < |jobs| && jobs[i].call.OAuthDiscover? && jobs[i].stage.Arrived?
      requires forall n :: Elsewhere(others(n), i)
      modifies this
      ensures Valid() && View() == Run(old(View()), done)
      ensures i < |jobs| && jobs[i] == old(jobs)[i].(read := Some(old(InForce(View(), i))), stage := Finished(end))
      ensures end == EndingOf(old(InForce(View(), i)), old(jobs)[i].call, old(jobs)[i].world)
      ensures done == Woven(i, others, old(InForce(View(), i)), old(jobs)[i].call, old(jobs)[i].world)
    {
      var p := InForce(View(), i);
      var provider;
      provider, end, done := ResolveOAuthProvider(i, p, others(0));
      if provider.Some? {
        if jobs[i].world.limited {
          end, done := Refuse(i, p, provider.value.egressTier, LIMITED, others(0));
        } else {
          end, done := Perform(i, p, provider.value.egressTier, OAuthHandOver(jobs[i].call.provider, DISCOVER), others);
        }
      }
      assert JobSound(View(), i);
    }

    /** Unlike discovery, the row of a token exchange counts the bytes of the posted form. */
    method RouteOAuthToken(i: nat, others: nat -> seq<Event>) returns (end: Ending, ghost done: seq<Event>)
      requires Valid() && i < |jobs| && jobs[i].call.OAuthToken? && jobs[i].stage.Arrived?
      requires forall n :: Elsewhere(others(n), i)
      modifies this
      ensures Valid() && View() == Run(old(View()), done)
      ensures i < |jobs| && jobs[i] == old(jobs)[i].(read := Some(old(InForce(View(), i))), stage := Finished(end))
      ensures end == EndingOf(old(InForce(View(), i)), old(jobs)[i].call, old(jobs)[i].world)
      ensures done == Woven(i, others, old(InForce(View(), i)), old(jobs)[i].call, old(jobs)[i].world)
    {
      var p := InForce(View(), i);
      var provider;
      provider, end, done := ResolveOAuthProvider(i, p, others(0));
      if provider.Some? {
        if jobs[i].world.limited {
          end, done := Refuse(i, p, provider.value.egressTier, LIMITED, others(0));
        } else {
          end, done := Perform(i, p, provider.value.egressTier, OAuthHandOver(jobs[i].call.provider, TOKEN), others);
        }
      }
      assert JobSound(View(), i);
    }
  }
}
