/** Governed tool calls and the OAuth pair: which calls reach an adapter, which addresses
    are contacted for them, and what the audit log says about both. */
module ToolEgress {
  import opened Wrappers
  import opened GatewayConfig

  type Args = map<string, string>

  datatype Row = Row(
    provider: string, tool: string, tier: int, requestId: string, bytesOut: Option<nat>, bytesIn: Option<nat>,
    anonymized: bool, refused: bool, reason: Option<string>)

  datatype Call =
    | ToolCall(provider: string, tool: string, args: Args, requestId: string, ceiling: Option<int>, anonymize: bool)
    | OAuthDiscover(provider: string, requestId: string)
    | OAuthToken(provider: string, requestId: string, formBytes: nat)

  /** What a permitted call hands over: to the tool adapter, of which the entry it was built
      from is told, or to the OAuth client. */
  datatype HandOver =
    | ToolHandOver(provider: string, adapter: ToolProvider, tool: string, args: Args)
    | OAuthHandOver(provider: string, tool: string)

  /** An address the adapter turns to, and why the egress guard refuses it, if it does.
      The guard is asked about each address before anything is sent there. */
  datatype Hop = Hop(url: string, refusal: Option<string>)

  datatype End = Answered(bytesOut: nat, bytesIn: nat) | Broken

  /** The course a hand-over would take: the addresses one after the other (a redirect, the
      documents of a discovery), and then an answer or any error but the guard's. */
  datatype World = World(limited: bool, hops: seq<Hop>, end: End)

  datatype Contact = Contact(provider: string, url: string)

  datatype Ending = Returned(tier: int, anonymized: bool) | EgressRefused | Propagated

  /** What a call reads when it checks its gates: the configuration, and for each live
      adapter the entry it was built from, which may be an older one. */
  datatype Policy = Policy(
    config: Config, adapters: map<string, ToolProvider>, anonymizer: (string, string, Args) -> Option<Args>)

  const DISCOVER := "oauth.discover"
  const TOKEN := "oauth.token"
  const UNKNOWN_TOOL := "unknown tool provider"
  const UNKNOWN_OAUTH := "unknown oauth provider"
  const LIMITED := "rate limit exceeded"
  const CEILING := "egress_tier exceeds policy ceiling"
  const ANONYMIZATION := "required authority anonymization unavailable"
  const SSRF := "ssrf: "

  // ---- what a call may do, stated gate by gate --------------------------------

  function ToolName(call: Call): string {
    match call
    case ToolCall(_, tool, _, _, _, _) => tool
    case OAuthDiscover(_, _) => DISCOVER
    case OAuthToken(_, _, _) => TOKEN
  }

  predicate ProviderKnown(p: Policy, call: Call) {
    var tool := ToolByName(p.config.tools, call.provider);
    && tool.Some?
    && if call.ToolCall? then call.provider in p.adapters else tool.value.kind == "mcp" && tool.value.oauth
  }

  function TierOf(p: Policy, call: Call): int {
    if ProviderKnown(p, call) then ToolByName(p.config.tools, call.provider).value.egressTier else 0
  }

  predicate WithinCeiling(p: Policy, call: Call) {
    call.ToolCall? && call.ceiling.Some? ==> TierOf(p, call) <= call.ceiling.value
  }

  predicate MustAnonymize(call: Call) {
    call.ToolCall? && call.anonymize
  }

  /** The provider, the configuration and the tier all say that calls are anonymized. */
  predicate AnonymizationOn(p: Policy, tool: ToolProvider) {
    tool.anonymizeOutbound && p.config.settings.anonymization.enabled &&
    tool.egressTier in p.config.settings.anonymization.applyAtTiers
  }

  function Transformed(p: Policy, call: Call): Option<Args>
    requires call.ToolCall? && ProviderKnown(p, call)
  {
    var tool := ToolByName(p.config.tools, call.provider).value;
    if AnonymizationOn(p, tool) then p.anonymizer(tool.kind, call.tool, call.args) else None
  }

  predicate Permitted(p: Policy, call: Call, limited: bool) {
    && ProviderKnown(p, call)
    && !limited
    && WithinCeiling(p, call)
    && (MustAnonymize(call) ==> Transformed(p, call).Some?)
  }

  function HandedOver(p: Policy, call: Call): HandOver
    requires Permitted(p, call, false)
  {
    if !call.ToolCall? then OAuthHandOver(call.provider, ToolName(call))
    else
      ToolHandOver(call.provider, p.adapters[call.provider], call.tool,
                   if call.anonymize then Transformed(p, call).value else call.args)
  }

  /** The first address that the guard refuses. */
  function RefusedAt(hops: seq<Hop>): Option<nat> {
    if hops == [] then None
    else if hops[0].refusal.Some? then Some(0)
    else var k :- RefusedAt(hops[1..]); Some(k + 1)
  }

  lemma {:induction false} RefusedAtFinds(hops: seq<Hop>)
    ensures match RefusedAt(hops)
            case Some(k) => k < |hops| && hops[k].refusal.Some? && forall j :: 0 <= j < k ==> hops[j].refusal.None?
            case None => forall j :: 0 <= j < |hops| ==> hops[j].refusal.None?
  {
    if hops != [] {
      RefusedAtFinds(hops[1..]);
    }
  }

  function EndingOf(p: Policy, call: Call, w: World): Ending {
    if !Permitted(p, call, w.limited) || RefusedAt(w.hops).Some? then EgressRefused
    else if w.end.Broken? then Propagated
    else Returned(TierOf(p, call), MustAnonymize(call))
  }

  /** The first gate that does not hold, in the order of the gates. */
  function GateReason(p: Policy, call: Call, limited: bool): string
    requires !Permitted(p, call, limited)
  {
    if !ProviderKnown(p, call) then if call.ToolCall? then UNKNOWN_TOOL else UNKNOWN_OAUTH
    else if limited then LIMITED
    else if !WithinCeiling(p, call) then CEILING
    else ANONYMIZATION
  }

  function Reason(p: Policy, call: Call, w: World): string
    requires EndingOf(p, call, w).EgressRefused?
  {
    RefusedAtFinds(w.hops);
    if Permitted(p, call, w.limited) then SSRF + w.hops[RefusedAt(w.hops).value].refusal.value
    else GateReason(p, call, w.limited)
  }

  function BytesOut(call: Call, end: End): Option<nat>
    requires end.Answered?
  {
    match call
    case ToolCall(_, _, _, _, _, _) => Some(end.bytesOut)
    case OAuthDiscover(_, _) => Some(0)
    case OAuthToken(_, _, n) => Some(n)
  }

  function Refusal(call: Call, tier: int, reason: string): Row {
    Row(call.provider, ToolName(call), tier, call.requestId, None, None, false, true, Some(reason))
  }

  function Acceptance(call: Call, tier: int, end: End): Row
    requires end.Answered?
  {
    Row(call.provider, ToolName(call), tier, call.requestId, BytesOut(call, end), Some(end.bytesIn),
        MustAnonymize(call),
        false, None)
  }

  function RowOf(p: Policy, call: Call, w: World): Option<Row> {
    match EndingOf(p, call, w)
    case Propagated => None
    case EgressRefused => Some(Refusal(call, TierOf(p, call), Reason(p, call, w)))
    case Returned(_, _) => Some(Acceptance(call, TierOf(p, call), w.end))
  }

  function HandOverOf(p: Policy, call: Call, w: World): Option<HandOver> {
    if Permitted(p, call, w.limited) then Some(HandedOver(p, call)) else None
  }

  /** The addresses contacted: those before the first refused one. */
  function ContactsOf(p: Policy, call: Call, w: World): seq<Contact> {
    RefusedAtFinds(w.hops);
    if !Permitted(p, call, w.limited) then []
    else Contacts(call.provider, if RefusedAt(w.hops).Some? then w.hops[..RefusedAt(w.hops).value] else w.hops)
  }

  function Contacts(provider: string, hops: seq<Hop>): seq<Contact> {
    seq(|hops|, i requires 0 <= i < |hops| => Contact(provider, hops[i].url))
  }

  function Listed<T>(x: Option<T>): seq<T> {
    if x.Some? then [x.value] else []
  }

  // ---- the adapter behind the gates ---------------------------------------------------

  /** The gates read the configured tier.  Whatever the ceiling, a permitted call stays under
      it with the tier of the entry its adapter was built from exactly when that entry's tier
      is at most the configured one. */
  lemma AdapterWithinEveryCeiling(p: Policy, name: string)
    requires name in p.adapters && ToolByName(p.config.tools, name).Some?
    ensures (forall call: Call, limited: bool ::
               call.ToolCall? && call.provider == name && Permitted(p, call, limited) ==>
                 AdapterWithinCeiling(p, call)) <==>
            p.adapters[name].egressTier <= ToolByName(p.config.tools, name).value.egressTier
  {
    var tier := ToolByName(p.config.tools, name).value.egressTier;
    var tight := ToolCall(name, "", map[], "", Some(tier), false);
    assert Permitted(p, tight, false);
    if p.adapters[name].egressTier > tier {
      assert !AdapterWithinCeiling(p, tight);
    }
  }

  predicate AdapterWithinCeiling(p: Policy, call: Call) {
    call.ToolCall? && call.ceiling.Some? && call.provider in p.adapters ==>
      p.adapters[call.provider].egressTier <= call.ceiling.value
  }

  /** An input where it is not: the configuration has been reloaded with tier 1, the adapter
      is still the one built at tier 5, and a call with ceiling 1 is handed to it. */
  lemma LaggingAdapterExceedsCeiling(p: Policy, built: ToolProvider, name: string, tool: string, args: Args)
    requires built.name == name && built.egressTier == 5
    requires p.config.tools == [built.(egressTier := 1)] && p.adapters == map[name := built]
    ensures var call := ToolCall(name, tool, args, "", Some(1), false);
            && Permitted(p, call, false) && HandedOver(p, call) == ToolHandOver(name, built, tool, args)
            && !AdapterWithinCeiling(p, call)
  {
    assert ToolByName(p.config.tools, name) == Some(built.(egressTier := 1));
  }

  /** The adapter under this name was built from the entry the configuration has. */
  predicate Aligned(p: Policy, name: string) {
    name in p.adapters && ToolByName(p.config.tools, name) == Some(p.adapters[name])
  }

  /** Then the gates that a permitted call passed hold of the adapter's own entry. */
  predicate GatesHoldOf(p: Policy, call: Call, h: HandOver) {
    call.ToolCall? ==>
      && h.ToolHandOver? && h.provider == call.provider
      && (call.ceiling.Some? ==> h.adapter.egressTier <= call.ceiling.value)
      && (call.anonymize ==>
            && AnonymizationOn(p, h.adapter)
            && p.anonymizer(h.adapter.kind, call.tool, call.args) == Some(h.args))
  }

  lemma AlignedGatesHold(p: Policy, call: Call, limited: bool)
    requires Permitted(p, call, limited) && (call.ToolCall? ==> Aligned(p, call.provider))
    ensures GatesHoldOf(p, call, HandedOver(p, call))
  {
  }

  // ---- what a refusal tells -----------------------------------------------------------

  /** What a refused row says: its reason is the guard's exactly when the call had been
      handed over.  Then the addresses before the refused one have been contacted and the
      refused one has not; with any other reason nothing has been contacted at all. */
  lemma RefusalTellsContacts(p: Policy, call: Call, w: World)
    requires EndingOf(p, call, w).EgressRefused?
    ensures RowOf(p, call, w).Some? && RowOf(p, call, w).value.refused && RowOf(p, call, w).value.reason.Some?
    ensures HandOverOf(p, call, w).Some? <==> SSRF <= RowOf(p, call, w).value.reason.value
    ensures HandOverOf(p, call, w).None? ==> ContactsOf(p, call, w) == []
    ensures HandOverOf(p, call, w).Some? ==>
              exists k: nat :: RefusedFirst(w.hops, k) &&
                ContactsOf(p, call, w) == Contacts(call.provider, w.hops[..k]) &&
                RowOf(p, call, w).value.reason == Some(SSRF + w.hops[k].refusal.value)
    ensures HandOverOf(p, call, w).Some? ==> (ContactsOf(p, call, w) == [] <==> w.hops[0].refusal.Some?)
    ensures RowOf(p, call, w).value.tier == 0 <==> !ProviderKnown(p, call)
  {
    RefusedAtFinds(w.hops);
    ReasonsDiffer(Reason(p, call, w));
    if Permitted(p, call, w.limited) {
      assert RefusedFirst(w.hops, RefusedAt(w.hops).value);
    }
  }

  predicate RefusedFirst(hops: seq<Hop>, k: nat) {
    k < |hops| && hops[k].refusal.Some? && forall j :: 0 <= j < k ==> hops[j].refusal.None?
  }

  /** The reasons of the gates do not begin like the guard's. */
  lemma ReasonsDiffer(reason: string)
    ensures reason in {UNKNOWN_TOOL, UNKNOWN_OAUTH, LIMITED, CEILING, ANONYMIZATION} ==> !(SSRF <= reason)
  {
    assert UNKNOWN_TOOL[0] == 'u' && UNKNOWN_OAUTH[0] == 'u';
    assert LIMITED[0] == 'r' && CEILING[0] == 'e' && ANONYMIZATION[0] == 'r';
    assert SSRF[0] == 's';
    if SSRF <= reason {
      assert reason[0] == 's';
    }
  }
}
