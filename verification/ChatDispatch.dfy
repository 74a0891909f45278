/** The walk over the candidates of one chat completion. */
module ChatDispatch {
  import opened Wrappers
  import opened GatewayConfig
  import opened ModelRouting

  /** Timeouts are network errors; a missing model is an HTTP error. */
  datatype ProviderError = NetworkError | HttpError(upstream: int) | AuthError | EmptyResponse | Unsupported

  /** What invoking an adapter comes to.  `Raises` is any exception that is not a
      provider error, `NotAResponse` an object of the wrong type. */
  datatype Attempt = Responds(body: string) | Fails(error: ProviderError) | NotAResponse | Raises

  predicate Eligible(e: ProviderError) {
    e.NetworkError? || (e.HttpError? && (e.upstream >= 500 || e.upstream == 429))
  }

  datatype Label = Success | NetworkFailure | ProviderFailure

  function LabelOf(e: ProviderError): Label {
    if e.NetworkError? then NetworkFailure else ProviderFailure
  }

  datatype ChatResult =
    | Unresolvable
    | Answered(target: ResolvedTarget, body: string, fallbacksTried: seq<string>)
    | ProviderFailed(target: ResolvedTarget, error: ProviderError, fallbacksTried: seq<string>)
    | NoAdapter
    | Broken

  datatype Recorded = Recorded(provider: string, tier: InferenceTier, verdict: Label)

  // ---- what the walk should do ----------------------------------------------

  /** `live(i)` is the dictionary when candidate `i` is looked up: it is shared with the
      administrative calls and may change while an earlier candidate is awaited. */
  predicate HasAdapter(live: set<string>, t: ResolvedTarget) {
    t.provider.name in live
  }

  /** Candidate `i` is passed over: it has no adapter, or failed in a way worth retrying elsewhere. */
  predicate PassedOver(ts: seq<ResolvedTarget>, live: nat -> set<string>, attempt: nat -> Attempt, i: nat)
    requires i < |ts|
  {
    !HasAdapter(live(i), ts[i]) || (attempt(i).Fails? && Eligible(attempt(i).error))
  }

  /** The first candidate from `i` on that is not passed over. */
  function StopsAt(ts: seq<ResolvedTarget>, live: nat -> set<string>, attempt: nat -> Attempt, i: nat): nat
    requires i <= |ts|
    decreases |ts| - i
  {
    if i == |ts| || !PassedOver(ts, live, attempt, i) then i else StopsAt(ts, live, attempt, i + 1)
  }

  function Names(ts: seq<ResolvedTarget>): seq<string> {
    seq(|ts|, i requires 0 <= i < |ts| => ts[i].provider.name)
  }

  /** The candidates whose adapter is called when the first ones of the list are tried. */
  function Callable(ts: seq<ResolvedTarget>, live: nat -> set<string>): seq<ResolvedTarget> {
    if ts == [] then []
    else Callable(ts[..|ts| - 1], live) + if HasAdapter(live(|ts| - 1), ts[|ts| - 1]) then [ts[|ts| - 1]] else []
  }

  /** The last candidate before `n` that has an adapter. */
  function LastCallable(ts: seq<ResolvedTarget>, live: nat -> set<string>, n: nat): Option<nat>
    requires n <= |ts|
  {
    if n == 0 then None
    else if HasAdapter(live(n - 1), ts[n - 1]) then Some(n - 1)
    else LastCallable(ts, live, n - 1)
  }

  /** The outcome, told by where the walk stops. */
  function WalkOutcome(ts: seq<ResolvedTarget>, live: nat -> set<string>, attempt: nat -> Attempt): ChatResult {
    StopsAtFirst(ts, live, attempt, 0);
    LastCallableIsLast(ts, live, |ts|);
    var k := StopsAt(ts, live, attempt, 0);
    if k < |ts| then
      match attempt(k)
      case Responds(body) => Answered(ts[k], body, Names(ts[..k]))
      case Fails(e) => ProviderFailed(ts[k], e, Names(ts[..k + 1]))
      case _ => Broken
    else
      match LastCallable(ts, live, |ts|)
      case None => NoAdapter
      case Some(j) => if attempt(j).Fails? then ProviderFailed(ts[j], attempt(j).error, Names(ts)) else Broken
  }

  function Metrics(r: ChatResult): seq<Recorded> {
    match r
    case Answered(t, _, _) => [Recorded(t.provider.name, t.tier, Success)]
    case ProviderFailed(t, e, _) => [Recorded(t.provider.name, t.tier, LabelOf(e))]
    case _ => []
  }

  /** The candidates whose adapter is called: those with one, up to where the walk stops. */
  function Invoked(ts: seq<ResolvedTarget>, live: nat -> set<string>, attempt: nat -> Attempt): seq<ResolvedTarget> {
    StopsAtFirst(ts, live, attempt, 0);
    var k := StopsAt(ts, live, attempt, 0);
    Callable(ts[..if k < |ts| then k + 1 else k], live)
  }

  lemma {:induction false} StopsAtFirst(ts: seq<ResolvedTarget>, live: nat -> set<string>, attempt: nat -> Attempt,
                                        i: nat)
    requires i <= |ts|
    ensures i <= StopsAt(ts, live, attempt, i) <= |ts|
    ensures forall j :: i <= j < StopsAt(ts, live, attempt, i) ==> PassedOver(ts, live, attempt, j)
    ensures StopsAt(ts, live, attempt, i) < |ts| ==> !PassedOver(ts, live, attempt, StopsAt(ts, live, attempt, i))
    decreases |ts| - i
  {
    if i < |ts| && PassedOver(ts, live, attempt, i) {
      StopsAtFirst(ts, live, attempt, i + 1);
    }
  }

  lemma {:induction false} LastCallableIsLast(ts: seq<ResolvedTarget>, live: nat -> set<string>, n: nat)
    requires n <= |ts|
    ensures match LastCallable(ts, live, n)
            case Some(j) => j < n && HasAdapter(live(j), ts[j]) && forall i :: j < i < n ==> !HasAdapter(live(i), ts[i])
            case None => forall i :: 0 <= i < n ==> !HasAdapter(live(i), ts[i])
  {
    if n > 0 {
      LastCallableIsLast(ts, live, n - 1);
    }
  }

  lemma StopsAtUnique(ts: seq<ResolvedTarget>, live: nat -> set<string>, attempt: nat -> Attempt, k: nat)
    requires k <= |ts|
    requires forall j :: 0 <= j < k ==> PassedOver(ts, live, attempt, j)
    requires k < |ts| ==> !PassedOver(ts, live, attempt, k)
    ensures StopsAt(ts, live, attempt, 0) == k
  {
    StopsAtFirst(ts, live, attempt, 0);
  }

  /** The result when the walk stops at candidate `k`. */
  lemma StopsHere(ts: seq<ResolvedTarget>, live: nat -> set<string>, attempt: nat -> Attempt, k: nat)
    requires k < |ts| && HasAdapter(live(k), ts[k]) && !PassedOver(ts, live, attempt, k)
    requires forall j :: 0 <= j < k ==> PassedOver(ts, live, attempt, j)
    ensures StopsAt(ts, live, attempt, 0) == k
    ensures WalkOutcome(ts, live, attempt) == ResultOf(ts, attempt, k)
    ensures Invoked(ts, live, attempt) == Callable(ts[..k + 1], live)
  {
    StopsAtUnique(ts, live, attempt, k);
  }

  /** Candidate `k` is the last one attempted: all before it are passed over, and either it
      ends the walk or no later one has an adapter. */
  predicate LastAttempted(ts: seq<ResolvedTarget>, live: nat -> set<string>, attempt: nat -> Attempt, k: nat) {
    && k < |ts| && ts[k].provider.name in live(k)
    && (forall j :: 0 <= j < k ==> PassedOver(ts, live, attempt, j))
    && (!PassedOver(ts, live, attempt, k) || forall j :: k < j < |ts| ==> ts[j].provider.name !in live(j))
  }

  predicate NoneHasAdapter(ts: seq<ResolvedTarget>, live: nat -> set<string>) {
    forall i :: 0 <= i < |ts| ==> ts[i].provider.name !in live(i)
  }

  /** The result, told by the last candidate attempted. */
  function ResultOf(ts: seq<ResolvedTarget>, attempt: nat -> Attempt, k: nat): ChatResult
    requires k < |ts|
  {
    match attempt(k)
    case Responds(body) => Answered(ts[k], body, Names(ts[..k]))
    case Fails(e) => ProviderFailed(ts[k], e, Names(if Eligible(e) then ts else ts[..k + 1]))
    case _ => Broken
  }

  lemma OutcomeAt(ts: seq<ResolvedTarget>, live: nat -> set<string>, attempt: nat -> Attempt, k: nat)
    requires LastAttempted(ts, live, attempt, k)
    ensures WalkOutcome(ts, live, attempt) == ResultOf(ts, attempt, k)
  {
    if PassedOver(ts, live, attempt, k) {
      assert forall j :: 0 <= j < |ts| ==> PassedOver(ts, live, attempt, j);
      StopsAtUnique(ts, live, attempt, |ts|);
      LastCallableIsLast(ts, live, |ts|);
    } else {
      StopsHere(ts, live, attempt, k);
    }
  }

  lemma SomeLastAttempted(ts: seq<ResolvedTarget>, live: nat -> set<string>, attempt: nat -> Attempt) returns (k: nat)
    requires !NoneHasAdapter(ts, live)
    ensures LastAttempted(ts, live, attempt, k)
  {
    StopsAtFirst(ts, live, attempt, 0);
    LastCallableIsLast(ts, live, |ts|);
    k := StopsAt(ts, live, attempt, 0);
    if k == |ts| {
      k := LastCallable(ts, live, |ts|).value;
    }
  }

  /** Every walk in which a candidate has an adapter has one last attempt, and the result
      is what that attempt came to; otherwise no adapter is reported.  One outcome is
      recorded for an answer or a provider error and none for the rest. */
  lemma OutcomeMeaning(ts: seq<ResolvedTarget>, live: nat -> set<string>, attempt: nat -> Attempt)
    ensures WalkOutcome(ts, live, attempt).NoAdapter? <==> NoneHasAdapter(ts, live)
    ensures !NoneHasAdapter(ts, live) ==> exists k :: LastAttempted(ts, live, attempt, k)
    ensures forall k :: LastAttempted(ts, live, attempt, k) ==>
              && WalkOutcome(ts, live, attempt) == ResultOf(ts, attempt, k)
              && forall l :: LastAttempted(ts, live, attempt, l) ==> l == k
    ensures |Metrics(WalkOutcome(ts, live, attempt))| ==
            if WalkOutcome(ts, live, attempt).Answered? || WalkOutcome(ts, live, attempt).ProviderFailed? then 1 else 0
  {
    if NoneHasAdapter(ts, live) {
      StopsAtUnique(ts, live, attempt, |ts|);
      LastCallableIsLast(ts, live, |ts|);
    } else {
      var last := SomeLastAttempted(ts, live, attempt);
      OutcomeAt(ts, live, attempt, last);
      forall k | LastAttempted(ts, live, attempt, k)
        ensures WalkOutcome(ts, live, attempt) == ResultOf(ts, attempt, k)
        ensures k == last
      {
        OutcomeAt(ts, live, attempt, k);
        OneLastAttempt(ts, live, attempt, k, last);
      }
    }
  }

  /** The walk has come to candidate `k` and calls its adapter. */
  predicate CallsAt(ts: seq<ResolvedTarget>, live: nat -> set<string>, attempt: nat -> Attempt, k: nat) {
    k < |ts| && ts[k].provider.name in live(k) && forall j :: 0 <= j < k ==> PassedOver(ts, live, attempt, j)
  }

  /** Which errors lead on to the next candidate: a network error, a rate limit and an upstream
      failure do, and the next one that has an adapter is called; any other status, rejected
      credentials, an empty answer and an unsupported operation end the walk there, with
      that error. */
  lemma ErrorsLeadOn(ts: seq<ResolvedTarget>, live: nat -> set<string>, attempt: nat -> Attempt, k: nat, status: int)
    requires CallsAt(ts, live, attempt, k)
    ensures attempt(k) == Fails(NetworkError) || attempt(k) == Fails(HttpError(429)) ||
            (attempt(k) == Fails(HttpError(status)) && status >= 500) ==>
              k + 1 < |ts| && ts[k + 1].provider.name in live(k + 1) ==> CallsAt(ts, live, attempt, k + 1)
    ensures attempt(k) == Fails(AuthError) || attempt(k) == Fails(EmptyResponse) || attempt(k) == Fails(Unsupported) ||
            (attempt(k) == Fails(HttpError(status)) && status < 500 && status != 429) ==>
              && Invoked(ts, live, attempt) == Callable(ts[..k + 1], live)
              && WalkOutcome(ts, live, attempt) == ProviderFailed(ts[k], attempt(k).error, Names(ts[..k + 1]))
  {
    if !PassedOver(ts, live, attempt, k) {
      StopsHere(ts, live, attempt, k);
    }
  }

  /** A candidate the walk comes to is among those invoked, behind the callable ones before it. */
  lemma CalledIsInvoked(ts: seq<ResolvedTarget>, live: nat -> set<string>, attempt: nat -> Attempt, k: nat)
    requires CallsAt(ts, live, attempt, k)
    ensures Callable(ts[..k], live) + [ts[k]] <= Invoked(ts, live, attempt)
  {
    StopsAtFirst(ts, live, attempt, 0);
    var stop := StopsAt(ts, live, attempt, 0);
    var end := if stop < |ts| then stop + 1 else stop;
    assert k < end;
    assert ts[..k + 1][..k] == ts[..k];
    CallableGrows(ts, live, k + 1, end);
  }

  lemma {:induction false} CallableGrows(ts: seq<ResolvedTarget>, live: nat -> set<string>, m: nat, n: nat)
    requires m <= n <= |ts|
    ensures Callable(ts[..m], live) <= Callable(ts[..n], live)
    decreases n
  {
    if m < n {
      CallableGrows(ts, live, m, n - 1);
      assert ts[..n][..n - 1] == ts[..n - 1];
    }
  }

  /** What is recorded: provider and tier of the last attempt, and whether it was answered,
      failed on the network or failed at the provider. */
  lemma OutcomeRecorded(ts: seq<ResolvedTarget>, live: nat -> set<string>, attempt: nat -> Attempt, k: nat)
    requires LastAttempted(ts, live, attempt, k)
    ensures var records := Metrics(WalkOutcome(ts, live, attempt));
            match attempt(k)
            case Responds(body) =>
              && records == [Recorded(ts[k].provider.name, ts[k].tier, Success)]
              && Passed(ts[..k], WalkOutcome(ts, live, attempt), ts[k])
            case Fails(NetworkError) => records == [Recorded(ts[k].provider.name, ts[k].tier, NetworkFailure)]
            case Fails(_) => records == [Recorded(ts[k].provider.name, ts[k].tier, ProviderFailure)]
            case _ => records == []
  {
    OutcomeAt(ts, live, attempt, k);
  }

  /** An answer names the candidate that gave it and, in order, the providers before it. */
  predicate Passed(before: seq<ResolvedTarget>, r: ChatResult, t: ResolvedTarget) {
    && r.Answered? && r.target == t && |r.fallbacksTried| == |before|
    && forall i :: 0 <= i < |before| ==> r.fallbacksTried[i] == before[i].provider.name
  }

  lemma OneLastAttempt(ts: seq<ResolvedTarget>, live: nat -> set<string>, attempt: nat -> Attempt, k: nat, l: nat)
    requires LastAttempted(ts, live, attempt, k) && LastAttempted(ts, live, attempt, l)
    ensures k == l
  {
  }

  // ---- the walk -------------------------------------------------------------

  class Dispatcher {
    var invoked: seq<ResolvedTarget>
    var outcomes: seq<Recorded>

    constructor ()
      ensures invoked == [] && outcomes == []
    {
      invoked, outcomes := [], [];
    }

    method Record(t: ResolvedTarget, verdict: Label)
      modifies this`outcomes
      ensures outcomes == old(outcomes) + [Recorded(t.provider.name, t.tier, verdict)]
    {
      outcomes := outcomes + [Recorded(t.provider.name, t.tier, verdict)];
    }

    /** The loop over the candidates: adapters are called in order up to the stopping point
        and not beyond, and each answered or failed request is recorded once. */
    method WalkCandidates(ts: seq<ResolvedTarget>, live: nat -> set<string>, attempt: nat -> Attempt)
      returns (r: ChatResult)
      modifies this
      ensures r == WalkOutcome(ts, live, attempt) && outcomes == old(outcomes) + Metrics(r)
      ensures invoked == old(invoked) + Invoked(ts, live, attempt)
    {
      var last: Option<nat> := None;
      var tried: seq<string> := [];
      for i := 0 to |ts|
        invariant forall j :: 0 <= j < i ==> PassedOver(ts, live, attempt, j)
        invariant tried == Names(ts[..i])
        invariant last == LastCallable(ts, live, i)
        invariant invoked == old(invoked) + Callable(ts[..i], live) && outcomes == old(outcomes)
      {
        var t := ts[i];
        OneMoreTried(ts, live, i, old(invoked));
        if !HasAdapter(live(i), t) {
          tried := tried + [t.provider.name];
          continue;
        }
        invoked := invoked + [t];
        var result := attempt(i);
        if result.Fails? && Eligible(result.error) {
          last := Some(i);
          tried := tried + [t.provider.name];
          continue;
        }
        StopsHere(ts, live, attempt, i);
        r := Conclude(ts, attempt, i, tried);
        return;
      }
      assert ts[..|ts|] == ts;
      StopsAtUnique(ts, live, attempt, |ts|);
      r := ReportExhaustion(ts, live, attempt, last, tried);
    }

    /** Candidate `i` ends the walk: an answer, an error that is not worth another try, or
        an exception. */
    method Conclude(ts: seq<ResolvedTarget>, attempt: nat -> Attempt, i: nat, tried: seq<string>)
      returns (r: ChatResult)
      requires i < |ts| && tried == Names(ts[..i]) && (attempt(i).Fails? ==> !Eligible(attempt(i).error))
      modifies this`outcomes
      ensures r == ResultOf(ts, attempt, i) && outcomes == old(outcomes) + Metrics(r)
    {
      match attempt(i)
      case Responds(body) =>
        Record(ts[i], Success);
        r := Answered(ts[i], body, tried);
      case Fails(error) =>
        assert Names(ts[..i + 1]) == Names(ts[..i]) + [ts[i].provider.name];
        Record(ts[i], LabelOf(error));
        r := ProviderFailed(ts[i], error, tried + [ts[i].provider.name]);
      case _ =>
        r := Broken;
    }

    /** No candidate is left: the last error is the one reported. */
    method ReportExhaustion(ts: seq<ResolvedTarget>, live: nat -> set<string>, attempt: nat -> Attempt,
                            last: Option<nat>, tried: seq<string>)
      returns (r: ChatResult)
      requires StopsAt(ts, live, attempt, 0) == |ts| && last == LastCallable(ts, live, |ts|) && tried == Names(ts)
      modifies this`outcomes
      ensures r == WalkOutcome(ts, live, attempt) && outcomes == old(outcomes) + Metrics(r)
    {
      LastCallableIsLast(ts, live, |ts|);
      StopsAtFirst(ts, live, attempt, 0);
      if last.None? {
        return NoAdapter;
      }
      assert PassedOver(ts, live, attempt, last.value);
      Record(ts[last.value], LabelOf(attempt(last.value).error));
      r := ProviderFailed(ts[last.value], attempt(last.value).error, tried);
    }

    method ChatCompletion(c: Config, requested: string, live: nat -> set<string>, attempt: nat -> Attempt)
      returns (r: ChatResult)
      modifies this
      ensures Resolve(c, requested).Unresolved? ==> r == Unresolvable && invoked == old(invoked)
      ensures Resolve(c, requested).Resolved? ==>
                var ts := Resolve(c, requested).targets;
                r == WalkOutcome(ts, live, attempt) && invoked == old(invoked) + Invoked(ts, live, attempt)
      ensures outcomes == old(outcomes) + Metrics(r)
    {
      var resolution := ResolveAliasChain(c, requested);
      if resolution.Unresolved? {
        return Unresolvable;
      }
      r := WalkCandidates(resolution.targets, live, attempt);
    }
  }

  lemma OneMoreTried(ts: seq<ResolvedTarget>, live: nat -> set<string>, i: nat, before: seq<ResolvedTarget>)
    requires i < |ts|
    ensures Names(ts[..i + 1]) == Names(ts[..i]) + [ts[i].provider.name]
    ensures if HasAdapter(live(i), ts[i]) then before + Callable(ts[..i + 1], live) ==
            before + Callable(ts[..i], live) + [ts[i]]
            else Callable(ts[..i + 1], live) == Callable(ts[..i], live)
  {
    assert ts[..i + 1][..i] == ts[..i];
  }
}
