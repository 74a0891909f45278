/** The published report on first-response times: its buckets and its median.  Times are
    hours on one time line. */
module ResponseReport {
  import opened Wrappers

  const TARGET_DAYS: real := 7.0

  datatype Actor = Actor(login: string, isBot: bool)

  datatype Event = Event(kind: string, actor: Actor, at: real)

  datatype PullRequest = PullRequest(number: nat, createdAt: real, author: Actor, closedAt: Option<real>,
                                     events: seq<Event>)

  datatype Measured = Measured(pr: PullRequest, response: Option<Event>, hours: real)

  datatype Report = Report(
    automated: seq<PullRequest>, maintainerAuthored: seq<PullRequest>,
    answered: seq<Measured>, waiting: seq<Measured>, closedUnanswered: seq<Measured>)
  {
    function Total(): nat {
      |automated| + |maintainerAuthored| + |answered| + |waiting| + |closedUnanswered|
    }
  }

  // ---- the first response -------------------------------------------------------

  function Folded(fold: string -> string, logins: set<string>): set<string> {
    set login | login in logins :: fold(login)
  }

  predicate Qualifies(fold: string -> string, pr: PullRequest, logins: set<string>, e: Event) {
    && fold(e.actor.login) in Folded(fold, logins) && !e.actor.isBot
    && fold(e.actor.login) != fold(pr.author.login) && e.at >= pr.createdAt
  }

  function Candidates(fold: string -> string, pr: PullRequest, logins: set<string>, events: seq<Event>): seq<Event> {
    if events == [] then []
    else
      var n := |events| - 1;
      Candidates(fold, pr, logins, events[..n]) + if Qualifies(fold, pr, logins, events[n]) then [events[n]] else []
  }

  /** The earliest of a list; the first listed of several. */
  function Earliest(events: seq<Event>): Event
    requires events != []
  {
    var n := |events| - 1;
    if n == 0 then events[0]
    else
      var best := Earliest(events[..n]);
      if events[n].at < best.at then events[n] else best
  }

  function FirstMaintainerResponse(fold: string -> string, pr: PullRequest, logins: set<string>): Option<Event> {
    var candidates := Candidates(fold, pr, logins, pr.events);
    if candidates == [] then None else Some(Earliest(candidates))
  }

  lemma {:induction false} EarliestIsFirst(events: seq<Event>) returns (k: nat)
    requires events != []
    ensures k < |events| && Earliest(events) == events[k]
    ensures forall i :: 0 <= i < |events| ==> events[k].at <= events[i].at
    ensures forall i :: 0 <= i < k ==> events[k].at < events[i].at
    decreases |events|
  {
    var n := |events| - 1;
    if n == 0 {
      k := 0;
    } else {
      k := EarliestIsFirst(events[..n]);
      if events[n].at < events[..n][k].at {
        k := n;
      }
    }
  }

  lemma {:induction false} CandidatesQualify(fold: string -> string, pr: PullRequest, logins: set<string>,
                                             events: seq<Event>)
    ensures forall e :: e in Candidates(fold, pr, logins, events) <==> e in events && Qualifies(fold, pr, logins, e)
    decreases |events|
  {
    if events != [] {
      CandidatesQualify(fold, pr, logins, events[..|events| - 1]);
      assert events == events[..|events| - 1] + [events[|events| - 1]];
    }
  }

  /** A response is found exactly when some event qualifies; it qualifies itself, is not
      before the opening, and no qualifying event is earlier. */
  lemma ResponseIsEarliest(fold: string -> string, pr: PullRequest, logins: set<string>)
    ensures FirstMaintainerResponse(fold, pr, logins).Some? <==>
              exists e :: e in pr.events && Qualifies(fold, pr, logins, e)
    ensures FirstMaintainerResponse(fold, pr, logins).Some? ==>
              var first := FirstMaintainerResponse(fold, pr, logins).value;
              && first in pr.events && Qualifies(fold, pr, logins, first) && first.at >= pr.createdAt
              && forall e :: e in pr.events && Qualifies(fold, pr, logins, e) ==> first.at <= e.at
  {
    var candidates := Candidates(fold, pr, logins, pr.events);
    CandidatesQualify(fold, pr, logins, pr.events);
    if candidates != [] {
      var k := EarliestIsFirst(candidates);
      assert candidates[k] in candidates;
    }
  }

  // ---- stable sorting -------------------------------------------------------------

  predicate Ascending<T>(xs: seq<T>, key: T -> real) {
    forall i, j :: 0 <= i < j < |xs| ==> key(xs[i]) <= key(xs[j])
  }

  /** Insert behind every element that is not greater. */
  function Insert<T>(xs: seq<T>, x: T, key: T -> real): seq<T> {
    if xs == [] || key(xs[|xs| - 1]) <= key(x) then xs + [x]
    else Insert(xs[..|xs| - 1], x, key) + [xs[|xs| - 1]]
  }

  function SortBy<T>(xs: seq<T>, key: T -> real): seq<T> {
    if xs == [] then [] else Insert(SortBy(xs[..|xs| - 1], key), xs[|xs| - 1], key)
  }

  lemma {:induction false} InsertKeepsAll<T>(xs: seq<T>, x: T, key: T -> real)
    ensures multiset(Insert(xs, x, key)) == multiset(xs) + multiset{x}
    decreases |xs|
  {
    if xs != [] && key(xs[|xs| - 1]) > key(x) {
      InsertKeepsAll(xs[..|xs| - 1], x, key);
      assert xs == xs[..|xs| - 1] + [xs[|xs| - 1]];
    }
  }

  lemma {:induction false} InsertSorts<T>(xs: seq<T>, x: T, key: T -> real)
    requires Ascending(xs, key)
    ensures Ascending(Insert(xs, x, key), key)
    decreases |xs|
  {
    if xs != [] && key(xs[|xs| - 1]) > key(x) {
      var front, last := xs[..|xs| - 1], xs[|xs| - 1];
      var inserted := Insert(front, x, key);
      InsertSorts(front, x, key);
      InsertKeepsAll(front, x, key);
      forall i | 0 <= i < |inserted| ensures key(inserted[i]) <= key(last) {
        assert inserted[i] in multiset(inserted);
        if inserted[i] != x {
          var j :| 0 <= j < |front| && front[j] == inserted[i];
          assert xs[j] == front[j];
        }
      }
    }
  }

  lemma {:induction false} SortBySorts<T>(xs: seq<T>, key: T -> real)
    ensures Ascending(SortBy(xs, key), key) && multiset(SortBy(xs, key)) == multiset(xs)
    ensures |SortBy(xs, key)| == |xs|
    decreases |xs|
  {
    if xs != [] {
      var front := xs[..|xs| - 1];
      SortBySorts(front, key);
      InsertSorts(SortBy(front, key), xs[|xs| - 1], key);
      InsertKeepsAll(SortBy(front, key), xs[|xs| - 1], key);
      assert xs == front + [xs[|xs| - 1]];
    }
    assert |multiset(SortBy(xs, key))| == |SortBy(xs, key)| && |multiset(xs)| == |xs|;
  }

  lemma {:induction false} SortedStays<T>(xs: seq<T>, key: T -> real)
    requires Ascending(xs, key)
    ensures SortBy(xs, key) == xs
    decreases |xs|
  {
    if xs != [] {
      SortedStays(xs[..|xs| - 1], key);
    }
  }

  // ---- classification -------------------------------------------------------------

  function CreatedAt(p: PullRequest): real {
    p.createdAt
  }

  function LongestFirst(m: Measured): real {
    -m.hours
  }

  function ByCreation(prs: seq<PullRequest>): seq<PullRequest> {
    SortBy(prs, CreatedAt)
  }

  datatype Bucket = Automated | MaintainerAuthored | Answered | Waiting | ClosedUnanswered

  function BucketOf(fold: string -> string, pr: PullRequest, logins: set<string>): Bucket {
    if pr.author.isBot then Automated
    else if fold(pr.author.login) in Folded(fold, logins) then MaintainerAuthored
    else if FirstMaintainerResponse(fold, pr, Folded(fold, logins)).Some? then Answered
    else if pr.closedAt.None? then Waiting
    else ClosedUnanswered
  }

  function Only(fold: string -> string, prs: seq<PullRequest>, logins: set<string>, b: Bucket): seq<PullRequest> {
    if prs == [] then []
    else
      var n := |prs| - 1;
      Only(fold, prs[..n], logins, b) + Where(BucketOf(fold, prs[n], logins) == b, prs[n])
  }

  function Prs(ms: seq<Measured>): seq<PullRequest> {
    seq(|ms|, i requires 0 <= i < |ms| => ms[i].pr)
  }

  /** Each list is its bucket, in order of creation. */
  predicate InBuckets(fold: string -> string, prs: seq<PullRequest>, logins: set<string>, r: Report) {
    && r.automated == Only(fold, prs, logins, Automated)
    && r.maintainerAuthored == Only(fold, prs, logins, MaintainerAuthored)
    && Prs(r.answered) == Only(fold, prs, logins, Answered)
    && Prs(r.waiting) == Only(fold, prs, logins, Waiting)
    && Prs(r.closedUnanswered) == Only(fold, prs, logins, ClosedUnanswered)
  }

  predicate AnsweredRight(fold: string -> string, logins: set<string>, m: Measured) {
    && m.response == FirstMaintainerResponse(fold, m.pr, Folded(fold, logins)) && m.response.Some?
    && m.hours == m.response.value.at - m.pr.createdAt
  }

  /** The hours run to the response, to now, or to the closing. */
  predicate MeasuredRight(fold: string -> string, logins: set<string>, now: real, r: Report) {
    && (forall m :: m in r.answered ==> AnsweredRight(fold, logins, m))
    && (forall m :: m in r.waiting ==> m.response.None? && m.hours == now - m.pr.createdAt)
    && (forall m :: m in r.closedUnanswered ==>
          m.response.None? && m.pr.closedAt.Some? && m.hours == m.pr.closedAt.value - m.pr.createdAt)
  }

  lemma {:induction false} OnlyKeeps(fold: string -> string, prs: seq<PullRequest>, logins: set<string>, b: Bucket)
    ensures forall p :: p in Only(fold, prs, logins, b) <==> p in prs && BucketOf(fold, p, logins) == b
    decreases |prs|
  {
    if prs != [] {
      var front, last := prs[..|prs| - 1], prs[|prs| - 1];
      OnlyKeeps(fold, front, logins, b);
      assert prs == front + [last];
    }
  }

  lemma {:induction false} OnlyKeepsOrder(fold: string -> string, prs: seq<PullRequest>, logins: set<string>, b: Bucket)
    requires Ascending(prs, CreatedAt)
    ensures Ascending(Only(fold, prs, logins, b), CreatedAt)
    decreases |prs|
  {
    if prs != [] {
      var front, last := prs[..|prs| - 1], prs[|prs| - 1];
      OnlyKeepsOrder(fold, front, logins, b);
      OnlyKeeps(fold, front, logins, b);
      NoneLater(Only(fold, front, logins, b), prs);
    }
  }

  lemma NoneLater(some: seq<PullRequest>, prs: seq<PullRequest>)
    requires prs != [] && Ascending(prs, CreatedAt) && forall p :: p in some ==> p in prs[..|prs| - 1]
    ensures forall i :: 0 <= i < |some| ==> CreatedAt(some[i]) <= CreatedAt(prs[|prs| - 1])
  {
    forall i | 0 <= i < |some| ensures CreatedAt(some[i]) <= CreatedAt(prs[|prs| - 1]) {
      assert some[i] in some;
      var j :| 0 <= j < |prs| - 1 && prs[j] == some[i];
    }
  }

  lemma {:induction false} OnlyCounts(fold: string -> string, prs: seq<PullRequest>, logins: set<string>, b: Bucket,
                                      p: PullRequest)
    ensures multiset(Only(fold, prs, logins, b))[p] == if BucketOf(fold, p, logins) == b then multiset(prs)[p] else 0
    decreases |prs|
  {
    if prs != [] {
      var front, last := prs[..|prs| - 1], prs[|prs| - 1];
      OnlyCounts(fold, front, logins, b, p);
      assert multiset(prs) == multiset(front) + multiset{last} by {
        assert prs == front + [last];
      }
      var kept := BucketOf(fold, last, logins) == b;
      assert multiset(Only(fold, front, logins, b) + Where(kept, last)) ==
             multiset(Only(fold, front, logins, b)) + if kept then multiset{last} else multiset{};
    }
  }

  function Where(kept: bool, p: PullRequest): seq<PullRequest> {
    if kept then [p] else []
  }

  function Together(a: seq<PullRequest>, b: seq<PullRequest>, c: seq<PullRequest>, d: seq<PullRequest>,
                    e: seq<PullRequest>): multiset<PullRequest>
  {
    multiset(a) + multiset(b) + multiset(c) + multiset(d) + multiset(e)
  }

  /** Every pull request is in exactly one bucket, as often as it was fetched. */
  lemma BucketsPartition(fold: string -> string, prs: seq<PullRequest>, logins: set<string>)
    ensures Together(Only(fold, prs, logins, Automated), Only(fold, prs, logins, MaintainerAuthored),
                     Only(fold, prs, logins, Answered), Only(fold, prs, logins, Waiting),
                     Only(fold, prs, logins, ClosedUnanswered)) == multiset(prs)
  {
    var all := Together(Only(fold, prs, logins, Automated), Only(fold, prs, logins, MaintainerAuthored),
                        Only(fold, prs, logins, Answered), Only(fold, prs, logins, Waiting),
                        Only(fold, prs, logins, ClosedUnanswered));
    forall p ensures all[p] == multiset(prs)[p] {
      OnlyCounts(fold, prs, logins, Automated, p);
      OnlyCounts(fold, prs, logins, MaintainerAuthored, p);
      OnlyCounts(fold, prs, logins, Answered, p);
      OnlyCounts(fold, prs, logins, Waiting, p);
      OnlyCounts(fold, prs, logins, ClosedUnanswered, p);
    }
  }

  /** One turn of the loop. */
  method ClassifyOne(fold: string -> string, pr: PullRequest, logins: set<string>, now: real, r: Report,
                     ghost prs: seq<PullRequest>)
    returns (r': Report)
    requires InBuckets(fold, prs, logins, r) && MeasuredRight(fold, logins, now, r)
    ensures InBuckets(fold, prs + [pr], logins, r') && MeasuredRight(fold, logins, now, r')
  {
    var folded := Folded(fold, logins);
    assert (prs + [pr])[..|prs|] == prs;
    if pr.author.isBot {
      return r.(automated := r.automated + [pr]);
    }
    if fold(pr.author.login) in folded {
      return r.(maintainerAuthored := r.maintainerAuthored + [pr]);
    }
    var response := FirstMaintainerResponse(fold, pr, folded);
    if response.Some? {
      r' := r.(answered := r.answered + [Measured(pr, response, response.value.at - pr.createdAt)]);
      PrsSnoc(r.answered, Measured(pr, response, response.value.at - pr.createdAt));
    } else if pr.closedAt.None? {
      r' := r.(waiting := r.waiting + [Measured(pr, None, now - pr.createdAt)]);
      PrsSnoc(r.waiting, Measured(pr, None, now - pr.createdAt));
    } else {
      r' := r.(closedUnanswered := r.closedUnanswered + [Measured(pr, None, pr.closedAt.value - pr.createdAt)]);
      PrsSnoc(r.closedUnanswered, Measured(pr, None, pr.closedAt.value - pr.createdAt));
    }
  }

  lemma PrsSnoc(ms: seq<Measured>, m: Measured)
    ensures Prs(ms + [m]) == Prs(ms) + [m.pr]
  {
  }

  /** The loop over the pull requests, oldest first. */
  method FillBuckets(fold: string -> string, sorted: seq<PullRequest>, logins: set<string>, now: real)
    returns (r: Report)
    ensures InBuckets(fold, sorted, logins, r) && MeasuredRight(fold, logins, now, r)
  {
    r := Report([], [], [], [], []);
    ghost var done: seq<PullRequest> := [];
    for i := 0 to |sorted|
      invariant done == sorted[..i]
      invariant InBuckets(fold, done, logins, r) && MeasuredRight(fold, logins, now, r)
    {
      r := ClassifyOne(fold, sorted[i], logins, now, r, done);
      done := done + [sorted[i]];
    }
    assert done == sorted;
  }

  method Classify(fold: string -> string, prs: seq<PullRequest>, logins: set<string>, now: real) returns (r: Report)
    ensures InBuckets(fold, ByCreation(prs), logins, r) && MeasuredRight(fold, logins, now, r)
    ensures Together(r.automated, r.maintainerAuthored, Prs(r.answered), Prs(r.waiting), Prs(r.closedUnanswered)) ==
            multiset(prs)
    ensures r.Total() == |prs|
  {
    var sorted := ByCreation(prs);
    var filled := FillBuckets(fold, sorted, logins, now);
    LongestFirstAlready(fold, prs, logins, now, filled);
    r := filled.(waiting := SortBy(filled.waiting, LongestFirst));
    assert r == filled;
    BucketsPartition(fold, sorted, logins);
    SortBySorts(prs, CreatedAt);
    TotalCounts(r, prs);
  }

  lemma TotalCounts(r: Report, prs: seq<PullRequest>)
    requires Together(r.automated, r.maintainerAuthored, Prs(r.answered), Prs(r.waiting), Prs(r.closedUnanswered)) ==
             multiset(prs)
    ensures r.Total() == |prs|
  {
    assert |multiset(prs)| == |prs|;
  }

  /** The last sort of the waiting list changes nothing: by creation is longest first. */
  lemma LongestFirstAlready(fold: string -> string, prs: seq<PullRequest>, logins: set<string>, now: real, r: Report)
    requires InBuckets(fold, ByCreation(prs), logins, r) && MeasuredRight(fold, logins, now, r)
    ensures SortBy(r.waiting, LongestFirst) == r.waiting
  {
    SortBySorts(prs, CreatedAt);
    OnlyKeepsOrder(fold, ByCreation(prs), logins, Waiting);
    forall i, j | 0 <= i < j < |r.waiting| ensures -r.waiting[i].hours <= -r.waiting[j].hours {
      assert Prs(r.waiting)[i].createdAt <= Prs(r.waiting)[j].createdAt;
      assert r.waiting[i] in r.waiting && r.waiting[j] in r.waiting;
    }
    SortedStays(r.waiting, LongestFirst);
  }

  /** A maintainer who is a person and not the author acts on it, not before it was opened.
      (The list of maintainers reaches this test already folded.) */
  predicate IsResponse(fold: string -> string, pr: PullRequest, logins: set<string>, e: Event) {
    && e in pr.events && (exists login :: login in logins && fold(e.actor.login) == fold(fold(login)))
    && !e.actor.isBot && fold(e.actor.login) != fold(pr.author.login) && e.at >= pr.createdAt
  }

  predicate FromOutside(fold: string -> string, pr: PullRequest, logins: set<string>) {
    !pr.author.isBot && forall login :: login in logins ==> fold(pr.author.login) != fold(login)
  }

  ghost predicate IsAnswered(fold: string -> string, pr: PullRequest, logins: set<string>) {
    exists e :: IsResponse(fold, pr, logins, e)
  }

  lemma ResponsesFound(fold: string -> string, pr: PullRequest, logins: set<string>)
    ensures FirstMaintainerResponse(fold, pr, Folded(fold, logins)).Some? <==> IsAnswered(fold, pr, logins)
    ensures FirstMaintainerResponse(fold, pr, Folded(fold, logins)).Some? ==>
              var first := FirstMaintainerResponse(fold, pr, Folded(fold, logins)).value;
              IsResponse(fold, pr, logins, first) && forall e :: IsResponse(fold, pr, logins, e) ==> first.at <= e.at
  {
    ResponseIsEarliest(fold, pr, Folded(fold, logins));
    forall e | e in pr.events
      ensures Qualifies(fold, pr, Folded(fold, logins), e) <==> IsResponse(fold, pr, logins, e)
    {
      FoldedTwice(fold, logins, e.actor.login);
    }
  }

  lemma FoldedTwice(fold: string -> string, logins: set<string>, login: string)
    ensures fold(login) in Folded(fold, Folded(fold, logins)) <==>
              exists l :: l in logins && fold(login) == fold(fold(l))
  {
    if l :| l in logins && fold(login) == fold(fold(l)) {
      assert fold(l) in Folded(fold, logins);
    }
  }

  /** What it means to be in a bucket, and how long each wait in it was. */
  lemma BucketsMean(fold: string -> string, prs: seq<PullRequest>, logins: set<string>, now: real, r: Report,
                    p: PullRequest)
    requires InBuckets(fold, ByCreation(prs), logins, r) && MeasuredRight(fold, logins, now, r)
    ensures p in r.automated <==> p in prs && p.author.isBot
    ensures p in r.maintainerAuthored <==> p in prs && !p.author.isBot && !FromOutside(fold, p, logins)
    ensures p in Prs(r.answered) <==> p in prs && FromOutside(fold, p, logins) && IsAnswered(fold, p, logins)
    ensures p in Prs(r.waiting) <==>
              p in prs && FromOutside(fold, p, logins) && !IsAnswered(fold, p, logins) && p.closedAt.None?
    ensures p in Prs(r.closedUnanswered) <==>
              p in prs && FromOutside(fold, p, logins) && !IsAnswered(fold, p, logins) && p.closedAt.Some?
    ensures forall m :: m in r.answered ==>
              && m.response.Some? && IsResponse(fold, m.pr, logins, m.response.value)
              && (forall e :: IsResponse(fold, m.pr, logins, e) ==> m.response.value.at <= e.at)
              && m.hours == m.response.value.at - m.pr.createdAt
  {
    var sorted := ByCreation(prs);
    SortBySorts(prs, CreatedAt);
    assert p in multiset(sorted) <==> p in multiset(prs);
    ResponsesFound(fold, p, logins);
    OnlyKeeps(fold, sorted, logins, Automated);
    OnlyKeeps(fold, sorted, logins, MaintainerAuthored);
    OnlyKeeps(fold, sorted, logins, Answered);
    OnlyKeeps(fold, sorted, logins, Waiting);
    OnlyKeeps(fold, sorted, logins, ClosedUnanswered);
    forall m | m in r.answered
      ensures && m.response.Some? && IsResponse(fold, m.pr, logins, m.response.value)
              && (forall e :: IsResponse(fold, m.pr, logins, e) ==> m.response.value.at <= e.at)
    {
      ResponsesFound(fold, m.pr, logins);
    }
  }

  // ---- the median -------------------------------------------------------------------

  function Hours(ms: seq<Measured>): seq<real> {
    seq(|ms|, i requires 0 <= i < |ms| => ms[i].hours)
  }

  function Itself(x: real): real {
    x
  }

  function SortedHours(xs: seq<real>): seq<real> {
    SortBy(xs, Itself)
  }

  function Median(xs: seq<real>): real
    requires xs != []
  {
    var sorted := SortedHours(xs);
    SortBySorts(xs, Itself);
    var n := |xs|;
    if n % 2 == 1 then sorted[n / 2] else (sorted[n / 2 - 1] + sorted[n / 2]) / 2.0
  }

  function MedianDays(ms: seq<Measured>): Option<real> {
    if ms == [] then None else Some(Median(Hours(ms)) / 24.0)
  }

  function AtMost(xs: seq<real>, limit: real): nat {
    if xs == [] then 0 else AtMost(xs[..|xs| - 1], limit) + if xs[|xs| - 1] / 24.0 <= limit then 1 else 0
  }

  function WithinTarget(r: Report): nat {
    AtMost(Hours(r.answered), TARGET_DAYS)
  }

  lemma {:induction false} AtMostAfterInsert(xs: seq<real>, x: real, limit: real)
    ensures AtMost(Insert(xs, x, Itself), limit) == AtMost(xs, limit) + if x / 24.0 <= limit then 1 else 0
    decreases |xs|
  {
    var key := Itself;
    if xs == [] || xs[|xs| - 1] <= x {
      assert (xs + [x])[..|xs|] == xs;
    } else {
      var front, last := xs[..|xs| - 1], xs[|xs| - 1];
      AtMostAfterInsert(front, x, limit);
      var inserted := Insert(front, x, key);
      assert Insert(xs, x, key) == inserted + [last];
      assert (inserted + [last])[..|inserted|] == inserted;
    }
  }

  lemma {:induction false} AtMostAfterSort(xs: seq<real>, limit: real)
    ensures AtMost(SortBy(xs, Itself), limit) == AtMost(xs, limit)
    decreases |xs|
  {
    if xs != [] {
      AtMostAfterSort(xs[..|xs| - 1], limit);
      AtMostAfterInsert(SortBy(xs[..|xs| - 1], Itself), xs[|xs| - 1], limit);
    }
  }

  /** In an ascending list the values within the limit come first. */
  lemma {:induction false} CountedFirst(xs: seq<real>, limit: real)
    requires Ascending(xs, Itself)
    ensures AtMost(xs, limit) <= |xs|
    ensures forall i :: 0 <= i < |xs| ==> (xs[i] / 24.0 <= limit <==> i < AtMost(xs, limit))
    decreases |xs|
  {
    if xs != [] {
      var n := |xs| - 1;
      CountedFirst(xs[..n], limit);
      if xs[n] / 24.0 <= limit {
        forall i | 0 <= i < n ensures xs[i] / 24.0 <= limit {
          assert xs[i] <= xs[n];
        }
        assert n > 0 ==> xs[..n][n - 1] / 24.0 <= limit;
      }
    }
  }

  /** The sorted hours, and how many of them are within the limit. */
  lemma SortedAndCounted(xs: seq<real>, limit: real)
    ensures |SortedHours(xs)| == |xs| && AtMost(xs, limit) <= |xs|
    ensures forall i, j :: 0 <= i < j < |xs| ==> SortedHours(xs)[i] <= SortedHours(xs)[j]
    ensures forall i :: 0 <= i < |xs| ==> (SortedHours(xs)[i] / 24.0 <= limit <==> i < AtMost(xs, limit))
  {
    SortBySorts(xs, Itself);
    AtMostAfterSort(xs, limit);
    CountedFirst(SortedHours(xs), limit);
    forall i, j | 0 <= i < j < |xs| ensures SortedHours(xs)[i] <= SortedHours(xs)[j] {
      assert Itself(SortedHours(xs)[i]) <= Itself(SortedHours(xs)[j]);
    }
  }

  /** The published count is that of the responses within a week. */
  lemma WithinAWeek(r: Report)
    ensures WithinTarget(r) == |set i | 0 <= i < |r.answered| && r.answered[i].hours <= 168.0|
  {
    CountedAre(Hours(r.answered));
    assert (set i | 0 <= i < |Hours(r.answered)| && Hours(r.answered)[i] <= 168.0) ==
           set i | 0 <= i < |r.answered| && r.answered[i].hours <= 168.0;
  }

  lemma {:induction false} CountedAre(xs: seq<real>)
    ensures AtMost(xs, TARGET_DAYS) == |set i | 0 <= i < |xs| && xs[i] <= 168.0|
  {
    var within := set i | 0 <= i < |xs| && xs[i] <= 168.0;
    if xs == [] {
      assert within == {};
    } else {
      var n := |xs| - 1;
      CountedAre(xs[..n]);
      var before := set i | 0 <= i < |xs[..n]| && xs[..n][i] <= 168.0;
      assert xs[n] / 24.0 <= TARGET_DAYS <==> xs[n] <= 168.0;
      assert within == before + if xs[n] <= 168.0 then {n} else {};
    }
  }

  /** The published median and the published count agree: a median within the target means
      that at least half were answered within it; more than half within it means a median
      within it.  For an odd number both are one condition. */
  lemma MedianAgreesWithCount(r: Report)
    requires r.answered != []
    ensures MedianDays(r.answered).Some? && WithinTarget(r) <= |r.answered|
    ensures MedianDays(r.answered).value <= TARGET_DAYS ==> 2 * WithinTarget(r) >= |r.answered|
    ensures 2 * WithinTarget(r) > |r.answered| ==> MedianDays(r.answered).value <= TARGET_DAYS
    ensures |r.answered| % 2 == 1 ==> (MedianDays(r.answered).value <= TARGET_DAYS <==>
                                         2 * WithinTarget(r) > |r.answered|)
  {
    var xs := Hours(r.answered);
    SortedAndCounted(xs, TARGET_DAYS);
    var sorted, h := SortedHours(xs), |xs| / 2;
    assert sorted[h] / 24.0 <= TARGET_DAYS <==> h < WithinTarget(r);
    if |xs| % 2 == 0 {
      assert sorted[h - 1] / 24.0 <= TARGET_DAYS <==> h - 1 < WithinTarget(r);
      InDays(sorted[h - 1], sorted[h]);
    }
  }

  /** For an even number with exactly half within the target, the median is within it
      exactly if the two middle waits are within it on average. */
  lemma ExactHalf(r: Report)
    requires r.answered != [] && 2 * WithinTarget(r) == |r.answered|
    ensures var sorted := SortedHours(Hours(r.answered));
            var h := |r.answered| / 2;
            && |sorted| == 2 * h
            && sorted[h - 1] <= 24.0 * TARGET_DAYS < sorted[h]
            && (MedianDays(r.answered).value <= TARGET_DAYS <==> sorted[h - 1] + sorted[h] <= 48.0 * TARGET_DAYS)
  {
    var xs := Hours(r.answered);
    SortedAndCounted(xs, TARGET_DAYS);
    var h := |xs| / 2;
    InDays(SortedHours(xs)[h - 1], SortedHours(xs)[h]);
  }

  lemma InDays(a: real, b: real)
    ensures a / 24.0 <= TARGET_DAYS <==> a <= 24.0 * TARGET_DAYS
    ensures b / 24.0 <= TARGET_DAYS <==> b <= 24.0 * TARGET_DAYS
    ensures (a + b) / 2.0 / 24.0 <= TARGET_DAYS <==> a + b <= 48.0 * TARGET_DAYS
  {
  }
}
