/** The broker's two slots and the life of a job's container, for any number of jobs. */
module ScriptBroker {
  import opened Wrappers
  import opened LogFrames

  const SLOTS: nat := 2
  const MAX_INPUTS: nat := 65536

  datatype Bundle = Bundle(image: string, digest: string, scripts: seq<string>)

  /** `inputsSize` is the length of the inputs as JSON, if they have one. */
  datatype Request = Request(shapeOk: bool, key: string, digest: string, script: string, inputsSize: Option<nat>)

  datatype EngineCall =
    | Create(name: string, image: string)
    | Start(name: string)
    | Wait(name: string)
    | Logs(name: string)
    | Delete(name: string)

  /** How a call to the engine ends.  The broker handles socket, value and HTTP errors;
      anything else propagates. */
  datatype Answer = Good(warnings: bool, status: int, logs: Bytes) | Caught | Uncaught

  datatype Json = Value(text: string) | NotJson | TooDeep

  datatype Outcome = Result(json: string) | Error(code: string) | Raised

  const INVALID := "invalid_request"
  const NOT_ENABLED := "script_not_enabled"
  const BUSY := "runner_busy"
  const UNAVAILABLE := "runner_unavailable"
  const SCRIPT_FAILED := "script_failed"

  datatype Setup = Setup(bundles: map<string, Bundle>, parse: Bytes -> Json)

  /** Where a request is in `run`; `Deleting` and `Releasing` are its two `finally` blocks. */
  datatype Pc =
    | Asked | Creating | Starting | Waiting | Reading
    | Deleting(pending: Outcome) | Releasing(outcome: Outcome) | Finished(result: Outcome)

  /** A call that was made and how the engine answered it. */
  datatype Attempt = Attempt(call: EngineCall, answer: Answer) {
    predicate Ok() {
      answer.Good?
    }
  }

  /** A request with the container name it generates if it gets that far. */
  datatype Job = Job(request: Request, name: string, pc: Pc, calls: seq<Attempt>, acquired: nat, released: nat)

  predicate Approved(s: Setup, r: Request) {
    && r.shapeOk && r.key in s.bundles && r.digest == s.bundles[r.key].digest && r.script in s.bundles[r.key].scripts
    && r.inputsSize.Some? && r.inputsSize.value <= MAX_INPUTS
  }

  function Refusal(s: Setup, r: Request): Outcome {
    if !r.shapeOk then Error(INVALID)
    else if r.key !in s.bundles || r.digest != s.bundles[r.key].digest || r.script !in s.bundles[r.key].scripts
    then Error(NOT_ENABLED)
    else Error(INVALID)
  }

  function ReadLogs(s: Setup, logs: Bytes): Outcome {
    match Frames(logs)
    case None => Error(UNAVAILABLE)
    case Some(fs) =>
      match s.parse(Payloads(fs))
      case Value(text) => Result(text)
      case NotJson => Error(UNAVAILABLE)
      case TooDeep => Raised
  }

  function Failure(a: Answer): Outcome
    requires !a.Good?
  {
    if a.Caught? then Error(UNAVAILABLE) else Raised
  }

  /** The next engine call of a job between its two slot operations. */
  function NextCall(s: Setup, j: Job): EngineCall
    requires !j.pc.Asked? && !j.pc.Releasing? && !j.pc.Finished?
  {
    match j.pc
    case Creating => Create(j.name, Image(s, j.request))
    case Starting => Start(j.name)
    case Waiting => Wait(j.name)
    case Reading => Logs(j.name)
    case Deleting(_) => Delete(j.name)
  }

  /** The image of the bundle that the request names, from the operator's map alone. */
  function Image(s: Setup, r: Request): string {
    if r.key in s.bundles then s.bundles[r.key].image else ""
  }

  function AfterCall(s: Setup, pc: Pc, a: Answer): Pc
    requires !pc.Asked? && !pc.Releasing? && !pc.Finished?
  {
    match pc
    case Creating =>
      if !a.Good? then Deleting(Failure(a)) else if a.warnings then Deleting(Error(UNAVAILABLE)) else Starting
    case Starting => if !a.Good? then Deleting(Failure(a)) else Waiting
    case Waiting =>
      if !a.Good? then Deleting(Failure(a)) else if a.status != 0 then Deleting(Error(SCRIPT_FAILED)) else Reading
    case Reading => Deleting(if a.Good? then ReadLogs(s, a.logs) else Failure(a))
    case Deleting(pending) => Releasing(if a.Good? then pending else Raised)
  }

  /** One atomic step of one job: a slot operation or an engine call. */
  function Advance(s: Setup, free: nat, j: Job, a: Answer): (nat, Job) {
    match j.pc
    case Asked =>
      if !Approved(s, j.request) then (free, j.(pc := Finished(Refusal(s, j.request))))
      else if free == 0 then (free, j.(pc := Finished(Error(BUSY))))
      else (free - 1, j.(pc := Creating, acquired := j.acquired + 1))
    case Releasing(outcome) => (free + 1, j.(pc := Finished(outcome), released := j.released + 1))
    case Finished(_) => (free, j)
    case _ => (free, j.(pc := AfterCall(s, j.pc, a), calls := j.calls + [Attempt(NextCall(s, j), a)]))
  }

  // ---- what every job keeps -------------------------------------------------------

  predicate Holding(j: Job) {
    !j.pc.Asked? && !j.pc.Finished?
  }

  /** The calls made so far, by stage: the steps succeed up to the last but one, the
      deletion comes last and once. */
  predicate JobOk(s: Setup, j: Job) {
    && (Holding(j) || j.acquired > 0 ==> Approved(s, j.request))
    && j.acquired == (if Holding(j) || j.released > 0 then 1 else 0)
    && j.released == (if j.pc.Finished? && j.acquired > 0 then 1 else 0)
    && match j.pc
       case Asked => j.calls == []
       case Creating => j.calls == []
       case Starting => |j.calls| == 1 && Ran(j.name, Image(s, j.request), j.calls) && j.calls[0].Ok()
       case Waiting => |j.calls| == 2 && Ran(j.name, Image(s, j.request), j.calls) && j.calls[1].Ok()
       case Reading => |j.calls| == 3 && Ran(j.name, Image(s, j.request), j.calls) && j.calls[2].Ok()
       case Deleting(_) => j.calls != [] && Ran(j.name, Image(s, j.request), j.calls)
       case Releasing(outcome) => CleanedUp(j.name, Image(s, j.request), j.calls, outcome)
       case Finished(outcome) =>
         if j.acquired > 0 then CleanedUp(j.name, Image(s, j.request), j.calls, outcome)
         else j.calls == [] && outcome.Error?
  }

  function Planned(name: string, image: string, k: nat): EngineCall {
    if k == 0 then Create(name, image) else if k == 1 then Start(name) else if k == 2 then Wait(name) else Logs(name)
  }

  /** The calls before the deletion are the first of create, start, wait and logs, all of
      this container, and only the last may have failed. */
  predicate Ran(name: string, image: string, calls: seq<Attempt>) {
    && |calls| <= 4
    && forall k :: 0 <= k < |calls| ==> calls[k].call == Planned(name, image, k) && (k + 1 < |calls| ==> calls[k].Ok())
  }

  /** The container was asked for, and at the end deleted once; the call raises unless
      that deletion succeeded. */
  predicate CleanedUp(name: string, image: string, calls: seq<Attempt>, outcome: Outcome) {
    var n := |calls| - 1;
    && 1 <= n && Ran(name, image, calls[..n])
    && calls[n].call == Delete(name)
    && (calls[n].Ok() || outcome.Raised?)
  }

  /** Jobs on hold, counted from the front. */
  function Running(jobs: seq<Job>): nat {
    if jobs == [] then 0
    else Running(jobs[..|jobs| - 1]) + if Holding(jobs[|jobs| - 1]) then 1 else 0
  }

  lemma {:induction false} RunningAre(jobs: seq<Job>)
    ensures Running(jobs) == |set k | 0 <= k < |jobs| && Holding(jobs[k])|
  {
    var held := set k | 0 <= k < |jobs| && Holding(jobs[k]);
    if jobs == [] {
      assert held == {};
    } else {
      var n := |jobs| - 1;
      RunningAre(jobs[..n]);
      var before := set k | 0 <= k < |jobs[..n]| && Holding(jobs[..n][k]);
      assert held == before + if Holding(jobs[n]) then {n} else {};
    }
  }

  /** The free slots and all requests so far. */
  datatype State = State(free: nat, jobs: seq<Job>)

  predicate Sound(s: Setup, st: State) {
    && Running(st.jobs) + st.free == SLOTS
    && forall i :: 0 <= i < |st.jobs| ==> JobOk(s, st.jobs[i])
  }

  lemma {:induction false} RunningAfterUpdate(jobs: seq<Job>, i: nat, j: Job)
    requires i < |jobs|
    ensures Running(jobs[i := j]) + (if Holding(jobs[i]) then 1 else 0) == Running(jobs) + (if Holding(j) then 1 else 0)
    decreases |jobs|
  {
    var n := |jobs| - 1;
    if i == n {
      assert jobs[i := j][..n] == jobs[..n];
    } else {
      RunningAfterUpdate(jobs[..n], i, j);
      assert jobs[i := j][..n] == jobs[..n][i := j];
    }
  }

  lemma RanOneMore(name: string, image: string, calls: seq<Attempt>, a: Answer)
    requires Ran(name, image, calls) && |calls| < 4 && (calls == [] || calls[|calls| - 1].Ok())
    ensures Ran(name, image, calls + [Attempt(Planned(name, image, |calls|), a)])
  {
  }

  lemma RanThenDeleted(name: string, image: string, calls: seq<Attempt>, a: Answer, pending: Outcome)
    requires Ran(name, image, calls) && calls != []
    ensures CleanedUp(name, image, calls + [Attempt(Delete(name), a)], if a.Good? then pending else Raised)
  {
    assert (calls + [Attempt(Delete(name), a)])[..|calls|] == calls;
  }

  /** After a stage the job goes on to the next one, if the call succeeded, or to the deletion. */
  predicate NextStage(pc: Pc, next: Pc, ok: bool) {
    if pc.Creating? && next.Starting? then ok
    else if pc.Starting? && next.Waiting? then ok
    else if pc.Waiting? && next.Reading? then ok
    else next.Deleting?
  }

  lemma AfterStage(s: Setup, pc: Pc, a: Answer)
    requires pc.Creating? || pc.Starting? || pc.Waiting? || pc.Reading?
    ensures NextStage(pc, AfterCall(s, pc, a), a.Good?)
  {
  }

  lemma StageKeepsJob(s: Setup, j: Job, next: Pc, a: Answer)
    requires JobOk(s, j) && (j.pc.Creating? || j.pc.Starting? || j.pc.Waiting? || j.pc.Reading?) &&
             NextStage(j.pc, next, a.Good?)
    ensures JobOk(s, j.(pc := next, calls := j.calls + [Attempt(NextCall(s, j), a)]))
  {
    RanOneMore(j.name, Image(s, j.request), j.calls, a);
  }

  /** The job is in order, and slots held and free are as many as before. */
  predicate Kept(s: Setup, free: nat, j: Job, free': nat, j': Job) {
    JobOk(s, j') && free' + (if Holding(j') then 1 else 0) == free + (if Holding(j) then 1 else 0)
  }

  lemma AskedAdvances(s: Setup, free: nat, j: Job, a: Answer)
    requires JobOk(s, j) && j.pc.Asked?
    ensures Kept(s, free, j, Advance(s, free, j, a).0, Advance(s, free, j, a).1)
  {
  }

  lemma ReleasingAdvances(s: Setup, free: nat, j: Job, a: Answer)
    requires JobOk(s, j) && j.pc.Releasing?
    ensures Kept(s, free, j, Advance(s, free, j, a).0, Advance(s, free, j, a).1)
  {
    assert Advance(s, free, j, a) == (free + 1, j.(pc := Finished(j.pc.outcome), released := j.released + 1));
  }

  lemma DeletingAdvances(s: Setup, free: nat, j: Job, a: Answer)
    requires JobOk(s, j) && j.pc.Deleting?
    ensures Kept(s, free, j, Advance(s, free, j, a).0, Advance(s, free, j, a).1)
  {
    var outcome := if a.Good? then j.pc.pending else Raised;
    var calls := j.calls + [Attempt(Delete(j.name), a)];
    assert Advance(s, free, j, a) == (free, j.(pc := Releasing(outcome), calls := calls));
    RanThenDeleted(j.name, Image(s, j.request), j.calls, a, j.pc.pending);
    DeletedIsOk(s, j, calls, outcome);
  }

  lemma DeletedIsOk(s: Setup, j: Job, calls: seq<Attempt>, outcome: Outcome)
    requires JobOk(s, j) && j.pc.Deleting? && CleanedUp(j.name, Image(s, j.request), calls, outcome)
    ensures JobOk(s, j.(pc := Releasing(outcome), calls := calls))
  {
  }

  lemma StageAdvances(s: Setup, free: nat, j: Job, a: Answer)
    requires JobOk(s, j) && (j.pc.Creating? || j.pc.Starting? || j.pc.Waiting? || j.pc.Reading?)
    ensures Kept(s, free, j, Advance(s, free, j, a).0, Advance(s, free, j, a).1)
  {
    var next := AfterCall(s, j.pc, a);
    assert Advance(s, free, j, a) == (free, j.(pc := next, calls := j.calls + [Attempt(NextCall(s, j), a)]));
    AfterStage(s, j.pc, a);
    StageKeepsJob(s, j, next, a);
  }

  lemma AdvanceKeepsJob(s: Setup, free: nat, j: Job, a: Answer)
    requires JobOk(s, j)
    ensures JobOk(s, Advance(s, free, j, a).1)
    ensures Kept(s, free, j, Advance(s, free, j, a).0, Advance(s, free, j, a).1)
  {
    if j.pc.Asked? {
      AskedAdvances(s, free, j, a);
    } else if j.pc.Releasing? {
      ReleasingAdvances(s, free, j, a);
    } else if j.pc.Deleting? {
      DeletingAdvances(s, free, j, a);
    } else if !j.pc.Finished? {
      StageAdvances(s, free, j, a);
    }
  }

  /** Which job moves, and how the engine answers it. */
  datatype Event = Step(who: nat, answer: Answer) | Arrives(request: Request, name: string)

  function Fresh(r: Request, name: string): Job {
    Job(r, name, Asked, [], 0, 0)
  }

  function Next(s: Setup, st: State, e: Event): State {
    match e
    case Arrives(r, name) => st.(jobs := st.jobs + [Fresh(r, name)])
    case Step(i, answer) =>
      if i >= |st.jobs| then st
      else
        var next := Advance(s, st.free, st.jobs[i], answer);
        State(next.0, st.jobs[i := next.1])
  }

  /** A run under any schedule; requests arrive at any time. */
  function Run(s: Setup, st: State, schedule: seq<Event>): State
    decreases |schedule|
  {
    if schedule == [] then st else Run(s, Next(s, st, schedule[0]), schedule[1..])
  }

  lemma NextKeeps(s: Setup, st: State, e: Event)
    requires Sound(s, st)
    ensures Sound(s, Next(s, st, e))
  {
    match e
    case Arrives(r, name) => ArrivalKeeps(s, st, r, name);
    case Step(i, answer) =>
      if i < |st.jobs| {
        AdvanceKeepsJob(s, st.free, st.jobs[i], answer);
        JobReplaced(s, st, i, Advance(s, st.free, st.jobs[i], answer).0, Advance(s, st.free, st.jobs[i], answer).1);
      }
  }

  lemma JobReplaced(s: Setup, st: State, i: nat, free: nat, j: Job)
    requires Sound(s, st) && i < |st.jobs| && Kept(s, st.free, st.jobs[i], free, j)
    ensures Sound(s, State(free, st.jobs[i := j]))
  {
    RunningAfterUpdate(st.jobs, i, j);
  }

  lemma ArrivalKeeps(s: Setup, st: State, r: Request, name: string)
    requires Sound(s, st)
    ensures Sound(s, Next(s, st, Arrives(r, name)))
  {
    assert (st.jobs + [Fresh(r, name)])[..|st.jobs|] == st.jobs;
  }

  /** Under every schedule running jobs and free slots make two, each job that got a slot
      gives it back once, and its container is deleted once or its call raises. */
  lemma {:induction false} RunSound(s: Setup, st: State, schedule: seq<Event>)
    requires Sound(s, st)
    ensures Sound(s, Run(s, st, schedule))
    decreases |schedule|
  {
    if schedule != [] {
      NextKeeps(s, st, schedule[0]);
      RunSound(s, Next(s, st, schedule[0]), schedule[1..]);
    }
  }

  /** The same, read off at the end of a run that starts with no jobs. */
  lemma SlotsAndContainers(s: Setup, schedule: seq<Event>)
    ensures var end := Run(s, State(SLOTS, []), schedule);
            && Running(end.jobs) + end.free == 2
            && forall i :: 0 <= i < |end.jobs| ==>
                 OwnContainerOnly(end.jobs[i]) && (end.jobs[i].pc.Finished? ==> Settled(s, end.jobs[i]))
  {
    RunSound(s, State(SLOTS, []), schedule);
    var end := Run(s, State(SLOTS, []), schedule);
    forall i | 0 <= i < |end.jobs|
      ensures OwnContainerOnly(end.jobs[i]) && (end.jobs[i].pc.Finished? ==> Settled(s, end.jobs[i]))
    {
      assert JobOk(s, end.jobs[i]);
      JobIsSettled(s, end.jobs[i]);
    }
  }

  /** At every moment of every run at most two requests hold a slot, and an approved one that
      asks is told that the runner is busy exactly when two others do. */
  lemma BusyExactly(s: Setup, schedule: seq<Event>, i: nat, a: Answer)
    ensures var st := Run(s, State(SLOTS, []), schedule);
            var held := set k | 0 <= k < |st.jobs| && Holding(st.jobs[k]);
            && |held| <= 2
            && (i < |st.jobs| && st.jobs[i].pc.Asked? && Approved(s, st.jobs[i].request) ==>
                  Next(s, st, Step(i, a)).jobs[i].pc ==
                  if |held| == 2 then Finished(Error("runner_busy")) else Creating)
  {
    RunSound(s, State(SLOTS, []), schedule);
    RunningAre(Run(s, State(SLOTS, []), schedule).jobs);
  }

  /** Whatever a job asks of the engine concerns the container it named. */
  predicate OwnContainerOnly(j: Job) {
    forall k :: 0 <= k < |j.calls| ==> j.calls[k].call.name == j.name
  }

  /** Slots given back; with a slot the container was created from the approved image and its
      deletion was attempted once, last, and the call raised unless it succeeded. */
  predicate Settled(s: Setup, j: Job)
    requires j.pc.Finished?
  {
    && j.released == j.acquired <= 1
    && (j.acquired == 0 ==> j.calls == [])
    && (j.acquired == 1 ==>
          && |j.calls| >= 2 && CountDeletes(j.calls) == 1 && Approved(s, j.request)
          && j.calls[0].call == Create(j.name, s.bundles[j.request.key].image)
          && j.calls[|j.calls| - 1].call == Delete(j.name)
          && (j.calls[|j.calls| - 1].Ok() || j.pc.result.Raised?))
  }

  lemma JobIsSettled(s: Setup, j: Job)
    requires JobOk(s, j)
    ensures OwnContainerOnly(j) && (j.pc.Finished? ==> Settled(s, j))
  {
    if j.calls != [] {
      var n := |j.calls| - 1;
      if j.pc.Releasing? || j.pc.Finished? {
        assert j.calls[0] == j.calls[..n][0];
        assert forall k :: 0 <= k < n ==> j.calls[k] == j.calls[..n][k];
        NoDeletes(j.calls[..n]);
      }
    }
  }

  function CountDeletes(calls: seq<Attempt>): nat {
    if calls == [] then 0
    else CountDeletes(calls[..|calls| - 1]) + if calls[|calls| - 1].call.Delete? then 1 else 0
  }

  lemma {:induction false} NoDeletes(calls: seq<Attempt>)
    requires forall k :: 0 <= k < |calls| ==> !calls[k].call.Delete?
    ensures CountDeletes(calls) == 0
  {
    if calls != [] {
      NoDeletes(calls[..|calls| - 1]);
    }
  }

  // ---- what an outcome says -----------------------------------------------------------

  /** The first `n` calls went well: created without a warning, and ended with status 0. */
  predicate WentWell(calls: seq<Attempt>, n: nat) {
    && n <= |calls|
    && forall k :: 0 <= k < n ==>
         calls[k].answer.Good? && (k == 0 ==> !calls[k].answer.warnings) && (k == 2 ==> calls[k].answer.status == 0)
  }

  /** What the calls of the `try` block mean, by their answers alone. */
  predicate TryMeans(s: Setup, calls: seq<Attempt>, outcome: Outcome) {
    && 1 <= |calls| <= 4 && WentWell(calls, |calls| - 1)
    && match calls[|calls| - 1].answer
       case Caught => outcome == Error("runner_unavailable")
       case Uncaught => outcome == Raised
       case Good(warnings, status, logs) =>
         || (|calls| == 1 && warnings && outcome == Error("runner_unavailable"))
         || (|calls| == 3 && status != 0 && outcome == Error("script_failed"))
         || (|calls| == 4 && LogsMean(s, logs, outcome))
  }

  /** A result is the parsed payload of a well-formed log; a log that is cut short or is no
      JSON makes the runner unavailable. */
  predicate LogsMean(s: Setup, logs: Bytes, outcome: Outcome) {
    match outcome
    case Result(text) => Frames(logs).Some? && s.parse(Payloads(Frames(logs).value)) == Value(text)
    case Error(code) =>
      code == "runner_unavailable" && (Frames(logs).None? || s.parse(Payloads(Frames(logs).value)) == NotJson)
    case Raised => Frames(logs).Some? && s.parse(Payloads(Frames(logs).value)) == TooDeep
  }

  /** A deletion that fails replaces the outcome. */
  predicate JobMeans(s: Setup, calls: seq<Attempt>, outcome: Outcome) {
    var n := |calls| - 1;
    n >= 1 && if calls[n].Ok() then TryMeans(s, calls[..n], outcome) else outcome == Raised
  }

  predicate JobTold(s: Setup, j: Job) {
    && (Holding(j) ==> j.acquired > 0) && (j.acquired > 0 ==>
                                             j.request.shapeOk && Enabled(s, j.request) && Fits(j.request))
    && match j.pc
       case Asked => j.calls == [] && j.acquired == 0
       case Creating => j.calls == []
       case Starting => |j.calls| == 1 && WentWell(j.calls, 1)
       case Waiting => |j.calls| == 2 && WentWell(j.calls, 2)
       case Reading => |j.calls| == 3 && WentWell(j.calls, 3)
       case Deleting(pending) => TryMeans(s, j.calls, pending)
       case Releasing(outcome) => JobMeans(s, j.calls, outcome)
       case Finished(outcome) =>
         if j.acquired > 0 then JobMeans(s, j.calls, outcome) else RefusedRight(s, j.request, outcome)
  }

  /** Without a slot: the request is malformed, not enabled, too large, or there was no slot. */
  predicate RefusedRight(s: Setup, r: Request, outcome: Outcome) {
    outcome ==
    if !r.shapeOk then Error("invalid_request")
    else if !Enabled(s, r) then Error("script_not_enabled")
    else if !Fits(r) then Error("invalid_request")
    else Error("runner_busy")
  }

  /** The operator's map has the bundle, in this version, and the script is one of its own. */
  predicate Enabled(s: Setup, r: Request) {
    r.key in s.bundles && r.digest == s.bundles[r.key].digest && r.script in s.bundles[r.key].scripts
  }

  predicate Fits(r: Request) {
    r.inputsSize.Some? && r.inputsSize.value <= 65536
  }

  lemma CallTold(s: Setup, j: Job, a: Answer)
    requires JobTold(s, j) && (j.pc.Creating? || j.pc.Starting? || j.pc.Waiting? || j.pc.Reading?)
    ensures JobTold(s, j.(pc := AfterCall(s, j.pc, a), calls := j.calls + [Attempt(NextCall(s, j), a)]))
  {
    var calls := j.calls + [Attempt(NextCall(s, j), a)];
    assert calls[..|j.calls|] == j.calls;
    assert WentWell(calls, |j.calls|);
  }

  lemma AdvanceTold(s: Setup, free: nat, j: Job, a: Answer)
    requires JobTold(s, j)
    ensures JobTold(s, Advance(s, free, j, a).1)
  {
    if j.pc.Creating? || j.pc.Starting? || j.pc.Waiting? || j.pc.Reading? {
      CallTold(s, j, a);
    } else if j.pc.Deleting? {
      var calls := j.calls + [Attempt(NextCall(s, j), a)];
      assert calls[..|j.calls|] == j.calls;
    }
  }

  lemma {:induction false} RunTold(s: Setup, st: State, schedule: seq<Event>)
    requires forall i :: 0 <= i < |st.jobs| ==> JobTold(s, st.jobs[i])
    ensures forall i :: 0 <= i < |Run(s, st, schedule).jobs| ==> JobTold(s, Run(s, st, schedule).jobs[i])
    decreases |schedule|
  {
    if schedule != [] {
      var st' := Next(s, st, schedule[0]);
      forall i | 0 <= i < |st'.jobs| ensures JobTold(s, st'.jobs[i]) {
        if schedule[0].Step? && schedule[0].who == i < |st.jobs| {
          AdvanceTold(s, st.free, st.jobs[i], schedule[0].answer);
        }
      }
      RunTold(s, st', schedule[1..]);
    }
  }

  /** What each finished request was told, in every run. */
  lemma OutcomesMean(s: Setup, schedule: seq<Event>, i: nat)
    requires i < |Run(s, State(SLOTS, []), schedule).jobs| && Run(s, State(SLOTS, []), schedule).jobs[i].pc.Finished?
    ensures var j := Run(s, State(SLOTS, []), schedule).jobs[i];
            if j.acquired > 0 then
              j.request.shapeOk && Enabled(s, j.request) && Fits(j.request) && JobMeans(s, j.calls, j.pc.result)
            else RefusedRight(s, j.request, j.pc.result)
  {
    RunTold(s, State(SLOTS, []), schedule);
  }

  // ---- every request ends -------------------------------------------------------------

  /** Steps left at most. */
  function Left(pc: Pc): nat {
    match pc
    case Asked => 7
    case Creating => 6
    case Starting => 5
    case Waiting => 4
    case Reading => 3
    case Deleting(_) => 2
    case Releasing(_) => 1
    case Finished(_) => 0
  }

  /** The turns a schedule gives to one job. */
  function Turns(schedule: seq<Event>, i: nat): nat {
    if schedule == [] then 0
    else Turns(schedule[1..], i) + if schedule[0].Step? && schedule[0].who == i then 1 else 0
  }

  /** A request finishes within seven turns of its own, whatever the engine answers and
      whatever the others do between them. */
  lemma {:induction false} EndsWithinItsTurns(s: Setup, st: State, schedule: seq<Event>, i: nat)
    requires i < |st.jobs| && Turns(schedule, i) >= Left(st.jobs[i].pc)
    ensures i < |Run(s, st, schedule).jobs| && Run(s, st, schedule).jobs[i].pc.Finished?
    decreases |schedule|
  {
    if schedule != [] {
      EndsWithinItsTurns(s, Next(s, st, schedule[0]), schedule[1..], i);
    }
  }

  // ---- one request, as the broker runs it, among others -----------------------------------

  lemma {:induction false} RunOn(s: Setup, st: State, first: seq<Event>, second: seq<Event>)
    ensures Run(s, st, first + second) == Run(s, Run(s, st, first), second)
    decreases |first|
  {
    if first == [] {
      assert first + second == second;
    } else {
      RunOn(s, Next(s, st, first[0]), first[1..], second);
      assert (first + second)[1..] == first[1..] + second;
    }
  }

  /** Steps that are not job `i`'s own. */
  predicate Elsewhere(schedule: seq<Event>, i: nat) {
    forall k :: 0 <= k < |schedule| && schedule[k].Step? ==> schedule[k].who != i
  }

  lemma {:induction false} ElsewhereLeaves(s: Setup, st: State, schedule: seq<Event>, i: nat)
    requires i < |st.jobs| && Elsewhere(schedule, i)
    ensures i < |Run(s, st, schedule).jobs| && Run(s, st, schedule).jobs[i] == st.jobs[i]
    decreases |schedule|
  {
    if schedule != [] {
      ElsewhereLeaves(s, Next(s, st, schedule[0]), schedule[1..], i);
    }
  }

  /** Request `i` makes `n` calls to the engine and the others run on during each. */
  function Calling(i: nat, answers: nat -> Answer, others: nat -> seq<Event>, n: nat): seq<Event> {
    if n == 0 then [] else Calling(i, answers, others, n - 1) + [Step(i, answers(n - 1))] + others(n - 1)
  }

  /** All steps of request `i`, with those of the others where they fall: the checks and the
      slot, `n` calls of the `try` block, the deletion, the release. */
  function Woven(i: nat, answers: nat -> Answer, others: nat -> seq<Event>, n: nat): seq<Event> {
    [Step(i, answers(0))] + Calling(i, answers, others, n) + [Step(i, answers(n))] + others(4) + [Step(i, Caught)]
  }

  /** The broker's semaphore and the requests its threads are serving or have served. */
  class Broker {
    const setup: Setup
    var slots: nat
    var jobs: seq<Job>

    constructor (setup: Setup)
      ensures this.setup == setup && View() == State(SLOTS, []) && Valid()
    {
      this.setup := setup;
      slots, jobs := SLOTS, [];
    }

    function View(): State
      reads this
    {
      State(slots, jobs)
    }

    predicate Valid()
      reads this
    {
      Sound(setup, View())
    }

    method Accept(r: Request, name: string) returns (i: nat)
      requires Valid()
      modifies this`jobs
      ensures Valid() && View() == Next(setup, old(View()), Arrives(r, name))
      ensures i == |old(jobs)| && i < |jobs| && jobs[i] == Fresh(r, name)
    {
      NextKeeps(setup, View(), Arrives(r, name));
      i := |jobs|;
      jobs := jobs + [Fresh(r, name)];
    }

    /** What the other threads do meanwhile. */
    method Await(i: nat, schedule: seq<Event>, ghost s0: State, ghost before: seq<Event>)
      returns (ghost done: seq<Event>)
      requires Valid() && i < |jobs| && Elsewhere(schedule, i) && View() == Run(setup, s0, before)
      modifies this
      ensures done == before + schedule
      ensures Valid() && View() == Run(setup, s0, done) && i < |jobs| && jobs[i] == old(jobs)[i]
    {
      RunSound(setup, View(), schedule);
      ElsewhereLeaves(setup, View(), schedule, i);
      RunOn(setup, s0, before, schedule);
      done := before + schedule;
      var next := Run(setup, View(), schedule);
      slots, jobs := next.free, next.jobs;
    }

    /** The next step of job `i` appended to the schedule. */
    ghost method NextStep(i: nat, a: Answer, s0: State, before: seq<Event>) returns (done: seq<Event>)
      requires Valid() && i < |jobs| && View() == Run(setup, s0, before)
      ensures done == before + [Step(i, a)]
      ensures Run(setup, s0, done) == Next(setup, View(), Step(i, a)) && Sound(setup, Next(setup, View(), Step(i, a)))
    {
      RunOn(setup, s0, before, [Step(i, a)]);
      NextKeeps(setup, View(), Step(i, a));
      done := before + [Step(i, a)];
      assert Run(setup, View(), [Step(i, a)]) == Run(setup, Next(setup, View(), Step(i, a)), []);
    }

    /** One call to the engine, the one that is due, and what the others do until the next. */
    method Engine(i: nat, call: EngineCall, a: Answer, meanwhile: seq<Event>, ghost s0: State, ghost before: seq<Event>)
      returns (ok: bool, ghost done: seq<Event>)
      requires Valid() && i < |jobs| && Holding(jobs[i]) && !jobs[i].pc.Releasing? && call == NextCall(setup, jobs[i])
      requires View() == Run(setup, s0, before) && Elsewhere(meanwhile, i)
      modifies this
      ensures Valid() && View() == Run(setup, s0, done) && i < |jobs| && ok == a.Good?
      ensures done == before + [Step(i, a)] + meanwhile
      ensures jobs[i] == old(jobs)[i].(pc := AfterCall(setup, old(jobs)[i].pc, a),
                                       calls := old(jobs)[i].calls + [Attempt(call, a)])
    {
      ok := a.Good?;
      done := NextStep(i, a, s0, before);
      jobs := jobs[i := jobs[i].(pc := AfterCall(setup, jobs[i].pc, a), calls := jobs[i].calls + [Attempt(call, a)])];
      done := Await(i, meanwhile, s0, done);
    }

    /** The `n`-th call of the `try` block. */
    method CallNext(i: nat, n: nat, call: EngineCall, answers: nat -> Answer, others: nat -> seq<Event>,
                    ghost s0: State, ghost start: seq<Event>, ghost before: seq<Event>)
      returns (ok: bool, ghost done: seq<Event>)
      requires Valid() && i < |jobs| && Holding(jobs[i]) && !jobs[i].pc.Releasing? && call == NextCall(setup, jobs[i])
      requires View() == Run(setup, s0, before) && Elsewhere(others(n), i)
      requires |jobs[i].calls| == n && before == start + Calling(i, answers, others, n)
      modifies this
      ensures Valid() && View() == Run(setup, s0, done) && i < |jobs| && ok == answers(n).Good?
      ensures jobs[i] == old(jobs)[i].(pc := AfterCall(setup, old(jobs)[i].pc, answers(n)), calls := jobs[i].calls)
      ensures |jobs[i].calls| == n + 1 && done == start + Calling(i, answers, others, n + 1)
    {
      ok, done := Engine(i, call, answers(n), others(n), s0, before);
      assert Calling(i, answers, others, n + 1) == Calling(i, answers, others, n) + [Step(i, answers(n))] + others(n);
    }

    /** The container is there: start it, wait for it, read its logs. */
    method RunScript(i: nat, name: string, answers: nat -> Answer, others: nat -> seq<Event>, ghost s0: State,
                     ghost start: seq<Event>, ghost before: seq<Event>)
      returns (outcome: Outcome, ghost done: seq<Event>)
      requires Valid() && i < |jobs| && jobs[i].pc.Starting? && jobs[i].name == name && View() == Run(setup, s0, before)
      requires |jobs[i].calls| == 1 && before == start + Calling(i, answers, others, 1)
      requires forall n :: Elsewhere(others(n), i)
      modifies this
      ensures Valid() && View() == Run(setup, s0, done) && i < |jobs|
      ensures jobs[i] == old(jobs)[i].(pc := Deleting(outcome), calls := jobs[i].calls)
      ensures jobs[i].calls != [] && done == start + Calling(i, answers, others, |jobs[i].calls|)
    {
      var ok;
      ok, done := CallNext(i, 1, Start(name), answers, others, s0, start, before);
      if !ok {
        return Failure(answers(1)), done;
      }
      ok, done := CallNext(i, 2, Wait(name), answers, others, s0, start, done);
      if !ok {
        return Failure(answers(2)), done;
      }
      if answers(2).status != 0 {
        return Error(SCRIPT_FAILED), done;
      }
      ok, done := CallNext(i, 3, Logs(name), answers, others, s0, start, done);
      if !ok {
        return Failure(answers(3)), done;
      }
      outcome := Decode(answers(3).logs);
    }

    /** The calls between acquiring and releasing: the `try` block. */
    method Execute(i: nat, answers: nat -> Answer, others: nat -> seq<Event>, ghost s0: State, ghost before: seq<Event>)
      returns (outcome: Outcome, ghost done: seq<Event>)
      requires Valid() && i < |jobs| && jobs[i].pc.Creating? && View() == Run(setup, s0, before)
      requires forall n :: Elsewhere(others(n), i)
      modifies this
      ensures Valid() && View() == Run(setup, s0, done) && i < |jobs|
      ensures jobs[i] == old(jobs)[i].(pc := Deleting(outcome), calls := jobs[i].calls)
      ensures jobs[i].calls != [] && done == before + Calling(i, answers, others, |jobs[i].calls|)
    {
      var r, name := jobs[i].request, jobs[i].name;
      var ok;
      ok, done := CallNext(i, 0, Create(name, setup.bundles[r.key].image), answers, others, s0, before, before);
      if !ok {
        return Failure(answers(0)), done;
      }
      if answers(0).warnings {
        return Error(UNAVAILABLE), done;
      }
      outcome, done := RunScript(i, name, answers, others, s0, before, done);
    }

    /** The script's output out of the multiplexed log. */
    method Decode(logs: Bytes) returns (outcome: Outcome)
      ensures outcome == ReadLogs(setup, logs)
    {
      var chunks := Demultiplex(logs);
      if chunks.None? {
        return Error(UNAVAILABLE);
      }
      match setup.parse(chunks.value)
      case Value(text) => outcome := Result(text);
      case NotJson => outcome := Error(UNAVAILABLE);
      case TooDeep => outcome := Raised;
    }

    /** The two `finally` blocks: delete once, release in any case. */
    method CleanUp(i: nat, pending: Outcome, a: Answer, meanwhile: seq<Event>, ghost s0: State,
                   ghost before: seq<Event>)
      returns (outcome: Outcome, ghost done: seq<Event>)
      requires Valid() && i < |jobs| && jobs[i].pc == Deleting(pending) && View() == Run(setup, s0, before)
      requires Elsewhere(meanwhile, i)
      modifies this
      ensures Valid() && View() == Run(setup, s0, done) && i < |jobs|
      ensures jobs[i].pc == Finished(outcome) && outcome == if a.Good? then pending else Raised
      ensures |jobs[i].calls| == |old(jobs)[i].calls| + 1
      ensures done == before + [Step(i, a)] + meanwhile + [Step(i, Caught)]
      ensures jobs[i].request == old(jobs)[i].request && jobs[i].name == old(jobs)[i].name
    {
      var deleted;
      deleted, done := Engine(i, Delete(jobs[i].name), a, meanwhile, s0, before);
      outcome := if deleted then pending else Raised;
      done := Release(i, outcome, s0, done);
    }

    method Release(i: nat, outcome: Outcome, ghost s0: State, ghost before: seq<Event>) returns (ghost done: seq<Event>)
      requires Valid() && i < |jobs| && jobs[i].pc == Releasing(outcome) && View() == Run(setup, s0, before)
      modifies this
      ensures Valid() && View() == Run(setup, s0, done) && |jobs| == |old(jobs)| && slots == old(slots) + 1
      ensures done == before + [Step(i, Caught)]
      ensures jobs[i] == old(jobs)[i].(pc := Finished(outcome), released := old(jobs)[i].released + 1)
    {
      done := NextStep(i, Caught, s0, before);
      slots, jobs := slots + 1, jobs[i := jobs[i].(pc := Finished(outcome), released := jobs[i].released + 1)];
    }

    /** Everything done while the slot is held. */
    method WithSlot(i: nat, answers: nat -> Answer, others: nat -> seq<Event>, ghost s0: State,
                    ghost before: seq<Event>)
      returns (outcome: Outcome, ghost done: seq<Event>)
      requires Valid() && i < |jobs| && jobs[i].pc.Creating? && View() == Run(setup, s0, before)
      requires before == [Step(i, answers(0))] && forall n :: Elsewhere(others(n), i)
      modifies this
      ensures Valid() && View() == Run(setup, s0, done)
      ensures i < |jobs| && jobs[i].pc == Finished(outcome) && jobs[i].calls != []
      ensures done == Woven(i, answers, others, |jobs[i].calls| - 1)
      ensures jobs[i].request == old(jobs)[i].request && jobs[i].name == old(jobs)[i].name
    {
      var pending;
      pending, done := Execute(i, answers, others, s0, before);
      outcome, done := CleanUp(i, pending, answers(|jobs[i].calls|), others(4), s0, done);
    }

    /** `run` on one of the broker's threads, with any steps of the others between its own:
        it is a run of the machine in which this request finishes with the outcome returned.
        With no slot free it is turned away at once, and nothing is asked of the engine. */
    method Serve(i: nat, answers: nat -> Answer, others: nat -> seq<Event>)
      returns (outcome: Outcome, ghost done: seq<Event>)
      requires Valid() && i < |jobs| && jobs[i].pc.Asked? && forall n :: Elsewhere(others(n), i)
      modifies this
      ensures Valid() && View() == Run(setup, old(View()), done)
      ensures i < |jobs| && jobs[i].pc == Finished(outcome)
      ensures done == if jobs[i].calls == [] then [Step(i, answers(0))]
                      else Woven(i, answers, others, |jobs[i].calls| - 1)
      ensures jobs[i].request == old(jobs)[i].request && jobs[i].name == old(jobs)[i].name
      ensures Approved(setup, old(jobs)[i].request) ==>
                if old(slots) == 0 then outcome == Error(BUSY) && jobs[i].calls == [] else jobs[i].calls != []
    {
      ghost var s0 := View();
      var r := jobs[i].request;
      done := NextStep(i, answers(0), s0, []);
      outcome := Error(BUSY);
      if !r.shapeOk {
        outcome := Error(INVALID);
      } else if r.key !in setup.bundles || r.digest != setup.bundles[r.key].digest ||
        r.script !in setup.bundles[r.key].scripts {
        outcome := Error(NOT_ENABLED);
      } else if r.inputsSize.None? || r.inputsSize.value > MAX_INPUTS {
        outcome := Error(INVALID);
      } else if slots > 0 {
        slots, jobs := slots - 1, jobs[i := jobs[i].(pc := Creating, acquired := jobs[i].acquired + 1)];
        outcome, done := WithSlot(i, answers, others, s0, done);
        return;
      }
      jobs := jobs[i := jobs[i].(pc := Finished(outcome))];
    }
  }
}
